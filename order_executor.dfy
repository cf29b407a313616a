/**
 * order_executor.py: posting an order payload to a webhook URL with up to
 * five attempts, and the push notification sent after a delivered entry.
 *
 * The network is a `Gateway`: `replies` answers the POSTs in order (true
 * for a 2xx reply; once it runs out every POST fails), and `outbox`
 * records, in order, each POST with its body and outcome, each one-second
 * pause between attempts, each notification and each cancel request.
 */
module OrderExecutor {
  import opened Wrappers
  import opened Text

  /** A payload value: main.py puts strings and ints into payloads. */
  datatype Value = Str(text: string) | Int(number: int)

  type Payload = map<string, Value>

  /** `f"{v}"`. */
  function Render(v: Value): string {
    match v
    case Str(t) => t
    case Int(n) => IntText(n)
  }

  /** Python truthiness of a value. */
  predicate Truthy(v: Value) {
    match v
    case Str(t) => t != ""
    case Int(n) => n != 0
  }

  /** `payload.get(key, default)`. */
  function Get(payload: Payload, key: string, default: Value): Value {
    if key in payload then payload[key] else default
  }

  /**
   * The body `send_webhook` posts: a copy of the payload whose quantity is
   * the argument if one is given, else the payload's own, else
   * GLOBAL_QUANTITY. No other key changes.
   */
  function MergeQuantity(payload: Payload, quantity: Option<int>, globalQuantity: int): (body: Payload)
    ensures body.Keys == payload.Keys + {"quantity"}
    ensures forall k :: k in payload && k != "quantity" ==> body[k] == payload[k]
    ensures quantity.Some? ==> body["quantity"] == Int(quantity.value)
    ensures quantity.None? && "quantity" in payload ==> body["quantity"] == payload["quantity"]
    ensures quantity.None? && "quantity" !in payload ==> body["quantity"] == Int(globalQuantity)
  {
    if quantity.Some? then payload["quantity" := Int(quantity.value)]
    else if "quantity" !in payload then payload["quantity" := Int(globalQuantity)]
    else payload
  }

  /** The quantity the notification shows: the argument if given, else the body's. */
  function ShownQuantity(body: Payload, quantity: Option<int>): string {
    if quantity.Some? then IntText(quantity.value) else Render(Get(body, "quantity", Str("Unknown")))
  }

  /** The message text of `send_ntfy_notification`. */
  function NotificationText(body: Payload, quantity: Option<int>, operation: string): string {
    var ticker := Render(Get(body, "ticker", Str("Unknown")));
    var action := Render(Get(body, "action", Str("Unknown")));
    var price := Get(body, "price", Str(""));
    "Trade: " + ticker + " " + action + " " + ShownQuantity(body, quantity)
      + (if Truthy(price) then " @ " + Render(price) else "")
      + " (" + operation + ")"
  }

  /**
   * The notification reads "Trade: T A Q", then " @ P" exactly when the
   * price is truthy, then " (operation)".
   */
  lemma NotificationShape(body: Payload, quantity: Option<int>, operation: string)
    ensures var text := NotificationText(body, quantity, operation);
      var head := "Trade: " + Render(Get(body, "ticker", Str("Unknown"))) + " "
        + Render(Get(body, "action", Str("Unknown"))) + " " + ShownQuantity(body, quantity);
      var tail := " (" + operation + ")";
      && text[..|head|] == head
      && text[|text| - |tail|..] == tail
      && (Truthy(Get(body, "price", Str(""))) <==> |text| > |head| + |tail|)
  {
  }

  /** The quantity a notification shows is the quantity the posted body carries. */
  lemma NotifiedQuantityIsPosted(payload: Payload, quantity: Option<int>, globalQuantity: int)
    ensures var body := MergeQuantity(payload, quantity, globalQuantity);
      ShownQuantity(body, quantity) == Render(body["quantity"])
  {
  }

  /** Events the gateway records. */
  datatype Wire =
    | Post(url: string, body: Payload, delivered: bool)
    | Pause
    | Notify(message: string)
    | CancelRequest(ticker: string, url: string)

  datatype Net = Net(replies: seq<bool>, outbox: seq<Wire>)

  const MaxAttempts: nat := 5

  /** Whether the next POST succeeds. */
  predicate Answer(replies: seq<bool>) {
    |replies| > 0 && replies[0]
  }

  /** The replies left after one POST. */
  function Rest(replies: seq<bool>): seq<bool> {
    if |replies| > 0 then replies[1..] else []
  }

  /**
   * Attempts `attempt + 1` to 5 of the retry loop: post; on success send
   * the notice (if any) and stop; on failure pause before the next try,
   * except after the fifth.
   */
  function Deliver(net: Net, url: string, body: Payload, notice: Option<string>, attempt: nat): Net
    requires attempt < MaxAttempts
    decreases MaxAttempts - attempt
  {
    var ok := Answer(net.replies);
    var after := Net(Rest(net.replies), net.outbox + [Post(url, body, ok)]);
    if ok then
      if notice.Some? then after.(outbox := after.outbox + [Notify(notice.value)]) else after
    else if attempt < MaxAttempts - 1 then
      Deliver(after.(outbox := after.outbox + [Pause]), url, body, notice, attempt + 1)
    else after
  }

  /** `send_webhook`. An empty URL posts nothing. */
  function Send(net: Net, url: string, payload: Payload, quantity: Option<int>, operation: string,
                isEntry: bool, globalQuantity: int): Net
  {
    if url == "" then net
    else
      var body := MergeQuantity(payload, quantity, globalQuantity);
      Deliver(net, url, body, if isEntry then Some(NotificationText(body, quantity, operation)) else None, 0)
  }

  /** `send_webhook_to_multiple_urls` on a list: each URL in turn, independently. */
  function SendAll(net: Net, urls: seq<string>, payload: Payload, quantity: Option<int>, operation: string,
                   isEntry: bool, globalQuantity: int): Net
    decreases |urls|
  {
    if urls == [] then net
    else SendAll(Send(net, urls[0], payload, quantity, operation, isEntry, globalQuantity),
                 urls[1..], payload, quantity, operation, isEntry, globalQuantity)
  }

  /** The `urls` argument: one string, or a list. */
  datatype Urls = One(url: string) | Many(urls: seq<string>)

  function UrlList(urls: Urls): seq<string> {
    match urls
    case One(u) => [u]
    case Many(us) => us
  }

  // The delivery rule as an explicit trace.

  /** `n` failed attempts, each followed by its pause. */
  function FailedRounds(url: string, body: Payload, n: nat): seq<Wire> {
    if n == 0 then [] else [Post(url, body, false), Pause] + FailedRounds(url, body, n - 1)
  }

  /** How many of the next `limit` POSTs fail before the first success. */
  function LeadingFailures(replies: seq<bool>, limit: nat): (k: nat)
    ensures k <= limit
  {
    if limit == 0 || Answer(replies) then 0 else 1 + LeadingFailures(Rest(replies), limit - 1)
  }

  /** The replies left after `n` POSTs. */
  function Consumed(replies: seq<bool>, n: nat): seq<bool> {
    if n == 0 then replies else Consumed(Rest(replies), n - 1)
  }

  function NoticeEvents(notice: Option<string>): seq<Wire> {
    if notice.Some? then [Notify(notice.value)] else []
  }

  /**
   * From attempt `attempt` on, when one of the remaining attempts succeeds
   * after `k` failures: the outbox gains `k` failed rounds, the delivered
   * POST and the notice, and nothing after them.
   */
  lemma {:induction false} DeliverSucceeds(net: Net, url: string, body: Payload, notice: Option<string>, attempt: nat)
    requires attempt < MaxAttempts
    requires LeadingFailures(net.replies, MaxAttempts - attempt) < MaxAttempts - attempt
    ensures var k := LeadingFailures(net.replies, MaxAttempts - attempt);
      var r := Deliver(net, url, body, notice, attempt);
      && r.outbox == net.outbox + FailedRounds(url, body, k) + [Post(url, body, true)] + NoticeEvents(notice)
      && r.replies == Consumed(net.replies, k + 1)
    decreases MaxAttempts - attempt
  {
    var k := LeadingFailures(net.replies, MaxAttempts - attempt);
    var r := Deliver(net, url, body, notice, attempt);
    var post := Post(url, body, Answer(net.replies));
    if Answer(net.replies) {
      assert k == 0;
      assert FailedRounds(url, body, 0) == [];
      assert net.outbox + FailedRounds(url, body, k) == net.outbox;
      assert Consumed(net.replies, 1) == Rest(net.replies);
    } else {
      var next := Net(Rest(net.replies), net.outbox + [post, Pause]);
      assert net.outbox + [post] + [Pause] == net.outbox + [post, Pause];
      assert r == Deliver(next, url, body, notice, attempt + 1);
      assert k == 1 + LeadingFailures(next.replies, MaxAttempts - attempt - 1);
      DeliverSucceeds(next, url, body, notice, attempt + 1);
      assert FailedRounds(url, body, k) == [post, Pause] + FailedRounds(url, body, k - 1);
      assert Consumed(net.replies, k + 1) == Consumed(next.replies, k);
      assert next.outbox + FailedRounds(url, body, k - 1) == net.outbox + FailedRounds(url, body, k);
    }
  }

  /**
   * From attempt `attempt` on, when every remaining attempt fails: the
   * outbox gains each of them as a failed POST, with a pause between
   * consecutive ones, and no notice.
   */
  lemma {:induction false} DeliverFails(net: Net, url: string, body: Payload, notice: Option<string>, attempt: nat)
    requires attempt < MaxAttempts
    requires LeadingFailures(net.replies, MaxAttempts - attempt) == MaxAttempts - attempt
    ensures var left := MaxAttempts - attempt;
      var r := Deliver(net, url, body, notice, attempt);
      && r.outbox == net.outbox + FailedRounds(url, body, left - 1) + [Post(url, body, false)]
      && r.replies == Consumed(net.replies, left)
    decreases MaxAttempts - attempt
  {
    var left := MaxAttempts - attempt;
    var r := Deliver(net, url, body, notice, attempt);
    var post := Post(url, body, false);
    assert !Answer(net.replies);
    if attempt == MaxAttempts - 1 {
      assert FailedRounds(url, body, 0) == [];
      assert net.outbox + FailedRounds(url, body, 0) == net.outbox;
      assert Consumed(net.replies, 1) == Rest(net.replies);
    } else {
      var next := Net(Rest(net.replies), net.outbox + [post, Pause]);
      assert net.outbox + [post] + [Pause] == net.outbox + [post, Pause];
      assert r == Deliver(next, url, body, notice, attempt + 1);
      DeliverFails(next, url, body, notice, attempt + 1);
      assert FailedRounds(url, body, left - 1) == [post, Pause] + FailedRounds(url, body, left - 2);
      assert Consumed(net.replies, left) == Consumed(next.replies, left - 1);
      assert next.outbox + FailedRounds(url, body, left - 2) == net.outbox + FailedRounds(url, body, left - 1);
    }
  }

  /**
   * A delivery makes one to five POSTs and stops at the first success;
   * when all five fail, the outbox gains five failed POSTs and four pauses.
   */
  lemma DeliveryBounds(net: Net, url: string, body: Payload, notice: Option<string>)
    ensures var k := LeadingFailures(net.replies, MaxAttempts);
      var r := Deliver(net, url, body, notice, 0);
      && (k < MaxAttempts ==>
            && |r.outbox| == |net.outbox| + 2 * k + 1 + |NoticeEvents(notice)|
            && r.outbox[|net.outbox| + 2 * k] == Post(url, body, true)
            && forall i :: 0 <= i < k ==> r.outbox[|net.outbox| + 2 * i] == Post(url, body, false))
      && (k == MaxAttempts ==>
            && |r.outbox| == |net.outbox| + 9
            && (forall i :: 0 <= i < 5 ==> r.outbox[|net.outbox| + 2 * i] == Post(url, body, false))
            && (forall i :: 0 <= i < 4 ==> r.outbox[|net.outbox| + 2 * i + 1] == Pause)
            && r.replies == Consumed(net.replies, 5))
  {
    if LeadingFailures(net.replies, MaxAttempts) < MaxAttempts {
      DeliveredShape(net, url, body, notice);
    } else {
      ExhaustedShape(net, url, body, notice);
    }
  }

  lemma DeliveredShape(net: Net, url: string, body: Payload, notice: Option<string>)
    requires LeadingFailures(net.replies, MaxAttempts) < MaxAttempts
    ensures var k := LeadingFailures(net.replies, MaxAttempts);
      var r := Deliver(net, url, body, notice, 0);
      && |r.outbox| == |net.outbox| + 2 * k + 1 + |NoticeEvents(notice)|
      && r.outbox[|net.outbox| + 2 * k] == Post(url, body, true)
      && forall i :: 0 <= i < k ==> r.outbox[|net.outbox| + 2 * i] == Post(url, body, false)
  {
    var k := LeadingFailures(net.replies, MaxAttempts);
    var r := Deliver(net, url, body, notice, 0);
    var n := |net.outbox|;
    DeliverSucceeds(net, url, body, notice, 0);
    FailedRoundsShape(url, body, k);
    var f := FailedRounds(url, body, k);
    var tail := [Post(url, body, true)] + NoticeEvents(notice);
    assert r.outbox == net.outbox + f + tail;
    assert r.outbox[n + 2 * k] == tail[0];
    forall i | 0 <= i < k
      ensures r.outbox[n + 2 * i] == Post(url, body, false)
    {
      assert r.outbox[n + 2 * i] == f[2 * i];
    }
  }

  lemma ExhaustedShape(net: Net, url: string, body: Payload, notice: Option<string>)
    requires LeadingFailures(net.replies, MaxAttempts) == MaxAttempts
    ensures var r := Deliver(net, url, body, notice, 0);
      && |r.outbox| == |net.outbox| + 9
      && (forall i :: 0 <= i < 5 ==> r.outbox[|net.outbox| + 2 * i] == Post(url, body, false))
      && (forall i :: 0 <= i < 4 ==> r.outbox[|net.outbox| + 2 * i + 1] == Pause)
      && r.replies == Consumed(net.replies, 5)
  {
    var r := Deliver(net, url, body, notice, 0);
    var n := |net.outbox|;
    DeliverFails(net, url, body, notice, 0);
    FailedRoundsShape(url, body, 4);
    var f := FailedRounds(url, body, 4);
    assert r.outbox == net.outbox + f + [Post(url, body, false)];
    forall i | 0 <= i < 4
      ensures r.outbox[n + 2 * i] == Post(url, body, false) && r.outbox[n + 2 * i + 1] == Pause
    {
      assert r.outbox[n + 2 * i] == f[2 * i] && r.outbox[n + 2 * i + 1] == f[2 * i + 1];
    }
    assert r.outbox[n + 8] == Post(url, body, false);
  }

  lemma {:induction false} FailedRoundsShape(url: string, body: Payload, n: nat)
    ensures |FailedRounds(url, body, n)| == 2 * n
    ensures forall i :: 0 <= i < n ==> FailedRounds(url, body, n)[2 * i] == Post(url, body, false)
    ensures forall i :: 0 <= i < n ==> FailedRounds(url, body, n)[2 * i + 1] == Pause
  {
    if n > 0 {
      FailedRoundsShape(url, body, n - 1);
      var f := FailedRounds(url, body, n);
      forall i | 0 <= i < n
        ensures f[2 * i] == Post(url, body, false) && f[2 * i + 1] == Pause
      {
        if i > 0 {
          assert f[2 * i] == FailedRounds(url, body, n - 1)[2 * (i - 1)];
          assert f[2 * i + 1] == FailedRounds(url, body, n - 1)[2 * (i - 1) + 1];
        }
      }
    }
  }

  /** A notification follows exactly a delivered POST of an entry trade. */
  lemma NotifyOnlyOnDeliveredEntry(net: Net, url: string, payload: Payload, quantity: Option<int>,
                                   operation: string, isEntry: bool, globalQuantity: int)
    requires url != ""
    ensures var r := Send(net, url, payload, quantity, operation, isEntry, globalQuantity);
      var body := MergeQuantity(payload, quantity, globalQuantity);
      var delivered := LeadingFailures(net.replies, MaxAttempts) < MaxAttempts;
      && (delivered && isEntry <==> r.outbox[|r.outbox| - 1] == Notify(NotificationText(body, quantity, operation)))
      && (!(delivered && isEntry) ==> r.outbox[|r.outbox| - 1].Post?)
  {
    var body := MergeQuantity(payload, quantity, globalQuantity);
    var notice := if isEntry then Some(NotificationText(body, quantity, operation)) else None;
    if LeadingFailures(net.replies, MaxAttempts) < MaxAttempts {
      DeliverSucceeds(net, url, body, notice, 0);
    } else {
      DeliverFails(net, url, body, notice, 0);
    }
  }

  /** An empty URL sends nothing and consumes no reply. */
  lemma EmptyUrlSendsNothing(net: Net, payload: Payload, quantity: Option<int>, operation: string,
                             isEntry: bool, globalQuantity: int)
    ensures Send(net, "", payload, quantity, operation, isEntry, globalQuantity) == net
  {
  }

  /** Sending to `a + b` is sending to `a`, then to `b`. */
  lemma {:induction false} SendAllAppend(net: Net, a: seq<string>, b: seq<string>, payload: Payload,
                                         quantity: Option<int>, operation: string, isEntry: bool, globalQuantity: int)
    ensures SendAll(net, a + b, payload, quantity, operation, isEntry, globalQuantity)
      == SendAll(SendAll(net, a, payload, quantity, operation, isEntry, globalQuantity),
                 b, payload, quantity, operation, isEntry, globalQuantity)
    decreases |a|
  {
    if a == [] {
      assert a + b == b;
    } else {
      assert (a + b)[0] == a[0] && (a + b)[1..] == a[1..] + b;
      SendAllAppend(Send(net, a[0], payload, quantity, operation, isEntry, globalQuantity),
                    a[1..], b, payload, quantity, operation, isEntry, globalQuantity);
    }
  }

  /** The gateway's record only grows: a delivery appends at least its first POST. */
  lemma {:induction false} DeliverAppends(net: Net, url: string, body: Payload, notice: Option<string>, attempt: nat)
    requires attempt < MaxAttempts
    ensures net.outbox < Deliver(net, url, body, notice, attempt).outbox
    decreases MaxAttempts - attempt
  {
    var ok := Answer(net.replies);
    var after := Net(Rest(net.replies), net.outbox + [Post(url, body, ok)]);
    if !ok && attempt < MaxAttempts - 1 {
      var paused := after.(outbox := after.outbox + [Pause]);
      DeliverAppends(paused, url, body, notice, attempt + 1);
      assert net.outbox < paused.outbox;
    }
  }

  lemma {:induction false} SendAllAppends(net: Net, urls: seq<string>, payload: Payload, quantity: Option<int>,
                                          operation: string, isEntry: bool, globalQuantity: int)
    ensures net.outbox <= SendAll(net, urls, payload, quantity, operation, isEntry, globalQuantity).outbox
    ensures net.outbox <= Send(net, if urls == [] then "" else urls[0], payload, quantity, operation, isEntry, globalQuantity).outbox
    decreases |urls|
  {
    var first := if urls == [] then "" else urls[0];
    if first != "" {
      var body := MergeQuantity(payload, quantity, globalQuantity);
      DeliverAppends(net, first, body, if isEntry then Some(NotificationText(body, quantity, operation)) else None, 0);
    }
    if urls != [] {
      var next := Send(net, first, payload, quantity, operation, isEntry, globalQuantity);
      SendAllAppends(next, urls[1..], payload, quantity, operation, isEntry, globalQuantity);
    }
  }

  /** The one-element lists the gold and NQ handlers pass behave as `send_webhook` on that URL. */
  lemma SendToOneUrl(net: Net, url: string, payload: Payload, quantity: Option<int>, operation: string,
                     isEntry: bool, globalQuantity: int)
    ensures SendAll(net, [url], payload, quantity, operation, isEntry, globalQuantity)
      == Send(net, url, payload, quantity, operation, isEntry, globalQuantity)
  {
  }

  class Gateway {
    var replies: seq<bool>
    var outbox: seq<Wire>

    constructor(replies: seq<bool>)
      ensures this.replies == replies && outbox == []
    {
      this.replies := replies;
      outbox := [];
    }

    function State(): Net
      reads this
    {
      Net(replies, outbox)
    }

    /** `requests.post` followed by `raise_for_status`: true when the reply is 2xx. */
    method PostOnce(url: string, body: Payload) returns (ok: bool)
      modifies this
      ensures ok == Answer(old(replies))
      ensures replies == Rest(old(replies))
      ensures outbox == old(outbox) + [Post(url, body, ok)]
    {
      ok := |replies| > 0 && replies[0];
      replies := if |replies| > 0 then replies[1..] else [];
      outbox := outbox + [Post(url, body, ok)];
    }

    /** `send_webhook`. */
    method SendWebhook(payload: Payload, url: string, quantity: Option<int>, operation: string,
                       isEntry: bool, globalQuantity: int)
      modifies this
      ensures State() == Send(old(State()), url, payload, quantity, operation, isEntry, globalQuantity)
    {
      if url == "" {
        return;
      }
      var body := payload;
      if quantity.Some? {
        body := body["quantity" := Int(quantity.value)];
      } else if "quantity" !in body {
        body := body["quantity" := Int(globalQuantity)];
      }
      var notice := if isEntry then Some(NotificationText(body, quantity, operation)) else None;
      ghost var target := Deliver(State(), url, body, notice, 0);
      var attempt := 0;
      while attempt < MaxAttempts
        invariant attempt <= MaxAttempts
        invariant attempt < MaxAttempts ==> Deliver(State(), url, body, notice, attempt) == target
        invariant attempt == MaxAttempts ==> State() == target
        decreases MaxAttempts - attempt
      {
        var ok := PostOnce(url, body);
        if ok {
          if isEntry {
            outbox := outbox + [Notify(NotificationText(body, quantity, operation))];
          }
          break;
        }
        if attempt < MaxAttempts - 1 {
          outbox := outbox + [Pause];
        }
        attempt := attempt + 1;
      }
    }

    /** `send_webhook_to_multiple_urls`. */
    method SendWebhookToMultipleUrls(payload: Payload, urls: Urls, operation: string, quantity: Option<int>,
                                     isEntry: bool, globalQuantity: int)
      modifies this
      ensures State() == SendAll(old(State()), UrlList(urls), payload, quantity, operation, isEntry, globalQuantity)
    {
      var list := UrlList(urls);
      if list == [] {
        return;
      }
      var i := 0;
      while i < |list|
        invariant i <= |list|
        invariant SendAll(State(), list[i..], payload, quantity, operation, isEntry, globalQuantity)
          == SendAll(old(State()), list, payload, quantity, operation, isEntry, globalQuantity)
      {
        assert list[i..][0] == list[i] && list[i..][1..] == list[i + 1..];
        SendWebhook(payload, list[i], quantity, operation, isEntry, globalQuantity);
        i := i + 1;
      }
    }

    /** The cancel request the gold and NQ entries mean to send (see `Config.Wiring`). */
    method SendCancelWebhook(ticker: string, url: string)
      modifies this
      ensures replies == old(replies)
      ensures outbox == old(outbox) + [CancelRequest(ticker, url)]
    {
      outbox := outbox + [CancelRequest(ticker, url)];
    }
  }
}
