/**
 * The handlers and endpoints of main.py.
 *
 * Each handler is modelled by the effects it performs, in the order it
 * performs them: a `Plan`, computed from the state the handler finds and
 * its inputs. Effects are slot writes, fingerprint marks, webhook sends,
 * cancel requests and the gold trend assignment; `Apply` gives their
 * meaning on a `World`, and class `Server.Bot` carries them out on the slot
 * store, the ledger and the gateway. Reading the slots (`has_*`,
 * `get_*`) deletes an expired record; that deletion is an effect too.
 *
 * A plan also says how the handler ended: normally, with an exception its
 * own `try` caught (the steps after it are skipped), or with one raised
 * outside the `try` that escapes to the caller.
 */
module Lifecycle {
  import opened Wrappers
  import opened Text
  import opened Config
  import opened Host
  import opened Patterns
  import opened Orders
  import opened PositionTracker
  import opened OrderExecutor
  import opened MessageParser

  /** Settings, call-site wiring and library behaviour, fixed for a run. */
  datatype Env = Env(settings: Settings, wiring: Wiring, host: Host)

  /** Everything the handlers read or change. */
  datatype World = World(
    open: SlotState<OpenOrder>,
    gold: SlotState<InstrumentOrder>,
    nq: SlotState<InstrumentOrder>,
    seen: set<string>,
    net: Net,
    trend: Option<string>)

  /** The gold and NQ desks share their handlers' shape. */
  datatype Desk = GoldDesk | NqDesk

  datatype Side = Bullish | Bearish

  datatype Action =
    | SaveOpen(order: OpenOrder)
    | ClearOpen
    | SaveDesk(desk: Desk, record: InstrumentOrder)
    | ClearDesk(desk: Desk)
    | Mark(id: string)
    | Send(payload: Payload, url: string, quantity: Option<int>, operation: string, isEntry: bool)
    | SendMany(payload: Payload, urls: seq<string>, operation: string, isEntry: bool)
    | CancelOrders(ticker: string, url: string)
    | SetTrend(trend: string)

  datatype Outcome = Completed | Caught | Escaped

  datatype Plan = Plan(actions: seq<Action>, outcome: Outcome)

  function DeskSlot(w: World, desk: Desk): SlotState<InstrumentOrder> {
    if desk == GoldDesk then w.gold else w.nq
  }

  function DeskTicker(desk: Desk): string {
    if desk == GoldDesk then GoldTicker else NqTicker
  }

  function DeskQuantity(env: Env, desk: Desk): int {
    if desk == GoldDesk then env.settings.goldQuantity else env.settings.nqQuantity
  }

  function DeskUrl(env: Env, desk: Desk): string {
    if desk == GoldDesk then env.settings.goldWebhookUrl else env.settings.nqWebhookUrl
  }

  /** How the desk names itself in operation names. */
  function DeskName(desk: Desk): string {
    if desk == GoldDesk then "Gold" else "NQ"
  }

  function Apply(env: Env, w: World, a: Action, now: int): World {
    match a
    case SaveOpen(order) => w.(open := Stored(now, order))
    case ClearOpen => w.(open := Empty)
    case SaveDesk(desk, record) =>
      if desk == GoldDesk then w.(gold := Stored(now, record)) else w.(nq := Stored(now, record))
    case ClearDesk(desk) =>
      if desk == GoldDesk then w.(gold := Empty) else w.(nq := Empty)
    case Mark(id) => w.(seen := w.seen + {id})
    case Send(payload, url, quantity, operation, isEntry) =>
      w.(net := OrderExecutor.Send(w.net, url, payload, quantity, operation, isEntry, env.settings.globalQuantity))
    case SendMany(payload, urls, operation, isEntry) =>
      w.(net := SendAll(w.net, urls, payload, None, operation, isEntry, env.settings.globalQuantity))
    case CancelOrders(ticker, url) =>
      w.(net := w.net.(outbox := w.net.outbox + [CancelRequest(ticker, url)]))
    case SetTrend(trend) => w.(trend := Some(trend))
  }

  function ApplyAll(env: Env, w: World, actions: seq<Action>, now: int): World
    decreases |actions|
  {
    if actions == [] then w else ApplyAll(env, Apply(env, w, actions[0], now), actions[1..], now)
  }

  /** Carrying out `xs + ys` is carrying out `xs`, then `ys`. */
  lemma {:induction false} ApplyAllAppend(env: Env, w: World, xs: seq<Action>, ys: seq<Action>, now: int)
    ensures ApplyAll(env, w, xs + ys, now) == ApplyAll(env, ApplyAll(env, w, xs, now), ys, now)
    decreases |xs|
  {
    if xs == [] {
      assert xs + ys == ys;
    } else {
      assert (xs + ys)[0] == xs[0] && (xs + ys)[1..] == xs[1..] + ys;
      ApplyAllAppend(env, Apply(env, w, xs[0], now), xs[1..], ys, now);
    }
  }

  // Payloads.

  /** A market order for the primary instrument. */
  function MarketPayload(price: string, action: string): Payload {
    map["ticker" := Str(TickerSymbol), "price" := Str(price), "action" := Str(action), "orderType" := Str("market")]
  }

  /** A stop order for the primary instrument (its `time` key is not modelled). */
  function StopPayload(stopPrice: string): Payload {
    map["ticker" := Str(TickerSymbol), "action" := Str("sell"), "orderType" := Str("stop"),
        "stopPrice" := Str(stopPrice), "quantityType" := Str("fixed_quantity")]
  }

  /** A stop order for a desk, carrying its own quantity text. */
  function DeskStopPayload(desk: Desk, action: string, stopPrice: string, quantity: string): Payload {
    map["ticker" := Str(DeskTicker(desk)), "action" := Str(action), "orderType" := Str("stop"),
        "stopPrice" := Str(stopPrice), "quantityType" := Str("fixed_quantity"), "quantity" := Str(quantity)]
  }

  /** The `has_open_order` check: deletes an expired record. */
  function CheckOpen(w: World, now: int): seq<Action> {
    if w.open.Stored? && Expired(w.open.timestamp, now) then [ClearOpen] else []
  }

  function CheckDesk(w: World, desk: Desk, now: int): seq<Action> {
    var s := DeskSlot(w, desk);
    if s.Stored? && Expired(s.timestamp, now) then [ClearDesk(desk)] else []
  }

  /** Python truthiness of an optional string. */
  predicate Present(s: Option<string>) {
    s.Some? && s.value != ""
  }

  // Primary-instrument handlers.

  /** `handle_trim_message` (main.py:33-113). */
  function TrimPlan(env: Env, w: World, groups: seq<string>, now: int): Plan
    requires Conforms(Trim, groups)
  {
    if !Live(w.open, now) then Plan(CheckOpen(w, now), Completed)
    else
      TrimFields(groups);
      var n := DecimalValue(groups[0]);
      var d := DecimalValue(groups[1]);
      if d == 0 then Plan([], Escaped)
      else
        var order := w.open.info;
        var q := order.quantities;
        var personalClose := TruncDiv(q.personal * n, d);
        var webhookClose := TruncDiv(q.webhook * n, d);
        var url := env.settings.webhookUrl;
        var close := if webhookClose >= 1 then [Send(MarketPayload("", "sell"), url, Some(webhookClose), "Close webhook", false)] else [];
        if n >= d then Plan(close + [ClearOpen], Completed)
        else
          var rest := Quantities(q.personal - personalClose, q.webhook - webhookClose);
          var stop :=
            if n == 1 && d == 8 && rest.webhook >= 1 then
              [Send(StopPayload(env.host.floatText(order.price - 3.0)), url, Some(rest.webhook), "1/8 trim stop order webhook", false)]
            else [];
          Plan(close + [SaveOpen(order.(quantities := rest))] + stop, Completed)
  }

  /** `handle_stopped_message` (main.py:115-136). */
  function StoppedPlan(env: Env, w: World, now: int): Plan {
    var clear := if Live(w.open, now) then [ClearOpen] else CheckOpen(w, now);
    var exit := map["ticker" := Str(TickerSymbol), "action" := Str("exit"), "orderType" := Str("market")];
    Plan(clear + [Send(exit, env.settings.webhookUrl, Some(env.settings.globalQuantity), "Stopped webhook", false)], Completed)
  }

  /** The record an accepted long-triggered entry saves. */
  function LongOrder(env: Env, groups: seq<string>, level: real, price: real, score: nat, source: string): OpenOrder
    requires |groups| == 6
  {
    OpenOrder("buy", "long", TickerSymbol, DecimalValue(groups[1]), level, groups[3], price, groups[5], 1, source,
              Quantities(Min(15, Max(5, score * 2)), env.settings.globalQuantity), ["SIMULATED_ORDER_RESULT"])
  }

  /** `handle_long_triggered_message` (main.py:138-224). */
  function LongTriggeredPlan(env: Env, w: World, groups: seq<string>, source: string, now: int): Plan
    requires Conforms(LongTriggered, groups)
  {
    if Live(w.open, now) then Plan([], Completed)
    else
      LongTriggeredFields(groups);
      var check := CheckOpen(w, now);
      var level := env.host.parseFloat(groups[2]);
      var price := env.host.parseFloat(groups[4]);
      if level.None? || price.None? then Plan(check, Escaped)
      else
        var parts := Split(groups[3], '/');
        if |parts| != 2 then Plan(check, Completed)
        else
          var score := DecimalValue(parts[0]);
          if score < 5 then Plan(check, Completed)
          else
            var g := env.settings.globalQuantity;
            var saved := check + [SaveOpen(LongOrder(env, groups, level.value, price.value, score, source))];
            if g <= 0 then Plan(saved, Completed)
            else if !env.wiring.acceptsContext then Plan(saved, Caught)
            else
              var entry := MarketPayload(env.host.floatText(price.value), "buy");
              Plan(saved + [Send(entry, env.settings.webhookUrl, Some(g), "Long Triggered webhook", true)], Completed)
  }

  /** The fingerprint of a target or stop-loss alert. */
  function Fingerprint(env: Env, a: real, b: real, c: real, time: string): string {
    CreateMessageId(env.host, TickerSymbol, a, b, c, time)
  }

  /**
   * Parse the level and three prices of a target or stop-loss alert
   * (`float()` outside the handler's `try`).
   */
  function ParsePrices(env: Env, groups: seq<string>): Option<(real, real, real)>
    requires |groups| >= 6
  {
    var level := env.host.parseFloat(groups[2]);
    var a := env.host.parseFloat(groups[3]);
    var b := env.host.parseFloat(groups[4]);
    var c := env.host.parseFloat(groups[5]);
    if level.None? || a.None? || b.None? || c.None? then None else Some((a.value, b.value, c.value))
  }

  /** The guards shared by the target and stop-loss handlers, after the slot check. */
  predicate Acts(w: World, id: string, source: string)
    requires w.open.Stored?
  {
    id !in w.seen && w.open.info.source == source
  }

  /** `handle_target_hit_message` (main.py:226-317): close half, stop the rest at entry - 3. */
  function TargetHitPlan(env: Env, w: World, groups: seq<string>, source: string, now: int): Plan
    requires Conforms(TargetHit, groups)
  {
    if !Live(w.open, now) then Plan(CheckOpen(w, now), Completed)
    else
      TargetFields("Target 1", groups);
      match ParsePrices(env, groups)
      case None => Plan([], Escaped)
      case Some((target, entry, profit)) =>
        var id := Fingerprint(env, target, entry, profit, groups[6]);
        if !Acts(w, id, source) then Plan([], Completed)
        else
          var order := w.open.info;
          var total := order.quantities.webhook;
          var close := TruncDiv(total, 2);
          var rest := total - close;
          var url := env.settings.webhookUrl;
          var closing :=
            if close >= 1 then [Send(MarketPayload(env.host.floatText(target), "sell"), url, Some(close), "Target hit close webhook", false)]
            else [];
          var keep :=
            if rest >= 1 then
              [Send(StopPayload(env.host.floatText(entry - 3.0)), url, Some(rest), "Target hit stop order webhook", false),
               SaveOpen(order.(quantities := Quantities(order.quantities.personal, rest)))]
            else [ClearOpen];
          Plan(closing + keep + [Mark(id)], Completed)
  }

  /** The close of target 2 and both stop-loss forms: exit everything, clear, mark. */
  function FullExitPlan(env: Env, w: World, id: string, source: string, price: string, operation: string): Plan
    requires w.open.Stored?
  {
    if !Acts(w, id, source) then Plan([], Completed)
    else
      var q := w.open.info.quantities.webhook;
      var exit := if q > 0 then [Send(MarketPayload(price, "exit"), env.settings.webhookUrl, Some(q), operation, false)] else [];
      Plan(exit + [ClearOpen, Mark(id)], Completed)
  }

  /** `handle_target2_hit_message` (main.py:319-375). */
  function Target2HitPlan(env: Env, w: World, groups: seq<string>, source: string, now: int): Plan
    requires Conforms(Target2Hit, groups)
  {
    if !Live(w.open, now) then Plan(CheckOpen(w, now), Completed)
    else
      TargetFields("Target 2", groups);
      match ParsePrices(env, groups)
      case None => Plan([], Escaped)
      case Some((target, entry, profit)) =>
        FullExitPlan(env, w, Fingerprint(env, target, entry, profit, groups[6]), source,
                     env.host.floatText(target), "Target 2 close webhook")
  }

  /** `handle_stop_loss_message` (main.py:377-434): the id lists exit, entry, loss, time. */
  function StopLossPlan(env: Env, w: World, groups: seq<string>, source: string, now: int): Plan
    requires Conforms(StopLoss, groups)
  {
    if !Live(w.open, now) then Plan(CheckOpen(w, now), Completed)
    else
      StopLossFields(groups);
      match ParsePrices(env, groups)
      case None => Plan([], Escaped)
      case Some((entry, exit, loss)) =>
        FullExitPlan(env, w, Fingerprint(env, exit, entry, loss, groups[6]), source,
                     env.host.floatText(exit), "Stop loss close webhook")
  }

  /**
   * `handle_stop_loss_simple_message` (main.py:436-492): the alert has no
   * time, so the fingerprint uses the current time as text, `nowText`.
   */
  function StopLossSimplePlan(env: Env, w: World, groups: seq<string>, source: string, now: int, nowText: string): Plan
    requires Conforms(StopLossSimple, groups)
  {
    if !Live(w.open, now) then Plan(CheckOpen(w, now), Completed)
    else
      StopLossSimpleFields(groups);
      match ParsePrices(env, groups)
      case None => Plan([], Escaped)
      case Some((entry, exit, loss)) =>
        FullExitPlan(env, w, Fingerprint(env, exit, entry, loss, nowText), source,
                     env.host.floatText(exit), "Stop loss close webhook")
  }

  // Gold and NQ handlers.

  /** `is_gold_trend_aligned` (main.py:494-503). */
  predicate IsGoldTrendAligned(action: string, trend: Option<string>) {
    trend.None?
    || (action == "buy" && AsciiLower(trend.value) == "bullish")
    || (action == "sell" && AsciiLower(trend.value) == "bearish")
  }

  function SideAction(side: Side): string {
    if side == Bullish then "buy" else "sell"
  }

  function Opposite(side: Side): string {
    if side == Bullish then "sell" else "buy"
  }

  function SideName(side: Side): string {
    if side == Bullish then "bullish" else "bearish"
  }

  /** The record an entry saves: gold bullish keeps neither optional key, NQ keeps the stop only. */
  function EntryRecord(desk: Desk, side: Side, price: string, quantity: int, target50: Option<string>, stop: Option<string>): InstrumentOrder {
    var stopField := if stop.Some? then Text(stop.value) else Null;
    var targetField := if target50.Some? then Text(target50.value) else Null;
    if desk == NqDesk then InstrumentOrder(SideAction(side), NqTicker, price, quantity, Absent, stopField)
    else if side == Bullish then InstrumentOrder("buy", GoldTicker, price, quantity, Absent, Absent)
    else InstrumentOrder("sell", GoldTicker, price, quantity, targetField, stopField)
  }

  /**
   * `handle_gold_bullish_entry`, `handle_gold_bearish_entry`,
   * `handle_nq_bullish_entry` and `handle_nq_bearish_entry`
   * (main.py:505-589, 591-673, 750-809, 811-870). The NQ handlers take no
   * target. Inside the `try`: the cancel request, the entry, the gold
   * target, the stop at 7 points against the entry, then the save.
   */
  function EntryPlan(env: Env, w: World, desk: Desk, side: Side, price: string, target50: Option<string>, now: int): Plan {
    if Live(DeskSlot(w, desk), now) then Plan([], Completed)
    else
      var check := CheckDesk(w, desk, now);
      if !env.wiring.hasCancel then Plan(check, Caught)
      else
        var cancelled := check + [CancelOrders(DeskTicker(desk), DeskUrl(env, desk))];
        if !env.wiring.acceptsContext then Plan(cancelled, Caught)
        else
          var orders := EntryOrders(env, desk, side, price, target50);
          Plan(cancelled + orders.actions, orders.outcome)
  }

  /** Where an entry's stop goes: 7 points against the position. */
  function StopLevel(side: Side, price: real): real {
    if side == Bullish then price - 7.0 else price + 7.0
  }

  /** The market entry order, sent as an entry trade so that a delivery is notified. */
  function DeskEntrySend(env: Env, desk: Desk, side: Side, price: string): Action {
    var entry := map["ticker" := Str(DeskTicker(desk)), "action" := Str(SideAction(side)), "price" := Str(price),
                     "quantity" := Str(IntText(DeskQuantity(env, desk))), "orderType" := Str("market")];
    SendMany(entry, [DeskUrl(env, desk)], DeskName(desk) + " " + SideName(side) + " entry webhook", true)
  }

  /** Gold's limit order at the 50% target, on the side opposite the entry. */
  function GoldTarget(env: Env, side: Side, target: string): Action {
    SendMany(map["ticker" := Str(DeskTicker(GoldDesk)), "action" := Str(Opposite(side)), "price" := Str(target),
                 "orderType" := Str("limit"), "quantity" := Str(IntText(DeskQuantity(env, GoldDesk)))],
             [DeskUrl(env, GoldDesk)], if side == Bullish then "Gold target webhook" else "Gold target_50 webhook", false)
  }

  /** The rest of an entry's `try` once the cancel request is made: entry, gold target, stop, save. */
  function EntryOrders(env: Env, desk: Desk, side: Side, price: string, target50: Option<string>): Plan {
    var url := DeskUrl(env, desk);
    var quantity := DeskQuantity(env, desk);
    var entered := [DeskEntrySend(env, desk, side, price)];
    var parsed := env.host.parseFloat(price);
    var hasTarget := desk == GoldDesk && Present(target50);
    // The gold handlers compute an unused default target from float(price) when no target is given.
    if desk == GoldDesk && !hasTarget && parsed.None? then Plan(entered, Caught)
    else
      var targets := if hasTarget then [GoldTarget(env, side, target50.value)] else [];
      if price != "" && parsed.None? then Plan(entered + targets, Caught)
      else
        var stop: Option<string> := if price == "" then None else Some(env.host.floatText(StopLevel(side, parsed.value)));
        var stops :=
          if stop.Some? then
            [SendMany(DeskStopPayload(desk, Opposite(side), stop.value, IntText(quantity)), [url],
                      DeskName(desk) + " stop webhook", false)]
          else [];
        var given := if desk == GoldDesk then target50 else None;
        Plan(entered + targets + stops + [SaveDesk(desk, EntryRecord(desk, side, price, quantity, given, stop))], Completed)
  }

  /**
   * `handle_gold_50_percent_target` and `handle_nq_50_percent_target`
   * (main.py:675-729, 872-926): close the target quantity; what remains is
   * the configured quantity minus it, whatever the record holds.
   */
  function HalfTargetPlan(env: Env, w: World, desk: Desk, quantity: Option<string>, now: int): Plan {
    var slot := DeskSlot(w, desk);
    if !Live(slot, now) then Plan(CheckDesk(w, desk, now), Completed)
    else
      var order := slot.info;
      var url := DeskUrl(env, desk);
      var configured := DeskQuantity(env, desk);
      var opposite := if order.action == "buy" then "sell" else "buy";
      var targetQuantity := if Present(quantity) then quantity.value else IntText(TruncDiv(configured, 2));
      var hit := [SendMany(map["ticker" := Str(DeskTicker(desk)), "action" := Str(opposite), "quantity" := Str(targetQuantity)],
                           [url], DeskName(desk) + " 50% target hit webhook", false)];
      match ParseInt(targetQuantity)
      case None => Plan(hit, Caught)
      case Some(t) =>
        var remaining := configured - t;
        if remaining <= 0 then Plan(hit + [ClearDesk(desk)], Completed)
        else
          var saved := hit + [SaveDesk(desk, order.(quantity := remaining))];
          match env.host.parseFloat(order.price)
          case None => Plan(saved, Caught)
          case Some(entry) =>
            Plan(saved + [SendMany(DeskStopPayload(desk, opposite, env.host.floatText(entry), IntText(remaining)), [url],
                               DeskName(desk) + " 50% target stop order webhook", false)], Completed)
  }

  /** `handle_gold_exit` and `handle_nq_exit` (main.py:731-748, 928-945): exit and clear, whatever the slot holds. */
  function ExitPlan(env: Env, desk: Desk): Plan {
    var exit := map["ticker" := Str(DeskTicker(desk)), "action" := Str("exit"), "cancel" := Str("true")];
    Plan([SendMany(exit, [DeskUrl(env, desk)], DeskName(desk) + " exit webhook", false), ClearDesk(desk)], Completed)
  }

  // Endpoints.

  datatype Status = Success | Error | Info

  /** The response body's status and message (the timestamp is not modelled). */
  datatype Reply = Reply(status: Status, message: string)

  datatype Handled = Handled(actions: seq<Action>, reply: Reply)

  /** An exception the endpoint's own `try` catches (its text is not modelled). */
  const Failure: Reply := Reply(Error, "Error processing webhook")

  /** POST /gold-trend (main.py:947-987). */
  function GoldTrendEndpoint(trend: Option<string>): Handled {
    if !Present(trend) then Handled([], Reply(Error, "Trend is required"))
    else
      var lower := AsciiLower(trend.value);
      if lower != "bearish" && lower != "bullish" then
        Handled([], Reply(Error, "Invalid trend value: " + trend.value + ". Must be 'bearish' or 'bullish'"))
      else Handled([SetTrend(lower)], Reply(Success, "Gold trend set to " + lower))
  }

  /** The two entry actions and exit of POST /gold and POST /nq. */
  function DeskEndpoint(env: Env, w: World, desk: Desk, action: Option<string>, price: Option<string>,
                        target50: Option<string>, now: int): Handled
  {
    var name := DeskName(desk);
    if !Present(action) then Handled([], Reply(Error, "Action is required"))
    else if action.value == "bullish_entry" || action.value == "bearish_entry" then
      var side := if action.value == "bullish_entry" then Bullish else Bearish;
      if !Present(price) then Handled([], Reply(Error, "Price is required for " + action.value + " action"))
      else
        var plan := EntryPlan(env, w, desk, side, price.value, target50, now);
        if desk == GoldDesk && plan.outcome == Caught then
          Handled(plan.actions, Reply(Success, name + " " + SideName(side) + " entry skipped due to trend mismatch"))
        else Handled(plan.actions, Reply(Success, name + " " + SideName(side) + " entry processed successfully"))
    else if action.value == "exit" then
      Handled(ExitPlan(env, desk).actions, Reply(Success, name + " exit processed successfully"))
    else
      Handled([], Reply(Error, "Unknown action: " + action.value + ". Supported actions: bullish_entry, bearish_entry, exit"))
  }

  /** POST /gold (main.py:989-1069). */
  function GoldEndpoint(env: Env, w: World, action: Option<string>, price: Option<string>, target50: Option<string>, now: int): Handled {
    DeskEndpoint(env, w, GoldDesk, action, price, target50, now)
  }

  /** POST /nq (main.py:1071-1137): the NQ handlers take no target. */
  function NqEndpoint(env: Env, w: World, action: Option<string>, price: Option<string>, now: int): Handled {
    DeskEndpoint(env, w, NqDesk, action, price, None, now)
  }

  /** Which handler POST /fbd hands an embed description to. */
  datatype Kind = TargetOne | TargetTwo | StopLossHit | LongTrigger | Unmatched

  /** The first pattern that matches, in the endpoint's order. */
  function Classify(content: string): Kind {
    if ParseTargetHitMessage(content).Some? then TargetOne
    else if ParseTarget2HitMessage(content).Some? then TargetTwo
    else if ParseStopLossMessage(content).Some? then StopLossHit
    else if ParseLongTriggeredMessage(content).Some? then LongTrigger
    else Unmatched
  }

  /** A handler's effects, and the endpoint's reply: `Failure` when the handler raised. */
  function Respond(plan: Plan, message: string): Handled {
    if plan.outcome == Escaped then Handled(plan.actions, Failure) else Handled(plan.actions, Reply(Success, message))
  }

  /**
   * POST /fbd (main.py:1139-1210). `embeds` holds each embed's
   * description ("" where it has none).
   */
  function FbdEndpoint(env: Env, w: World, embeds: seq<string>, now: int): Handled {
    if |embeds| == 0 then Handled([], Reply(Error, "No embeds found in payload"))
    else if embeds[0] == "" then Handled([], Reply(Error, "No description found in embed"))
    else
      var content := embeds[0];
      match Classify(content)
      case TargetOne =>
        Respond(TargetHitPlan(env, w, ParseTargetHitMessage(content).value.groups, "fbd_endpoint", now),
                "Target 1 Hit message processed successfully")
      case TargetTwo =>
        Respond(Target2HitPlan(env, w, ParseTarget2HitMessage(content).value.groups, "fbd_endpoint", now),
                "Target 2 Hit message processed successfully")
      case StopLossHit =>
        Respond(StopLossPlan(env, w, ParseStopLossMessage(content).value.groups, "fbd_endpoint", now),
                "Stop Loss Hit message processed successfully")
      case LongTrigger =>
        Respond(LongTriggeredPlan(env, w, ParseLongTriggeredMessage(content).value.groups, "fbd_endpoint", now),
                "Long Triggered message processed successfully")
      case Unmatched =>
        Handled([], Reply(Info, "No Long Triggered, Target 1, Target 2, or Stop Loss pattern matched"))
  }
}
