/**
 * message_parser.py: the content fingerprint of an alert, the set of
 * fingerprints already acted on, and one search function per alert
 * pattern.
 */
module MessageParser {
  import opened Wrappers
  import opened Host
  import opened Patterns
  import opened Text

  /** The string that is hashed: the five fields joined with '_'. */
  function MessageText(ticker: string, a: string, b: string, c: string, time: string): string {
    ticker + "_" + a + "_" + b + "_" + c + "_" + time
  }

  /**
   * `create_message_id`: the MD5 of the joined text, with each price
   * rendered as Python renders a float.
   */
  function CreateMessageId(host: Host, ticker: string, a: real, b: real, c: real, time: string): string {
    host.md5(MessageText(ticker, host.floatText(a), host.floatText(b), host.floatText(c), time))
  }

  /** Python's float rendering never writes '_'. */
  ghost predicate RendersWithoutUnderscore(host: Host) {
    forall x: real :: '_' !in host.floatText(x)
  }

  /** Two texts joined by '_' split back apart when the first has no '_'. */
  lemma UnderscoreSplit(x: string, y: string, x': string, y': string)
    requires '_' !in x && '_' !in x'
    requires x + "_" + y == x' + "_" + y'
    ensures x == x' && y == y'
  {
    var s := x + "_" + y;
    assert s[|x|] == '_';
    assert s == x' + "_" + y';
    assert s[|x'|] == '_';
    assert forall k :: 0 <= k < |x| ==> s[k] == x[k];
    assert forall k :: 0 <= k < |x'| ==> s[k] == x'[k];
    assert |x| == |x'|;
    assert x == s[..|x|] == x';
    assert y == s[|x| + 1..] == y';
  }

  /**
   * The joined text determines its five fields when none of the first four
   * holds '_' (the ticker is fixed, the prices are float renderings): ids
   * of different tuples can coincide only by an MD5 collision.
   */
  lemma MessageTextInjective(t: string, a: string, b: string, c: string, time: string,
                             t': string, a': string, b': string, c': string, time': string)
    requires '_' !in t && '_' !in a && '_' !in b && '_' !in c
    requires '_' !in t' && '_' !in a' && '_' !in b' && '_' !in c'
    ensures MessageText(t, a, b, c, time) == MessageText(t', a', b', c', time') <==>
      t == t' && a == a' && b == b' && c == c' && time == time'
  {
    if MessageText(t, a, b, c, time) == MessageText(t', a', b', c', time') {
      assert MessageText(t, a, b, c, time) == t + "_" + (a + "_" + (b + "_" + (c + "_" + time)));
      assert MessageText(t', a', b', c', time') == t' + "_" + (a' + "_" + (b' + "_" + (c' + "_" + time')));
      UnderscoreSplit(t, a + "_" + (b + "_" + (c + "_" + time)), t', a' + "_" + (b' + "_" + (c' + "_" + time')));
      UnderscoreSplit(a, b + "_" + (c + "_" + time), a', b' + "_" + (c' + "_" + time'));
      UnderscoreSplit(b, c + "_" + time, b', c' + "_" + time');
      UnderscoreSplit(c, time, c', time');
    }
  }

  /**
   * Ids of two fingerprints with the same ticker agree when the three
   * prices render alike and the times are equal; so the order of the
   * price fields matters only through their renderings.
   */
  lemma SameRenderingSameId(host: Host, ticker: string, a: real, b: real, c: real, time: string,
                            a': real, b': real, c': real)
    requires host.floatText(a) == host.floatText(a')
    requires host.floatText(b) == host.floatText(b')
    requires host.floatText(c) == host.floatText(c')
    ensures CreateMessageId(host, ticker, a, b, c, time) == CreateMessageId(host, ticker, a', b', c', time)
  {
  }

  /** `processed_messages`: the fingerprints acted on so far (message_parser.py:6). */
  class FingerprintLedger {
    var processed: set<string>

    constructor()
      ensures processed == {}
    {
      processed := {};
    }

    /** `is_message_processed`. */
    method IsMessageProcessed(id: string) returns (seen: bool)
      ensures seen <==> id in processed
    {
      seen := id in processed;
    }

    /** `mark_message_processed`: the set only grows, by exactly `id`. */
    method MarkMessageProcessed(id: string)
      modifies this
      ensures processed == old(processed) + {id}
    {
      processed := processed + {id};
    }
  }

  /**
   * A `parse_*` function: search `content` with one pattern. The result is
   * the leftmost match, and there is none exactly when the pattern matches
   * nowhere.
   */
  function Find(content: string, pattern: seq<Token>): (m: Option<Match>)
    ensures m.Some? <==> MatchesSomewhere(content, pattern)
    ensures m.Some? ==> IsLeftmost(content, pattern, m.value) && Conforms(pattern, m.value.groups)
  {
    SearchIsLeftmostMatch(content, pattern);
    Search(content, pattern)
  }

  /** `parse_trim_message`: numerator and denominator are digit strings. */
  function ParseTrimMessage(content: string): (m: Option<Match>)
    ensures m.Some? <==> MatchesSomewhere(content, Trim)
    ensures m.Some? ==> Conforms(Trim, m.value.groups)
    ensures m.Some? ==> |m.value.groups| == 2 && |m.value.groups[0]| > 0 && AllDigits(m.value.groups[0])
                        && |m.value.groups[1]| > 0 && AllDigits(m.value.groups[1])
  {
    var m := Find(content, Trim);
    if m.Some? then TrimFields(m.value.groups); m else m
  }

  /** `parse_stopped_message`: a match captures nothing. */
  function ParseStoppedMessage(content: string): (m: Option<Match>)
    ensures m.Some? <==> MatchesSomewhere(content, Stopped)
    ensures m.Some? ==> m.value.groups == []
  {
    Find(content, Stopped)
  }

  /** `parse_long_triggered_message`: six groups; the score is digits '/' digits. */
  function ParseLongTriggeredMessage(content: string): (m: Option<Match>)
    ensures m.Some? <==> MatchesSomewhere(content, LongTriggered)
    ensures m.Some? ==> Conforms(LongTriggered, m.value.groups)
    ensures m.Some? ==> |m.value.groups| == 6 && TickerAndTime(m.value.groups[0], m.value.groups[5])
                        && IsFraction(m.value.groups[3])
  {
    var m := Find(content, LongTriggered);
    if m.Some? then LongTriggeredFields(m.value.groups); m else m
  }

  /** `parse_target_hit_message`: seven groups; only the profit may be signed. */
  function ParseTargetHitMessage(content: string): (m: Option<Match>)
    ensures m.Some? <==> MatchesSomewhere(content, TargetHit)
    ensures m.Some? ==> Conforms(TargetHit, m.value.groups)
    ensures m.Some? ==> |m.value.groups| == 7 && TickerAndTime(m.value.groups[0], m.value.groups[6])
                        && Unsigned(m.value.groups[3]) && Unsigned(m.value.groups[4])
                        && SignedNumber(m.value.groups[5])
  {
    var m := Find(content, TargetHit);
    if m.Some? then TargetFields("Target 1", m.value.groups); m else m
  }

  /** `parse_target2_hit_message`: as for target 1. */
  function ParseTarget2HitMessage(content: string): (m: Option<Match>)
    ensures m.Some? <==> MatchesSomewhere(content, Target2Hit)
    ensures m.Some? ==> Conforms(Target2Hit, m.value.groups)
    ensures m.Some? ==> |m.value.groups| == 7 && TickerAndTime(m.value.groups[0], m.value.groups[6])
                        && Unsigned(m.value.groups[3]) && Unsigned(m.value.groups[4])
                        && SignedNumber(m.value.groups[5])
  {
    var m := Find(content, Target2Hit);
    if m.Some? then TargetFields("Target 2", m.value.groups); m else m
  }

  /** `parse_stop_loss_message`: seven groups; only the loss may be signed. */
  function ParseStopLossMessage(content: string): (m: Option<Match>)
    ensures m.Some? <==> MatchesSomewhere(content, StopLoss)
    ensures m.Some? ==> Conforms(StopLoss, m.value.groups)
    ensures m.Some? ==> |m.value.groups| == 7 && TickerAndTime(m.value.groups[0], m.value.groups[6])
                        && Unsigned(m.value.groups[3]) && Unsigned(m.value.groups[4])
                        && SignedNumber(m.value.groups[5])
  {
    var m := Find(content, StopLoss);
    if m.Some? then StopLossFields(m.value.groups); m else m
  }

  /** `parse_stop_loss_simple_message`: six groups, no time. */
  function ParseStopLossSimpleMessage(content: string): (m: Option<Match>)
    ensures m.Some? <==> MatchesSomewhere(content, StopLossSimple)
    ensures m.Some? ==> Conforms(StopLossSimple, m.value.groups)
    ensures m.Some? ==> |m.value.groups| == 6 && '*' !in m.value.groups[0]
                        && Unsigned(m.value.groups[3]) && Unsigned(m.value.groups[4])
                        && SignedNumber(m.value.groups[5])
  {
    var m := Find(content, StopLossSimple);
    if m.Some? then StopLossSimpleFields(m.value.groups); m else m
  }

  /** Whenever the full stop-loss parser finds an alert, the simple one does too. */
  lemma StopLossParsedBySimple(content: string)
    ensures ParseStopLossMessage(content).Some? ==> ParseStopLossSimpleMessage(content).Some?
  {
    StopLossImpliesSimple(content);
    SearchIsLeftmostMatch(content, StopLoss);
    SearchIsLeftmostMatch(content, StopLossSimple);
  }
}
