/**
 * The alert patterns of config.py, as a small matcher for the fragment of
 * regular expressions they use.
 *
 * Every field-labelled pattern is a sequence of literal labels, captured
 * runs of one character class, and line breaks `\s*\n`. In each of them a
 * greedy run is followed by a literal whose first character is outside the
 * run's class, and each `\s*\n` is followed by a label that starts with a
 * letter. Under those conditions backtracking never changes the outcome:
 * at a given start position the expression either fails or matches with
 * every run maximal. `MatchFrom` computes exactly that, and `Search` tries
 * the start positions from left to right as `re.search` does.
 */
module Patterns {
  import opened Wrappers
  import opened Text

  /**
   * Whether text character `c` matches pattern character `p` under
   * IGNORECASE: the same letter in either ASCII case, and the four
   * non-ASCII letters Python folds onto ASCII ones (dotted and dotless I,
   * long S, Kelvin sign).
   */
  predicate FoldsTo(c: char, p: char) {
    var q := LowerChar(p);
    LowerChar(c) == q
    || (q == 'i' && (c == '\U{130}' || c == '\U{131}'))
    || (q == 's' && c == '\U{17F}')
    || (q == 'k' && c == '\U{212A}')
  }

  /** The character classes of the patterns. */
  datatype CharClass =
    | Digits        // \d
    | DigitsOrDots  // [\d.]
    | NotStar       // [^*]
    | TimeText      // [\d\s:-]
    | Spaces        // \s

  predicate InClass(c: char, k: CharClass) {
    match k
    case Digits => IsDigit(c)
    case DigitsOrDots => IsDigit(c) || c == '.'
    case NotStar => c != '*'
    case TimeText => IsDigit(c) || IsSpace(c) || c == ':' || c == '-'
    case Spaces => IsSpace(c)
  }

  /** One element of a pattern. */
  datatype Token =
    | Lit(text: string)     // literal text, compared case-insensitively
    | Gap                   // \s*\n : a line break, possibly with other blanks
    | Run(cls: CharClass)   // (c+) : a captured maximal run
    | Signed                // ([+-]?[\d.]+) : a captured signed number
    | Fraction              // (\d+/\d+) : a captured score

  /** Whether the token captures a group. */
  predicate Captures(t: Token) {
    t.Run? || t.Signed? || t.Fraction?
  }

  /** The capturing tokens of a pattern, in group order. */
  function Capturing(ts: seq<Token>): (cs: seq<Token>)
    ensures forall k :: 0 <= k < |cs| ==> Captures(cs[k])
  {
    if ts == [] then []
    else (if Captures(ts[0]) then [ts[0]] else []) + Capturing(ts[1..])
  }

  predicate AllIn(g: string, k: CharClass) {
    forall p :: 0 <= p < |g| ==> InClass(g[p], k)
  }

  /** `g` is digits, one '/', digits, with both sides non-empty. */
  predicate IsFraction(g: string) {
    exists j :: 0 < j < |g| - 1 && g[j] == '/' && AllIn(g[..j], Digits) && AllIn(g[j + 1..], Digits)
  }

  /** The language of a capturing token: what its group can hold. */
  predicate Fits(t: Token, g: string) {
    match t
    case Run(k) => |g| > 0 && AllIn(g, k)
    case Signed =>
      var body := if |g| > 0 && (g[0] == '+' || g[0] == '-') then g[1..] else g;
      |body| > 0 && AllIn(body, DigitsOrDots)
    case Fraction => IsFraction(g)
    case _ => false
  }

  /** The groups of a match conform to the pattern's capturing tokens. */
  predicate Conforms(ts: seq<Token>, groups: seq<string>) {
    var cs := Capturing(ts);
    |groups| == |cs| && forall k :: 0 <= k < |groups| ==> Fits(cs[k], groups[k])
  }

  /** Where the maximal run of class `k` starting at `i` ends. */
  function RunEnd(s: string, i: nat, k: CharClass): (j: nat)
    requires i <= |s|
    ensures i <= j <= |s|
    ensures forall p :: i <= p < j ==> InClass(s[p], k)
    ensures j == |s| || !InClass(s[j], k)
    decreases |s| - i
  {
    if i < |s| && InClass(s[i], k) then RunEnd(s, i + 1, k) else i
  }

  /** A run ends at the first position outside its class. */
  lemma {:induction false} RunEndUnique(s: string, i: nat, k: CharClass, j: nat)
    requires i <= j <= |s|
    requires forall p :: i <= p < j ==> InClass(s[p], k)
    requires j == |s| || !InClass(s[j], k)
    ensures RunEnd(s, i, k) == j
    decreases j - i
  {
    if i < j {
      RunEndUnique(s, i + 1, k, j);
    }
  }

  /** Whether the literal `t` occurs at position `i`, ignoring case. */
  predicate LitAt(s: string, i: nat, t: string) {
    i + |t| <= |s| && forall p :: 0 <= p < |t| ==> FoldsTo(s[i + p], t[p])
  }

  /** The groups captured so far and the position reached. */
  datatype Step = Step(groups: seq<string>, end: nat)

  /** Match one token at position `i`. */
  function Advance(s: string, i: nat, t: Token): (r: Option<Step>)
    requires i <= |s|
    ensures r.Some? ==> i <= r.value.end <= |s|
  {
    match t
    case Lit(text) =>
      if LitAt(s, i, text) then Some(Step([], i + |text|)) else None
    case Gap =>
      var j := RunEnd(s, i, Spaces);
      if j > i && s[j - 1] == '\n' then Some(Step([], j)) else None
    case Run(k) =>
      var j := RunEnd(s, i, k);
      if j > i then Some(Step([s[i..j]], j)) else None
    case Signed =>
      var k := if i < |s| && (s[i] == '+' || s[i] == '-') then i + 1 else i;
      var j := RunEnd(s, k, DigitsOrDots);
      if j > k then Some(Step([s[i..j]], j)) else None
    case Fraction =>
      var j := RunEnd(s, i, Digits);
      if j > i && j < |s| && s[j] == '/' then
        var l := RunEnd(s, j + 1, Digits);
        if l > j + 1 then Some(Step([s[i..l]], l)) else None
      else None
  }

  /** Match a whole token sequence starting exactly at position `i`. */
  function MatchFrom(s: string, i: nat, ts: seq<Token>): (r: Option<Step>)
    requires i <= |s|
    ensures r.Some? ==> i <= r.value.end <= |s|
    decreases |ts|
  {
    if ts == [] then Some(Step([], i))
    else
      match Advance(s, i, ts[0])
      case None => None
      case Some(first) =>
        match MatchFrom(s, first.end, ts[1..])
        case None => None
        case Some(rest) => Some(Step(first.groups + rest.groups, rest.end))
  }

  /** A successful search: where the match starts and ends, and its groups. */
  datatype Match = Match(start: nat, end: nat, groups: seq<string>)

  function SearchFrom(s: string, i: nat, ts: seq<Token>): Option<Match>
    requires i <= |s|
    decreases |s| - i
  {
    match MatchFrom(s, i, ts)
    case Some(st) => Some(Match(i, st.end, st.groups))
    case None => if i == |s| then None else SearchFrom(s, i + 1, ts)
  }

  /** `pattern.search(s)`: the leftmost position where the pattern matches. */
  function Search(s: string, ts: seq<Token>): Option<Match> {
    SearchFrom(s, 0, ts)
  }

  // The patterns of config.py:40-71, line by line.

  /** TRIM_PATTERN, config.py:40-42. */
  const Trim: seq<Token> := [Lit("#alert trim "), Run(Digits), Lit("/"), Run(Digits)]

  /** STOPPED_PATTERN, config.py:44-46. */
  const Stopped: seq<Token> := [Lit("#alert stopped")]

  /** The three lines every field-labelled alert starts with. */
  const TickerLine: seq<Token> := [Lit("Ticker: **"), Run(NotStar), Lit("**"), Gap]
  const IntervalLine: seq<Token> := [Lit("Interval: **"), Run(Digits), Lit("**"), Gap]
  const LevelLine: seq<Token> := [Lit("Level: **"), Run(DigitsOrDots), Lit("**"), Gap]
  const Header: seq<Token> := TickerLine + IntervalLine + LevelLine

  /** The closing `Time: **...**` line. */
  const TimeLine: seq<Token> := [Lit("Time: **"), Run(TimeText), Lit("**")]

  /** LONG_TRIGGERED_PATTERN, config.py:48-51. */
  const LongTriggered: seq<Token> :=
    Header
    + [Lit("Score: **"), Fraction, Lit("**"), Gap]
    + [Lit("Price: **"), Run(DigitsOrDots), Lit("**"), Gap]
    + TimeLine

  /** The lines after the header of a target alert, `name` naming the target. */
  function TargetBody(name: string): seq<Token> {
    [Lit(name + ": **"), Run(DigitsOrDots), Lit("**"), Gap]
    + [Lit("Entry: **"), Run(DigitsOrDots), Lit("**"), Gap]
    + [Lit("Profit: **"), Signed, Lit(" pts**"), Gap]
    + TimeLine
  }

  /** TARGET_HIT_PATTERN, config.py:53-56. */
  const TargetHit: seq<Token> := Header + TargetBody("Target 1")

  /** TARGET2_HIT_PATTERN, config.py:58-61. */
  const Target2Hit: seq<Token> := Header + TargetBody("Target 2")

  /** The entry, exit and loss lines of a stop-loss alert. */
  const ExitLines: seq<Token> :=
    [Lit("Entry: **"), Run(DigitsOrDots), Lit("**"), Gap]
    + [Lit("Exit: **"), Run(DigitsOrDots), Lit("**"), Gap]
    + [Lit("Loss: **"), Signed, Lit(" pts**")]

  /** STOP_LOSS_SIMPLE_PATTERN, config.py:68-71. */
  const StopLossSimple: seq<Token> := Header + ExitLines

  /** STOP_LOSS_PATTERN, config.py:63-66. */
  const StopLoss: seq<Token> := [Lit("Stop Loss Hit"), Gap] + Header + ExitLines + [Gap] + TimeLine

  // Properties of the matcher.

  lemma {:induction false} CapturingConcat(a: seq<Token>, b: seq<Token>)
    ensures Capturing(a + b) == Capturing(a) + Capturing(b)
    decreases |a|
  {
    if a == [] {
      assert a + b == b;
    } else {
      assert (a + b)[0] == a[0] && (a + b)[1..] == a[1..] + b;
      CapturingConcat(a[1..], b);
    }
  }

  /** The group one token captures fits that token. */
  lemma AdvanceConforms(s: string, i: nat, t: Token)
    requires i <= |s| && Advance(s, i, t).Some?
    ensures Conforms([t], Advance(s, i, t).value.groups)
  {
    assert [t][1..] == [];
    match t
    case Fraction =>
      FractionFits(s, i);
      assert Capturing([t]) == [t];
    case Run(k) =>
      RunFits(s, i, k);
      assert Capturing([t]) == [t];
    case Signed =>
      SignedFits(s, i);
      assert Capturing([t]) == [t];
    case Lit(_) =>
      assert Capturing([t]) == [];
    case Gap =>
      assert Capturing([t]) == [];
  }

  lemma FractionFits(s: string, i: nat)
    requires i <= |s| && Advance(s, i, Fraction).Some?
    ensures var gs := Advance(s, i, Fraction).value.groups;
            |gs| == 1 && IsFraction(gs[0])
  {
    var j := RunEnd(s, i, Digits);
    var l := RunEnd(s, j + 1, Digits);
    var g := s[i..l];
    assert g[..j - i] == s[i..j] && g[j - i + 1..] == s[j + 1..l];
    assert g[j - i] == '/';
    assert AllIn(g[..j - i], Digits) && AllIn(g[j - i + 1..], Digits);
  }

  lemma RunFits(s: string, i: nat, k: CharClass)
    requires i <= |s| && Advance(s, i, Run(k)).Some?
    ensures var gs := Advance(s, i, Run(k)).value.groups;
            |gs| == 1 && Fits(Run(k), gs[0])
  {
    var j := RunEnd(s, i, k);
    assert AllIn(s[i..j], k);
  }

  lemma SignedFits(s: string, i: nat)
    requires i <= |s| && Advance(s, i, Signed).Some?
    ensures var gs := Advance(s, i, Signed).value.groups;
            |gs| == 1 && Fits(Signed, gs[0])
  {
    var k := if i < |s| && (s[i] == '+' || s[i] == '-') then i + 1 else i;
    var j := RunEnd(s, k, DigitsOrDots);
    var g := s[i..j];
    assert (if |g| > 0 && (g[0] == '+' || g[0] == '-') then g[1..] else g) == s[k..j];
    assert AllIn(s[k..j], DigitsOrDots);
  }

  /** Every group of a match fits its capturing token, and there is one group per such token. */
  lemma {:induction false} MatchConforms(s: string, i: nat, ts: seq<Token>)
    requires i <= |s| && MatchFrom(s, i, ts).Some?
    ensures Conforms(ts, MatchFrom(s, i, ts).value.groups)
    decreases |ts|
  {
    if ts != [] {
      var first := Advance(s, i, ts[0]).value;
      AdvanceConforms(s, i, ts[0]);
      MatchConforms(s, first.end, ts[1..]);
      assert ts == [ts[0]] + ts[1..];
      CapturingConcat([ts[0]], ts[1..]);
    }
  }

  /** What `SearchFrom` finds is a match, and no match starts between `i` and it. */
  lemma {:induction false} SearchFromSound(s: string, i: nat, ts: seq<Token>)
    requires i <= |s| && SearchFrom(s, i, ts).Some?
    ensures var m := SearchFrom(s, i, ts).value;
      && i <= m.start <= |s|
      && MatchFrom(s, m.start, ts) == Some(Step(m.groups, m.end))
      && forall p :: i <= p < m.start ==> MatchFrom(s, p, ts).None?
    decreases |s| - i
  {
    var here := MatchFrom(s, i, ts);
    if here.None? {
      assert i < |s|;
      assert SearchFrom(s, i, ts) == SearchFrom(s, i + 1, ts);
      SearchFromSound(s, i + 1, ts);
      var m := SearchFrom(s, i, ts).value;
      forall p | i <= p < m.start ensures MatchFrom(s, p, ts).None? {
        if p == i { assert here.None?; }
      }
    } else {
      assert SearchFrom(s, i, ts) == Some(Match(i, here.value.end, here.value.groups));
    }
  }

  /** If a match starts at some position from `i` on, `SearchFrom` finds one. */
  lemma {:induction false} SearchFromComplete(s: string, i: nat, p: nat, ts: seq<Token>)
    requires i <= p <= |s| && MatchFrom(s, p, ts).Some?
    ensures SearchFrom(s, i, ts).Some?
    decreases p - i
  {
    if MatchFrom(s, i, ts).None? {
      SearchFromComplete(s, i + 1, p, ts);
    }
  }

  /** The pattern matches starting at some position of `s`. */
  predicate MatchesSomewhere(s: string, ts: seq<Token>) {
    exists p :: 0 <= p <= |s| && MatchFrom(s, p, ts).Some?
  }

  /** `m` is a match of `ts` in `s`, and no match starts further left. */
  predicate IsLeftmost(s: string, ts: seq<Token>, m: Match) {
    && m.start <= |s|
    && MatchFrom(s, m.start, ts) == Some(Step(m.groups, m.end))
    && forall p :: 0 <= p < m.start ==> MatchFrom(s, p, ts).None?
  }

  /** `Search` is the leftmost match, and its groups conform to the pattern. */
  lemma SearchIsLeftmostMatch(s: string, ts: seq<Token>)
    ensures Search(s, ts).Some? <==> MatchesSomewhere(s, ts)
    ensures Search(s, ts).Some? ==> IsLeftmost(s, ts, Search(s, ts).value) && Conforms(ts, Search(s, ts).value.groups)
  {
    if Search(s, ts).Some? {
      SearchFromSound(s, 0, ts);
      MatchConforms(s, Search(s, ts).value.start, ts);
    }
    if MatchesSomewhere(s, ts) {
      var p :| 0 <= p <= |s| && MatchFrom(s, p, ts).Some?;
      SearchFromComplete(s, 0, p, ts);
    }
  }

  /** A match of a concatenation starts with a match of each part, in turn. */
  lemma {:induction false} MatchSplits(s: string, i: nat, a: seq<Token>, b: seq<Token>)
    requires i <= |s| && MatchFrom(s, i, a + b).Some?
    ensures MatchFrom(s, i, a).Some?
    ensures MatchFrom(s, MatchFrom(s, i, a).value.end, b).Some?
    decreases |a|
  {
    if a == [] {
      assert a + b == b;
    } else {
      assert (a + b)[0] == a[0] && (a + b)[1..] == a[1..] + b;
      var first := Advance(s, i, a[0]).value;
      MatchSplits(s, first.end, a[1..], b);
    }
  }

  /** The detailed stop-loss alert is the simple one with a marker line before it and a time line after it. */
  lemma StopLossExtendsSimple()
    ensures StopLoss == [Lit("Stop Loss Hit"), Gap] + StopLossSimple + ([Gap] + TimeLine)
  {
  }

  /** Every text that STOP_LOSS_PATTERN finds, STOP_LOSS_SIMPLE_PATTERN finds too. */
  lemma StopLossImpliesSimple(s: string)
    ensures Search(s, StopLoss).Some? ==> Search(s, StopLossSimple).Some?
  {
    SearchIsLeftmostMatch(s, StopLoss);
    if Search(s, StopLoss).Some? {
      var i := Search(s, StopLoss).value.start;
      var pre: seq<Token> := [Lit("Stop Loss Hit"), Gap];
      StopLossExtendsSimple();
      assert StopLoss == (pre + StopLossSimple) + ([Gap] + TimeLine);
      MatchSplits(s, i, pre + StopLossSimple, [Gap] + TimeLine);
      MatchSplits(s, i, pre, StopLossSimple);
      var j := MatchFrom(s, i, pre).value.end;
      SearchIsLeftmostMatch(s, StopLossSimple);
      assert MatchFrom(s, j, StopLossSimple).Some?;
    }
  }

  // The groups of each pattern.

  lemma HeaderGroups()
    ensures Capturing(Header) == [Run(NotStar), Run(Digits), Run(DigitsOrDots)]
  {
    CapturingConcat(TickerLine, IntervalLine);
    CapturingConcat(TickerLine + IntervalLine, LevelLine);
  }

  lemma TimeLineGroups()
    ensures Capturing(TimeLine) == [Run(TimeText)]
  {
  }

  lemma TrimGroups()
    ensures Capturing(Trim) == [Run(Digits), Run(Digits)]
  {
  }

  lemma LongTriggeredGroups()
    ensures Capturing(LongTriggered)
         == [Run(NotStar), Run(Digits), Run(DigitsOrDots), Fraction, Run(DigitsOrDots), Run(TimeText)]
  {
    var score: seq<Token> := [Lit("Score: **"), Fraction, Lit("**"), Gap];
    var price: seq<Token> := [Lit("Price: **"), Run(DigitsOrDots), Lit("**"), Gap];
    HeaderGroups();
    TimeLineGroups();
    CapturingConcat(Header, score);
    CapturingConcat(Header + score, price);
    CapturingConcat(Header + score + price, TimeLine);
  }

  lemma TargetBodyGroups(name: string)
    ensures Capturing(TargetBody(name)) == [Run(DigitsOrDots), Run(DigitsOrDots), Signed, Run(TimeText)]
  {
    var target: seq<Token> := [Lit(name + ": **"), Run(DigitsOrDots), Lit("**"), Gap];
    var entry: seq<Token> := [Lit("Entry: **"), Run(DigitsOrDots), Lit("**"), Gap];
    var profit: seq<Token> := [Lit("Profit: **"), Signed, Lit(" pts**"), Gap];
    TimeLineGroups();
    CapturingConcat(target, entry);
    CapturingConcat(target + entry, profit);
    CapturingConcat(target + entry + profit, TimeLine);
  }

  lemma TargetHitGroups(name: string)
    ensures Capturing(Header + TargetBody(name))
         == [Run(NotStar), Run(Digits), Run(DigitsOrDots), Run(DigitsOrDots), Run(DigitsOrDots), Signed, Run(TimeText)]
  {
    HeaderGroups();
    TargetBodyGroups(name);
    CapturingConcat(Header, TargetBody(name));
  }

  lemma ExitLinesGroups()
    ensures Capturing(ExitLines) == [Run(DigitsOrDots), Run(DigitsOrDots), Signed]
  {
    var entry: seq<Token> := [Lit("Entry: **"), Run(DigitsOrDots), Lit("**"), Gap];
    var exit: seq<Token> := [Lit("Exit: **"), Run(DigitsOrDots), Lit("**"), Gap];
    var loss: seq<Token> := [Lit("Loss: **"), Signed, Lit(" pts**")];
    CapturingConcat(entry, exit);
    CapturingConcat(entry + exit, loss);
  }

  lemma StopLossSimpleGroups()
    ensures Capturing(StopLossSimple)
         == [Run(NotStar), Run(Digits), Run(DigitsOrDots), Run(DigitsOrDots), Run(DigitsOrDots), Signed]
  {
    HeaderGroups();
    ExitLinesGroups();
    CapturingConcat(Header, ExitLines);
  }

  lemma StopLossGroups()
    ensures Capturing(StopLoss)
         == [Run(NotStar), Run(Digits), Run(DigitsOrDots), Run(DigitsOrDots), Run(DigitsOrDots), Signed, Run(TimeText)]
  {
    var pre: seq<Token> := [Lit("Stop Loss Hit"), Gap];
    StopLossExtendsSimple();
    StopLossSimpleGroups();
    TimeLineGroups();
    CapturingConcat(pre, StopLossSimple);
    CapturingConcat(pre + StopLossSimple, [Gap] + TimeLine);
    CapturingConcat([Gap], TimeLine);
  }

  // What the groups of each pattern can hold.

  /** A number group without a sign: digits and dots only. */
  predicate Unsigned(g: string) {
    |g| > 0 && AllIn(g, DigitsOrDots)
  }

  /** A number group that may start with '+' or '-'. */
  predicate SignedNumber(g: string) {
    Fits(Signed, g)
  }

  /** The ticker group never holds '*', and the time group only digits, blanks, ':' and '-'. */
  predicate TickerAndTime(ticker: string, time: string) {
    |ticker| > 0 && '*' !in ticker && |time| > 0 && AllIn(time, TimeText)
  }

  lemma TrimFields(g: seq<string>)
    requires Conforms(Trim, g)
    ensures |g| == 2 && |g[0]| > 0 && AllDigits(g[0]) && |g[1]| > 0 && AllDigits(g[1])
  {
    TrimGroups();
    assert Fits(Run(Digits), g[0]) && Fits(Run(Digits), g[1]);
  }

  lemma LongTriggeredFields(g: seq<string>)
    requires Conforms(LongTriggered, g)
    ensures |g| == 6
    ensures TickerAndTime(g[0], g[5])
    ensures |g[1]| > 0 && AllDigits(g[1]) && Unsigned(g[2]) && IsFraction(g[3]) && Unsigned(g[4])
  {
    LongTriggeredGroups();
    assert Fits(Run(NotStar), g[0]) && Fits(Run(TimeText), g[5]) && Fits(Run(Digits), g[1]);
    assert Fits(Run(DigitsOrDots), g[2]) && Fits(Fraction, g[3]) && Fits(Run(DigitsOrDots), g[4]);
    assert '*' !in g[0] by {
      forall p | 0 <= p < |g[0]| ensures g[0][p] != '*' {
        assert InClass(g[0][p], NotStar);
      }
    }
  }

  /** Groups of TARGET_HIT_PATTERN and TARGET2_HIT_PATTERN: only the profit may be signed. */
  lemma TargetFields(name: string, g: seq<string>)
    requires Conforms(Header + TargetBody(name), g)
    ensures |g| == 7
    ensures TickerAndTime(g[0], g[6])
    ensures |g[1]| > 0 && AllDigits(g[1]) && Unsigned(g[2]) && Unsigned(g[3]) && Unsigned(g[4])
    ensures SignedNumber(g[5])
  {
    TargetHitGroups(name);
    assert Fits(Run(NotStar), g[0]) && Fits(Run(TimeText), g[6]) && Fits(Run(Digits), g[1]);
    assert Fits(Run(DigitsOrDots), g[2]) && Fits(Run(DigitsOrDots), g[3]) && Fits(Run(DigitsOrDots), g[4]);
    assert Fits(Signed, g[5]);
    assert '*' !in g[0] by {
      forall p | 0 <= p < |g[0]| ensures g[0][p] != '*' {
        assert InClass(g[0][p], NotStar);
      }
    }
  }

  /** Groups of STOP_LOSS_PATTERN: only the loss may be signed. */
  lemma StopLossFields(g: seq<string>)
    requires Conforms(StopLoss, g)
    ensures |g| == 7
    ensures TickerAndTime(g[0], g[6])
    ensures |g[1]| > 0 && AllDigits(g[1]) && Unsigned(g[2]) && Unsigned(g[3]) && Unsigned(g[4])
    ensures SignedNumber(g[5])
  {
    StopLossGroups();
    assert Fits(Run(NotStar), g[0]) && Fits(Run(TimeText), g[6]) && Fits(Run(Digits), g[1]);
    assert Fits(Run(DigitsOrDots), g[2]) && Fits(Run(DigitsOrDots), g[3]) && Fits(Run(DigitsOrDots), g[4]);
    assert Fits(Signed, g[5]);
    assert '*' !in g[0] by {
      forall p | 0 <= p < |g[0]| ensures g[0][p] != '*' {
        assert InClass(g[0][p], NotStar);
      }
    }
  }

  /** Groups of STOP_LOSS_SIMPLE_PATTERN: no time group, and only the loss may be signed. */
  lemma StopLossSimpleFields(g: seq<string>)
    requires Conforms(StopLossSimple, g)
    ensures |g| == 6
    ensures |g[0]| > 0 && '*' !in g[0]
    ensures |g[1]| > 0 && AllDigits(g[1]) && Unsigned(g[2]) && Unsigned(g[3]) && Unsigned(g[4])
    ensures SignedNumber(g[5])
  {
    StopLossSimpleGroups();
    assert Fits(Run(NotStar), g[0]) && Fits(Run(Digits), g[1]);
    assert Fits(Run(DigitsOrDots), g[2]) && Fits(Run(DigitsOrDots), g[3]) && Fits(Run(DigitsOrDots), g[4]);
    assert Fits(Signed, g[5]);
    assert '*' !in g[0] by {
      forall p | 0 <= p < |g[0]| ensures g[0][p] != '*' {
        assert InClass(g[0][p], NotStar);
      }
    }
  }

  /** A score group splits at '/' into exactly two digit strings (the split of main.py:157-158). */
  lemma ScoreSplitsInTwo(g: string)
    requires IsFraction(g)
    ensures |Split(g, '/')| == 2
    ensures |Split(g, '/')[0]| > 0 && AllDigits(Split(g, '/')[0])
    ensures |Split(g, '/')[1]| > 0 && AllDigits(Split(g, '/')[1])
  {
    var j :| 0 < j < |g| - 1 && g[j] == '/' && AllIn(g[..j], Digits) && AllIn(g[j + 1..], Digits);
    var a, b := g[..j], g[j + 1..];
    assert g == a + ['/'] + b;
    assert '/' !in a by {
      forall p | 0 <= p < |a| ensures a[p] != '/' { assert InClass(a[p], Digits); }
    }
    assert '/' !in b by {
      forall p | 0 <= p < |b| ensures b[p] != '/' { assert InClass(b[p], Digits); }
    }
    SplitAtSingleSeparator(a, b, '/');
  }

  /** TARGET_HIT_PATTERN and TARGET2_HIT_PATTERN differ in the target label and nowhere else. */
  lemma TargetPatternsDifferOnlyInLabel()
    ensures |TargetHit| == |Target2Hit|
    ensures forall k :: 0 <= k < |TargetHit| && k != |Header| ==> TargetHit[k] == Target2Hit[k]
    ensures TargetHit[|Header|] == Lit("Target 1: **") && Target2Hit[|Header|] == Lit("Target 2: **")
  {
  }

  /** After "#alert trim " at `i`: digits up to a '/' at `j`, and a digit right after it. */
  predicate TrimTailAt(s: string, i: nat, j: nat) {
    i + 12 < j < |s| - 1 && s[j] == '/' && IsDigit(s[j + 1]) && forall p :: i + 12 <= p < j ==> IsDigit(s[p])
  }

  /**
   * TRIM_PATTERN matches at `i` exactly when "#alert trim " (in any case)
   * starts there, followed by digits, a '/', and at least one more digit.
   */
  lemma TrimMatchesAt(s: string, i: nat)
    requires i <= |s|
    ensures MatchFrom(s, i, Trim).Some? <==>
      LitAt(s, i, "#alert trim ") && exists j :: TrimTailAt(s, i, j)
  {
    var a := i + 12;
    if LitAt(s, i, "#alert trim ") {
      var j := RunEnd(s, a, Digits);
      assert Advance(s, i, Lit("#alert trim ")) == Some(Step([], a));
      if MatchFrom(s, i, Trim).Some? {
        assert Trim[1..][0] == Run(Digits) && Trim[1..][1..][0] == Lit("/");
        assert Trim[1..][1..][1..][0] == Run(Digits);
        assert MatchFrom(s, a, Trim[1..]).Some?;
        assert j > a;
        assert MatchFrom(s, j, Trim[1..][1..]).Some?;
        assert LitAt(s, j, "/");
        assert FoldsTo(s[j + 0], "/"[0]);
        assert s[j] == '/';
        assert MatchFrom(s, j + 1, Trim[1..][1..][1..]).Some?;
        assert RunEnd(s, j + 1, Digits) > j + 1;
        assert TrimTailAt(s, i, j);
      }
      if exists j' :: TrimTailAt(s, i, j') {
        var j': nat :| TrimTailAt(s, i, j');
        RunEndUnique(s, a, Digits, j');
        var l := RunEnd(s, j + 1, Digits);
        assert l > j + 1;
        assert Advance(s, a, Run(Digits)) == Some(Step([s[a..j]], j));
        assert Advance(s, j, Lit("/")) == Some(Step([], j + 1));
        assert Advance(s, j + 1, Run(Digits)) == Some(Step([s[j + 1..l]], l));
        assert Trim[1..][1..][1..][1..] == [];
      }
    }
  }
}
