/**
 * What the handlers of main.py promise, stated on the world they leave
 * behind: which slot an alert may change, when an entry is accepted and
 * what it records, how much each exit closes and what it keeps, and when
 * a fingerprint is marked.
 */
module LifecycleProperties {
  import opened Wrappers
  import opened Text
  import opened Config
  import opened Patterns
  import opened Orders
  import opened PositionTracker
  import opened OrderExecutor
  import opened MessageParser
  import opened Lifecycle

  /** The state a plan leaves behind. */
  function After(env: Env, w: World, plan: Plan, now: int): World {
    ApplyAll(env, w, plan.actions, now)
  }

  // Which state each handler may touch.

  /** An effect on the primary instrument: its slot, the fingerprint ledger or its webhook. */
  predicate OnPrimary(a: Action) {
    a.SaveOpen? || a.ClearOpen? || a.Mark? || a.Send?
  }

  /** An effect of one desk: its own slot, a cancel request or a multi-URL send. */
  predicate OnDesk(desk: Desk, a: Action) {
    ((a.SaveDesk? || a.ClearDesk?) && a.desk == desk) || a.SendMany? || a.CancelOrders?
  }

  function OtherDesk(desk: Desk): Desk {
    if desk == GoldDesk then NqDesk else GoldDesk
  }

  lemma {:induction false} PrimaryEffectsKeepDesks(env: Env, w: World, actions: seq<Action>, now: int)
    requires forall a | a in actions :: OnPrimary(a)
    ensures var w' := ApplyAll(env, w, actions, now);
            w'.gold == w.gold && w'.nq == w.nq && w'.trend == w.trend
    decreases |actions|
  {
    if actions != [] {
      assert actions[0] in actions;
      PrimaryEffectsKeepDesks(env, Apply(env, w, actions[0], now), actions[1..], now);
    }
  }

  lemma {:induction false} DeskEffectsKeepOthers(env: Env, w: World, desk: Desk, actions: seq<Action>, now: int)
    requires forall a | a in actions :: OnDesk(desk, a)
    ensures var w' := ApplyAll(env, w, actions, now);
            w'.open == w.open && w'.seen == w.seen && w'.trend == w.trend
            && DeskSlot(w', OtherDesk(desk)) == DeskSlot(w, OtherDesk(desk))
    decreases |actions|
  {
    if actions != [] {
      assert actions[0] in actions;
      DeskEffectsKeepOthers(env, Apply(env, w, actions[0], now), desk, actions[1..], now);
    }
  }

  /** An alert about the primary instrument, as its handler receives it. */
  datatype Alert =
    | TrimAlert(groups: seq<string>)
    | StoppedAlert
    | LongAlert(groups: seq<string>, source: string)
    | Target1Alert(groups: seq<string>, source: string)
    | Target2Alert(groups: seq<string>, source: string)
    | StopLossAlert(groups: seq<string>, source: string)
    | StopLossSimpleAlert(groups: seq<string>, source: string, nowText: string)

  /** The groups come from a match of the alert's own pattern. */
  predicate Matched(alert: Alert) {
    match alert
    case TrimAlert(g) => Conforms(Trim, g)
    case StoppedAlert => true
    case LongAlert(g, _) => Conforms(LongTriggered, g)
    case Target1Alert(g, _) => Conforms(TargetHit, g)
    case Target2Alert(g, _) => Conforms(Target2Hit, g)
    case StopLossAlert(g, _) => Conforms(StopLoss, g)
    case StopLossSimpleAlert(g, _, _) => Conforms(StopLossSimple, g)
  }

  function AlertPlan(env: Env, w: World, alert: Alert, now: int): Plan
    requires Matched(alert)
  {
    match alert
    case TrimAlert(g) => TrimPlan(env, w, g, now)
    case StoppedAlert => StoppedPlan(env, w, now)
    case LongAlert(g, source) => LongTriggeredPlan(env, w, g, source, now)
    case Target1Alert(g, source) => TargetHitPlan(env, w, g, source, now)
    case Target2Alert(g, source) => Target2HitPlan(env, w, g, source, now)
    case StopLossAlert(g, source) => StopLossPlan(env, w, g, source, now)
    case StopLossSimpleAlert(g, source, nowText) => StopLossSimplePlan(env, w, g, source, now, nowText)
  }

  /** No handler of the primary instrument touches the gold or NQ slot or the gold trend. */
  lemma PrimaryHandlersKeepDesks(env: Env, w: World, alert: Alert, now: int)
    requires Matched(alert)
    ensures var w' := After(env, w, AlertPlan(env, w, alert, now), now);
            w'.gold == w.gold && w'.nq == w.nq && w'.trend == w.trend
  {
    var plan := AlertPlan(env, w, alert, now);
    match alert {
      case TrimAlert(g) => TrimOnPrimary(env, w, g, now);
      case StoppedAlert =>
      case LongAlert(g, source) => LongOnPrimary(env, w, g, source, now);
      case Target1Alert(g, source) => TargetHitOnPrimary(env, w, g, source, now);
      case Target2Alert(g, source) => Target2OnPrimary(env, w, g, source, now);
      case StopLossAlert(g, source) => StopLossOnPrimary(env, w, g, source, now);
      case StopLossSimpleAlert(g, source, nowText) => StopLossSimpleOnPrimary(env, w, g, source, now, nowText);
    }
    PrimaryEffectsKeepDesks(env, w, plan.actions, now);
  }

  lemma TrimOnPrimary(env: Env, w: World, groups: seq<string>, now: int)
    requires Conforms(Trim, groups)
    ensures forall a | a in TrimPlan(env, w, groups, now).actions :: OnPrimary(a)
  {
  }

  lemma LongOnPrimary(env: Env, w: World, groups: seq<string>, source: string, now: int)
    requires Conforms(LongTriggered, groups)
    ensures forall a | a in LongTriggeredPlan(env, w, groups, source, now).actions :: OnPrimary(a)
  {
  }

  lemma TargetHitOnPrimary(env: Env, w: World, groups: seq<string>, source: string, now: int)
    requires Conforms(TargetHit, groups)
    ensures forall a | a in TargetHitPlan(env, w, groups, source, now).actions :: OnPrimary(a)
  {
  }

  lemma Target2OnPrimary(env: Env, w: World, groups: seq<string>, source: string, now: int)
    requires Conforms(Target2Hit, groups)
    ensures forall a | a in Target2HitPlan(env, w, groups, source, now).actions :: OnPrimary(a)
  {
  }

  lemma StopLossOnPrimary(env: Env, w: World, groups: seq<string>, source: string, now: int)
    requires Conforms(StopLoss, groups)
    ensures forall a | a in StopLossPlan(env, w, groups, source, now).actions :: OnPrimary(a)
  {
  }

  lemma StopLossSimpleOnPrimary(env: Env, w: World, groups: seq<string>, source: string, now: int, nowText: string)
    requires Conforms(StopLossSimple, groups)
    ensures forall a | a in StopLossSimplePlan(env, w, groups, source, now, nowText).actions :: OnPrimary(a)
  {
  }

  /** What a desk handler is given. */
  datatype DeskEvent =
    | EntryEvent(side: Side, price: string, target50: Option<string>)
    | HalfTargetEvent(quantity: Option<string>)
    | ExitEvent

  function DeskPlan(env: Env, w: World, desk: Desk, event: DeskEvent, now: int): Plan {
    match event
    case EntryEvent(side, price, target50) => EntryPlan(env, w, desk, side, price, target50, now)
    case HalfTargetEvent(quantity) => HalfTargetPlan(env, w, desk, quantity, now)
    case ExitEvent => ExitPlan(env, desk)
  }

  /**
   * A desk handler touches neither the primary slot, nor the fingerprint
   * ledger, nor the trend, nor the other desk's slot.
   */
  lemma DeskHandlersKeepOthers(env: Env, w: World, desk: Desk, event: DeskEvent, now: int)
    ensures var w' := After(env, w, DeskPlan(env, w, desk, event, now), now);
            w'.open == w.open && w'.seen == w.seen && w'.trend == w.trend
            && DeskSlot(w', OtherDesk(desk)) == DeskSlot(w, OtherDesk(desk))
  {
    var plan := DeskPlan(env, w, desk, event, now);
    match event {
      case EntryEvent(side, price, target50) => EntryTouchesOneDesk(env, w, desk, side, price, target50, now);
      case HalfTargetEvent(quantity) => HalfTargetTouchesOneDesk(env, w, desk, quantity, now);
      case ExitEvent =>
    }
    DeskEffectsKeepOthers(env, w, desk, plan.actions, now);
  }

  lemma EntryTouchesOneDesk(env: Env, w: World, desk: Desk, side: Side, price: string, target50: Option<string>, now: int)
    ensures forall a | a in EntryPlan(env, w, desk, side, price, target50, now).actions :: OnDesk(desk, a)
  {
    EntryOrdersTouchOneDesk(env, desk, side, price, target50);
  }

  lemma EntryOrdersTouchOneDesk(env: Env, desk: Desk, side: Side, price: string, target50: Option<string>)
    ensures forall a | a in EntryOrders(env, desk, side, price, target50).actions :: OnDesk(desk, a)
  {
  }

  lemma HalfTargetTouchesOneDesk(env: Env, w: World, desk: Desk, quantity: Option<string>, now: int)
    ensures forall a | a in HalfTargetPlan(env, w, desk, quantity, now).actions :: OnDesk(desk, a)
  {
  }

  // The slot checks.

  lemma CheckOpenEffect(env: Env, w: World, now: int)
    ensures ApplyAll(env, w, CheckOpen(w, now), now) == w.(open := AfterCheck(w.open, now))
  {
  }

  lemma CheckDeskEffect(env: Env, w: World, desk: Desk, now: int)
    ensures var w' := ApplyAll(env, w, CheckDesk(w, desk, now), now);
            w' == if desk == GoldDesk then w.(gold := AfterCheck(w.gold, now)) else w.(nq := AfterCheck(w.nq, now))
  {
  }

  // Long-triggered entries.

  /** The numerator of the alert's score: 7 for "7/10". */
  function Score(groups: seq<string>): nat
    requires Conforms(LongTriggered, groups)
  {
    LongTriggeredFields(groups);
    DecimalValue(Split(groups[3], '/')[0])
  }

  /**
   * An entry while the primary slot holds a live record, or with a score
   * below 5, changes nothing but the check's deletion of an expired
   * record, and sends nothing.
   */
  lemma LongTriggeredRejects(env: Env, w: World, groups: seq<string>, source: string, now: int)
    requires Conforms(LongTriggered, groups)
    requires Live(w.open, now) || Score(groups) < 5
    ensures After(env, w, LongTriggeredPlan(env, w, groups, source, now), now) == w.(open := AfterCheck(w.open, now))
  {
    LongTriggeredFields(groups);
    ScoreSplitsInTwo(groups[3]);
    CheckOpenEffect(env, w, now);
  }

  /** The level and price an alert carries, as `float()` reads them. */
  function LevelOf(env: Env, groups: seq<string>): Option<real>
    requires Conforms(LongTriggered, groups)
  {
    LongTriggeredFields(groups);
    env.host.parseFloat(groups[2])
  }

  function PriceOf(env: Env, groups: seq<string>): Option<real>
    requires Conforms(LongTriggered, groups)
  {
    LongTriggeredFields(groups);
    env.host.parseFloat(groups[4])
  }

  /** The entry a long-triggered alert asks for. */
  function EntryOrder(env: Env, groups: seq<string>, source: string): OpenOrder
    requires Conforms(LongTriggered, groups)
    requires LevelOf(env, groups).Some? && PriceOf(env, groups).Some?
  {
    LongTriggeredFields(groups);
    LongOrder(env, groups, LevelOf(env, groups).value, PriceOf(env, groups).value, Score(groups), source)
  }

  function EntrySend(env: Env, groups: seq<string>): Action
    requires Conforms(LongTriggered, groups)
    requires PriceOf(env, groups).Some?
  {
    Send(MarketPayload(env.host.floatText(PriceOf(env, groups).value), "buy"), env.settings.webhookUrl,
         Some(env.settings.globalQuantity), "Long Triggered webhook", true)
  }

  /** The steps of an accepted entry: the check, the save, then at most the entry webhook. */
  lemma LongTriggeredAcceptedSteps(env: Env, w: World, groups: seq<string>, source: string, now: int)
    requires Conforms(LongTriggered, groups)
    requires !Live(w.open, now) && Score(groups) >= 5
    requires LevelOf(env, groups).Some? && PriceOf(env, groups).Some?
    ensures var plan := LongTriggeredPlan(env, w, groups, source, now);
            var saved := CheckOpen(w, now) + [SaveOpen(EntryOrder(env, groups, source))];
            plan.actions == saved + (if env.wiring.acceptsContext && env.settings.globalQuantity > 0 then [EntrySend(env, groups)] else [])
            && plan.outcome == (if env.settings.globalQuantity > 0 && !env.wiring.acceptsContext then Caught else Completed)
  {
    LongTriggeredFields(groups);
    ScoreSplitsInTwo(groups[3]);
  }

  /**
   * An accepted entry saves a buy with the given source, a personal
   * quantity of twice the score held between 5 and 15 and the configured
   * webhook quantity, before it sends anything.
   */
  lemma LongTriggeredAccepts(env: Env, w: World, groups: seq<string>, source: string, now: int)
    requires Conforms(LongTriggered, groups)
    requires !Live(w.open, now) && Score(groups) >= 5
    requires LevelOf(env, groups).Some? && PriceOf(env, groups).Some?
    ensures var w' := After(env, w, LongTriggeredPlan(env, w, groups, source, now), now);
            && w'.open.Stored? && w'.open.timestamp == now
            && w'.open.info.action == "buy" && w'.open.info.source == source
            && w'.open.info.price == PriceOf(env, groups).value
            && w'.open.info.quantities == Quantities(Min(15, Max(5, 2 * Score(groups))), env.settings.globalQuantity)
            && 5 <= w'.open.info.quantities.personal <= 15
            && w'.seen == w.seen
  {
    LongTriggeredAcceptedSteps(env, w, groups, source, now);
    var check := CheckOpen(w, now);
    var saved := check + [SaveOpen(EntryOrder(env, groups, source))];
    CheckOpenEffect(env, w, now);
    ApplyAllAppend(env, w, check, [SaveOpen(EntryOrder(env, groups, source))], now);
    if env.wiring.acceptsContext && env.settings.globalQuantity > 0 {
      ApplyAllAppend(env, w, saved, [EntrySend(env, groups)], now);
    }
  }

  /**
   * As written, the entry webhook call passes a keyword argument the
   * delivery function does not take: the record is saved, nothing is sent,
   * and the handler reports failure whenever a quantity is configured.
   */
  lemma LongTriggeredAsWrittenSendsNothing(env: Env, w: World, groups: seq<string>, source: string, now: int)
    requires Conforms(LongTriggered, groups)
    requires !Live(w.open, now) && Score(groups) >= 5
    requires LevelOf(env, groups).Some? && PriceOf(env, groups).Some?
    requires !env.wiring.acceptsContext
    ensures var plan := LongTriggeredPlan(env, w, groups, source, now);
            var w' := After(env, w, plan, now);
            && w'.net == w.net
            && w'.open.Stored? && w'.open.info.source == source
            && (env.settings.globalQuantity > 0 ==> plan.outcome == Caught)
  {
    LongTriggeredAccepts(env, w, groups, source, now);
    LongTriggeredAcceptedSteps(env, w, groups, source, now);
    CheckOpenEffect(env, w, now);
    ApplyAllAppend(env, w, CheckOpen(w, now), [SaveOpen(EntryOrder(env, groups, source))], now);
  }

  /**
   * With the keyword argument dropped, an accepted entry is delivered as a
   * market buy of the configured quantity at the alert's price.
   */
  lemma LongTriggeredIntendedSends(env: Env, w: World, groups: seq<string>, source: string, now: int)
    requires Conforms(LongTriggered, groups)
    requires !Live(w.open, now) && Score(groups) >= 5
    requires LevelOf(env, groups).Some? && PriceOf(env, groups).Some?
    requires env.wiring.acceptsContext && env.settings.globalQuantity > 0
    ensures var plan := LongTriggeredPlan(env, w, groups, source, now);
            var w' := After(env, w, plan, now);
            && plan.outcome == Completed
            && w'.open.Stored? && w'.open.info.source == source
            && w'.net == OrderExecutor.Send(w.net, env.settings.webhookUrl,
                                            MarketPayload(env.host.floatText(PriceOf(env, groups).value), "buy"),
                                            Some(env.settings.globalQuantity), "Long Triggered webhook", true,
                                            env.settings.globalQuantity)
  {
    LongTriggeredAccepts(env, w, groups, source, now);
    LongTriggeredAcceptedSteps(env, w, groups, source, now);
    var check := CheckOpen(w, now);
    var saved := check + [SaveOpen(EntryOrder(env, groups, source))];
    CheckOpenEffect(env, w, now);
    ApplyAllAppend(env, w, check, [SaveOpen(EntryOrder(env, groups, source))], now);
    ApplyAllAppend(env, w, saved, [EntrySend(env, groups)], now);
  }

  // Sends.

  /** Effects on the network alone: sends and cancel requests. */
  predicate NetOnly(actions: seq<Action>) {
    forall a | a in actions :: a.Send? || a.SendMany? || a.CancelOrders?
  }

  lemma ApplyAllOne(env: Env, w: World, a: Action, now: int)
    ensures ApplyAll(env, w, [a], now) == Apply(env, w, a, now)
  {
    assert [a][1..] == [];
  }

  /** Sends and cancel requests change the network and nothing else. */
  lemma {:induction false} SendsOnlyChangeNet(env: Env, w: World, actions: seq<Action>, now: int)
    requires NetOnly(actions)
    ensures var w' := ApplyAll(env, w, actions, now); w' == w.(net := w'.net)
    decreases |actions|
  {
    if actions != [] {
      assert actions[0] in actions;
      SendsOnlyChangeNet(env, Apply(env, w, actions[0], now), actions[1..], now);
    }
  }

  /** Sends around one other effect: the state is that effect's, the network aside. */
  lemma AroundSends(env: Env, w: World, before: seq<Action>, a: Action, after: seq<Action>, now: int)
    requires NetOnly(before) && NetOnly(after)
    ensures var w' := ApplyAll(env, w, before + [a] + after, now);
            var m := Apply(env, ApplyAll(env, w, before, now), a, now);
            w' == m.(net := w'.net)
  {
    ApplyAllAppend(env, w, before + [a], after, now);
    ApplyAllAppend(env, w, before, [a], now);
    SendsOnlyChangeNet(env, w, before, now);
    SendsOnlyChangeNet(env, ApplyAll(env, w, before + [a], now), after, now);
  }

  // Trims.

  function TrimNumerator(groups: seq<string>): nat
    requires Conforms(Trim, groups)
  {
    TrimFields(groups);
    DecimalValue(groups[0])
  }

  function TrimDenominator(groups: seq<string>): nat
    requires Conforms(Trim, groups)
  {
    TrimFields(groups);
    DecimalValue(groups[1])
  }

  /** `int(q * (n / d))` in exact arithmetic. */
  function TrimClose(q: int, n: nat, d: nat): int
    requires d > 0
  {
    TruncDiv(q * n, d)
  }

  /** A trim of less than the whole never closes a whole position, and a whole trim closes at least all of it. */
  lemma {:induction false} TrimCloseBounds(q: int, n: nat, d: nat)
    requires d > 0 && q >= 0
    ensures 0 <= TrimClose(q, n, d)
    ensures n < d ==> TrimClose(q, n, d) <= q && (q >= 1 ==> TrimClose(q, n, d) < q)
    ensures n >= d ==> TrimClose(q, n, d) >= q
  {
    var c := TrimClose(q, n, d);
    assert c * d <= q * n < c * d + d;
    if n < d && q >= 1 {
      assert q * n < q * d by { MultiplyStrictly(q, n, d); }
      assert c * d < q * d;
      CancelFactor(c, q, d);
    } else if n < d {
      assert q == 0;
      assert c * d <= 0;
      CancelFactor(c, 1, d);
    }
    if n >= d {
      assert q * n >= q * d by { MultiplyMonotone(q, d, n); }
      assert q * d < c * d + d == (c + 1) * d;
      CancelFactor(q, c + 1, d);
    }
  }

  lemma MultiplyStrictly(q: int, n: int, d: int)
    requires q >= 1 && n < d
    ensures q * n < q * d
  {
  }

  lemma MultiplyMonotone(q: int, a: int, b: int)
    requires q >= 0 && a <= b
    ensures q * a <= q * b
  {
  }

  lemma CancelFactor(a: int, b: int, d: int)
    requires d > 0 && a * d < b * d
    ensures a < b
  {
  }

  /** A trim with no live position only checks the slot. */
  lemma TrimWithoutPosition(env: Env, w: World, groups: seq<string>, now: int)
    requires Conforms(Trim, groups) && !Live(w.open, now)
    ensures After(env, w, TrimPlan(env, w, groups, now), now) == w.(open := AfterCheck(w.open, now))
  {
    CheckOpenEffect(env, w, now);
  }

  /** "trim n/0" raises before anything is sent or saved. */
  lemma TrimByZero(env: Env, w: World, groups: seq<string>, now: int)
    requires Conforms(Trim, groups) && Live(w.open, now) && TrimDenominator(groups) == 0
    ensures After(env, w, TrimPlan(env, w, groups, now), now) == w
    ensures TrimPlan(env, w, groups, now).outcome == Escaped
  {
  }

  /**
   * Trim n/d of a live position closes `int(q * n / d)` of each quantity:
   * n >= d clears the slot, otherwise the rest is saved (restarting its
   * clock) and, with at least one webhook contract left, is kept open.
   */
  lemma TrimUpdatesPosition(env: Env, w: World, groups: seq<string>, now: int)
    requires Conforms(Trim, groups) && Live(w.open, now) && TrimDenominator(groups) > 0
    ensures var n, d := TrimNumerator(groups), TrimDenominator(groups);
            var q := w.open.info.quantities;
            var w' := After(env, w, TrimPlan(env, w, groups, now), now);
            && w'.seen == w.seen && w'.gold == w.gold && w'.nq == w.nq
            && (n >= d ==> w'.open == Empty)
            && (n < d ==> w'.open == Stored(now, w.open.info.(quantities :=
                             Quantities(q.personal - TrimClose(q.personal, n, d), q.webhook - TrimClose(q.webhook, n, d)))))
            && (n < d && q.webhook >= 1 ==> w'.open.info.quantities.webhook >= 1)
  {
    var n, d := TrimNumerator(groups), TrimDenominator(groups);
    TrimFields(groups);
    var plan := TrimPlan(env, w, groups, now);
    var q := w.open.info.quantities;
    var wc := TrimClose(q.webhook, n, d);
    var close := if wc >= 1 then [Send(MarketPayload("", "sell"), env.settings.webhookUrl, Some(wc), "Close webhook", false)] else [];
    if n >= d {
      assert plan.actions == close + [ClearOpen] + [];
      AroundSends(env, w, close, ClearOpen, [], now);
    } else {
      var rest := Quantities(q.personal - TrimClose(q.personal, n, d), q.webhook - wc);
      var stop :=
        if n == 1 && d == 8 && rest.webhook >= 1 then
          [Send(StopPayload(env.host.floatText(w.open.info.price - 3.0)), env.settings.webhookUrl, Some(rest.webhook), "1/8 trim stop order webhook", false)]
        else [];
      assert plan.actions == close + [SaveOpen(w.open.info.(quantities := rest))] + stop;
      AroundSends(env, w, close, SaveOpen(w.open.info.(quantities := rest)), stop, now);
      SendsOnlyChangeNet(env, w, close, now);
      if q.webhook >= 1 {
        TrimCloseBounds(q.webhook, n, d);
      }
    }
  }

  /** Whether a plan sends a webhook for `operation`. */
  predicate Sends(plan: Plan, operation: string) {
    exists a | a in plan.actions :: a.Send? && a.operation == operation
  }

  /**
   * Only an exact 1/8 trim places a stop, at the entry price less 3, for
   * the webhook contracts that remain, and only when one remains; a trim
   * closes with a market sell exactly when it closes at least one contract.
   */
  lemma TrimStopOnlyAfterOneEighth(env: Env, w: World, groups: seq<string>, now: int)
    requires Conforms(Trim, groups) && Live(w.open, now) && TrimDenominator(groups) > 0
    ensures var n, d := TrimNumerator(groups), TrimDenominator(groups);
            var q := w.open.info.quantities.webhook;
            var plan := TrimPlan(env, w, groups, now);
            && (Sends(plan, "1/8 trim stop order webhook") <==> n == 1 && d == 8 && q - TrimClose(q, n, d) >= 1)
            && (Sends(plan, "Close webhook") <==> TrimClose(q, n, d) >= 1)
            && (forall a | a in plan.actions && a.Send? && a.operation == "1/8 trim stop order webhook" ::
                  a.payload == StopPayload(env.host.floatText(w.open.info.price - 3.0))
                  && a.quantity == Some(q - TrimClose(q, n, d)))
            && (forall a | a in plan.actions && a.Send? && a.operation == "Close webhook" ::
                  a.quantity == Some(TrimClose(q, n, d)) && a.payload["action"] == Str("sell"))
  {
    TrimFields(groups);
    var n, d := TrimNumerator(groups), TrimDenominator(groups);
    var order := w.open.info;
    var q := order.quantities.webhook;
    var close := TrimClose(q, n, d);
    var url := env.settings.webhookUrl;
    var closeSend := Send(MarketPayload("", "sell"), url, Some(close), "Close webhook", false);
    var stop := Send(StopPayload(env.host.floatText(order.price - 3.0)), url, Some(q - close), "1/8 trim stop order webhook", false);
    var plan := TrimPlan(env, w, groups, now);
    if n >= d {
      TrimShape(plan.actions, close >= 1, closeSend, ClearOpen, false, stop);
    } else {
      var rest := Quantities(order.quantities.personal - TruncDiv(order.quantities.personal * n, d), q - close);
      TrimShape(plan.actions, close >= 1, closeSend, SaveOpen(order.(quantities := rest)), n == 1 && d == 8 && q - close >= 1, stop);
    }
  }

  /**
   * The shape of a trim — an optional close, one slot write, an optional
   * stop — decides which operations it sends.
   */
  lemma TrimShape(actions: seq<Action>, closing: bool, closeSend: Action, write: Action, stopping: bool, stop: Action)
    requires closeSend.Send? && closeSend.operation == "Close webhook"
    requires stop.Send? && stop.operation == "1/8 trim stop order webhook"
    requires !write.Send?
    requires actions == (if closing then [closeSend] else []) + [write] + (if stopping then [stop] else [])
    ensures (exists a | a in actions :: a.Send? && a.operation == "Close webhook") <==> closing
    ensures (exists a | a in actions :: a.Send? && a.operation == "1/8 trim stop order webhook") <==> stopping
    ensures forall a | a in actions && a.Send? && a.operation == "Close webhook" :: a == closeSend
    ensures forall a | a in actions && a.Send? && a.operation == "1/8 trim stop order webhook" :: a == stop
  {
    if closing {
      assert actions[0] == closeSend;
    }
    if stopping {
      assert actions[|actions| - 1] == stop;
    }
  }

  // Targets and stop losses.

  /** An alert whose handler checks a fingerprint. */
  predicate Fingerprinted(alert: Alert) {
    alert.Target1Alert? || alert.Target2Alert? || alert.StopLossAlert? || alert.StopLossSimpleAlert?
  }

  /** The level and three prices, when `float()` reads all four. */
  function AlertPrices(env: Env, alert: Alert): Option<(real, real, real)>
    requires Matched(alert) && Fingerprinted(alert)
  {
    match alert
    case Target1Alert(g, _) => TargetFields("Target 1", g); ParsePrices(env, g)
    case Target2Alert(g, _) => TargetFields("Target 2", g); ParsePrices(env, g)
    case StopLossAlert(g, _) => StopLossFields(g); ParsePrices(env, g)
    case StopLossSimpleAlert(g, _, _) => StopLossSimpleFields(g); ParsePrices(env, g)
  }

  /**
   * The fingerprint: targets list (target, entry, profit, time), stop
   * losses (exit, entry, loss, time), the simple stop loss with the current
   * time.
   */
  function AlertId(env: Env, alert: Alert): string
    requires Matched(alert) && Fingerprinted(alert) && AlertPrices(env, alert).Some?
  {
    var (a, b, c) := AlertPrices(env, alert).value;
    match alert
    case Target1Alert(g, _) => TargetFields("Target 1", g); Fingerprint(env, a, b, c, g[6])
    case Target2Alert(g, _) => TargetFields("Target 2", g); Fingerprint(env, a, b, c, g[6])
    case StopLossAlert(g, _) => StopLossFields(g); Fingerprint(env, b, a, c, g[6])
    case StopLossSimpleAlert(_, _, nowText) => Fingerprint(env, b, a, c, nowText)
  }

  /** The time text a fingerprint ends with. */
  function AlertTime(alert: Alert): string
    requires Matched(alert) && Fingerprinted(alert)
  {
    match alert
    case Target1Alert(g, _) => TargetFields("Target 1", g); g[6]
    case Target2Alert(g, _) => TargetFields("Target 2", g); g[6]
    case StopLossAlert(g, _) => StopLossFields(g); g[6]
    case StopLossSimpleAlert(_, _, nowText) => nowText
  }

  /**
   * With no live position, a target or stop-loss alert only checks the
   * slot; with one, an unreadable price raises before any effect, and a
   * fingerprint already seen or a position opened by another source leaves
   * everything as it was: nothing is sent and the fingerprint is not marked.
   */
  lemma GuardsLeaveEverything(env: Env, w: World, alert: Alert, now: int)
    requires Matched(alert) && Fingerprinted(alert)
    ensures var plan := AlertPlan(env, w, alert, now);
            var w' := After(env, w, plan, now);
            && (!Live(w.open, now) ==> w' == w.(open := AfterCheck(w.open, now)) && plan.outcome == Completed)
            && (Live(w.open, now) && AlertPrices(env, alert).None? ==> w' == w && plan.outcome == Escaped)
            && ((Live(w.open, now) && AlertPrices(env, alert).Some?
                 && (AlertId(env, alert) in w.seen || w.open.info.source != alert.source)) ==> w' == w && plan.outcome == Completed)
  {
    CheckOpenEffect(env, w, now);
  }

  /**
   * Target 1 closes `int(q / 2)` of the webhook contracts; a remainder of
   * at least one keeps the position with the personal quantity unchanged
   * (its clock restarted), a remainder of zero clears the slot; the
   * fingerprint is marked.
   */
  lemma TargetHitHalves(env: Env, w: World, groups: seq<string>, source: string, now: int)
    requires Conforms(TargetHit, groups) && Live(w.open, now)
    requires var alert := Target1Alert(groups, source);
             AlertPrices(env, alert).Some? && AlertId(env, alert) !in w.seen && w.open.info.source == source
    ensures var q := w.open.info.quantities;
            var rest := q.webhook - TruncDiv(q.webhook, 2);
            var w' := After(env, w, TargetHitPlan(env, w, groups, source, now), now);
            && w'.seen == w.seen + {AlertId(env, Target1Alert(groups, source))} && w'.gold == w.gold && w'.nq == w.nq
            && (rest >= 1 ==> w'.open == Stored(now, w.open.info.(quantities := Quantities(q.personal, rest))))
            && (rest < 1 ==> w'.open == Empty)
  {
    var id := AlertId(env, Target1Alert(groups, source));
    var q := w.open.info.quantities;
    var rest := q.webhook - TruncDiv(q.webhook, 2);
    TargetHitSteps(env, w, groups, source, now);
    var actions := TargetHitPlan(env, w, groups, source, now).actions;
    var closing := TargetHitClosing(env, w, groups, source);
    if rest >= 1 {
      var stop := actions[|closing|];
      var save := SaveOpen(w.open.info.(quantities := Quantities(q.personal, rest)));
      assert actions == (closing + [stop]) + [save] + [Mark(id)];
      SendsThenMark(env, w, closing + [stop], save, id, now);
    } else {
      assert actions == closing + [ClearOpen] + [Mark(id)];
      SendsThenMark(env, w, closing, ClearOpen, id, now);
    }
  }

  /** Target 1 closes the smaller half: it never closes a position of one contract or more entirely. */
  lemma TargetHitKeepsHalf(q: int)
    requires q >= 0
    ensures TruncDiv(q, 2) <= q - TruncDiv(q, 2) <= TruncDiv(q, 2) + 1
    ensures q >= 1 ==> q - TruncDiv(q, 2) >= 1
  {
  }

  /** Sends, then one slot write, then a mark: the write and the mark are what is left besides the network. */
  lemma SendsThenMark(env: Env, w: World, sends: seq<Action>, a: Action, id: string, now: int)
    requires NetOnly(sends) && (a.SaveOpen? || a.ClearOpen?)
    ensures var r := ApplyAll(env, w, sends + [a] + [Mark(id)], now);
            r == w.(open := Apply(env, w, a, now).open, seen := w.seen + {id}, net := r.net)
  {
    ApplyAllAppend(env, w, sends + [a], [Mark(id)], now);
    AroundSends(env, w, sends, a, [], now);
    assert sends + [a] + [] == sends + [a];
    SendsOnlyChangeNet(env, w, sends, now);
  }

  /** The market close of target 1, when it closes at least one contract. */
  function TargetHitClosing(env: Env, w: World, groups: seq<string>, source: string): seq<Action>
    requires Conforms(TargetHit, groups) && w.open.Stored?
    requires AlertPrices(env, Target1Alert(groups, source)).Some?
  {
    var target := AlertPrices(env, Target1Alert(groups, source)).value.0;
    var close := TruncDiv(w.open.info.quantities.webhook, 2);
    if close >= 1 then [Send(MarketPayload(env.host.floatText(target), "sell"), env.settings.webhookUrl, Some(close), "Target hit close webhook", false)]
    else []
  }

  /** The steps of an accepted target 1: the close, then the stop and the save or the clear, then the mark. */
  lemma TargetHitSteps(env: Env, w: World, groups: seq<string>, source: string, now: int)
    requires Conforms(TargetHit, groups) && Live(w.open, now)
    requires var alert := Target1Alert(groups, source);
             AlertPrices(env, alert).Some? && AlertId(env, alert) !in w.seen && w.open.info.source == source
    ensures var alert := Target1Alert(groups, source);
            var entry := AlertPrices(env, alert).value.1;
            var q := w.open.info.quantities;
            var rest := q.webhook - TruncDiv(q.webhook, 2);
            var stop := Send(StopPayload(env.host.floatText(entry - 3.0)), env.settings.webhookUrl, Some(rest), "Target hit stop order webhook", false);
            TargetHitPlan(env, w, groups, source, now).actions
              == TargetHitClosing(env, w, groups, source)
                 + (if rest >= 1 then [stop, SaveOpen(w.open.info.(quantities := Quantities(q.personal, rest)))] else [ClearOpen])
                 + [Mark(AlertId(env, alert))]
  {
    TargetFields("Target 1", groups);
  }

  /**
   * Target 1 sends a close exactly when it closes a contract and a stop at
   * entry - 3 for the remainder exactly when one remains, and marks the
   * fingerprint after every other effect.
   */
  lemma TargetHitOrder(env: Env, w: World, groups: seq<string>, source: string, now: int)
    requires Conforms(TargetHit, groups) && Live(w.open, now)
    requires var alert := Target1Alert(groups, source);
             AlertPrices(env, alert).Some? && AlertId(env, alert) !in w.seen && w.open.info.source == source
    ensures var alert := Target1Alert(groups, source);
            var entry := AlertPrices(env, alert).value.1;
            var q := w.open.info.quantities.webhook;
            var rest := q - TruncDiv(q, 2);
            var plan := TargetHitPlan(env, w, groups, source, now);
            && plan.actions[|plan.actions| - 1] == Mark(AlertId(env, alert))
            && (forall i | 0 <= i < |plan.actions| - 1 :: !plan.actions[i].Mark?)
            && (Sends(plan, "Target hit close webhook") <==> TruncDiv(q, 2) >= 1)
            && (Sends(plan, "Target hit stop order webhook") <==> rest >= 1)
            && (forall a | a in plan.actions && a.Send? && a.operation == "Target hit stop order webhook" ::
                  a.payload == StopPayload(env.host.floatText(entry - 3.0)) && a.quantity == Some(rest))
  {
    TargetHitSteps(env, w, groups, source, now);
    var alert := Target1Alert(groups, source);
    var prices := AlertPrices(env, alert).value;
    var q := w.open.info.quantities;
    var close := TruncDiv(q.webhook, 2);
    var rest := q.webhook - close;
    ClosingStopMark(TargetHitPlan(env, w, groups, source, now).actions, close,
                    Send(MarketPayload(env.host.floatText(prices.0), "sell"), env.settings.webhookUrl, Some(close), "Target hit close webhook", false),
                    rest,
                    Send(StopPayload(env.host.floatText(prices.1 - 3.0)), env.settings.webhookUrl, Some(rest), "Target hit stop order webhook", false),
                    SaveOpen(w.open.info.(quantities := Quantities(q.personal, rest))),
                    Mark(AlertId(env, alert)));
  }

  /**
   * The shape of an accepted target 1 — an optional close, the stop and
   * the save or else the clear, and the mark — decides which operations
   * it sends and where it marks.
   */
  lemma ClosingStopMark(actions: seq<Action>, close: int, closeSend: Action, rest: int, stop: Action, save: Action, mark: Action)
    requires closeSend.Send? && closeSend.operation == "Target hit close webhook"
    requires stop.Send? && stop.operation == "Target hit stop order webhook"
    requires save.SaveOpen? && mark.Mark?
    requires actions == (if close >= 1 then [closeSend] else []) + (if rest >= 1 then [stop, save] else [ClearOpen]) + [mark]
    ensures actions[|actions| - 1] == mark && forall i | 0 <= i < |actions| - 1 :: !actions[i].Mark?
    ensures (exists a | a in actions :: a.Send? && a.operation == "Target hit close webhook") <==> close >= 1
    ensures (exists a | a in actions :: a.Send? && a.operation == "Target hit stop order webhook") <==> rest >= 1
    ensures forall a | a in actions && a.Send? && a.operation == "Target hit stop order webhook" :: a == stop
  {
    var closing := if close >= 1 then [closeSend] else [];
    var middle := if rest >= 1 then [stop, save] else [ClearOpen];
    MarkAfterParts(actions, closing + middle, mark);
    if close >= 1 {
      assert actions[0] == closeSend;
    }
    if rest >= 1 {
      assert actions[|closing|] == stop;
    }
  }

  /** A plan made of unmarked parts and a final mark marks only at its end. */
  lemma MarkAfterParts(actions: seq<Action>, parts: seq<Action>, mark: Action)
    requires actions == parts + [mark] && mark.Mark? && forall a | a in parts :: !a.Mark?
    ensures actions[|actions| - 1] == mark && forall i | 0 <= i < |actions| - 1 :: !actions[i].Mark?
  {
    forall i | 0 <= i < |actions| - 1
      ensures !actions[i].Mark?
    {
      assert actions[i] == parts[i];
    }
  }

  /** Where a full exit is priced: the target for target 2, the exit for stop losses. */
  function ExitPrice(env: Env, alert: Alert): string
    requires Matched(alert) && Fingerprinted(alert) && AlertPrices(env, alert).Some?
  {
    var (a, b, _) := AlertPrices(env, alert).value;
    if alert.Target2Alert? then env.host.floatText(a) else env.host.floatText(b)
  }

  function ExitOperation(alert: Alert): string {
    if alert.Target2Alert? then "Target 2 close webhook" else "Stop loss close webhook"
  }

  /**
   * Target 2 and both stop-loss forms exit every webhook contract (a send
   * only when there is one), always clear the slot, and mark the
   * fingerprint.
   */
  lemma FullExitsClear(env: Env, w: World, alert: Alert, now: int)
    requires Matched(alert) && (alert.Target2Alert? || alert.StopLossAlert? || alert.StopLossSimpleAlert?)
    requires Live(w.open, now) && AlertPrices(env, alert).Some?
    requires AlertId(env, alert) !in w.seen && w.open.info.source == alert.source
    ensures var q := w.open.info.quantities.webhook;
            var w' := After(env, w, AlertPlan(env, w, alert, now), now);
            && w'.open == Empty && w'.seen == w.seen + {AlertId(env, alert)}
            && w'.gold == w.gold && w'.nq == w.nq && w'.trend == w.trend
            && w'.net == if q > 0 then OrderExecutor.Send(w.net, env.settings.webhookUrl, MarketPayload(ExitPrice(env, alert), "exit"),
                                                          Some(q), ExitOperation(alert), false, env.settings.globalQuantity)
                         else w.net
  {
    var q := w.open.info.quantities.webhook;
    var id := AlertId(env, alert);
    var plan := AlertPlan(env, w, alert, now);
    var exit := if q > 0 then [Send(MarketPayload(ExitPrice(env, alert), "exit"), env.settings.webhookUrl, Some(q), ExitOperation(alert), false)] else [];
    FullExitIsPlan(env, w, alert, now);
    assert plan.actions == exit + [ClearOpen] + [Mark(id)];
    ApplyAllAppend(env, w, exit + [ClearOpen], [Mark(id)], now);
    ApplyAllAppend(env, w, exit, [ClearOpen], now);
  }

  /** Target 2 and both stop-loss forms, past the slot check and the price parse, are one full exit. */
  lemma FullExitIsPlan(env: Env, w: World, alert: Alert, now: int)
    requires Matched(alert) && (alert.Target2Alert? || alert.StopLossAlert? || alert.StopLossSimpleAlert?)
    requires Live(w.open, now) && AlertPrices(env, alert).Some?
    ensures AlertPlan(env, w, alert, now)
            == FullExitPlan(env, w, AlertId(env, alert), alert.source, ExitPrice(env, alert), ExitOperation(alert))
  {
    match alert {
      case Target2Alert(g, _) => TargetFields("Target 2", g);
      case StopLossAlert(g, _) => StopLossFields(g);
      case StopLossSimpleAlert(g, _, _) => StopLossSimpleFields(g);
    }
  }

  /**
   * The stopped marker flattens: whatever the slot held, no record is left
   * (an unreadable file stays), and an exit for the configured quantity is
   * always sent.
   */
  lemma StoppedFlattens(env: Env, w: World, now: int)
    ensures var w' := After(env, w, StoppedPlan(env, w, now), now);
            && !w'.open.Stored? && (w.open.Corrupt? <==> w'.open.Corrupt?)
            && w'.seen == w.seen && w'.gold == w.gold && w'.nq == w.nq && w'.trend == w.trend
            && w'.net == OrderExecutor.Send(w.net, env.settings.webhookUrl,
                                            map["ticker" := Str(TickerSymbol), "action" := Str("exit"), "orderType" := Str("market")],
                                            Some(env.settings.globalQuantity), "Stopped webhook", false, env.settings.globalQuantity)
  {
    var clear := if Live(w.open, now) then [ClearOpen] else CheckOpen(w, now);
    var exit := map["ticker" := Str(TickerSymbol), "action" := Str("exit"), "orderType" := Str("market")];
    var send := Send(exit, env.settings.webhookUrl, Some(env.settings.globalQuantity), "Stopped webhook", false);
    assert StoppedPlan(env, w, now).actions == clear + [send];
    ApplyAllAppend(env, w, clear, [send], now);
    ApplyAllOne(env, ApplyAll(env, w, clear, now), send, now);
  }

  /**
   * One ledger serves every alert kind: once a target-1 alert has been
   * acted on, a stop-loss alert whose exit, entry, loss and time equal the
   * target's target, entry, profit and time (as `str()` renders them) is
   * ignored entirely.
   */
  lemma SharedLedgerCollides(env: Env, w: World, target: seq<string>, stop: seq<string>, source: string, now: int)
    requires Conforms(TargetHit, target) && Conforms(StopLoss, stop)
    requires Live(w.open, now) && w.open.info.source == source
    requires var t, s := Target1Alert(target, source), StopLossAlert(stop, source);
             && AlertPrices(env, t).Some? && AlertPrices(env, s).Some? && AlertId(env, t) !in w.seen
             && var (x, e, p) := AlertPrices(env, t).value;
                var (e', x', p') := AlertPrices(env, s).value;
                && env.host.floatText(x) == env.host.floatText(x') && env.host.floatText(e) == env.host.floatText(e')
                && env.host.floatText(p) == env.host.floatText(p') && AlertTime(t) == AlertTime(s)
    ensures var w1 := After(env, w, TargetHitPlan(env, w, target, source, now), now);
            After(env, w1, StopLossPlan(env, w1, stop, source, now), now) == w1
  {
    var t, s := Target1Alert(target, source), StopLossAlert(stop, source);
    TargetFields("Target 1", target);
    StopLossFields(stop);
    TargetHitHalves(env, w, target, source, now);
    var w1 := After(env, w, TargetHitPlan(env, w, target, source, now), now);
    assert AlertId(env, s) == AlertId(env, t);
    GuardsLeaveEverything(env, w1, s, now);
  }

  // Gold and NQ.

  /** Every effect only appends to the gateway's record. */
  lemma {:induction false} EffectsOnlyAppend(env: Env, w: World, actions: seq<Action>, now: int)
    ensures w.net.outbox <= ApplyAll(env, w, actions, now).net.outbox
    decreases |actions|
  {
    if actions != [] {
      var g := env.settings.globalQuantity;
      match actions[0] {
        case Send(payload, url, quantity, operation, isEntry) =>
          SendAllAppends(w.net, [url], payload, quantity, operation, isEntry, g);
        case SendMany(payload, urls, operation, isEntry) =>
          SendAllAppends(w.net, urls, payload, None, operation, isEntry, g);
        case _ =>
      }
      EffectsOnlyAppend(env, Apply(env, w, actions[0], now), actions[1..], now);
    }
  }

  /** The slot after the entry handler's `has_*_order` check. */
  function CheckedDesk(w: World, desk: Desk, now: int): World {
    if desk == GoldDesk then w.(gold := AfterCheck(w.gold, now)) else w.(nq := AfterCheck(w.nq, now))
  }

  /**
   * As written, the entry handlers first call a cancel function the
   * executor does not define; the call raises inside the `try`, so nothing
   * is sent and nothing is saved, whatever the desk holds.
   */
  lemma EntryAsWrittenNeverEnters(env: Env, w: World, desk: Desk, side: Side, price: string, target50: Option<string>, now: int)
    requires env.wiring == AsWritten
    ensures var plan := EntryPlan(env, w, desk, side, price, target50, now);
            && After(env, w, plan, now) == CheckedDesk(w, desk, now)
            && (Live(DeskSlot(w, desk), now) <==> plan.outcome == Completed)
            && (!Live(DeskSlot(w, desk), now) ==> plan.outcome == Caught)
  {
    CheckDeskEffect(env, w, desk, now);
  }

  /** On the gold desk the raised error is reported as a trend mismatch. */
  lemma GoldEntryAsWrittenReportsMismatch(env: Env, w: World, side: Side, price: string, target50: Option<string>, now: int)
    requires env.wiring == AsWritten && !Live(w.gold, now) && price != ""
    ensures var action := if side == Bullish then "bullish_entry" else "bearish_entry";
            var h := GoldEndpoint(env, w, Some(action), Some(price), target50, now);
            && h.reply == Reply(Success, "Gold " + SideName(side) + " entry skipped due to trend mismatch")
            && ApplyAll(env, w, h.actions, now) == w.(gold := AfterCheck(w.gold, now))
  {
    var plan := EntryPlan(env, w, GoldDesk, side, price, target50, now);
    assert plan == Plan(CheckDesk(w, GoldDesk, now), Caught);
    DeskEndpointEntry(env, w, GoldDesk, side, price, target50, now);
    CheckDeskEffect(env, w, GoldDesk, now);
  }

  /** An entry request with a price runs the entry handler of its side. */
  lemma DeskEndpointEntry(env: Env, w: World, desk: Desk, side: Side, price: string, target50: Option<string>, now: int)
    requires price != ""
    ensures var action := if side == Bullish then "bullish_entry" else "bearish_entry";
            var plan := EntryPlan(env, w, desk, side, price, target50, now);
            var message := if desk == GoldDesk && plan.outcome == Caught then " entry skipped due to trend mismatch" else " entry processed successfully";
            DeskEndpoint(env, w, desk, Some(action), Some(price), target50, now)
              == Handled(plan.actions, Reply(Success, DeskName(desk) + " " + SideName(side) + message))
  {
    var action := if side == Bullish then "bullish_entry" else "bearish_entry";
    assert action == "bullish_entry" || action == "bearish_entry";
    assert action == "bullish_entry" <==> side == Bullish by {
      assert "bearish_entry"[1] != "bullish_entry"[1];
    }
  }

  /** The stop an entry sends: 7 points against the entry, for the configured quantity. */
  function EntryStop(env: Env, desk: Desk, side: Side, stop: string): Action {
    SendMany(DeskStopPayload(desk, Opposite(side), stop, IntText(DeskQuantity(env, desk))), [DeskUrl(env, desk)],
             DeskName(desk) + " stop webhook", false)
  }

  /** The steps after the cancel request: the entry and the gold target, the stop, and last the save. */
  lemma EntryOrdersSteps(env: Env, desk: Desk, side: Side, price: string, target50: Option<string>)
    requires price != "" && env.host.parseFloat(price).Some?
    ensures var orders := EntryOrders(env, desk, side, price, target50);
            var stop := env.host.floatText(StopLevel(side, env.host.parseFloat(price).value));
            var given := if desk == GoldDesk then target50 else None;
            var n := |orders.actions|;
            var hasTarget := desk == GoldDesk && Present(target50);
            && orders.outcome == Completed
            && n == (if hasTarget then 4 else 3)
            && orders.actions[0] == DeskEntrySend(env, desk, side, price)
            && (hasTarget ==> orders.actions[1] == GoldTarget(env, side, target50.value))
            && NetOnly(orders.actions[..n - 1])
            && orders.actions[n - 2] == EntryStop(env, desk, side, stop)
            && orders.actions[n - 1] == SaveDesk(desk, EntryRecord(desk, side, price, DeskQuantity(env, desk), given, Some(stop)))
  {
  }

  /**
   * The steps of an accepted entry: the check, the cancel request, the
   * entry and the gold target, the stop, and last the save.
   */
  lemma EntryIntendedSteps(env: Env, w: World, desk: Desk, side: Side, price: string, target50: Option<string>, now: int)
    requires env.wiring == Intended && !Live(DeskSlot(w, desk), now)
    requires price != "" && env.host.parseFloat(price).Some?
    ensures var plan := EntryPlan(env, w, desk, side, price, target50, now);
            var stop := env.host.floatText(StopLevel(side, env.host.parseFloat(price).value));
            var given := if desk == GoldDesk then target50 else None;
            var check := CheckDesk(w, desk, now);
            var n := |plan.actions|;
            var hasTarget := desk == GoldDesk && Present(target50);
            && plan.outcome == Completed
            && n == |check| + (if hasTarget then 5 else 4)
            && plan.actions[..|check|] == check
            && plan.actions[|check|] == CancelOrders(DeskTicker(desk), DeskUrl(env, desk))
            && plan.actions[|check| + 1] == DeskEntrySend(env, desk, side, price)
            && (hasTarget ==> plan.actions[|check| + 2] == GoldTarget(env, side, target50.value))
            && NetOnly(plan.actions[|check| + 1..n - 1])
            && plan.actions[n - 2] == EntryStop(env, desk, side, stop)
            && plan.actions[n - 1] == SaveDesk(desk, EntryRecord(desk, side, price, DeskQuantity(env, desk), given, Some(stop)))
  {
    EntryOrdersSteps(env, desk, side, price, target50);
    var check := CheckDesk(w, desk, now);
    var cancelled := check + [CancelOrders(DeskTicker(desk), DeskUrl(env, desk))];
    var orders := EntryOrders(env, desk, side, price, target50).actions;
    var actions := EntryPlan(env, w, desk, side, price, target50, now).actions;
    assert actions == cancelled + orders;
    SliceOfAppend(cancelled, orders);
    assert actions[|check| + 1] == orders[0];
    if desk == GoldDesk && Present(target50) {
      assert actions[|check| + 2] == orders[1];
    }
  }

  /**
   * With the cancel function and the keyword argument in place, an entry
   * on a desk without a live record sends the cancel request before
   * anything else and saves the side, the configured quantity and (except
   * for gold bullish, which keeps no stop) the stop it sent.
   */
  lemma EntryIntendedEnters(env: Env, w: World, desk: Desk, side: Side, price: string, target50: Option<string>, now: int)
    requires env.wiring == Intended && !Live(DeskSlot(w, desk), now)
    requires price != "" && env.host.parseFloat(price).Some?
    ensures var stop := env.host.floatText(StopLevel(side, env.host.parseFloat(price).value));
            var w' := After(env, w, EntryPlan(env, w, desk, side, price, target50, now), now);
            && w'.open == w.open && w'.seen == w.seen && w'.trend == w.trend
            && DeskSlot(w', desk).Stored? && DeskSlot(w', desk).timestamp == now
            && DeskSlot(w', desk).info.action == SideAction(side)
            && DeskSlot(w', desk).info.ticker == DeskTicker(desk)
            && DeskSlot(w', desk).info.price == price
            && DeskSlot(w', desk).info.quantity == DeskQuantity(env, desk)
            && ((desk == NqDesk || side == Bearish) ==> DeskSlot(w', desk).info.stop == Text(stop))
            && |w'.net.outbox| > |w.net.outbox|
            && w'.net.outbox[|w.net.outbox|] == CancelRequest(DeskTicker(desk), DeskUrl(env, desk))
            && var plan := EntryPlan(env, w, desk, side, price, target50, now);
               var k := |CheckDesk(w, desk, now)|;
               && plan.actions[k + 1] == DeskEntrySend(env, desk, side, price)
               && (desk == GoldDesk && Present(target50) ==> plan.actions[k + 2] == GoldTarget(env, side, target50.value))
  {
    EntryIntendedSteps(env, w, desk, side, price, target50, now);
    var given := if desk == GoldDesk then target50 else None;
    var stop := env.host.floatText(StopLevel(side, env.host.parseFloat(price).value));
    CheckCancelSave(env, w, desk, EntryPlan(env, w, desk, side, price, target50, now).actions,
                    EntryRecord(desk, side, price, DeskQuantity(env, desk), given, Some(stop)), now);
  }

  /** The check, a cancel request, sends, then the save of `record`. */
  lemma CheckCancelSave(env: Env, w: World, desk: Desk, actions: seq<Action>, record: InstrumentOrder, now: int)
    requires var check := CheckDesk(w, desk, now);
             var n := |actions|;
             && n >= |check| + 3 && actions[..|check|] == check && actions[|check|].CancelOrders?
             && NetOnly(actions[|check| + 1..n - 1]) && actions[n - 1] == SaveDesk(desk, record)
    ensures var r := ApplyAll(env, w, actions, now);
            var cancel := actions[|CheckDesk(w, desk, now)|];
            && r.open == w.open && r.seen == w.seen && r.trend == w.trend
            && DeskSlot(r, desk) == Stored(now, record)
            && |r.net.outbox| > |w.net.outbox|
            && r.net.outbox[|w.net.outbox|] == CancelRequest(cancel.ticker, cancel.url)
  {
    var check := CheckDesk(w, desk, now);
    var n := |actions|;
    var cancel := actions[|check|];
    var middle := actions[|check| + 1..n - 1];
    var save := actions[n - 1];
    var tail := [cancel] + middle + [save];
    SplitAround(actions, |check|);
    ApplyAllAppend(env, w, check, tail, now);
    CheckDeskEffect(env, w, desk, now);
    CancelThenSave(env, ApplyAll(env, w, check, now), cancel, middle, save, now);
  }

  /** Dropping the last element of `xs + ys` past `xs` leaves `ys` without its last. */
  lemma SliceOfAppend(xs: seq<Action>, ys: seq<Action>)
    requires |ys| >= 1
    ensures (xs + ys)[|xs|..|xs| + |ys| - 1] == ys[..|ys| - 1]
  {
    var zs := xs + ys;
    assert forall i | 0 <= i < |ys| - 1 :: zs[|xs|..|xs| + |ys| - 1][i] == ys[i];
  }

  /** A sequence is its prefix, the element at `k`, the middle and its last element. */
  lemma SplitAround(actions: seq<Action>, k: nat)
    requires k + 2 <= |actions|
    ensures actions == actions[..k] + ([actions[k]] + actions[k + 1..|actions| - 1] + [actions[|actions| - 1]])
  {
    var n := |actions|;
    var tail := [actions[k]] + actions[k + 1..n - 1] + [actions[n - 1]];
    forall i | 0 <= i < n
      ensures actions[i] == (actions[..k] + tail)[i]
    {
      if k < i < n - 1 {
        assert tail[i - k] == actions[k + 1..n - 1][i - k - 1];
      }
    }
  }

  /** A cancel request, sends, then one slot write: the request is the first new event. */
  lemma CancelThenSave(env: Env, w: World, cancel: Action, middle: seq<Action>, save: Action, now: int)
    requires cancel.CancelOrders? && NetOnly(middle) && save.SaveDesk?
    ensures var r := ApplyAll(env, w, [cancel] + middle + [save], now);
            && r == Apply(env, w, save, now).(net := r.net)
            && |r.net.outbox| > |w.net.outbox| && r.net.outbox[|w.net.outbox|] == CancelRequest(cancel.ticker, cancel.url)
  {
    assert NetOnly([cancel] + middle);
    AroundSends(env, w, [cancel] + middle, save, [], now);
    assert [cancel] + middle + [save] + [] == [cancel] + middle + [save];
    assert [cancel] + middle + [save] == [cancel] + (middle + [save]);
    SendsOnlyChangeNet(env, w, [cancel] + middle, now);
    ApplyAllAppend(env, w, [cancel], middle + [save], now);
    ApplyAllOne(env, w, cancel, now);
    var w1 := Apply(env, w, cancel, now);
    EffectsOnlyAppend(env, w1, middle + [save], now);
    var r := ApplyAll(env, w, [cancel] + middle + [save], now);
    assert w1.net.outbox == w.net.outbox + [CancelRequest(cancel.ticker, cancel.url)];
    assert w1.net.outbox <= r.net.outbox;
    assert r.net.outbox[|w.net.outbox|] == w1.net.outbox[|w.net.outbox|];
  }

  /** The quantity a 50% target closes: the one given, or half the configured quantity. */
  function TargetQuantity(env: Env, desk: Desk, quantity: Option<string>): string {
    if Present(quantity) then quantity.value else IntText(TruncDiv(DeskQuantity(env, desk), 2))
  }

  /** The steps of a 50% target: the hit, then the save and the stop, or the clear. */
  lemma HalfTargetSteps(env: Env, w: World, desk: Desk, quantity: Option<string>, now: int)
    requires Live(DeskSlot(w, desk), now)
    requires ParseInt(TargetQuantity(env, desk, quantity)).Some?
    ensures var remaining := DeskQuantity(env, desk) - ParseInt(TargetQuantity(env, desk, quantity)).value;
            var record := DeskSlot(w, desk).info;
            var opposite := if record.action == "buy" then "sell" else "buy";
            var entry := env.host.parseFloat(record.price);
            var plan := HalfTargetPlan(env, w, desk, quantity, now);
            && |plan.actions| >= 2 && plan.actions[0].SendMany?
            && (remaining <= 0 ==> plan.actions == [plan.actions[0], ClearDesk(desk)])
            && (remaining > 0 ==> plan.actions[1] == SaveDesk(desk, record.(quantity := remaining)))
            && (remaining > 0 && entry.None? ==> |plan.actions| == 2 && plan.outcome == Caught)
            && (remaining > 0 && entry.Some? ==>
                  plan.actions == plan.actions[..2] + [SendMany(DeskStopPayload(desk, opposite, env.host.floatText(entry.value), IntText(remaining)),
                                                             [DeskUrl(env, desk)], DeskName(desk) + " 50% target stop order webhook", false)]
                  && plan.outcome == Completed)
  {
  }

  /**
   * A 50% target closes the target quantity; what is kept is the
   * configured quantity less it, whatever the record held. Something kept
   * is saved (its clock restarted), nothing kept clears the slot.
   */
  lemma HalfTargetKeepsConfiguredRest(env: Env, w: World, desk: Desk, quantity: Option<string>, now: int)
    requires Live(DeskSlot(w, desk), now)
    requires ParseInt(TargetQuantity(env, desk, quantity)).Some?
    ensures var t := ParseInt(TargetQuantity(env, desk, quantity)).value;
            var remaining := DeskQuantity(env, desk) - t;
            var w' := After(env, w, HalfTargetPlan(env, w, desk, quantity, now), now);
            && (!Present(quantity) ==> t == TruncDiv(DeskQuantity(env, desk), 2))
            && (remaining > 0 ==> DeskSlot(w', desk) == Stored(now, DeskSlot(w, desk).info.(quantity := remaining)))
            && (remaining <= 0 ==> DeskSlot(w', desk) == Empty)
            && w'.open == w.open && w'.seen == w.seen && DeskSlot(w', OtherDesk(desk)) == DeskSlot(w, OtherDesk(desk))
  {
    if !Present(quantity) {
      var text := IntText(TruncDiv(DeskQuantity(env, desk), 2));
      ParseIntText(TruncDiv(DeskQuantity(env, desk), 2), "", "");
      assert "" + text + "" == text;
    }
    HalfTargetSteps(env, w, desk, quantity, now);
    var actions := HalfTargetPlan(env, w, desk, quantity, now).actions;
    var hit := actions[0];
    var writes := actions[1];
    assert actions == [hit] + [writes] + actions[2..];
    assert NetOnly(actions[2..]);
    AroundSends(env, w, [hit], writes, actions[2..], now);
    ApplyAllOne(env, w, hit, now);
  }

  /** A target quantity that `int()` rejects raises after the hit is sent: the slot is kept. */
  lemma HalfTargetBadQuantity(env: Env, w: World, desk: Desk, quantity: Option<string>, now: int)
    requires Live(DeskSlot(w, desk), now)
    requires ParseInt(TargetQuantity(env, desk, quantity)).None?
    ensures var plan := HalfTargetPlan(env, w, desk, quantity, now);
            var w' := After(env, w, plan, now);
            plan.outcome == Caught && w' == w.(net := w'.net)
  {
    var plan := HalfTargetPlan(env, w, desk, quantity, now);
    ApplyAllOne(env, w, plan.actions[0], now);
  }

  /** An exit sends the desk's exit with a cancel flag and clears its slot, whatever it held. */
  lemma ExitClears(env: Env, w: World, desk: Desk, now: int)
    ensures var w' := After(env, w, ExitPlan(env, desk), now);
            && DeskSlot(w', desk) == Empty
            && w'.net == OrderExecutor.Send(w.net, DeskUrl(env, desk),
                                            map["ticker" := Str(DeskTicker(desk)), "action" := Str("exit"), "cancel" := Str("true")],
                                            None, DeskName(desk) + " exit webhook", false, env.settings.globalQuantity)
  {
    var actions := ExitPlan(env, desk).actions;
    SendToOneUrl(w.net, DeskUrl(env, desk), map["ticker" := Str(DeskTicker(desk)), "action" := Str("exit"), "cancel" := Str("true")],
                 None, DeskName(desk) + " exit webhook", false, env.settings.globalQuantity);
    assert actions == [actions[0]] + [actions[1]];
    ApplyAllAppend(env, w, [actions[0]], [actions[1]], now);
    ApplyAllOne(env, w, actions[0], now);
    ApplyAllOne(env, Apply(env, w, actions[0], now), actions[1], now);
  }

  // POST /fbd.

  /** The alert POST /fbd hands to a handler: the first of its patterns that matches the first embed. */
  function FbdAlert(embeds: seq<string>): Option<Alert> {
    if |embeds| == 0 || embeds[0] == "" then None
    else
      var content := embeds[0];
      match Classify(content)
      case TargetOne => Some(Target1Alert(ParseTargetHitMessage(content).value.groups, "fbd_endpoint"))
      case TargetTwo => Some(Target2Alert(ParseTarget2HitMessage(content).value.groups, "fbd_endpoint"))
      case StopLossHit => Some(StopLossAlert(ParseStopLossMessage(content).value.groups, "fbd_endpoint"))
      case LongTrigger => Some(LongAlert(ParseLongTriggeredMessage(content).value.groups, "fbd_endpoint"))
      case Unmatched => None
  }

  /**
   * POST /fbd runs exactly the handler of the alert it recognises, with
   * source "fbd_endpoint", and nothing when it recognises none; it answers
   * an error exactly when that handler raised past its own `try`.
   */
  lemma FbdRunsAlert(env: Env, w: World, embeds: seq<string>, now: int)
    ensures var alert := FbdAlert(embeds);
            var h := FbdEndpoint(env, w, embeds, now);
            && (alert.Some? ==>
                  && Matched(alert.value) && (Fingerprinted(alert.value) || alert.value.LongAlert?)
                  && alert.value.source == "fbd_endpoint"
                  && h.actions == AlertPlan(env, w, alert.value, now).actions
                  && (h.reply.status == Error <==> AlertPlan(env, w, alert.value, now).outcome == Escaped))
            && (alert.None? ==> h.actions == [] && h.reply.status != Success)
  {
  }

  /** Every handler POST /fbd runs leaves the gold and NQ slots and the trend alone. */
  lemma FbdKeepsDesks(env: Env, w: World, embeds: seq<string>, now: int)
    ensures var w' := ApplyAll(env, w, FbdEndpoint(env, w, embeds, now).actions, now);
            w'.gold == w.gold && w'.nq == w.nq && w'.trend == w.trend
  {
    FbdRunsAlert(env, w, embeds, now);
    if FbdAlert(embeds).Some? {
      PrimaryHandlersKeepDesks(env, w, FbdAlert(embeds).value, now);
    }
  }

  /**
   * The same alert delivered again at the same instant changes nothing: a
   * target or stop loss finds its fingerprint marked or the slot cleared,
   * an entry finds the slot it filled.
   */
  lemma FbdRedeliveryIsIgnored(env: Env, w: World, embeds: seq<string>, now: int)
    ensures var w1 := ApplyAll(env, w, FbdEndpoint(env, w, embeds, now).actions, now);
            ApplyAll(env, w1, FbdEndpoint(env, w1, embeds, now).actions, now) == w1
  {
    FbdRunsAlert(env, w, embeds, now);
    var w1 := ApplyAll(env, w, FbdEndpoint(env, w, embeds, now).actions, now);
    FbdRunsAlert(env, w1, embeds, now);
    if FbdAlert(embeds).Some? {
      var alert := FbdAlert(embeds).value;
      if alert.LongAlert? {
        LongRepeatIsIgnored(env, w, alert.groups, alert.source, now);
      } else {
        FingerprintedRepeatIsIgnored(env, w, alert, now);
      }
    }
  }

  /** A target or stop-loss alert handled twice at one instant acts at most once. */
  lemma FingerprintedRepeatIsIgnored(env: Env, w: World, alert: Alert, now: int)
    requires Matched(alert) && Fingerprinted(alert)
    ensures var w1 := After(env, w, AlertPlan(env, w, alert, now), now);
            After(env, w1, AlertPlan(env, w1, alert, now), now) == w1
  {
    var w1 := After(env, w, AlertPlan(env, w, alert, now), now);
    GuardsLeaveEverything(env, w, alert, now);
    if !Live(w.open, now) {
      CheckIsStable(w.open, now);
      GuardsLeaveEverything(env, w1, alert, now);
    } else if AlertPrices(env, alert).None? || AlertId(env, alert) in w.seen || w.open.info.source != alert.source {
      assert w1 == w;
    } else {
      match alert {
        case Target1Alert(g, source) => TargetHitHalves(env, w, g, source, now);
        case Target2Alert(_, _) => FullExitsClear(env, w, alert, now);
        case StopLossAlert(_, _) => FullExitsClear(env, w, alert, now);
        case StopLossSimpleAlert(_, _, _) => FullExitsClear(env, w, alert, now);
      }
      GuardsLeaveEverything(env, w1, alert, now);
    }
  }

  /** A long-triggered alert handled twice at one instant enters at most once. */
  lemma LongRepeatIsIgnored(env: Env, w: World, groups: seq<string>, source: string, now: int)
    requires Conforms(LongTriggered, groups)
    ensures var w1 := After(env, w, LongTriggeredPlan(env, w, groups, source, now), now);
            After(env, w1, LongTriggeredPlan(env, w1, groups, source, now), now) == w1
  {
    var w1 := After(env, w, LongTriggeredPlan(env, w, groups, source, now), now);
    if Live(w.open, now) {
      assert w1 == w;
    } else if Score(groups) >= 5 && LevelOf(env, groups).Some? && PriceOf(env, groups).Some? {
      LongTriggeredAccepts(env, w, groups, source, now);
      assert Live(w1.open, now);
    } else {
      LongTriggeredFields(groups);
      ScoreSplitsInTwo(groups[3]);
      assert LongTriggeredPlan(env, w, groups, source, now).actions == CheckOpen(w, now);
      CheckOpenEffect(env, w, now);
      CheckIsStable(w.open, now);
      assert LongTriggeredPlan(env, w1, groups, source, now).actions == CheckOpen(w1, now);
      CheckOpenEffect(env, w1, now);
    }
  }

  // The gold trend.

  /**
   * POST /gold-trend stores the lower-cased trend when it is "bullish" or
   * "bearish" in any case, answers success exactly then, and otherwise
   * changes nothing.
   */
  lemma TrendEndpointStoresLowercase(env: Env, w: World, trend: Option<string>, now: int)
    ensures var h := GoldTrendEndpoint(trend);
            var w' := ApplyAll(env, w, h.actions, now);
            && (h.reply.status == Success <==>
                  Present(trend) && (AsciiLower(trend.value) == "bullish" || AsciiLower(trend.value) == "bearish"))
            && (h.reply.status == Success ==> w' == w.(trend := Some(AsciiLower(trend.value))))
            && (h.reply.status != Success ==> w' == w)
  {
  }

  /** Lower-casing twice is lower-casing once. */
  lemma AsciiLowerIdempotent(s: string)
    ensures AsciiLower(AsciiLower(s)) == AsciiLower(s)
  {
    var once := AsciiLower(s);
    assert forall p | 0 <= p < |s| :: LowerChar(LowerChar(s[p])) == LowerChar(s[p]);
    assert forall p | 0 <= p < |s| :: AsciiLower(once)[p] == once[p];
  }

  /**
   * Alignment ignores the case of the trend, and a trend the endpoint
   * stored aligns with exactly one action.
   */
  lemma TrendAlignment(action: string, t: string)
    ensures IsGoldTrendAligned(action, Some(t)) == IsGoldTrendAligned(action, Some(AsciiLower(t)))
    ensures t == "bullish" ==> (IsGoldTrendAligned(action, Some(t)) <==> action == "buy")
    ensures t == "bearish" ==> (IsGoldTrendAligned(action, Some(t)) <==> action == "sell")
  {
    AsciiLowerIdempotent(t);
    assert AsciiLower("bullish") == "bullish";
    assert AsciiLower("bearish") == "bearish";
  }
}
