/**
 * The running service of main.py: the three slots, the fingerprint
 * ledger, the webhook gateway and the global `gold_trend`, with one
 * method per handler and per endpoint. Each handler carries out, in
 * order, the effects its `Lifecycle` plan lists for the state it finds.
 */
module Server {
  import opened Wrappers
  import opened Patterns
  import opened PositionTracker
  import opened OrderExecutor
  import opened MessageParser
  import opened Lifecycle

  class Bot {
    const env: Env
    const slots: Slots
    const fingerprints: FingerprintLedger
    const gateway: Gateway
    var goldTrend: Option<string>

    /** A fresh process: empty slots and ledger, no trend, `replies` as the webhook oracle. */
    constructor(env: Env, replies: seq<bool>)
      ensures this.env == env
      ensures Snapshot() == World(Empty, Empty, Empty, {}, Net(replies, []), None)
    {
      this.env := env;
      slots := new Slots(Empty, Empty, Empty);
      fingerprints := new FingerprintLedger();
      gateway := new Gateway(replies);
      goldTrend := None;
    }

    function Snapshot(): World
      reads this, slots, fingerprints, gateway
    {
      World(slots.open, slots.gold, slots.nq, fingerprints.processed, gateway.State(), goldTrend)
    }

    /** Carry out one effect through the component that owns it. */
    method Perform(a: Action, now: int)
      modifies this, slots, fingerprints, gateway
      ensures Snapshot() == Apply(env, old(Snapshot()), a, now)
    {
      match a
      case SaveOpen(order) => slots.SaveOpenOrder(order, now);
      case ClearOpen => slots.ClearOpenOrder();
      case SaveDesk(desk, record) =>
        if desk == GoldDesk { slots.SaveGoldOrder(record, now); } else { slots.SaveNqOrder(record, now); }
      case ClearDesk(desk) =>
        if desk == GoldDesk { slots.ClearGoldOrder(); } else { slots.ClearNqOrder(); }
      case Mark(id) => fingerprints.MarkMessageProcessed(id);
      case Send(payload, url, quantity, operation, isEntry) =>
        gateway.SendWebhook(payload, url, quantity, operation, isEntry, env.settings.globalQuantity);
      case SendMany(payload, urls, operation, isEntry) =>
        gateway.SendWebhookToMultipleUrls(payload, Many(urls), operation, None, isEntry, env.settings.globalQuantity);
      case CancelOrders(ticker, url) => gateway.SendCancelWebhook(ticker, url);
      case SetTrend(trend) => goldTrend := Some(trend);
    }

    method PerformAll(actions: seq<Action>, now: int)
      modifies this, slots, fingerprints, gateway
      ensures Snapshot() == ApplyAll(env, old(Snapshot()), actions, now)
    {
      var i := 0;
      while i < |actions|
        invariant i <= |actions|
        invariant ApplyAll(env, Snapshot(), actions[i..], now) == ApplyAll(env, old(Snapshot()), actions, now)
      {
        assert actions[i..][0] == actions[i] && actions[i..][1..] == actions[i + 1..];
        Perform(actions[i], now);
        i := i + 1;
      }
    }

    method Run(plan: Plan, now: int) returns (outcome: Outcome)
      modifies this, slots, fingerprints, gateway
      ensures Snapshot() == ApplyAll(env, old(Snapshot()), plan.actions, now)
      ensures outcome == plan.outcome
    {
      PerformAll(plan.actions, now);
      outcome := plan.outcome;
    }

    method HandleTrim(groups: seq<string>, now: int) returns (outcome: Outcome)
      requires Conforms(Trim, groups)
      modifies this, slots, fingerprints, gateway
      ensures var plan := TrimPlan(env, old(Snapshot()), groups, now);
              Snapshot() == ApplyAll(env, old(Snapshot()), plan.actions, now) && outcome == plan.outcome
    {
      outcome := Run(TrimPlan(env, Snapshot(), groups, now), now);
    }

    method HandleStopped(now: int) returns (outcome: Outcome)
      modifies this, slots, fingerprints, gateway
      ensures var plan := StoppedPlan(env, old(Snapshot()), now);
              Snapshot() == ApplyAll(env, old(Snapshot()), plan.actions, now) && outcome == plan.outcome
    {
      outcome := Run(StoppedPlan(env, Snapshot(), now), now);
    }

    method HandleLongTriggered(groups: seq<string>, source: string, now: int) returns (outcome: Outcome)
      requires Conforms(LongTriggered, groups)
      modifies this, slots, fingerprints, gateway
      ensures var plan := LongTriggeredPlan(env, old(Snapshot()), groups, source, now);
              Snapshot() == ApplyAll(env, old(Snapshot()), plan.actions, now) && outcome == plan.outcome
    {
      outcome := Run(LongTriggeredPlan(env, Snapshot(), groups, source, now), now);
    }

    method HandleTargetHit(groups: seq<string>, source: string, now: int) returns (outcome: Outcome)
      requires Conforms(TargetHit, groups)
      modifies this, slots, fingerprints, gateway
      ensures var plan := TargetHitPlan(env, old(Snapshot()), groups, source, now);
              Snapshot() == ApplyAll(env, old(Snapshot()), plan.actions, now) && outcome == plan.outcome
    {
      outcome := Run(TargetHitPlan(env, Snapshot(), groups, source, now), now);
    }

    method HandleTarget2Hit(groups: seq<string>, source: string, now: int) returns (outcome: Outcome)
      requires Conforms(Target2Hit, groups)
      modifies this, slots, fingerprints, gateway
      ensures var plan := Target2HitPlan(env, old(Snapshot()), groups, source, now);
              Snapshot() == ApplyAll(env, old(Snapshot()), plan.actions, now) && outcome == plan.outcome
    {
      outcome := Run(Target2HitPlan(env, Snapshot(), groups, source, now), now);
    }

    method HandleStopLoss(groups: seq<string>, source: string, now: int) returns (outcome: Outcome)
      requires Conforms(StopLoss, groups)
      modifies this, slots, fingerprints, gateway
      ensures var plan := StopLossPlan(env, old(Snapshot()), groups, source, now);
              Snapshot() == ApplyAll(env, old(Snapshot()), plan.actions, now) && outcome == plan.outcome
    {
      outcome := Run(StopLossPlan(env, Snapshot(), groups, source, now), now);
    }

    method HandleStopLossSimple(groups: seq<string>, source: string, now: int, nowText: string) returns (outcome: Outcome)
      requires Conforms(StopLossSimple, groups)
      modifies this, slots, fingerprints, gateway
      ensures var plan := StopLossSimplePlan(env, old(Snapshot()), groups, source, now, nowText);
              Snapshot() == ApplyAll(env, old(Snapshot()), plan.actions, now) && outcome == plan.outcome
    {
      outcome := Run(StopLossSimplePlan(env, Snapshot(), groups, source, now, nowText), now);
    }

    /** The four gold and NQ entry handlers; `target50` is ignored for NQ. */
    method HandleEntry(desk: Desk, side: Side, price: string, target50: Option<string>, now: int) returns (outcome: Outcome)
      modifies this, slots, fingerprints, gateway
      ensures var plan := EntryPlan(env, old(Snapshot()), desk, side, price, target50, now);
              Snapshot() == ApplyAll(env, old(Snapshot()), plan.actions, now) && outcome == plan.outcome
    {
      outcome := Run(EntryPlan(env, Snapshot(), desk, side, price, target50, now), now);
    }

    method HandleHalfTarget(desk: Desk, quantity: Option<string>, now: int) returns (outcome: Outcome)
      modifies this, slots, fingerprints, gateway
      ensures var plan := HalfTargetPlan(env, old(Snapshot()), desk, quantity, now);
              Snapshot() == ApplyAll(env, old(Snapshot()), plan.actions, now) && outcome == plan.outcome
    {
      outcome := Run(HalfTargetPlan(env, Snapshot(), desk, quantity, now), now);
    }

    method HandleExit(desk: Desk, now: int) returns (outcome: Outcome)
      modifies this, slots, fingerprints, gateway
      ensures Snapshot() == ApplyAll(env, old(Snapshot()), ExitPlan(env, desk).actions, now)
      ensures outcome == Completed
    {
      outcome := Run(ExitPlan(env, desk), now);
    }

    method Serve(handled: Handled, now: int) returns (reply: Reply)
      modifies this, slots, fingerprints, gateway
      ensures Snapshot() == ApplyAll(env, old(Snapshot()), handled.actions, now)
      ensures reply == handled.reply
    {
      PerformAll(handled.actions, now);
      reply := handled.reply;
    }

    /** POST /gold-trend. */
    method GoldTrendWebhook(trend: Option<string>, now: int) returns (reply: Reply)
      modifies this, slots, fingerprints, gateway
      ensures var h := GoldTrendEndpoint(trend);
              Snapshot() == ApplyAll(env, old(Snapshot()), h.actions, now) && reply == h.reply
    {
      reply := Serve(GoldTrendEndpoint(trend), now);
    }

    /** POST /gold. */
    method GoldWebhook(action: Option<string>, price: Option<string>, target50: Option<string>, now: int) returns (reply: Reply)
      modifies this, slots, fingerprints, gateway
      ensures var h := GoldEndpoint(env, old(Snapshot()), action, price, target50, now);
              Snapshot() == ApplyAll(env, old(Snapshot()), h.actions, now) && reply == h.reply
    {
      reply := Serve(GoldEndpoint(env, Snapshot(), action, price, target50, now), now);
    }

    /** POST /nq. */
    method NqWebhook(action: Option<string>, price: Option<string>, now: int) returns (reply: Reply)
      modifies this, slots, fingerprints, gateway
      ensures var h := NqEndpoint(env, old(Snapshot()), action, price, now);
              Snapshot() == ApplyAll(env, old(Snapshot()), h.actions, now) && reply == h.reply
    {
      reply := Serve(NqEndpoint(env, Snapshot(), action, price, now), now);
    }

    /** POST /fbd. */
    method FbdWebhook(embeds: seq<string>, now: int) returns (reply: Reply)
      modifies this, slots, fingerprints, gateway
      ensures var h := FbdEndpoint(env, old(Snapshot()), embeds, now);
              Snapshot() == ApplyAll(env, old(Snapshot()), h.actions, now) && reply == h.reply
    {
      reply := Serve(FbdEndpoint(env, Snapshot(), embeds, now), now);
    }
  }
}
