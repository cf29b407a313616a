/**
 * position_tracker.py: three single-record slots (primary, gold, NQ), each
 * a JSON file holding `{"timestamp": ..., "order_info": ...}`. A record
 * older than one hour is deleted the next time the slot is checked.
 *
 * A slot is `Empty` (no file), `Stored` (a readable file) or `Corrupt` (a
 * file that cannot be read or has no valid timestamp). Time is the
 * caller's clock reading `now`, in microseconds.
 */
module PositionTracker {
  import opened Wrappers
  import opened Orders

  /** `timedelta(hours=1)` in microseconds. */
  const OneHour: int := 3_600_000_000

  datatype SlotState<R> = Empty | Stored(timestamp: int, info: R) | Corrupt

  /** What the `get_*_order_info` functions return: the whole file. */
  datatype Record<R> = Record(timestamp: int, orderInfo: R)

  /** `datetime.now() - order_timestamp > timedelta(hours=1)`. */
  predicate Expired(timestamp: int, now: int) {
    now - timestamp > OneHour
  }

  /** What `has_*_order` answers. */
  predicate Live<R>(s: SlotState<R>, now: int) {
    s.Stored? && !Expired(s.timestamp, now)
  }

  /** The slot after `has_*_order`: an expired record is deleted, anything else is kept. */
  function AfterCheck<R>(s: SlotState<R>, now: int): (r: SlotState<R>)
    ensures r == Empty || r == s
    ensures !Live(s, now) && s.Stored? ==> r == Empty
    ensures s.Corrupt? ==> r == Corrupt
  {
    if s.Stored? && Expired(s.timestamp, now) then Empty else s
  }

  /** What `get_*_order_info` returns. */
  function Read<R>(s: SlotState<R>, now: int): (r: Option<Record<R>>)
    ensures r.None? <==> !Live(s, now)
    ensures r.Some? ==> r.value == Record(s.timestamp, s.info)
  {
    if Live(s, now) then Some(Record(s.timestamp, s.info)) else None
  }

  /** A checked slot answers the same again, and checking twice is checking once. */
  lemma CheckIsStable<R>(s: SlotState<R>, now: int)
    ensures Live(AfterCheck(s, now), now) == Live(s, now)
    ensures AfterCheck(AfterCheck(s, now), now) == AfterCheck(s, now)
    ensures Read(AfterCheck(s, now), now) == Read(s, now)
  {
  }

  /** A record saved at `t` is live up to one hour later and expired after that. */
  lemma SaveRestartsClock<R>(info: R, t: int, now: int)
    ensures Live(Stored(t, info), now) <==> now <= t + OneHour
    ensures Read(Stored(t, info), now).Some? ==> Read(Stored(t, info), now).value.orderInfo == info
  {
  }

  /** The three slots, one file each. */
  class Slots {
    var open: SlotState<OpenOrder>
    var gold: SlotState<InstrumentOrder>
    var nq: SlotState<InstrumentOrder>

    constructor(open: SlotState<OpenOrder>, gold: SlotState<InstrumentOrder>, nq: SlotState<InstrumentOrder>)
      ensures this.open == open && this.gold == gold && this.nq == nq
    {
      this.open := open;
      this.gold := gold;
      this.nq := nq;
    }

    /** `save_open_order`: the whole record is replaced and stamped with `now`. */
    method SaveOpenOrder(info: OpenOrder, now: int)
      modifies this
      ensures open == Stored(now, info)
      ensures gold == old(gold) && nq == old(nq)
    {
      open := Stored(now, info);
    }

    /** `has_open_order`: deletes an expired record as a side effect. */
    method HasOpenOrder(now: int) returns (has: bool)
      modifies this
      ensures has == Live(old(open), now)
      ensures open == AfterCheck(old(open), now)
      ensures gold == old(gold) && nq == old(nq)
    {
      match open
      case Empty =>
        has := false;
      case Corrupt =>
        has := false;
      case Stored(timestamp, _) =>
        if Expired(timestamp, now) {
          ClearOpenOrder();
          has := false;
        } else {
          has := true;
        }
    }

    /** `clear_open_order`: removes the file if there is one. */
    method ClearOpenOrder()
      modifies this
      ensures open == Empty
      ensures gold == old(gold) && nq == old(nq)
    {
      open := Empty;
    }

    /** `get_open_order_info`: checks the slot first, then reads it. */
    method GetOpenOrderInfo(now: int) returns (r: Option<Record<OpenOrder>>)
      modifies this
      ensures r == Read(old(open), now)
      ensures open == AfterCheck(old(open), now)
      ensures gold == old(gold) && nq == old(nq)
    {
      var has := HasOpenOrder(now);
      if !has {
        return None;
      }
      r := Some(Record(open.timestamp, open.info));
    }

    method SaveGoldOrder(info: InstrumentOrder, now: int)
      modifies this
      ensures gold == Stored(now, info)
      ensures open == old(open) && nq == old(nq)
    {
      gold := Stored(now, info);
    }

    method HasGoldOrder(now: int) returns (has: bool)
      modifies this
      ensures has == Live(old(gold), now)
      ensures gold == AfterCheck(old(gold), now)
      ensures open == old(open) && nq == old(nq)
    {
      match gold
      case Empty =>
        has := false;
      case Corrupt =>
        has := false;
      case Stored(timestamp, _) =>
        if Expired(timestamp, now) {
          ClearGoldOrder();
          has := false;
        } else {
          has := true;
        }
    }

    method ClearGoldOrder()
      modifies this
      ensures gold == Empty
      ensures open == old(open) && nq == old(nq)
    {
      gold := Empty;
    }

    method GetGoldOrderInfo(now: int) returns (r: Option<Record<InstrumentOrder>>)
      modifies this
      ensures r == Read(old(gold), now)
      ensures gold == AfterCheck(old(gold), now)
      ensures open == old(open) && nq == old(nq)
    {
      var has := HasGoldOrder(now);
      if !has {
        return None;
      }
      r := Some(Record(gold.timestamp, gold.info));
    }

    method SaveNqOrder(info: InstrumentOrder, now: int)
      modifies this
      ensures nq == Stored(now, info)
      ensures open == old(open) && gold == old(gold)
    {
      nq := Stored(now, info);
    }

    method HasNqOrder(now: int) returns (has: bool)
      modifies this
      ensures has == Live(old(nq), now)
      ensures nq == AfterCheck(old(nq), now)
      ensures open == old(open) && gold == old(gold)
    {
      match nq
      case Empty =>
        has := false;
      case Corrupt =>
        has := false;
      case Stored(timestamp, _) =>
        if Expired(timestamp, now) {
          ClearNqOrder();
          has := false;
        } else {
          has := true;
        }
    }

    method ClearNqOrder()
      modifies this
      ensures nq == Empty
      ensures open == old(open) && gold == old(gold)
    {
      nq := Empty;
    }

    method GetNqOrderInfo(now: int) returns (r: Option<Record<InstrumentOrder>>)
      modifies this
      ensures r == Read(old(nq), now)
      ensures nq == AfterCheck(old(nq), now)
      ensures open == old(open) && gold == old(gold)
    {
      var has := HasNqOrder(now);
      if !has {
        return None;
      }
      r := Some(Record(nq.timestamp, nq.info));
    }

    /**
     * `reset_orders_if_expired`, which reads the clock three times: in
     * `has_open_order` (`t1`), in the `has_open_order` that
     * `get_open_order_info` repeats (`t2`), and for its own age test (`t3`).
     * Only the primary slot is touched, and only ever cleared.
     */
    method ResetOrdersIfExpired(t1: int, t2: int, t3: int)
      modifies this
      ensures open == Empty || open == old(open)
      ensures open == Empty <==>
        old(open).Empty? ||
        (old(open).Stored? && (Expired(old(open).timestamp, t1) || Expired(old(open).timestamp, t2) || Expired(old(open).timestamp, t3)))
      ensures gold == old(gold) && nq == old(nq)
    {
      var has := HasOpenOrder(t1);
      if has {
        var info := GetOpenOrderInfo(t2);
        if info.Some? {
          if Expired(info.value.timestamp, t3) {
            ClearOpenOrder();
          }
        }
      }
    }
  }
}
