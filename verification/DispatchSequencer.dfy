/** Debouncing and batching of dispatched actions, with later lists cancelling what is still pending. */
module DispatchSequencer {

  datatype Item = Item(id: string, action: string)

  /** A dispatch: what, when (in ms), and in which batch. */
  datatype Dispatched = Dispatched(item: Item, time: int, batch: nat)

  datatype Settings = Settings(batchSize: nat, batchDelay: nat, debounce: int)

  /** The moment an id was last dispatched; an unset or zero record counts as zero. */
  function Last(record: map<string, int>, id: string): int {
    if id in record then record[id] else 0
  }

  predicate Keeps(cfg: Settings, record: map<string, int>, item: Item, now: int) {
    cfg.debounce != 0 ==> now - Last(record, item.id) > cfg.debounce
  }

  function Filtered(cfg: Settings, record: map<string, int>, items: seq<Item>, now: int): seq<Item> {
    if items == [] then []
    else (if Keeps(cfg, record, items[0], now) then [items[0]] else []) + Filtered(cfg, record, items[1..], now)
  }

  /** Full buffers, then what is left when the list ends, which may be nothing. A size of zero never fills up. */
  function Batches(items: seq<Item>, size: nat): (r: seq<seq<Item>>)
    ensures r != []
    decreases |items|
  {
    if size == 0 || |items| < size then [items]
    else [items[..size]] + Batches(items[size..], size)
  }

  function Flatten(batches: seq<seq<Item>>): seq<Item> {
    if batches == [] then [] else batches[0] + Flatten(batches[1..])
  }

  /**
   `pending` are the batches of the latest list, emitted at `emitted`; the next one is not sent before
   `due`. `log` is the history of dispatches.
   */
  datatype State = State(record: map<string, int>, pending: seq<seq<Item>>, emitted: int, due: int, clock: int,
                         batches: nat, log: seq<Dispatched>)

  /** A list arrives, or the timer of the next batch fires and its items read the clock one by one. */
  datatype Event = Emit(list: seq<Item>, now: int) | Fire(now: int, times: seq<int>)

  predicate NonDecreasing(from: int, times: seq<int>)
    decreases |times|
  {
    times != [] ==> times[0] >= from && NonDecreasing(times[0], times[1..])
  }

  function End(from: int, times: seq<int>): int
    decreases |times|
  {
    if times == [] then from else End(times[0], times[1..])
  }

  predicate Legal(s: State, ev: Event) {
    match ev
    case Emit(_, now) => now >= s.clock
    case Fire(now, times) =>
      s.pending != [] && now >= s.clock && now >= s.due && |times| == |s.pending[0]| && NonDecreasing(now, times)
  }

  function Recorded(record: map<string, int>, items: seq<Item>, times: seq<int>): map<string, int>
    requires |items| == |times|
    decreases |items|
  {
    if items == [] then record else Recorded(record[items[0].id := times[0]], items[1..], times[1..])
  }

  function Sent(items: seq<Item>, times: seq<int>, batch: nat): (r: seq<Dispatched>)
    requires |items| == |times|
  {
    seq(|items|, i requires 0 <= i < |items| => Dispatched(items[i], times[i], batch))
  }

  function Apply(cfg: Settings, s: State, ev: Event): State
    requires Legal(s, ev)
  {
    match ev
    case Emit(list, now) =>
      var kept := Filtered(cfg, s.record, list, now);
      s.(pending := if kept == [] then [] else Batches(kept, cfg.batchSize), emitted := now, due := now, clock := now)
    case Fire(now, times) =>
      var end := End(now, times);
      s.(record := Recorded(s.record, s.pending[0], times), pending := s.pending[1..],
         due := end + cfg.batchDelay, clock := end,
         batches := s.batches + 1, log := s.log + Sent(s.pending[0], times, s.batches))
  }

  ghost predicate LegalRun(cfg: Settings, s: State, evs: seq<Event>)
    decreases |evs|
  {
    evs != [] ==> Legal(s, evs[0]) && LegalRun(cfg, Apply(cfg, s, evs[0]), evs[1..])
  }

  function Run(cfg: Settings, s: State, evs: seq<Event>): State
    requires LegalRun(cfg, s, evs)
    decreases |evs|
  {
    if evs == [] then s else Run(cfg, Apply(cfg, s, evs[0]), evs[1..])
  }

  function Start(clock: int): State {
    State(map[], [], clock, clock, clock, 0, [])
  }

  /** The sequencer itself; `State()` also describes the subscription that holds the pending batches. */
  class Sequencer {
    const cfg: Settings
    var dispatchRecord: map<string, int>
    var pending: seq<seq<Item>>
    ghost var emitted: int
    ghost var due: int
    ghost var clock: int
    ghost var batches: nat
    ghost var log: seq<Dispatched>

    ghost function Current(): State
      reads this
    {
      State(dispatchRecord, pending, emitted, due, clock, batches, log)
    }

    constructor (cfg: Settings, ghost now: int)
      ensures this.cfg == cfg && Current() == Start(now)
    {
      this.cfg := cfg;
      dispatchRecord, pending, log := map[], [], [];
      emitted, due, clock, batches := now, now, now, 0;
    }

    /** Each item of a batch is recorded with its own reading of the clock. */
    method Dispatch(items: seq<Item>, times: seq<int>)
      requires |items| == |times|
      modifies this`dispatchRecord, this`log
      ensures dispatchRecord == Recorded(old(dispatchRecord), items, times)
      ensures log == old(log) + Sent(items, times, batches)
    {
      for i := 0 to |items|
        invariant Recorded(old(dispatchRecord), items, times) == Recorded(dispatchRecord, items[i..], times[i..])
        invariant log == old(log) + Sent(items, times, batches)[..i]
      {
        dispatchRecord := dispatchRecord[items[i].id := times[i]];
        log := log + [Dispatched(items[i], times[i], batches)];
        assert items[i..][1..] == items[i + 1..] && times[i..][1..] == times[i + 1..];
      }
    }

    /** Switching to a new list drops the pending batches, even if nothing of the new list is kept. */
    method Sequence(list: seq<Item>, now: int)
      requires Legal(Current(), Emit(list, now))
      modifies this
      ensures Current() == Apply(cfg, old(Current()), Emit(list, now))
    {
      pending := [];
      emitted, due, clock := now, now, now;
      if list != [] {
        var kept := Filtered(cfg, dispatchRecord, list, now);
        if kept != [] {
          pending := Batches(kept, cfg.batchSize);
        }
      }
    }

    method SendBatch(ghost now: int, times: seq<int>)
      requires Legal(Current(), Fire(now, times))
      modifies this
      ensures Current() == Apply(cfg, old(Current()), Fire(now, times))
    {
      var batch := pending[0];
      pending := pending[1..];
      Dispatch(batch, times);
      clock := End(now, times);
      due, batches := clock + cfg.batchDelay, batches + 1;
    }
  }

  // ---------------------------------------------------------------- debounce

  predicate DifferentIds(items: seq<Item>) {
    forall i, j | 0 <= i < j < |items| :: items[i].id != items[j].id
  }

  ghost predicate Apart(cfg: Settings, log: seq<Dispatched>) {
    forall i, j | 0 <= i < j < |log| && log[i].item.id == log[j].item.id :: log[j].time - log[i].time > cfg.debounce
  }

  /** The record holds the last dispatch of every id. */
  ghost predicate RecordIsLast(record: map<string, int>, log: seq<Dispatched>, clock: int) {
    && (forall i | 0 <= i < |log| :: log[i].item.id in record && log[i].time <= record[log[i].item.id])
    && (forall id <- record ::
          record[id] <= clock && exists i :: 0 <= i < |log| && log[i].item.id == id && log[i].time == record[id])
  }

  ghost predicate Waiting(cfg: Settings, record: map<string, int>, todo: seq<Item>, emitted: int) {
    && DifferentIds(todo)
    && (cfg.debounce != 0 ==> forall i | 0 <= i < |todo| :: emitted - Last(record, todo[i].id) > cfg.debounce)
  }

  ghost predicate Inv(cfg: Settings, s: State) {
    && (cfg.debounce != 0 ==> Apart(cfg, s.log))
    && RecordIsLast(s.record, s.log, s.clock)
    && Waiting(cfg, s.record, Flatten(s.pending), s.emitted)
    && s.emitted <= s.clock
  }

  lemma RecordOne(record: map<string, int>, log: seq<Dispatched>, d: Dispatched, clock: int)
    requires RecordIsLast(record, log, clock) && clock <= d.time
    ensures RecordIsLast(record[d.item.id := d.time], log + [d], d.time)
  {
    var log', record' := log + [d], record[d.item.id := d.time];
    forall id <- record'
      ensures record'[id] <= d.time
      ensures exists i :: 0 <= i < |log'| && log'[i].item.id == id && log'[i].time == record'[id]
    {
      if id == d.item.id {
        assert log'[|log|].item.id == id;
      } else {
        var i :| 0 <= i < |log| && log[i].item.id == id && log[i].time == record[id];
        assert log'[i].item.id == id;
      }
    }
  }

  /** Sending the next item keeps the distances: nothing with its id was sent since its list was filtered. */
  lemma SendOne(cfg: Settings, record: map<string, int>, log: seq<Dispatched>, todo: seq<Item>, emitted: int,
                clock: int, time: int, batch: nat)
    requires RecordIsLast(record, log, clock) && todo != [] && Waiting(cfg, record, todo, emitted)
        && emitted <= clock <= time
    ensures cfg.debounce != 0 && Apart(cfg, log) ==> Apart(cfg, log + [Dispatched(todo[0], time, batch)])
    ensures RecordIsLast(record[todo[0].id := time], log + [Dispatched(todo[0], time, batch)], time)
    ensures Waiting(cfg, record[todo[0].id := time], todo[1..], emitted)
  {
    RecordOne(record, log, Dispatched(todo[0], time, batch), clock);
  }

  lemma {:induction false} SendAll(cfg: Settings, record: map<string, int>, log: seq<Dispatched>, items: seq<Item>,
                                   rest: seq<Item>, emitted: int, clock: int, times: seq<int>, batch: nat)
    requires RecordIsLast(record, log, clock) && Waiting(cfg, record, items + rest, emitted) && emitted <= clock
    requires cfg.debounce != 0 ==> Apart(cfg, log)
    requires |times| == |items| && NonDecreasing(clock, times)
    ensures cfg.debounce != 0 ==> Apart(cfg, log + Sent(items, times, batch))
    ensures RecordIsLast(Recorded(record, items, times), log + Sent(items, times, batch), End(clock, times))
    ensures Waiting(cfg, Recorded(record, items, times), rest, emitted) && clock <= End(clock, times)
    decreases |items|
  {
    if items == [] {
      assert items + rest == rest && log + Sent(items, times, batch) == log;
    } else {
      var d := Dispatched(items[0], times[0], batch);
      SendOne(cfg, record, log, items + rest, emitted, clock, times[0], batch);
      assert (items + rest)[1..] == items[1..] + rest;
      assert (log + [d]) + Sent(items[1..], times[1..], batch) == log + Sent(items, times, batch);
      SendAll(cfg, record[items[0].id := times[0]], log + [d], items[1..], rest, emitted, times[0], times[1..], batch);
    }
  }

  lemma ClockAdvances(record: map<string, int>, log: seq<Dispatched>, clock: int, later: int)
    requires RecordIsLast(record, log, clock) && clock <= later
    ensures RecordIsLast(record, log, later)
  {
  }

  lemma {:induction false} FilteredIs(cfg: Settings, record: map<string, int>, items: seq<Item>, now: int)
    ensures forall x <- Filtered(cfg, record, items, now) :: x in items && Keeps(cfg, record, x, now)
    ensures forall x <- items :: Keeps(cfg, record, x, now) ==> x in Filtered(cfg, record, items, now)
    decreases |items|
  {
    if items != [] {
      FilteredIs(cfg, record, items[1..], now);
      assert items == [items[0]] + items[1..];
    }
  }

  /**
   Filtering is a selection in the order of the list: the items at the positions `at`, which are those of
   the items not dispatched within the debounce time, or all if there is none.
   */
  lemma {:induction false} FilteredSelects(cfg: Settings, record: map<string, int>, items: seq<Item>, now: int)
    returns (at: seq<nat>)
    ensures var kept := Filtered(cfg, record, items, now);
      |at| == |kept| && forall k | 0 <= k < |at| :: at[k] < |items| && kept[k] == items[at[k]]
    ensures forall k, l | 0 <= k < l < |at| :: at[k] < at[l]
    ensures forall i | 0 <= i < |items| ::
      i in at <==> cfg.debounce == 0 || now - (if items[i].id in record then record[items[i].id] else 0) > cfg.debounce
    decreases |items|
  {
    at := [];
    if items != [] {
      var n := |items| - 1;
      at := FilteredSelects(cfg, record, items[..n], now);
      FilteredLast(cfg, record, items[..n], items[n], now);
      assert items == items[..n] + [items[n]];
      if Keeps(cfg, record, items[n], now) {
        at := at + [n];
      }
    }
  }

  lemma {:induction false} FilteredLast(cfg: Settings, record: map<string, int>, items: seq<Item>, last: Item, now: int)
    ensures Filtered(cfg, record, items + [last], now)
            == Filtered(cfg, record, items, now) + if Keeps(cfg, record, last, now) then [last] else []
    decreases |items|
  {
    if items == [] {
      assert items + [last] == [last];
    } else {
      assert (items + [last])[1..] == items[1..] + [last];
      FilteredLast(cfg, record, items[1..], last, now);
    }
  }

  lemma {:induction false} FilteredKeepsIdsDifferent(cfg: Settings, record: map<string, int>, items: seq<Item>,
                                                     now: int)
    requires DifferentIds(items)
    ensures DifferentIds(Filtered(cfg, record, items, now))
    decreases |items|
  {
    if items != [] {
      FilteredKeepsIdsDifferent(cfg, record, items[1..], now);
      FilteredIs(cfg, record, items[1..], now);
      forall x <- Filtered(cfg, record, items[1..], now)
        ensures x.id != items[0].id
      {
        var k :| 0 <= k < |items[1..]| && items[1..][k] == x;
        assert items[k + 1] == x;
      }
    }
  }

  lemma {:induction false} FlattenBatches(items: seq<Item>, size: nat)
    ensures Flatten(Batches(items, size)) == items
    ensures size > 0 ==> forall b <- Batches(items, size) :: |b| <= size
    decreases |items|
  {
    if size == 0 || |items| < size {
      assert Flatten([items]) == items + Flatten([]);
    } else {
      FlattenBatches(items[size..], size);
      var rest := Batches(items[size..], size);
      assert ([items[..size]] + rest)[1..] == rest;
      assert items[..size] + items[size..] == items;
    }
  }

  lemma EmitKeepsInv(cfg: Settings, s: State, list: seq<Item>, now: int)
    requires Inv(cfg, s) && Legal(s, Emit(list, now)) && DifferentIds(list)
    ensures Inv(cfg, Apply(cfg, s, Emit(list, now)))
  {
    var kept := Filtered(cfg, s.record, list, now);
    ClockAdvances(s.record, s.log, s.clock, now);
    FilteredKeepsIdsDifferent(cfg, s.record, list, now);
    FilteredIs(cfg, s.record, list, now);
    FlattenBatches(kept, cfg.batchSize);
    forall i | 0 <= i < |kept|
      ensures Keeps(cfg, s.record, kept[i], now)
    {
      assert kept[i] in kept;
    }
  }

  lemma FireKeepsInv(cfg: Settings, s: State, now: int, times: seq<int>)
    requires Inv(cfg, s) && Legal(s, Fire(now, times))
    ensures Inv(cfg, Apply(cfg, s, Fire(now, times)))
  {
    ClockAdvances(s.record, s.log, s.clock, now);
    SendAll(cfg, s.record, s.log, s.pending[0], Flatten(s.pending[1..]), s.emitted, now, times, s.batches);
  }

  ghost predicate ListsHaveDifferentIds(evs: seq<Event>) {
    forall ev <- evs :: ev.Emit? ==> DifferentIds(ev.list)
  }

  lemma {:induction false} RunKeepsInv(cfg: Settings, s: State, evs: seq<Event>)
    requires Inv(cfg, s) && LegalRun(cfg, s, evs) && ListsHaveDifferentIds(evs)
    ensures Inv(cfg, Run(cfg, s, evs))
    decreases |evs|
  {
    if evs != [] {
      assert evs[0] in evs;
      match evs[0] {
        case Emit(list, now) => EmitKeepsInv(cfg, s, list, now);
        case Fire(now, times) => FireKeepsInv(cfg, s, now, times);
      }
      RunKeepsInv(cfg, Apply(cfg, s, evs[0]), evs[1..]);
    }
  }

  /**
   In every run of lists without repeated ids, two dispatches of one id are more than the debounce
   time apart, even when a later list cancelled batches of an earlier one.
   */
  lemma DispatchesAreApart(cfg: Settings, start: int, evs: seq<Event>, i: nat, j: nat)
    requires cfg.debounce != 0 && LegalRun(cfg, Start(start), evs) && ListsHaveDifferentIds(evs)
    requires var log := Run(cfg, Start(start), evs).log; i < j < |log| && log[i].item.id == log[j].item.id
    ensures var log := Run(cfg, Start(start), evs).log; log[j].time - log[i].time > cfg.debounce
  {
    RunKeepsInv(cfg, Start(start), evs);
  }

  /** An item of a list is kept exactly if its id was not dispatched within the debounce time before. */
  lemma KeptIfNotRecent(cfg: Settings, start: int, evs: seq<Event>, item: Item, now: int)
    requires cfg.debounce != 0 && LegalRun(cfg, Start(start), evs) && ListsHaveDifferentIds(evs)
    requires now > cfg.debounce
    ensures var s := Run(cfg, Start(start), evs);
      Keeps(cfg, s.record, item, now) <==> forall d <- s.log :: d.item.id == item.id ==> now - d.time > cfg.debounce
  {
    var s := Run(cfg, Start(start), evs);
    RunKeepsInv(cfg, Start(start), evs);
    if item.id in s.record {
      var i :| 0 <= i < |s.log| && s.log[i].item.id == item.id && s.log[i].time == s.record[item.id];
      assert s.log[i] in s.log;
    }
  }

  /** A list that repeats an id defeats the debounce: both items are in one batch and go out at once. */
  lemma RepeatedIdIsSentTwice(cfg: Settings, x: Item, now: int) returns (evs: seq<Event>)
    requires cfg.debounce > 0 && cfg.batchSize >= 2 && now > cfg.debounce
    ensures LegalRun(cfg, Start(now), evs)
    ensures Run(cfg, Start(now), evs).log == [Dispatched(x, now, 0), Dispatched(x, now, 0)]
  {
    var list, times := [x, x], [now, now];
    evs := [Emit(list, now), Fire(now, times)];
    var s0 := Start(now);
    assert list[1..] == [x] && [x][1..] == [];
    assert Filtered(cfg, map[], [x], now) == [x] + Filtered(cfg, map[], [], now);
    assert Filtered(cfg, map[], list, now) == list;
    var s1 := Apply(cfg, s0, evs[0]);
    assert s1.pending[0] == list by {
      if cfg.batchSize == 2 {
        assert list[..2] == list;
      }
    }
    assert times[1..] == [now] && NonDecreasing(now, [now]) && NonDecreasing(now, times);
    assert evs[1..] == [evs[1]] && [evs[1]][1..] == [];
    assert Legal(s1, evs[1]);
    assert Run(cfg, s1, [evs[1]]) == Run(cfg, Apply(cfg, s1, evs[1]), []);
    assert [] + Sent(list, times, 0) == [Dispatched(x, now, 0), Dispatched(x, now, 0)];
  }

  // ---------------------------------------------------------------- batches of an uninterrupted list

  function ItemsOf(log: seq<Dispatched>): seq<Item> {
    seq(|log|, i requires 0 <= i < |log| => log[i].item)
  }

  ghost predicate OnlyFires(evs: seq<Event>) {
    forall ev <- evs :: ev.Fire?
  }

  /** Since `from` was logged: what went out, followed by what is pending, is `items`, in their order. */
  ghost predicate Delivers(s: State, from: nat, items: seq<Item>) {
    from <= |s.log| && ItemsOf(s.log[from..]) + Flatten(s.pending) == items
  }

  ghost predicate Spread(cfg: Settings, s: State, from: nat) {
    && (forall i | from <= i < |s.log| :: s.log[i].batch < s.batches && s.log[i].time + cfg.batchDelay <= s.due)
    && (forall i, j | from <= i < j < |s.log| ::
          if s.log[i].batch == s.log[j].batch
          then s.log[i].time <= s.log[j].time && (cfg.batchSize > 0 ==> j - i < cfg.batchSize)
          else s.log[i].time + cfg.batchDelay <= s.log[j].time)
  }

  lemma {:induction false} TimesAreOrdered(from: int, times: seq<int>)
    requires NonDecreasing(from, times)
    ensures from <= End(from, times)
    ensures forall i | 0 <= i < |times| :: from <= times[i] <= End(from, times)
    ensures forall i, j | 0 <= i < j < |times| :: times[i] <= times[j]
    decreases |times|
  {
    if times != [] {
      TimesAreOrdered(times[0], times[1..]);
    }
  }

  lemma FireSpreads(cfg: Settings, s: State, from: nat, now: int, times: seq<int>)
    requires Spread(cfg, s, from) && Legal(s, Fire(now, times)) && from <= |s.log|
    requires cfg.batchSize > 0 ==> |s.pending[0]| <= cfg.batchSize
    ensures Spread(cfg, Apply(cfg, s, Fire(now, times)), from)
  {
    TimesAreOrdered(now, times);
  }

  lemma FireDelivers(cfg: Settings, s: State, from: nat, items: seq<Item>, now: int, times: seq<int>)
    requires Delivers(s, from, items) && Legal(s, Fire(now, times))
    ensures Delivers(Apply(cfg, s, Fire(now, times)), from, items)
  {
    var t := Apply(cfg, s, Fire(now, times));
    assert ItemsOf(t.log[from..]) == ItemsOf(s.log[from..]) + s.pending[0];
  }

  lemma {:induction false} FiresDeliver(cfg: Settings, s: State, from: nat, items: seq<Item>, evs: seq<Event>)
    requires Delivers(s, from, items) && Spread(cfg, s, from) && LegalRun(cfg, s, evs) && OnlyFires(evs)
    requires cfg.batchSize > 0 ==> forall b <- s.pending :: |b| <= cfg.batchSize
    ensures Delivers(Run(cfg, s, evs), from, items) && Spread(cfg, Run(cfg, s, evs), from)
    ensures |evs| + |Run(cfg, s, evs).pending| == |s.pending|
    decreases |evs|
  {
    if evs != [] {
      assert evs[0] in evs && s.pending[0] in s.pending;
      FireSpreads(cfg, s, from, evs[0].now, evs[0].times);
      FireDelivers(cfg, s, from, items, evs[0].now, evs[0].times);
      FiresDeliver(cfg, Apply(cfg, s, evs[0]), from, items, evs[1..]);
    }
  }

  /**
   A list that is not interrupted goes out as its filtered items, all of them, in their order, in
   batches of at most the batch size; items of different batches are at least the batch delay apart.
   */
  lemma UninterruptedListIsBatched(cfg: Settings, s: State, list: seq<Item>, now: int, evs: seq<Event>)
    requires Legal(s, Emit(list, now)) && OnlyFires(evs) && LegalRun(cfg, Apply(cfg, s, Emit(list, now)), evs)
    ensures var end := Run(cfg, Apply(cfg, s, Emit(list, now)), evs);
      && Spread(cfg, end, |s.log|)
      && Delivers(end, |s.log|, Filtered(cfg, s.record, list, now))
      && (end.pending == [] ==> ItemsOf(end.log[|s.log|..]) == Filtered(cfg, s.record, list, now))
  {
    var kept := Filtered(cfg, s.record, list, now);
    var s1 := Apply(cfg, s, Emit(list, now));
    FlattenBatches(kept, cfg.batchSize);
    assert s.log[|s.log|..] == [];
    assert ItemsOf([]) + Flatten(s1.pending) == kept;
    FiresDeliver(cfg, s1, |s.log|, kept, evs);
    var end := Run(cfg, s1, evs);
    if end.pending == [] {
      assert ItemsOf(end.log[|s.log|..]) + [] == kept;
    }
  }
}
