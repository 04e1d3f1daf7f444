/** Exactly which lists the sequencer keeps apart, whatever the timers do. */
module DispatchSpacing {
  import opened DispatchSequencer

  /** The batch that item `i` of a filtered list goes out in. */
  function BatchOf(size: nat, i: nat): nat {
    if size == 0 then 0 else i / size
  }

  /** The first item of batch `k` of a list of `n` items. */
  function FirstOf(size: nat, n: nat, k: nat): nat {
    if k == 0 then 0 else if size == 0 || k * size > n then n else k * size
  }

  /** `n` delays, one after another. */
  function Delays(n: int, delay: nat): nat {
    if n <= 0 then 0 else Delays(n - 1, delay) + delay
  }

  lemma {:induction false} DelaysAdd(a: nat, b: nat, delay: nat)
    ensures Delays(a + b, delay) == Delays(a, delay) + Delays(b, delay)
    decreases b
  {
    if b > 0 {
      DelaysAdd(a, b - 1, delay);
    }
  }

  lemma LaterItemLaterBatch(size: nat, i: nat, j: nat)
    requires i <= j
    ensures BatchOf(size, i) <= BatchOf(size, j)
  {
    if size > 0 {
      var a, b := i / size, j / size;
      assert b < a ==> (b + 1) * size <= a * size;
    }
  }

  /** Items that share an id are so many batches apart that the delays between them exceed the debounce time. */
  ghost predicate RepeatsAreFar(cfg: Settings, kept: seq<Item>) {
    forall i, j | 0 <= i < j < |kept| && kept[i].id == kept[j].id ::
      Delays(BatchOf(cfg.batchSize, j) - BatchOf(cfg.batchSize, i), cfg.batchDelay) > cfg.debounce
  }

  lemma FirstOfRest(size: nat, n: nat, k: nat)
    requires 0 < size <= n
    ensures FirstOf(size, n - size, k) + size == FirstOf(size, n, k + 1)
  {
    assert k * size + size == (k + 1) * size;
  }

  lemma {:induction false} BatchIsSlice(items: seq<Item>, size: nat, k: nat)
    requires k < |Batches(items, size)|
    ensures FirstOf(size, |items|, k) <= FirstOf(size, |items|, k + 1) <= |items|
    ensures Batches(items, size)[k] == items[FirstOf(size, |items|, k)..FirstOf(size, |items|, k + 1)]
    decreases |items|
  {
    var n := |items|;
    if size == 0 || n < size {
      assert items[0..n] == items;
    } else if k == 0 {
      FirstOfRest(size, n, 0);
    } else {
      BatchIsSlice(items[size..], size, k - 1);
      FirstOfRest(size, n, k - 1);
      FirstOfRest(size, n, k);
      var a, b := FirstOf(size, n - size, k - 1), FirstOf(size, n - size, k);
      assert items[size..][a..b] == items[a + size..b + size];
    }
  }

  lemma BatchOfSlice(size: nat, n: nat, k: nat, i: nat)
    requires FirstOf(size, n, k) <= i < FirstOf(size, n, k + 1) <= n
    ensures BatchOf(size, i) == k
  {
    if size > 0 {
      assert k * size <= i < (k + 1) * size by {
        assert k * size > n ==> FirstOf(size, n, k) == n;
      }
      Quotient(i, size, k);
    }
  }

  lemma Quotient(i: nat, size: nat, k: nat)
    requires size > 0 && k * size <= i < (k + 1) * size
    ensures i / size == k
  {
    var q := i / size;
    assert q * size <= i < q * size + size;
    assert q < k ==> (q + 1) * size <= k * size;
    assert q > k ==> (k + 1) * size <= q * size;
  }

  // ---------------------------------------------------------------- a list that is not interrupted

  function AllBatches(cfg: Settings, kept: seq<Item>): seq<seq<Item>> {
    if kept == [] then [] else Batches(kept, cfg.batchSize)
  }

  /** The state after `k` batches of `kept`; `sent` are their dispatches. */
  ghost predicate AfterBatches(cfg: Settings, start: State, kept: seq<Item>, k: nat, s: State, sent: seq<Dispatched>) {
    && k <= |AllBatches(cfg, kept)| && s.pending == AllBatches(cfg, kept)[k..]
    && s.batches == start.batches + k && s.log == start.log + sent
    && |sent| == FirstOf(cfg.batchSize, |kept|, k)
    && forall i | 0 <= i < |sent| ::
         sent[i].item == kept[i] && sent[i].batch == start.batches + BatchOf(cfg.batchSize, i)
  }

  lemma FireSendsNextBatch(cfg: Settings, start: State, kept: seq<Item>, k: nat, s: State, sent: seq<Dispatched>,
                           now: int, times: seq<int>)
    requires AfterBatches(cfg, start, kept, k, s, sent) && Legal(s, Fire(now, times))
    ensures AfterBatches(cfg, start, kept, k + 1, Apply(cfg, s, Fire(now, times)),
                         sent + Sent(s.pending[0], times, s.batches))
  {
    var n := |kept|;
    BatchIsSlice(kept, cfg.batchSize, k);
    var more := sent + Sent(s.pending[0], times, s.batches);
    forall i | |sent| <= i < |more|
      ensures more[i].item == kept[i] && more[i].batch == start.batches + BatchOf(cfg.batchSize, i)
    {
      BatchOfSlice(cfg.batchSize, n, k, i);
    }
    assert AllBatches(cfg, kept)[k..][1..] == AllBatches(cfg, kept)[k + 1..];
    assert s.log + Sent(s.pending[0], times, s.batches) == start.log + more;
  }

  /** For each batch since a dispatch a delay has passed before the next one is due. */
  ghost predicate DuePaced(due: int, batches: nat, delay: nat, now: int, sent: seq<Dispatched>) {
    && due >= now
    && forall i | 0 <= i < |sent| ::
         sent[i].time >= now && sent[i].batch < batches && due - sent[i].time >= Delays(batches - sent[i].batch, delay)
  }

  /** For each batch in between a delay lies between two dispatches. */
  ghost predicate PairPaced(delay: nat, sent: seq<Dispatched>) {
    forall i, j | 0 <= i < j < |sent| :: sent[j].time - sent[i].time >= Delays(sent[j].batch - sent[i].batch, delay)
  }

  ghost predicate Paced(cfg: Settings, s: State, now: int, sent: seq<Dispatched>) {
    DuePaced(s.due, s.batches, cfg.batchDelay, now, sent) && PairPaced(cfg.batchDelay, sent)
  }

  lemma DueAfterBatch(due: int, batches: nat, delay: nat, now: int, sent: seq<Dispatched>, at: int, items: seq<Item>,
                      times: seq<int>)
    requires DuePaced(due, batches, delay, now, sent) && |items| == |times| && at >= due && NonDecreasing(at, times)
    ensures DuePaced(End(at, times) + delay, batches + 1, delay, now, sent + Sent(items, times, batches))
  {
    TimesAreOrdered(at, times);
    var more := sent + Sent(items, times, batches);
    forall i | 0 <= i < |more|
      ensures more[i].time >= now && more[i].batch < batches + 1
      ensures End(at, times) + delay - more[i].time >= Delays(batches + 1 - more[i].batch, delay)
    {
      if i < |sent| {
        assert more[i] == sent[i];
        assert Delays(batches + 1 - sent[i].batch, delay) == Delays(batches - sent[i].batch, delay) + delay;
      } else {
        assert more[i] == Dispatched(items[i - |sent|], times[i - |sent|], batches);
        assert Delays(1, delay) == Delays(0, delay) + delay;
      }
    }
  }

  lemma PairsAfterBatch(due: int, batches: nat, delay: nat, now: int, sent: seq<Dispatched>, at: int, items: seq<Item>,
                        times: seq<int>)
    requires DuePaced(due, batches, delay, now, sent) && PairPaced(delay, sent)
    requires |items| == |times| && at >= due && NonDecreasing(at, times)
    ensures PairPaced(delay, sent + Sent(items, times, batches))
  {
    TimesAreOrdered(at, times);
    var more := sent + Sent(items, times, batches);
    forall i, j | 0 <= i < j < |more|
      ensures more[j].time - more[i].time >= Delays(more[j].batch - more[i].batch, delay)
    {
      if j < |sent| {
        assert more[i] == sent[i] && more[j] == sent[j];
      } else {
        assert more[j] == Dispatched(items[j - |sent|], times[j - |sent|], batches);
        if i < |sent| {
          assert more[i] == sent[i];
        } else {
          assert more[i] == Dispatched(items[i - |sent|], times[i - |sent|], batches);
        }
      }
    }
  }

  lemma FireKeepsPace(cfg: Settings, s: State, now: int, sent: seq<Dispatched>, at: int, times: seq<int>)
    requires Paced(cfg, s, now, sent) && Legal(s, Fire(at, times))
    ensures Paced(cfg, Apply(cfg, s, Fire(at, times)), now, sent + Sent(s.pending[0], times, s.batches))
  {
    DueAfterBatch(s.due, s.batches, cfg.batchDelay, now, sent, at, s.pending[0], times);
    PairsAfterBatch(s.due, s.batches, cfg.batchDelay, now, sent, at, s.pending[0], times);
  }

  lemma {:induction false} FiresArePaced(cfg: Settings, start: State, kept: seq<Item>, now: int, k: nat, s: State,
                                         sent: seq<Dispatched>, evs: seq<Event>) returns (all: seq<Dispatched>)
    requires AfterBatches(cfg, start, kept, k, s, sent) && Paced(cfg, s, now, sent)
    requires LegalRun(cfg, s, evs) && OnlyFires(evs)
    ensures AfterBatches(cfg, start, kept, k + |evs|, Run(cfg, s, evs), all) && Paced(cfg, Run(cfg, s, evs), now, all)
    decreases |evs|
  {
    all := sent;
    if evs != [] {
      assert evs[0] in evs;
      FireSendsNextBatch(cfg, start, kept, k, s, sent, evs[0].now, evs[0].times);
      FireKeepsPace(cfg, s, now, sent, evs[0].now, evs[0].times);
      all := sent + Sent(s.pending[0], evs[0].times, s.batches);
      all := FiresArePaced(cfg, start, kept, now, k + 1, Apply(cfg, s, evs[0]), all, evs[1..]);
    }
  }

  lemma FarRepeatsStayApart(cfg: Settings, start: State, kept: seq<Item>, now: int, s: State, sent: seq<Dispatched>,
                            k: nat)
    requires cfg.debounce != 0 && Inv(cfg, start) && RepeatsAreFar(cfg, kept)
    requires forall x <- kept :: Keeps(cfg, start.record, x, now)
    requires AfterBatches(cfg, start, kept, k, s, sent) && Paced(cfg, s, now, sent) && |sent| <= |kept|
    ensures Apart(cfg, s.log)
  {
    var n := |start.log|;
    forall i, j | 0 <= i < j < |s.log| && s.log[i].item.id == s.log[j].item.id
      ensures s.log[j].time - s.log[i].time > cfg.debounce
    {
      if j >= n {
        assert s.log[j] == sent[j - n] && kept[j - n] in kept;
        if i >= n {
          assert s.log[i] == sent[i - n];
        } else {
          assert s.log[i] == start.log[i];
        }
      } else {
        assert s.log[i] == start.log[i] && s.log[j] == start.log[j];
      }
    }
  }

  // ---------------------------------------------------------------- the earliest timers

  lemma {:induction false} AtOnce(now: int, n: nat)
    ensures NonDecreasing(now, seq(n, _ => now)) && End(now, seq(n, _ => now)) == now
  {
    if n > 0 {
      assert seq(n, _ => now)[1..] == seq(n - 1, _ => now);
      AtOnce(now, n - 1);
    }
  }

  lemma {:induction false} RunOneMore(cfg: Settings, s: State, evs: seq<Event>, ev: Event)
    requires LegalRun(cfg, s, evs) && Legal(Run(cfg, s, evs), ev)
    ensures LegalRun(cfg, s, evs + [ev]) && Run(cfg, s, evs + [ev]) == Apply(cfg, Run(cfg, s, evs), ev)
    decreases |evs|
  {
    if evs == [] {
      assert [ev][1..] == [] && [] + [ev] == [ev];
    } else {
      assert (evs + [ev])[1..] == evs[1..] + [ev];
      RunOneMore(cfg, Apply(cfg, s, evs[0]), evs[1..], ev);
    }
  }

  /** Every dispatch came as many delays after the list as its batch has predecessors. */
  ghost predicate Earliest(cfg: Settings, now: int, sent: seq<Dispatched>) {
    forall i | 0 <= i < |sent| :: sent[i].time == now + Delays(BatchOf(cfg.batchSize, i), cfg.batchDelay)
  }

  lemma EarliestBatch(cfg: Settings, kept: seq<Item>, now: int, k: nat, sent: seq<Dispatched>, items: seq<Item>,
                      batch: nat)
    requires Earliest(cfg, now, sent) && k < |AllBatches(cfg, kept)| && items == AllBatches(cfg, kept)[k]
    requires |sent| == FirstOf(cfg.batchSize, |kept|, k)
    ensures Earliest(cfg, now, sent + Sent(items, seq(|items|, _ => now + Delays(k, cfg.batchDelay)), batch))
  {
    var times := seq(|items|, _ => now + Delays(k, cfg.batchDelay));
    var more := sent + Sent(items, times, batch);
    BatchIsSlice(kept, cfg.batchSize, k);
    forall i | 0 <= i < |more|
      ensures more[i].time == now + Delays(BatchOf(cfg.batchSize, i), cfg.batchDelay)
    {
      if i < |sent| {
        assert more[i] == sent[i];
      } else {
        BatchOfSlice(cfg.batchSize, |kept|, k, i);
        assert more[i].time == times[i - |sent|];
      }
    }
  }

  /** Timers that fire as soon as they are due send batch `k` exactly `k` delays after the list arrived. */
  lemma {:induction false} EarliestRun(cfg: Settings, start: State, kept: seq<Item>, now: int, k: nat, s: State)
    returns (evs: seq<Event>, sent: seq<Dispatched>)
    requires AfterBatches(cfg, start, kept, 0, s, []) && s.due == now && s.clock == now && k <= |AllBatches(cfg, kept)|
    ensures LegalRun(cfg, s, evs) && OnlyFires(evs)
    ensures AfterBatches(cfg, start, kept, k, Run(cfg, s, evs), sent)
    ensures Run(cfg, s, evs).due == now + Delays(k, cfg.batchDelay)
        && Run(cfg, s, evs).clock <= now + Delays(k, cfg.batchDelay)
    ensures Earliest(cfg, now, sent)
    decreases k
  {
    if k == 0 {
      evs, sent := [], [];
    } else {
      var evs0, sent0 := EarliestRun(cfg, start, kept, now, k - 1, s);
      var t := Run(cfg, s, evs0);
      var items := t.pending[0];
      var times := seq(|items|, _ => t.due);
      var ev := Fire(t.due, times);
      AtOnce(t.due, |items|);
      RunOneMore(cfg, s, evs0, ev);
      FireSendsNextBatch(cfg, start, kept, k - 1, t, sent0, t.due, times);
      EarliestBatch(cfg, kept, now, k - 1, sent0, items, t.batches);
      evs, sent := evs0 + [ev], sent0 + Sent(items, times, t.batches);
    }
  }

  lemma {:induction false} LastBatch(items: seq<Item>, size: nat)
    ensures FirstOf(size, |items|, |Batches(items, size)|) == |items|
    decreases |items|
  {
    if size > 0 && |items| >= size {
      LastBatch(items[size..], size);
      var m := |Batches(items[size..], size)|;
      assert m * size + size == (m + 1) * size;
    }
  }

  lemma TooNear(cfg: Settings, now: int, before: seq<Dispatched>, sent: seq<Dispatched>, i: nat, j: nat)
    requires Earliest(cfg, now, sent) && i < j < |sent| && sent[i].item.id == sent[j].item.id
    requires Delays(BatchOf(cfg.batchSize, j) - BatchOf(cfg.batchSize, i), cfg.batchDelay) <= cfg.debounce
    ensures !Apart(cfg, before + sent)
  {
    var log, n := before + sent, |before|;
    assert log[n + i] == sent[i] && log[n + j] == sent[j];
    LaterItemLaterBatch(cfg.batchSize, i, j);
    DelaysAdd(BatchOf(cfg.batchSize, i), BatchOf(cfg.batchSize, j) - BatchOf(cfg.batchSize, i), cfg.batchDelay);
  }

  lemma NearRepeatsCollide(cfg: Settings, start: State, kept: seq<Item>, now: int, s: State) returns (evs: seq<Event>)
    requires AfterBatches(cfg, start, kept, 0, s, []) && s.due == now && s.clock == now && !RepeatsAreFar(cfg, kept)
    ensures LegalRun(cfg, s, evs) && OnlyFires(evs) && !Apart(cfg, Run(cfg, s, evs).log)
  {
    var sent;
    var i, j :| 0 <= i < j < |kept| && kept[i].id == kept[j].id
      && Delays(BatchOf(cfg.batchSize, j) - BatchOf(cfg.batchSize, i), cfg.batchDelay) <= cfg.debounce;
    evs, sent := EarliestRun(cfg, start, kept, now, |AllBatches(cfg, kept)|, s);
    LastBatch(kept, cfg.batchSize);
    TooNear(cfg, now, start.log, sent, i, j);
  }

  /**
   A list is dispatched with equal ids more than the debounce time apart, whenever its timers fire,
   exactly if equal ids that pass the filter are far enough apart in the list.
   */
  lemma ListStaysApart(cfg: Settings, start: State, list: seq<Item>, now: int)
    requires cfg.debounce != 0 && Inv(cfg, start) && Legal(start, Emit(list, now))
    ensures RepeatsAreFar(cfg, Filtered(cfg, start.record, list, now)) <==>
      forall evs | OnlyFires(evs) && LegalRun(cfg, Apply(cfg, start, Emit(list, now)), evs) ::
        Apart(cfg, Run(cfg, Apply(cfg, start, Emit(list, now)), evs).log)
  {
    var kept := Filtered(cfg, start.record, list, now);
    var s := Apply(cfg, start, Emit(list, now));
    FilteredIs(cfg, start.record, list, now);
    assert start.log + [] == start.log && AllBatches(cfg, kept)[0..] == AllBatches(cfg, kept);
    assert AfterBatches(cfg, start, kept, 0, s, []);
    if RepeatsAreFar(cfg, kept) {
      forall evs | OnlyFires(evs) && LegalRun(cfg, s, evs)
        ensures Apart(cfg, Run(cfg, s, evs).log)
      {
        var sent := FiresArePaced(cfg, start, kept, now, 0, s, [], evs);
        FarRepeatsStayApart(cfg, start, kept, now, Run(cfg, s, evs), sent, |evs|);
      }
    } else {
      var evs := NearRepeatsCollide(cfg, start, kept, now, s);
    }
  }
}
