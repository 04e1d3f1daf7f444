/**
 The proxy's fan-out: one worker per endpoint, one unbuffered channel, and one collector that starts
 receiving only when every worker has been launched.
 */
module FanOut {
  import opened Wrappers

  import GoText

  /** What a request knows of its endpoint's answer once its worker is done. */
  datatype Answer = Answer(statusCode: int, status: GoText.Text, response: GoText.Text, error: Option<GoText.Text>)

  /**
   Request `i` of a call: whether it can be built, the key its answer is collected under (the
   endpoint GUID, or the caller's result GUID) and what its worker sends.
   */
  datatype Job = Job(built: bool, key: string, result: Answer)

  datatype Worker = Idle | Running | Sending | Exited

  /** `received` is the history of the channel: the workers whose results were taken, in order. */
  datatype State = State(launched: nat, failed: bool, workers: seq<Worker>, received: seq<nat>,
                         responses: map<string, Answer>)

  datatype Step = Launch | Fail | Compute(worker: nat) | Rendezvous(worker: nat)

  function Start(jobs: seq<Job>): State {
    State(0, false, seq(|jobs|, _ => Idle), [], map[])
  }

  predicate Enabled(jobs: seq<Job>, s: State, step: Step)
    requires |s.workers| == |jobs|
  {
    match step
    case Launch => !s.failed && s.launched < |jobs| && jobs[s.launched].built
    case Fail => !s.failed && s.launched < |jobs| && !jobs[s.launched].built
    case Compute(i) => i < |jobs| && s.workers[i] == Running
    case Rendezvous(i) =>
      !s.failed && s.launched == |jobs| && |s.received| < |jobs| && i < |jobs| && s.workers[i] == Sending
  }

  function Take(jobs: seq<Job>, s: State, step: Step): State
    requires |s.workers| == |jobs| && Enabled(jobs, s, step)
  {
    match step
    case Launch => s.(workers := s.workers[s.launched := Running], launched := s.launched + 1)
    case Fail => s.(failed := true)
    case Compute(i) => s.(workers := s.workers[i := Sending])
    case Rendezvous(i) =>
      s.(workers := s.workers[i := Exited],
         received := s.received + [i],
         responses := s.responses[jobs[i].key := jobs[i].result])
  }

  /** The steps happened one after another from the start, ending in `s`. */
  ghost predicate Reaches(jobs: seq<Job>, steps: seq<Step>, s: State)
    decreases |steps|
  {
    if steps == [] then s == Start(jobs)
    else
      var n := |steps| - 1;
      exists before: State ::
        && Reaches(jobs, steps[..n], before)
        && |before.workers| == |jobs|
        && Enabled(jobs, before, steps[n])
        && s == Take(jobs, before, steps[n])
  }

  /** The steps lead to `s`, and no further step is possible. */
  ghost predicate Finished(jobs: seq<Job>, steps: seq<Step>, s: State) {
    && Reaches(jobs, steps, s)
    && |s.workers| == |jobs|
    && forall step: Step :: !Enabled(jobs, s, step)
  }

  predicate Below(n: nat, order: seq<nat>) {
    forall j | 0 <= j < |order| :: order[j] < n
  }

  /** The answers as they are collected when the results arrive in `order`. */
  function Collected(jobs: seq<Job>, order: seq<nat>): map<string, Answer>
    requires Below(|jobs|, order)
  {
    if order == [] then map[]
    else
      var i := order[|order| - 1];
      Collected(jobs, order[..|order| - 1])[jobs[i].key := jobs[i].result]
  }

  function UpTo(n: nat): (r: seq<nat>)
    ensures |r| == n && forall i | 0 <= i < n :: r[i] == i
  {
    seq(n, i => i)
  }

  /** The answers of running the requests one after another. */
  function Sequential(jobs: seq<Job>): map<string, Answer> {
    Collected(jobs, UpTo(|jobs|))
  }

  // ---------------------------------------------------------------- invariant

  ghost predicate AllBuilt(jobs: seq<Job>) {
    forall i | 0 <= i < |jobs| :: jobs[i].built
  }

  predicate NoRepeats(order: seq<nat>) {
    forall i, j | 0 <= i < j < |order| :: order[i] != order[j]
  }

  predicate Launches(jobs: seq<Job>, s: State) {
    && |s.workers| == |jobs| && s.launched <= |jobs|
    && (forall i | 0 <= i < s.launched :: jobs[i].built && s.workers[i] != Idle)
    && (forall i | s.launched <= i < |jobs| :: s.workers[i] == Idle)
    && (s.failed ==> s.launched < |jobs| && !jobs[s.launched].built)
    && (s.received != [] ==> !s.failed && s.launched == |jobs|)
  }

  predicate Deliveries(workers: seq<Worker>, received: seq<nat>) {
    && NoRepeats(received) && |received| == Exits(workers) && Below(|workers|, received)
    && forall i | 0 <= i < |workers| :: i in received <==> workers[i] == Exited
  }

  ghost predicate Inv(jobs: seq<Job>, s: State) {
    && Launches(jobs, s)
    && Deliveries(s.workers, s.received)
    && s.responses == Collected(jobs, s.received)
  }

  function Exits(ws: seq<Worker>): (n: nat)
    ensures n <= |ws| && (n == |ws| ==> forall i | 0 <= i < |ws| :: ws[i] == Exited)
    ensures n < |ws| ==> exists i :: 0 <= i < |ws| && ws[i] != Exited
  {
    if ws == [] then 0 else (if ws[0] == Exited then 1 else 0) + Exits(ws[1..])
  }

  lemma {:induction false} ExitsAfter(ws: seq<Worker>, i: nat, w: Worker)
    requires i < |ws| && ws[i] != Exited
    ensures Exits(ws[i := w]) == Exits(ws) + if w == Exited then 1 else 0
    decreases |ws|
  {
    if i == 0 {
      assert ws[0 := w][1..] == ws[1..];
    } else {
      assert ws[i := w][1..] == ws[1..][i - 1 := w];
      ExitsAfter(ws[1..], i - 1, w);
    }
  }

  lemma {:induction false} NoExits(n: nat)
    ensures Exits(seq(n, _ => Idle)) == 0
  {
    if n > 0 {
      assert seq(n, _ => Idle)[1..] == seq(n - 1, _ => Idle);
      NoExits(n - 1);
    }
  }

  lemma MoveKeepsDeliveries(workers: seq<Worker>, received: seq<nat>, i: nat, w: Worker)
    requires Deliveries(workers, received) && i < |workers| && workers[i] != Exited && w != Exited
    ensures Deliveries(workers[i := w], received)
  {
    ExitsAfter(workers, i, w);
  }

  lemma DeliveryKeepsDeliveries(workers: seq<Worker>, received: seq<nat>, i: nat)
    requires Deliveries(workers, received) && i < |workers| && workers[i] != Exited
    ensures Deliveries(workers[i := Exited], received + [i])
  {
    ExitsAfter(workers, i, Exited);
  }

  lemma TakeKeepsLaunches(jobs: seq<Job>, s: State, step: Step)
    requires Launches(jobs, s) && Enabled(jobs, s, step)
    ensures Launches(jobs, Take(jobs, s, step))
  {
  }

  lemma TakeKeepsDeliveries(jobs: seq<Job>, s: State, step: Step)
    requires Launches(jobs, s) && Deliveries(s.workers, s.received) && Enabled(jobs, s, step)
    ensures var t := Take(jobs, s, step); Deliveries(t.workers, t.received)
  {
    match step {
      case Launch => MoveKeepsDeliveries(s.workers, s.received, s.launched, Running);
      case Fail =>
      case Compute(i) => MoveKeepsDeliveries(s.workers, s.received, i, Sending);
      case Rendezvous(i) => DeliveryKeepsDeliveries(s.workers, s.received, i);
    }
  }

  lemma CollectOneMore(jobs: seq<Job>, order: seq<nat>, i: nat)
    requires Below(|jobs|, order) && i < |jobs|
    ensures Collected(jobs, order + [i]) == Collected(jobs, order)[jobs[i].key := jobs[i].result]
  {
    assert (order + [i])[..|order|] == order;
  }

  lemma TakeKeepsInv(jobs: seq<Job>, s: State, step: Step)
    requires Inv(jobs, s) && Enabled(jobs, s, step)
    ensures Inv(jobs, Take(jobs, s, step))
  {
    TakeKeepsLaunches(jobs, s, step);
    TakeKeepsDeliveries(jobs, s, step);
    if step.Rendezvous? {
      CollectOneMore(jobs, s.received, step.worker);
    }
  }

  lemma {:induction false} InvHolds(jobs: seq<Job>, steps: seq<Step>, s: State)
    requires Reaches(jobs, steps, s)
    ensures Inv(jobs, s)
    decreases |steps|
  {
    if steps != [] {
      var n := |steps| - 1;
      var before: State :|
        && Reaches(jobs, steps[..n], before)
        && |before.workers| == |jobs|
        && Enabled(jobs, before, steps[n])
        && s == Take(jobs, before, steps[n]);
      InvHolds(jobs, steps[..n], before);
      TakeKeepsInv(jobs, before, steps[n]);
    } else {
      NoExits(|jobs|);
    }
  }

  // ---------------------------------------------------------------- every run is finite

  function Due(w: Worker): nat {
    match w
    case Idle => 3
    case Running => 2
    case Sending => 1
    case Exited => 0
  }

  function Work(ws: seq<Worker>): nat {
    if ws == [] then 0 else Due(ws[0]) + Work(ws[1..])
  }

  lemma {:induction false} WorkAfter(ws: seq<Worker>, i: nat, w: Worker)
    requires i < |ws|
    ensures Work(ws[i := w]) == Work(ws) - Due(ws[i]) + Due(w)
    decreases |ws|
  {
    if i == 0 {
      assert ws[0 := w][1..] == ws[1..];
    } else {
      assert ws[i := w][1..] == ws[1..][i - 1 := w];
      WorkAfter(ws[1..], i - 1, w);
    }
  }

  lemma {:induction false} IdleWork(n: nat)
    ensures Work(seq(n, _ => Idle)) == 3 * n
  {
    if n > 0 {
      assert seq(n, _ => Idle)[1..] == seq(n - 1, _ => Idle);
      IdleWork(n - 1);
    }
  }

  lemma StepUsesWork(jobs: seq<Job>, s: State, step: Step)
    requires Inv(jobs, s) && Enabled(jobs, s, step)
    ensures var t := Take(jobs, s, step);
      Work(t.workers) + 1 + (if s.failed then 1 else 0) == Work(s.workers) + if t.failed then 1 else 0
  {
    match step {
      case Launch => WorkAfter(s.workers, s.launched, Running);
      case Fail =>
      case Compute(i) => WorkAfter(s.workers, i, Sending);
      case Rendezvous(i) => WorkAfter(s.workers, i, Exited);
    }
  }

  /** Every step uses up one unit of work, so no run has more than three steps per request and one more. */
  lemma {:induction false} RunsAreFinite(jobs: seq<Job>, steps: seq<Step>, s: State)
    requires Reaches(jobs, steps, s)
    ensures |steps| + Work(s.workers) == 3 * |jobs| + if s.failed then 1 else 0
    ensures |steps| <= 3 * |jobs| + 1
    decreases |steps|
  {
    if steps == [] {
      IdleWork(|jobs|);
    } else {
      var n := |steps| - 1;
      var before: State :|
        && Reaches(jobs, steps[..n], before)
        && |before.workers| == |jobs|
        && Enabled(jobs, before, steps[n])
        && s == Take(jobs, before, steps[n]);
      RunsAreFinite(jobs, steps[..n], before);
      InvHolds(jobs, steps[..n], before);
      StepUsesWork(jobs, before, steps[n]);
    }
  }

  // ---------------------------------------------------------------- how a run ends

  /** Every request is received exactly once, in some order. */
  ghost predicate IsOrderOf(n: nat, order: seq<nat>) {
    NoRepeats(order) && |order| == n && Below(n, order) && forall i: nat | i < n :: i in order
  }

  /** If all requests can be built, a run ends only when all were received and all workers are gone. */
  lemma {:induction false} RunsComplete(jobs: seq<Job>, steps: seq<Step>, s: State)
    requires AllBuilt(jobs) && Finished(jobs, steps, s)
    ensures IsOrderOf(|jobs|, s.received) && s.responses == Collected(jobs, s.received)
    ensures forall i | 0 <= i < |jobs| :: s.workers[i] == Exited
    ensures |steps| == 3 * |jobs|
  {
    InvHolds(jobs, steps, s);
    assert !Enabled(jobs, s, Launch);
    forall i | 0 <= i < |jobs|
      ensures s.workers[i] == Exited || |s.received| == |jobs|
    {
      assert !Enabled(jobs, s, Compute(i)) && !Enabled(jobs, s, Rendezvous(i));
    }
    RunsAreFinite(jobs, steps, s);
    ExitedWork(s.workers);
  }

  lemma {:induction false} ExitedWork(ws: seq<Worker>)
    requires forall i | 0 <= i < |ws| :: ws[i] == Exited
    ensures Work(ws) == 0
    decreases |ws|
  {
    if ws != [] {
      ExitedWork(ws[1..]);
    }
  }

  /**
   If request `l` is the first that cannot be built, the call fails, and the `l` workers launched
   before it stay blocked on the channel for ever: nobody receives.
   */
  lemma FailureLeaksWorkers(jobs: seq<Job>, l: nat, steps: seq<Step>, s: State)
    requires l < |jobs| && !jobs[l].built && forall i | 0 <= i < l :: jobs[i].built
    requires Finished(jobs, steps, s)
    ensures s.failed && s.received == []
    ensures forall i | 0 <= i < |jobs| :: s.workers[i] == if i < l then Sending else Idle
  {
    InvHolds(jobs, steps, s);
    assert !Enabled(jobs, s, Launch) && !Enabled(jobs, s, Fail);
    assert s.launched == l;
    forall i | 0 <= i < l
      ensures s.workers[i] == Sending
    {
      assert !Enabled(jobs, s, Compute(i));
      assert i !in s.received;
    }
  }

  /** A finished run leaves no worker behind exactly if all requests can be built, or already the first cannot. */
  lemma NoWorkerIsLeft(jobs: seq<Job>, steps: seq<Step>, s: State)
    requires Finished(jobs, steps, s)
    ensures (forall i | 0 <= i < |jobs| :: s.workers[i] == Idle || s.workers[i] == Exited)
        <==> AllBuilt(jobs) || !jobs[0].built
  {
    if AllBuilt(jobs) {
      RunsComplete(jobs, steps, s);
    } else {
      var l := FirstUnbuilt(jobs);
      FailureLeaksWorkers(jobs, l, steps, s);
      assert l > 0 ==> s.workers[0] == Sending;
    }
  }

  lemma FirstUnbuilt(jobs: seq<Job>) returns (l: nat)
    requires !AllBuilt(jobs)
    ensures l < |jobs| && !jobs[l].built && forall i | 0 <= i < l :: jobs[i].built
  {
    l := 0;
    while jobs[l].built
      invariant l < |jobs| && (forall i | 0 <= i < l :: jobs[i].built)
      invariant exists i :: l <= i < |jobs| && !jobs[i].built
      decreases |jobs| - l
    {
      l := l + 1;
    }
  }

  // ---------------------------------------------------------------- the collected answers

  /** Requests that share a key have the same result. */
  ghost predicate Consistent(jobs: seq<Job>) {
    forall i, j | 0 <= i < j < |jobs| && jobs[i].key == jobs[j].key :: jobs[i].result == jobs[j].result
  }

  lemma {:induction false} CollectedIs(jobs: seq<Job>, order: seq<nat>)
    requires Consistent(jobs) && Below(|jobs|, order)
    ensures forall i | 0 <= i < |jobs| && jobs[i].key in Collected(jobs, order) ::
      Collected(jobs, order)[jobs[i].key] == jobs[i].result
    decreases |order|
  {
    if order != [] {
      CollectedIs(jobs, order[..|order| - 1]);
    }
  }

  /** Every requested key has an answer and every answer was sent by a worker of that key. */
  lemma {:induction false} AnswersCoverRequests(jobs: seq<Job>, order: seq<nat>)
    requires Below(|jobs|, order)
    ensures forall i <- order :: i < |jobs| && jobs[i].key in Collected(jobs, order)
    ensures forall k <- Collected(jobs, order) ::
      exists i <- order :: i < |jobs| && jobs[i].key == k && jobs[i].result == Collected(jobs, order)[k]
    decreases |order|
  {
    if order != [] {
      var n := |order| - 1;
      AnswersCoverRequests(jobs, order[..n]);
      assert order == order[..n] + [order[n]];
    }
  }

  lemma KeysWithin(jobs: seq<Job>, o1: seq<nat>, o2: seq<nat>)
    requires Below(|jobs|, o1) && Below(|jobs|, o2) && forall i <- o1 :: i in o2
    ensures Collected(jobs, o1).Keys <= Collected(jobs, o2).Keys
  {
    AnswersCoverRequests(jobs, o1);
    AnswersCoverRequests(jobs, o2);
  }

  lemma SameAnswers(jobs: seq<Job>, a: map<string, Answer>, b: map<string, Answer>, order: seq<nat>)
    requires a.Keys == b.Keys && Below(|jobs|, order) && a == Collected(jobs, order)
    requires forall i | 0 <= i < |jobs| && jobs[i].key in a :: a[jobs[i].key] == jobs[i].result
    requires forall i | 0 <= i < |jobs| && jobs[i].key in b :: b[jobs[i].key] == jobs[i].result
    ensures a == b
  {
    AnswersCoverRequests(jobs, order);
  }

  lemma OrderDoesNotMatter(jobs: seq<Job>, order: seq<nat>)
    requires Consistent(jobs) && IsOrderOf(|jobs|, order)
    ensures Collected(jobs, order) == Sequential(jobs)
  {
    var all := UpTo(|jobs|);
    forall i <- order
      ensures i in all
    {
      assert i < |jobs| && all[i] == i;
    }
    KeysWithin(jobs, order, all);
    KeysWithin(jobs, all, order);
    CollectedIs(jobs, order);
    CollectedIs(jobs, all);
    SameAnswers(jobs, Collected(jobs, order), Sequential(jobs), order);
  }

  /** A run in which the workers are received in a given order. */
  function Schedule(n: nat, order: seq<nat>): seq<Step> {
    seq(n, _ => Launch) + seq(n, i requires 0 <= i < n => Compute(i))
        + seq(|order|, i requires 0 <= i < |order| => Rendezvous(order[i]))
  }

  lemma {:induction false} LaunchAll(jobs: seq<Job>, n: nat) returns (s: State)
    requires AllBuilt(jobs) && n <= |jobs|
    ensures Reaches(jobs, seq(n, _ => Launch), s)
    ensures s == State(n, false, seq(|jobs|, i => if i < n then Running else Idle), [], map[])
  {
    if n == 0 {
      s := Start(jobs);
      assert seq(|jobs|, i => if i < n then Running else Idle) == s.workers;
    } else {
      var before := LaunchAll(jobs, n - 1);
      s := Take(jobs, before, Launch);
      assert seq(n, _ => Launch)[..n - 1] == seq(n - 1, _ => Launch);
      assert s.workers == seq(|jobs|, i => if i < n then Running else Idle);
    }
  }

  lemma {:induction false} ComputeAll(jobs: seq<Job>, n: nat) returns (s: State)
    requires AllBuilt(jobs) && n <= |jobs|
    ensures Reaches(jobs, seq(|jobs|, _ => Launch) + seq(n, i requires 0 <= i < n => Compute(i)), s)
    ensures s == State(|jobs|, false, seq(|jobs|, i => if i < n then Sending else Running), [], map[])
  {
    var steps := seq(|jobs|, _ => Launch) + seq(n, i requires 0 <= i < n => Compute(i));
    if n == 0 {
      s := LaunchAll(jobs, |jobs|);
      assert steps == seq(|jobs|, _ => Launch);
      assert seq(|jobs|, i => if i < n then Sending else Running) == s.workers;
    } else {
      var before := ComputeAll(jobs, n - 1);
      s := Take(jobs, before, Compute(n - 1));
      assert steps[..|steps| - 1] == seq(|jobs|, _ => Launch) + seq(n - 1, i requires 0 <= i < n - 1 => Compute(i));
      assert s.workers == seq(|jobs|, i => if i < n then Sending else Running);
    }
  }

  lemma {:induction false} ReceiveAll(jobs: seq<Job>, order: seq<nat>) returns (s: State)
    requires AllBuilt(jobs) && NoRepeats(order) && |order| <= |jobs| && Below(|jobs|, order)
    ensures Reaches(jobs, Schedule(|jobs|, order), s)
    ensures s.launched == |jobs| == |s.workers| && !s.failed && s.received == order
    ensures forall i | 0 <= i < |jobs| :: s.workers[i] == if i in order then Exited else Sending
    decreases |order|
  {
    var steps := Schedule(|jobs|, order);
    if order == [] {
      s := ComputeAll(jobs, |jobs|);
      assert steps == seq(|jobs|, _ => Launch) + seq(|jobs|, i requires 0 <= i < |jobs| => Compute(i));
    } else {
      var n := |order| - 1;
      var before := ReceiveAll(jobs, order[..n]);
      assert order == order[..n] + [order[n]];
      assert order[n] in order;
      s := Take(jobs, before, Rendezvous(order[n]));
      assert steps[..|steps| - 1] == Schedule(|jobs|, order[..n]);
    }
  }

  function Without(n: nat, i: nat): seq<nat> {
    seq(if i < n then n - 1 else n, j => if j < i then j else j + 1)
  }

  lemma LastOrder(n: nat, i: nat)
    requires i < n
    ensures IsOrderOf(n, Without(n, i) + [i])
  {
    var order := Without(n, i) + [i];
    forall k: nat | k < n
      ensures k in order
    {
      assert k != i ==> order[if k < i then k else k - 1] == k;
      assert order[n - 1] == i;
    }
  }

  /** A result can always be made the last to arrive. */
  lemma LastToArrive(jobs: seq<Job>, i: nat) returns (steps: seq<Step>, s: State)
    requires AllBuilt(jobs) && i < |jobs|
    ensures Finished(jobs, steps, s)
    ensures jobs[i].key in s.responses && s.responses[jobs[i].key] == jobs[i].result
  {
    var order := Without(|jobs|, i) + [i];
    LastOrder(|jobs|, i);
    s := ReceiveAll(jobs, order);
    steps := Schedule(|jobs|, order);
    InvHolds(jobs, steps, s);
    CollectOneMore(jobs, Without(|jobs|, i), i);
  }

  lemma Disagreement(jobs: seq<Job>) returns (steps: seq<Step>, s: State)
    requires AllBuilt(jobs) && !Consistent(jobs)
    ensures Finished(jobs, steps, s) && s.responses != Sequential(jobs)
  {
    var i: nat, j: nat :| i < j < |jobs| && jobs[i].key == jobs[j].key && jobs[i].result != jobs[j].result;
    steps, s := LastToArrive(jobs, i);
    if s.responses == Sequential(jobs) {
      steps, s := LastToArrive(jobs, j);
    }
  }

  /**
   Whatever the interleaving, a finished call has the answers of running the requests one after
   another, exactly if requests that share a key have the same result (as they do when no key is
   repeated).
   */
  lemma AnyInterleavingIsSequential(jobs: seq<Job>)
    requires AllBuilt(jobs)
    ensures Consistent(jobs) <==>
              forall steps, s: State | Finished(jobs, steps, s) ::
                s.responses == Sequential(jobs)
  {
    if Consistent(jobs) {
      forall steps, s: State | Finished(jobs, steps, s)
        ensures s.responses == Sequential(jobs)
      {
        RunsComplete(jobs, steps, s);
        OrderDoesNotMatter(jobs, s.received);
      }
    } else {
      var steps, s := Disagreement(jobs);
    }
  }

  /** A finished call to different keys has exactly those keys, each with the result of its own worker. */
  lemma EachAnswerIsItsOwn(jobs: seq<Job>, steps: seq<Step>, s: State)
    requires AllBuilt(jobs) && Finished(jobs, steps, s)
    requires forall a, b | 0 <= a < b < |jobs| :: jobs[a].key != jobs[b].key
    ensures forall i | 0 <= i < |jobs| :: jobs[i].key in s.responses && s.responses[jobs[i].key] == jobs[i].result
    ensures forall k <- s.responses :: exists i :: 0 <= i < |jobs| && jobs[i].key == k
  {
    RunsComplete(jobs, steps, s);
    AnswersCoverRequests(jobs, s.received);
    CollectedIs(jobs, s.received);
    forall i | 0 <= i < |jobs|
      ensures jobs[i].key in s.responses && s.responses[jobs[i].key] == jobs[i].result
    {
      assert i in s.received;
    }
  }
}
