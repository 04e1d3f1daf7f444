/** Ordered application of schema migrations that may stop at any step and is started again later. */
module Migrations {
  import opened Wrappers

  datatype Step = Step(version: int, name: string)

  // ---------------------------------------------------------------- ordering

  predicate Sorted(steps: seq<Step>) {
    forall i, j | 0 <= i < j < |steps| :: steps[i].version <= steps[j].version
  }

  predicate DifferentVersions(steps: seq<Step>) {
    forall i, j | 0 <= i < j < |steps| :: steps[i].version != steps[j].version
  }

  function Insert(step: Step, steps: seq<Step>): seq<Step> {
    if steps == [] || step.version <= steps[0].version then [step] + steps
    else [steps[0]] + Insert(step, steps[1..])
  }

  /** The steps by version. */
  function Ordered(steps: seq<Step>): seq<Step> {
    if steps == [] then [] else Insert(steps[0], Ordered(steps[1..]))
  }

  lemma {:induction false} InsertAdds(step: Step, steps: seq<Step>)
    ensures multiset(Insert(step, steps)) == multiset(steps) + multiset{step}
    decreases |steps|
  {
    if steps != [] && step.version > steps[0].version {
      InsertAdds(step, steps[1..]);
      assert steps == [steps[0]] + steps[1..];
    }
  }

  lemma {:induction false} InsertSorts(step: Step, steps: seq<Step>)
    requires Sorted(steps)
    ensures Sorted(Insert(step, steps))
    decreases |steps|
  {
    if steps != [] && step.version > steps[0].version {
      InsertSorts(step, steps[1..]);
      InsertAdds(step, steps[1..]);
      forall x <- Insert(step, steps[1..])
        ensures steps[0].version <= x.version
      {
        assert x in multiset(Insert(step, steps[1..]));
        assert x == step || x in multiset(steps[1..]);
      }
      FirstIsLeast(steps[0], Insert(step, steps[1..]));
    }
  }

  lemma FirstIsLeast(step: Step, steps: seq<Step>)
    requires Sorted(steps) && forall x <- steps :: step.version <= x.version
    ensures Sorted([step] + steps)
  {
    assert forall i | 0 <= i < |steps| :: steps[i] in steps;
  }

  /** Ordering is a permutation by version. */
  lemma {:induction false} OrderedSorts(steps: seq<Step>)
    ensures Sorted(Ordered(steps)) && multiset(Ordered(steps)) == multiset(steps)
    decreases |steps|
  {
    if steps != [] {
      OrderedSorts(steps[1..]);
      InsertSorts(steps[0], Ordered(steps[1..]));
      InsertAdds(steps[0], Ordered(steps[1..]));
      assert steps == [steps[0]] + steps[1..];
    }
  }

  lemma SameHead(a: seq<Step>, b: seq<Step>)
    requires Sorted(a) && Sorted(b) && multiset(a) == multiset(b) && DifferentVersions(a) && a != [] && b != []
    ensures a[0] == b[0]
  {
    assert a[0] in multiset(b) && b[0] in multiset(a);
    var i :| 0 <= i < |a| && a[i] == b[0];
    var j :| 0 <= j < |b| && b[j] == a[0];
  }

  lemma TailOf(s: seq<Step>)
    requires s != []
    ensures multiset(s[1..]) == multiset(s) - multiset{s[0]}
  {
    assert s == [s[0]] + s[1..];
  }

  lemma SameLength(a: seq<Step>, b: seq<Step>)
    requires multiset(a) == multiset(b)
    ensures |a| == |b|
  {
    assert |multiset(a)| == |a| && |multiset(b)| == |b|;
  }

  /** Two sorted lists of the same steps with different versions are the same list. */
  lemma {:induction false} SortedIsUnique(a: seq<Step>, b: seq<Step>)
    requires Sorted(a) && Sorted(b) && multiset(a) == multiset(b) && DifferentVersions(a)
    ensures a == b
    decreases |a|
  {
    SameLength(a, b);
    if a != [] {
      SameHead(a, b);
      TailOf(a);
      TailOf(b);
      SortedIsUnique(a[1..], b[1..]);
      assert a == [a[0]] + a[1..] && b == [b[0]] + b[1..];
    }
  }

  lemma PermutationKeepsDifferent(a: seq<Step>, b: seq<Step>)
    requires multiset(a) == multiset(b) && DifferentVersions(a)
    ensures DifferentVersions(b)
  {
    forall i, j | 0 <= i < j < |b|
      ensures b[i].version != b[j].version
    {
      CountTwice(b, i, j);
      assert b[i] in multiset(b) && b[j] in multiset(b);
      var k :| 0 <= k < |a| && a[k] == b[i];
      var l :| 0 <= l < |a| && a[l] == b[j];
      CountOnce(a, k);
    }
  }

  lemma CountTwice(s: seq<Step>, i: nat, j: nat)
    requires i < j < |s|
    ensures s[i] == s[j] ==> multiset(s)[s[i]] >= 2
  {
    assert s == s[..j] + s[j..];
    assert s[j..][0] == s[j] && s[..j][i] == s[i];
    assert s[i] in multiset(s[..j]) && s[j] in multiset(s[j..]);
  }

  lemma CountOnce(s: seq<Step>, k: nat)
    requires k < |s| && forall i | 0 <= i < |s| && i != k :: s[i] != s[k]
    ensures multiset(s)[s[k]] == 1
  {
    assert s == s[..k] + ([s[k]] + s[k + 1..]);
    assert s[k] !in s[..k] && s[k] !in s[k + 1..];
  }

  /** The order in which migrations register themselves does not matter. */
  lemma RegistrationOrderIsIrrelevant(a: seq<Step>, b: seq<Step>)
    requires multiset(a) == multiset(b) && DifferentVersions(a)
    ensures Ordered(a) == Ordered(b)
  {
    OrderedSorts(a);
    OrderedSorts(b);
    PermutationKeepsDifferent(a, Ordered(a));
    SortedIsUnique(Ordered(a), Ordered(b));
  }

  // ---------------------------------------------------------------- one run

  /** The newest row of the version table, which is created with version zero. */
  function Current(versions: seq<int>): int {
    if versions == [] then 0 else versions[|versions| - 1]
  }

  /** The steps newer than a version, in their order. */
  function Newer(steps: seq<Step>, current: int): seq<Step> {
    if steps == [] then []
    else
      var n := |steps| - 1;
      Newer(steps[..n], current) + if steps[n].version > current then [steps[n]] else []
  }

  /** A run stops at the step of that index, unless the step is not newer than the current version. */
  predicate Stops(steps: seq<Step>, current: int, stop: Option<nat>) {
    stop.Some? && stop.value < |steps| && steps[stop.value].version > current
  }

  /** The steps a run commits before it stops, if it stops. */
  function Commits(steps: seq<Step>, current: int, stop: Option<nat>): seq<Step> {
    if Stops(steps, current, stop) then Newer(steps[..stop.value], current) else Newer(steps, current)
  }

  function VersionsOf(steps: seq<Step>): seq<int> {
    seq(|steps|, i requires 0 <= i < |steps| => steps[i].version)
  }

  datatype Error = NoDatabaseVersion | NoMigrations | StepFailed

  /** The loop over the ordered steps: each one newer than `current` runs in a transaction of its own. */
  method RunSteps(steps: seq<Step>, current: int, stop: Option<nat>, versions: seq<int>)
    returns (done: bool, after: seq<int>)
    ensures after == versions + VersionsOf(Commits(steps, current, stop))
    ensures done <==> !Stops(steps, current, stop)
  {
    after := versions;
    for i := 0 to |steps|
      invariant after == versions + VersionsOf(Newer(steps[..i], current))
      invariant Stops(steps, current, stop) ==> i <= stop.value
    {
      var step := steps[i];
      assert steps[..i + 1][..i] == steps[..i];
      if step.version > current {
        if stop == Some(i) {
          return false, after;
        }
        AppendVersions(versions, Newer(steps[..i], current), [step]);
        after := after + [step.version];
      }
    }
    assert steps[..|steps|] == steps;
    return true, after;
  }

  class Migrator {
    var migrationSteps: seq<Step>

    constructor ()
      ensures migrationSteps == []
    {
      migrationSteps := [];
    }

    method RegisterMigration(version: int, name: string)
      modifies this
      ensures migrationSteps == old(migrationSteps) + [Step(version, name)]
    {
      migrationSteps := migrationSteps + [Step(version, name)];
    }

    method GetOrderedMigrations() returns (steps: seq<Step>)
      modifies this
      ensures steps == migrationSteps == Ordered(old(migrationSteps))
    {
      migrationSteps := Ordered(migrationSteps);
      return migrationSteps;
    }

    /**
     One run against a version table; `stop` is the step whose transaction cannot be begun, whose
     function fails or whose commit fails. The current version is read once, before the loop.
     */
    method ApplyMigrations(versions: seq<int>, reachable: bool, stop: Option<nat>)
      returns (r: Result<(), Error>, after: seq<int>)
      modifies this
      ensures migrationSteps == if reachable then Ordered(old(migrationSteps)) else old(migrationSteps)
      ensures after == if !reachable then versions
                       else Started(versions)
                            + VersionsOf(Commits(Ordered(old(migrationSteps)), Current(versions), stop))
      ensures r == if !reachable then Err(NoDatabaseVersion)
                   else if old(migrationSteps) == [] then Err(NoMigrations)
                   else if Stops(Ordered(old(migrationSteps)), Current(versions), stop) then Err(StepFailed)
                   else Ok(())
    {
      if !reachable {
        return Err(NoDatabaseVersion), versions;
      }
      after := Started(versions);
      var current := Current(after);
      OrderedSorts(migrationSteps);
      SameLength(migrationSteps, Ordered(migrationSteps));
      var steps := GetOrderedMigrations();
      if |steps| == 0 {
        assert Commits(steps, current, stop) == [] && after + VersionsOf([]) == after;
        return Err(NoMigrations), after;
      }
      var done;
      done, after := RunSteps(steps, current, stop, after);
      if !done {
        return Err(StepFailed), after;
      }
      return Ok(()), after;
    }
  }

  /** Reading the version creates the table with its first row if need be. */
  function Started(versions: seq<int>): seq<int> {
    if versions == [] then [0] else versions
  }

  // ---------------------------------------------------------------- many runs

  /** A run that reaches the database, and where it stops. */
  function RunOnce(steps: seq<Step>, versions: seq<int>, stop: Option<nat>): seq<int> {
    Started(versions) + VersionsOf(Commits(steps, Current(versions), stop))
  }

  function Runs(steps: seq<Step>, versions: seq<int>, stops: seq<Option<nat>>): seq<int> {
    if stops == [] then versions
    else RunOnce(steps, Runs(steps, versions, stops[..|stops| - 1]), stops[|stops| - 1])
  }

  /** No step of a version above zero shares it with another step. */
  predicate PositiveVersionsDiffer(steps: seq<Step>) {
    forall i, j | 0 <= i < j < |steps| && steps[i].version > 0 :: steps[i].version != steps[j].version
  }

  lemma PermutationKeepsPositive(a: seq<Step>, b: seq<Step>)
    requires multiset(a) == multiset(b) && PositiveVersionsDiffer(a)
    ensures PositiveVersionsDiffer(b)
  {
    forall i, j | 0 <= i < j < |b| && b[i].version > 0
      ensures b[i].version != b[j].version
    {
      CountTwice(b, i, j);
      assert b[i] in multiset(b) && b[j] in multiset(b);
      var k :| 0 <= k < |a| && a[k] == b[i];
      var l :| 0 <= l < |a| && a[l] == b[j];
      CountOnce(a, k);
    }
  }

  lemma OrderedKeepsPositive(registered: seq<Step>)
    ensures PositiveVersionsDiffer(Ordered(registered)) <==> PositiveVersionsDiffer(registered)
  {
    OrderedSorts(registered);
    if PositiveVersionsDiffer(registered) {
      PermutationKeepsPositive(registered, Ordered(registered));
    } else if PositiveVersionsDiffer(Ordered(registered)) {
      PermutationKeepsPositive(Ordered(registered), registered);
    }
  }

  /** What is newer in a sorted list is the rest of it. */
  lemma {:induction false} NewerIsRest(steps: seq<Step>, current: int, m: nat)
    requires m <= |steps|
    requires forall i | 0 <= i < m :: steps[i].version <= current
    requires forall i | m <= i < |steps| :: steps[i].version > current
    ensures Newer(steps, current) == steps[m..]
    decreases |steps|
  {
    if steps != [] {
      var n := |steps| - 1;
      if m <= n {
        NewerIsRest(steps[..n], current, m);
        assert steps[m..] == steps[..n][m..] + [steps[n]];
      } else {
        NewerIsRest(steps[..n], current, n);
      }
    }
  }

  /** Where the newer steps begin in a sorted list. */
  function FirstNewer(steps: seq<Step>, current: int): (m: nat)
    requires Sorted(steps)
    ensures m <= |steps|
    ensures forall i | 0 <= i < m :: steps[i].version <= current
    ensures forall i | m <= i < |steps| :: steps[i].version > current
    decreases |steps|
  {
    if steps == [] || steps[|steps| - 1].version <= current then |steps| else FirstNewer(steps[..|steps| - 1], current)
  }

  lemma AppendVersions(first: seq<int>, a: seq<Step>, b: seq<Step>)
    ensures (first + VersionsOf(a)) + VersionsOf(b) == first + VersionsOf(a + b)
  {
  }

  /** The table holds the initial row and the versions of the steps from the first positive one up to `k`. */
  predicate HasPrefix(steps: seq<Step>, versions: seq<int>, k: nat)
    requires Sorted(steps)
  {
    FirstNewer(steps, 0) <= k <= |steps| && versions == [0] + VersionsOf(steps[FirstNewer(steps, 0)..k])
  }

  lemma CurrentOfPrefix(steps: seq<Step>, versions: seq<int>, k: nat)
    requires Sorted(steps) && PositiveVersionsDiffer(steps) && HasPrefix(steps, versions, k)
    ensures forall i | 0 <= i < k :: steps[i].version <= Current(versions)
    ensures forall i | k <= i < |steps| :: steps[i].version > Current(versions)
  {
    var p := FirstNewer(steps, 0);
    if k > p {
      assert VersionsOf(steps[p..k])[k - 1 - p] == steps[k - 1].version;
    }
  }

  lemma RunExtendsPrefix(steps: seq<Step>, versions: seq<int>, k: nat, stop: Option<nat>) returns (k': nat)
    requires Sorted(steps) && PositiveVersionsDiffer(steps) && HasPrefix(steps, versions, k)
    ensures k <= k' && HasPrefix(steps, RunOnce(steps, versions, stop), k')
    ensures k' == |steps| <==> !Stops(steps, Current(versions), stop)
  {
    var p, current := FirstNewer(steps, 0), Current(versions);
    CurrentOfPrefix(steps, versions, k);
    k' := if Stops(steps, current, stop) then stop.value else |steps|;
    NewerIsRest(steps[..k'], current, k);
    assert steps[..|steps|] == steps && steps[..k'][k..] == steps[k..k'];
    AppendVersions([0], steps[p..k], steps[k..k']);
    assert steps[p..k] + steps[k..k'] == steps[p..k'];
  }

  lemma {:induction false} RunsFromPrefix(steps: seq<Step>, versions: seq<int>, k: nat, stops: seq<Option<nat>>)
    returns (k': nat)
    requires Sorted(steps) && PositiveVersionsDiffer(steps) && HasPrefix(steps, versions, k)
    ensures k <= k' && HasPrefix(steps, Runs(steps, versions, stops), k')
    decreases |stops|
  {
    k' := k;
    if stops != [] {
      var m := |stops| - 1;
      k' := RunsFromPrefix(steps, versions, k, stops[..m]);
      k' := RunExtendsPrefix(steps, Runs(steps, versions, stops[..m]), k', stops[m]);
    }
  }

  /** Whether the last of these runs got through to the end. */
  predicate LastRunFinished(steps: seq<Step>, stops: seq<Option<nat>>)
    requires stops != []
  {
    !Stops(steps, Current(Runs(steps, [], stops[..|stops| - 1])), stops[|stops| - 1])
  }

  /**
   If the positive versions differ: after any runs, whatever step each of them stopped at, the committed
   versions are those of a prefix of the positive steps, each of them once, and all of them exactly if the
   last run did not stop.
   */
  lemma RunsCommitAPrefix(registered: seq<Step>, stops: seq<Option<nat>>) returns (k: nat)
    requires PositiveVersionsDiffer(registered) && stops != []
    ensures Sorted(Ordered(registered)) && HasPrefix(Ordered(registered), Runs(Ordered(registered), [], stops), k)
    ensures LastRunFinished(Ordered(registered), stops) <==> k == |registered|
  {
    var steps, m := Ordered(registered), |stops| - 1;
    OrderedSorts(registered);
    OrderedKeepsPositive(registered);
    SameLength(registered, steps);
    k := FirstNewer(steps, 0);
    assert HasPrefix(steps, [0], k);
    if m > 0 {
      FirstRunStarts(steps, stops[..m]);
      k := RunsFromPrefix(steps, [0], k, stops[..m]);
      k := RunExtendsPrefix(steps, Runs(steps, [], stops[..m]), k, stops[m]);
    } else {
      k := RunExtendsPrefix(steps, [0], k, stops[m]);
      assert RunOnce(steps, [], stops[m]) == RunOnce(steps, [0], stops[m]);
    }
  }

  /** The first run of all starts from the row it creates. */
  lemma {:induction false} FirstRunStarts(steps: seq<Step>, stops: seq<Option<nat>>)
    requires stops != []
    ensures Runs(steps, [], stops) == Runs(steps, [0], stops)
    decreases |stops|
  {
    if |stops| > 1 {
      FirstRunStarts(steps, stops[..|stops| - 1]);
    }
  }

  /** What `WaitForMigrations` looks for. */
  predicate UpToDate(steps: seq<Step>, versions: seq<int>)
    requires steps != []
  {
    versions != [] && Current(versions) == steps[|steps| - 1].version
  }

  /** The newest row is the first one, or that of a step. */
  ghost predicate CurrentIsStep(steps: seq<Step>, versions: seq<int>) {
    && Current(versions) >= 0
    && (Current(versions) == 0 || exists i :: 0 <= i < |steps| && steps[i].version == Current(versions))
  }

  lemma {:induction false} NewerAreSteps(steps: seq<Step>, current: int)
    ensures forall x <- Newer(steps, current) :: x in steps && x.version > current
    decreases |steps|
  {
    if steps != [] {
      NewerAreSteps(steps[..|steps| - 1], current);
    }
  }

  lemma RunOnceKeepsCurrent(steps: seq<Step>, versions: seq<int>, stop: Option<nat>)
    requires CurrentIsStep(steps, versions)
    ensures CurrentIsStep(steps, RunOnce(steps, versions, stop))
  {
    var commits := Commits(steps, Current(versions), stop);
    if commits != [] {
      var last := commits[|commits| - 1];
      NewerAreSteps(if Stops(steps, Current(versions), stop) then steps[..stop.value] else steps, Current(versions));
      assert last in commits && last in steps && VersionsOf(commits)[|commits| - 1] == last.version;
    }
  }

  lemma {:induction false} RunsKeepCurrent(steps: seq<Step>, stops: seq<Option<nat>>)
    ensures CurrentIsStep(steps, Runs(steps, [], stops))
    decreases |stops|
  {
    if stops != [] {
      RunsKeepCurrent(steps, stops[..|stops| - 1]);
      RunOnceKeepsCurrent(steps, Runs(steps, [], stops[..|stops| - 1]), stops[|stops| - 1]);
    }
  }

  lemma FinishedIsNewest(steps: seq<Step>, versions: seq<int>, stop: Option<nat>)
    requires Sorted(steps) && !Stops(steps, Current(versions), stop)
    ensures forall i | 0 <= i < |steps| :: steps[i].version <= Current(RunOnce(steps, versions, stop))
  {
    var m := FirstNewer(steps, Current(versions));
    NewerIsRest(steps, Current(versions), m);
    if m < |steps| {
      assert VersionsOf(steps[m..])[|steps| - 1 - m] == steps[|steps| - 1].version;
    }
  }

  lemma {:induction false} NothingNewer(steps: seq<Step>, versions: seq<int>, later: seq<Option<nat>>)
    requires versions != [] && forall i | 0 <= i < |steps| :: steps[i].version <= Current(versions)
    ensures Runs(steps, versions, later) == versions
    decreases |later|
  {
    if later != [] {
      NothingNewer(steps, versions, later[..|later| - 1]);
      NewerIsRest(steps, Current(versions), |steps|);
      assert versions + VersionsOf([]) == versions;
    }
  }

  /**
   Once a run has not stopped, no later run commits anything, even if steps share a version; and the
   wait ends exactly if the newest step has no negative version.
   */
  lemma FinishedForGood(registered: seq<Step>, stops: seq<Option<nat>>, later: seq<Option<nat>>)
    requires stops != [] && registered != [] && LastRunFinished(Ordered(registered), stops)
    ensures var steps, versions := Ordered(registered), Runs(Ordered(registered), [], stops);
      && Runs(steps, versions, later) == versions
      && steps != [] && (UpToDate(steps, versions) <==> steps[|steps| - 1].version >= 0)
  {
    var steps, m := Ordered(registered), |stops| - 1;
    OrderedSorts(registered);
    SameLength(registered, steps);
    var versions := Runs(steps, [], stops);
    FinishedIsNewest(steps, Runs(steps, [], stops[..m]), stops[m]);
    NothingNewer(steps, versions, later);
    RunsKeepCurrent(steps, stops);
  }

  /**
   All runs of which the last one does not stop commit all positive steps, exactly if the positive
   versions differ: otherwise a run can stop between two steps of one version, and the second is never run.
   */
  lemma FinishingCommitsAll(registered: seq<Step>)
    ensures var steps := Ordered(registered);
      PositiveVersionsDiffer(registered) <==>
        forall stops: seq<Option<nat>> | stops != [] && LastRunFinished(steps, stops) ::
          Runs(steps, [], stops) == [0] + VersionsOf(Newer(steps, 0))
  {
    var steps := Ordered(registered);
    if PositiveVersionsDiffer(registered) {
      forall stops: seq<Option<nat>> | stops != [] && LastRunFinished(steps, stops)
        ensures Runs(steps, [], stops) == [0] + VersionsOf(Newer(steps, 0))
      {
        AllAreCommitted(registered, stops);
      }
    } else {
      var stops := SharedVersionIsLost(registered);
      assert stops != [] && LastRunFinished(steps, stops);
    }
  }

  lemma AllAreCommitted(registered: seq<Step>, stops: seq<Option<nat>>)
    requires PositiveVersionsDiffer(registered) && stops != [] && LastRunFinished(Ordered(registered), stops)
    ensures Runs(Ordered(registered), [], stops) == [0] + VersionsOf(Newer(Ordered(registered), 0))
  {
    var steps := Ordered(registered);
    OrderedSorts(registered);
    SameLength(registered, steps);
    var p := FirstNewer(steps, 0);
    NewerIsRest(steps, 0, p);
    var k := RunsCommitAPrefix(registered, stops);
    assert steps[p..] == steps[p..k];
  }

  lemma SharedVersionIsLost(registered: seq<Step>) returns (stops: seq<Option<nat>>)
    requires !PositiveVersionsDiffer(registered)
    ensures stops != [] && LastRunFinished(Ordered(registered), stops)
    ensures Runs(Ordered(registered), [], stops) != [0] + VersionsOf(Newer(Ordered(registered), 0))
  {
    var steps := Ordered(registered);
    OrderedSorts(registered);
    OrderedKeepsPositive(registered);
    var i: nat, j: nat :| i < j < |steps| && steps[i].version > 0 && steps[i].version == steps[j].version;
    assert steps[i].version <= steps[j - 1].version <= steps[j].version;
    SharedVersionIsSkipped(steps, j);
    stops := [Some(j), None];
  }

  /** A step of the same version as the one before it is skipped after a stop between the two. */
  lemma SharedVersionIsSkipped(steps: seq<Step>, j: nat)
    requires Sorted(steps) && 0 < j < |steps| && steps[j - 1].version == steps[j].version > 0
    ensures |Runs(steps, [], [Some(j), None])| < 1 + |Newer(steps, 0)|
  {
    var p := FirstNewer(steps, 0);
    NewerIsRest(steps, 0, p);
    NewerIsRest(steps[..j], 0, p);
    var first := RunOnce(steps, [], Some(j));
    assert VersionsOf(steps[..j][p..])[j - 1 - p] == steps[j - 1].version;
    assert Current(first) == steps[j].version;
    var m := FirstNewer(steps, Current(first));
    NewerIsRest(steps, Current(first), m);
    assert [Some(j), None][..1] == [Some(j)] && [Some(j)][..0] == [];
    assert Runs(steps, [], [Some(j)]) == first;
    assert Runs(steps, [], [Some(j), None]) == RunOnce(steps, first, None);
  }

  /** Steps with a version of zero or less are never run. */
  lemma FirstRunCommitsAll(registered: seq<Step>)
    ensures (forall s <- registered :: s.version > 0)
            <==> VersionsOf(Ordered(registered)) == RunOnce(Ordered(registered), [], None)[1..]
  {
    var steps := Ordered(registered);
    AllPositive(registered);
    var p := FirstNewer(steps, 0);
    NewerIsRest(steps, 0, p);
    assert |VersionsOf(steps[p..])| == |VersionsOf(steps)| - p;
    assert steps[0..] == steps;
  }

  lemma AllPositive(registered: seq<Step>)
    ensures Sorted(Ordered(registered))
    ensures (forall s <- registered :: s.version > 0) <==> FirstNewer(Ordered(registered), 0) == 0
  {
    var steps := Ordered(registered);
    OrderedSorts(registered);
    if FirstNewer(steps, 0) == 0 {
      forall s <- registered
        ensures s.version > 0
      {
        assert s in multiset(registered) && s in multiset(steps);
      }
    } else {
      assert steps[0] in multiset(steps) && steps[0] in multiset(registered);
    }
  }

  // ---------------------------------------------------------------- waiting

  /** What one poll saw: the newest version, or an error, and whether the time was up afterwards. */
  datatype Poll = Poll(version: Option<int>, expired: bool)

  /** The polling loop; an empty list of migrations makes the first index operation crash: `None`. */
  method WaitForMigrations(steps: seq<Step>, polls: seq<Poll>) returns (r: Option<Result<(), ()>>)
    requires polls != [] && polls[|polls| - 1].expired
    ensures r.None? <==> steps == []
    ensures r.Some? ==>
      (r.value.Ok?
       <==> exists i :: 0 <= i < |polls| && polls[i].version == Some(Ordered(steps)[|Ordered(steps)| - 1].version)
                        && forall j | 0 <= j < i :: !polls[j].expired)
  {
    OrderedSorts(steps);
    SameLength(steps, Ordered(steps));
    if steps == [] {
      return None;
    }
    var target := Ordered(steps)[|Ordered(steps)| - 1].version;
    var i := 0;
    while true
      invariant 0 <= i < |polls|
      invariant forall j | 0 <= j < i :: !polls[j].expired && polls[j].version != Some(target)
      decreases |polls| - i
    {
      if polls[i].version == Some(target) {
        return Some(Ok(()));
      }
      if polls[i].expired {
        return Some(Err(()));
      }
      i := i + 1;
    }
  }
}
