/** Merging lists of `NAME=value` environment entries. */
module EnvLists {
  import opened Wrappers

  /** The part of an entry up to and including its first `=`; the whole entry if there is none. */
  function Key(kv: string): (k: string)
    ensures k <= kv
    ensures '=' !in kv ==> k == kv
    ensures '=' in kv ==> IsName(k)
  {
    if kv == "" then ""
    else if kv[0] == '=' then kv[..1]
    else
      var k := Key(kv[1..]);
      assert '=' in kv <==> '=' in kv[1..];
      NamePrepended(kv[0], k);
      [kv[0]] + k
  }

  /** A variable name with its `=`. */
  predicate IsName(k: string) {
    k != "" && k[|k| - 1] == '=' && '=' !in k[..|k| - 1]
  }

  lemma NamePrepended(c: char, k: string)
    requires c != '='
    ensures IsName(k) ==> IsName([c] + k)
  {
    if k != "" {
      assert ([c] + k)[..|k|] == [c] + k[..|k| - 1];
    }
  }

  /** The first entry of `list` that starts with `k`. */
  function Find(list: seq<string>, k: string): (i: nat)
    ensures i <= |list| && (i < |list| ==> k <= list[i]) && forall j | 0 <= j < i :: !(k <= list[j])
  {
    if list == [] || k <= list[0] then 0 else 1 + Find(list[1..], k)
  }

  function Lookup(list: seq<string>, k: string): Option<string> {
    if Find(list, k) < |list| then Some(list[Find(list, k)]) else None
  }

  function Put(list: seq<string>, kv: string): seq<string> {
    var i := Find(list, Key(kv));
    if i < |list| then list[i := kv] else list + [kv]
  }

  /** The effect of merging `updates`, one after another, into `base`. */
  function Merge(updates: seq<string>, base: seq<string>): seq<string> {
    if updates == [] then base
    else Put(Merge(updates[..|updates| - 1], base), updates[|updates| - 1])
  }

  method MergeEnvLists(updates: seq<string>, base: seq<string>) returns (out: seq<string>)
    ensures out == Merge(updates, base)
  {
    out := base;
    label NextVar:
    for n := 0 to |updates|
      invariant out == Merge(updates[..n], base)
    {
      var kv := updates[n];
      assert updates[..n + 1][..n] == updates[..n];
      var k := Key(kv);
      ghost var before := out;
      for i := 0 to |out|
        invariant out == before && forall j | 0 <= j < i :: !(k <= out[j])
      {
        if k <= out[i] {
          FindUnique(out, k, i);
          out := out[i := kv];
          continue NextVar;
        }
      }
      out := out + [kv];
    }
    assert updates[..|updates|] == updates;
  }

  lemma FindUnique(list: seq<string>, k: string, i: nat)
    requires i < |list| && k <= list[i] && forall j | 0 <= j < i :: !(k <= list[j])
    ensures Find(list, k) == i
  {
    assert Find(list, k) < |list| ==> k <= list[Find(list, k)];
  }

  lemma FindNone(list: seq<string>, k: string)
    requires forall j | 0 <= j < |list| :: !(k <= list[j])
    ensures Find(list, k) == |list|
  {
  }

  // ---------------------------------------------------------------- names

  /** Only entries of the variable itself start with its name and `=`. */
  lemma {:induction false} NameMatches(k: string, kv: string)
    requires IsName(k)
    ensures k <= kv <==> '=' in kv && Key(kv) == k
    decreases |kv|
  {
    if kv != "" {
      if kv[0] == '=' {
        assert k != "=" ==> k[0] in k[..|k| - 1];
        assert k == "=" ==> kv[..1] == k;
      } else if k != "=" {
        assert k[..|k| - 1] == [k[0]] + k[1..][..|k| - 2];
        NameMatches(k[1..], kv[1..]);
        assert k == [k[0]] + k[1..] && kv == [kv[0]] + kv[1..];
        var m := Key(kv[1..]);
        assert Key(kv) == [kv[0]] + m && ([kv[0]] + m)[1..] == m;
      } else {
        assert k[0] == '=' && !(k <= kv);
        assert Key(kv)[0] == kv[0];
      }
    }
  }

  ghost predicate AllAssign(list: seq<string>) {
    forall kv <- list :: '=' in kv
  }

  /** The last entry for the name `k`. */
  function LastOf(list: seq<string>, k: string): Option<string> {
    if list == [] then None
    else if k <= list[|list| - 1] then Some(list[|list| - 1])
    else LastOf(list[..|list| - 1], k)
  }

  /** The update is an assignment, or at least no beginning of this name. */
  predicate Harmless(kv: string, k: string) {
    '=' in kv || !(kv <= k)
  }

  lemma LookupAfterPut(list: seq<string>, kv: string, k: string)
    requires IsName(k) && Harmless(kv, k)
    ensures Lookup(Put(list, kv), k) == if k <= kv then Some(kv) else Lookup(list, k)
  {
    NameMatches(k, kv);
    var name, out := Key(kv), Put(list, kv);
    var i, f := Find(list, name), Find(list, k);
    if name == k {
      FindUnique(out, k, i);
    } else if f < |list| {
      OtherEntry(kv, k, list[f]);
      FindUnique(out, k, f);
    } else {
      FindNone(out, k);
    }
  }

  /** A harmless update of another name does not match an entry of this one. */
  lemma OtherEntry(kv: string, k: string, entry: string)
    requires IsName(k) && Harmless(kv, k) && Key(kv) != k && k <= entry
    ensures !(Key(kv) <= entry)
  {
    if '=' in kv {
      NameMatches(k, entry);
      NameMatches(Key(kv), entry);
    }
  }

  /** A name that no update without `=` begins finds its last update, or else what it found before. */
  lemma {:induction false} LookupAfterMerge(updates: seq<string>, base: seq<string>, k: string)
    requires IsName(k) && forall kv <- updates :: Harmless(kv, k)
    ensures Lookup(Merge(updates, base), k) == if LastOf(updates, k).Some? then LastOf(updates, k) else Lookup(base, k)
    decreases |updates|
  {
    if updates != [] {
      var n := |updates| - 1;
      assert updates[n] in updates;
      LookupAfterMerge(updates[..n], base, k);
      LookupAfterPut(Merge(updates[..n], base), updates[n], k);
    }
  }

  // ---------------------------------------------------------------- updates that are no assignment

  ghost predicate Shorter(list: seq<string>, n: nat) {
    forall kv <- list :: |kv| < n
  }

  ghost predicate InFront(victim: string, list: seq<string>) {
    list != [] && list[0] == victim && Shorter(list[1..], |victim|)
  }

  lemma VictimStep(list: seq<string>, kv: string, culprit: string, victim: string)
    requires culprit <= victim && '=' !in culprit && |kv| < |victim|
    requires Shorter(list, |victim|) || InFront(victim, list)
    ensures Shorter(Put(list, kv), |victim|)
        || (InFront(victim, list) && InFront(victim, Put(list, kv)) && kv != culprit)
  {
    PutShort(list, kv, |victim|);
    if InFront(victim, list) {
      var rest := list[1..];
      assert list == [victim] + rest;
      PutAtFront(victim, rest, kv);
      PutShort(rest, kv, |victim|);
      assert ([victim] + Put(rest, kv))[1..] == Put(rest, kv);
    }
  }

  /**
   An update without `=` replaces the first entry it is a prefix of, whatever variable that is: the
   entry `victim` at the front is lost.
   */
  lemma {:induction false} VictimIsLost(updates: seq<string>, culprit: string, victim: string)
    requires culprit <= victim && '=' !in culprit && Shorter(updates, |victim|)
    ensures Shorter(Merge(updates, [victim]), |victim|)
        || (InFront(victim, Merge(updates, [victim])) && culprit !in updates)
    decreases |updates|
  {
    if updates != [] {
      var n := |updates| - 1;
      assert updates[n] in updates && updates == updates[..n] + [updates[n]];
      VictimIsLost(updates[..n], culprit, victim);
      VictimStep(Merge(updates[..n], [victim]), updates[n], culprit, victim);
    }
  }

  lemma {:induction false} PutAtFront(first: string, rest: seq<string>, kv: string)
    ensures Put([first] + rest, kv) == if Key(kv) <= first then [kv] + rest else [first] + Put(rest, kv)
  {
    var list := [first] + rest;
    assert list[1..] == rest;
  }

  lemma PutShort(list: seq<string>, kv: string, n: nat)
    requires |kv| < n
    ensures Shorter(list, n) ==> Shorter(Put(list, kv), n)
  {
  }

  function LongestOf(list: seq<string>): (n: nat)
    ensures forall kv <- list :: |kv| <= n
  {
    if list == [] then 0
    else
      var n := LongestOf(list[1..]);
      assert list == [list[0]] + list[1..];
      if |list[0]| > n then |list[0]| else n
  }

  /** For updates that are not all assignments some lookup goes wrong. */
  lemma LookupGoesWrong(updates: seq<string>, culprit: string) returns (base: seq<string>, k: string)
    requires culprit in updates && '=' !in culprit
    ensures IsName(k)
    ensures Lookup(Merge(updates, base), k) != if LastOf(updates, k).Some? then LastOf(updates, k) else Lookup(base, k)
  {
    k := culprit + seq(LongestOf(updates), _ => 'A') + "=";
    assert IsName(k) by {
      assert k[..|k| - 1] == culprit + seq(LongestOf(updates), _ => 'A');
    }
    base := [k];
    VictimIsLost(updates, culprit, k);
    FindNone(Merge(updates, base), k);
    NothingLong(updates, k);
    assert Lookup(base, k) == Some(k);
  }

  lemma {:induction false} NothingLong(list: seq<string>, k: string)
    requires Shorter(list, |k|)
    ensures LastOf(list, k) == None
    decreases |list|
  {
    if list != [] {
      assert list[|list| - 1] in list;
      NothingLong(list[..|list| - 1], k);
    }
  }

  /** Merging gives every name its last update, whatever the base, exactly if all updates are assignments. */
  lemma MergeIsLastWins(updates: seq<string>)
    ensures AllAssign(updates) <==>
              forall base, k | IsName(k) ::
                Lookup(Merge(updates, base), k)
                == if LastOf(updates, k).Some? then LastOf(updates, k) else Lookup(base, k)
  {
    if AllAssign(updates) {
      forall base, k | IsName(k)
        ensures Lookup(Merge(updates, base), k)
                == if LastOf(updates, k).Some? then LastOf(updates, k) else Lookup(base, k)
      {
        LookupAfterMerge(updates, base, k);
      }
    } else {
      var culprit :| culprit in updates && '=' !in culprit;
      var base, k := LookupGoesWrong(updates, culprit);
    }
  }

  // ---------------------------------------------------------------- positions and length

  /** The names that are updated but not yet in `base`. */
  function NewNames(updates: seq<string>, base: seq<string>): set<string> {
    set kv | kv in updates && Find(base, Key(kv)) == |base| :: Key(kv)
  }

  /**
   Whatever the updates are: an entry that starts with none of their keys stays as and where it is, every
   other one stays or becomes an update, and at most one entry is added per update.
   */
  lemma {:induction false} UntouchedStay(updates: seq<string>, base: seq<string>)
    ensures |base| <= |Merge(updates, base)| <= |base| + |updates|
    ensures forall i | 0 <= i < |base| :: Merge(updates, base)[i] == base[i] || Merge(updates, base)[i] in updates
    ensures forall i | 0 <= i < |base| && (forall kv <- updates :: !(Key(kv) <= base[i])) ::
        Merge(updates, base)[i] == base[i]
    ensures forall i | |base| <= i < |Merge(updates, base)| :: Merge(updates, base)[i] in updates
    decreases |updates|
  {
    if updates != [] {
      var n := |updates| - 1;
      assert updates == updates[..n] + [updates[n]];
      UntouchedStay(updates[..n], base);
      assert forall kv <- updates[..n] :: kv in updates;
      assert updates[n] in updates;
    }
  }

  /**
   Every entry of `base` stays where it is; the first entry of an updated name now holds the last
   update, all other entries are unchanged. One entry is added per new name.
   */
  lemma {:induction false} MergeKeepsPlaces(updates: seq<string>, base: seq<string>)
    requires AllAssign(updates)
    ensures |Merge(updates, base)| == |base| + |NewNames(updates, base)|
    ensures forall i | 0 <= i < |base| ::
      Merge(updates, base)[i] ==
      if i == Find(base, Key(base[i])) && '=' in base[i] && LastOf(updates, Key(base[i])).Some?
      then LastOf(updates, Key(base[i])).value else base[i]
    decreases |updates|
  {
    if updates == [] {
      assert NewNames(updates, base) == {};
    } else {
      var n := |updates| - 1;
      var kv, before := updates[n], Merge(updates[..n], base);
      assert kv in updates && updates == updates[..n] + [kv];
      MergeKeepsPlaces(updates[..n], base);
      MergeGrows(updates[..n], base, kv);
      forall i | 0 <= i < |base|
        ensures Merge(updates, base)[i] ==
          if i == Find(base, Key(base[i])) && '=' in base[i] && LastOf(updates, Key(base[i])).Some?
          then LastOf(updates, Key(base[i])).value else base[i]
      {
        PlaceAfterPut(updates[..n], base, kv, i);
        if '=' in base[i] {
          LastAfterAdding(updates[..n], kv, Key(base[i]));
        }
      }
    }
  }

  lemma {:induction false} FindAfterMerge(updates: seq<string>, base: seq<string>, k: string)
    requires AllAssign(updates) && IsName(k)
    ensures Find(base, k) < |base| ==> Find(Merge(updates, base), k) == Find(base, k)
    ensures |Merge(updates, base)| >= |base| && (Find(base, k) == |base| ==> Find(Merge(updates, base), k) >= |base|)
    ensures Find(Merge(updates, base), k) < |Merge(updates, base)|
            <==> Find(base, k) < |base| || exists kv <- updates :: Key(kv) == k
    decreases |updates|
  {
    if updates != [] {
      var n := |updates| - 1;
      var kv, before := updates[n], Merge(updates[..n], base);
      assert kv in updates && updates == updates[..n] + [kv];
      FindAfterMerge(updates[..n], base, k);
      FindAfterPut(before, kv, k);
    }
  }

  lemma FindAfterPut(list: seq<string>, kv: string, k: string)
    requires IsName(k) && '=' in kv
    ensures Find(list, k) < |list| ==> Find(Put(list, kv), k) == Find(list, k)
    ensures Find(list, k) == |list| ==> Find(Put(list, kv), k) == if Key(kv) == k then |list| else |Put(list, kv)|
  {
    NameMatches(k, kv);
    var f, i := Find(list, k), Find(list, Key(kv));
    if f < |list| {
      NameMatches(k, list[f]);
      NameMatches(Key(kv), list[f]);
      FindUnique(Put(list, kv), k, f);
    } else if Key(kv) == k {
      FindUnique(Put(list, kv), k, i);
    } else {
      FindNone(Put(list, kv), k);
    }
  }

  lemma NewNamesAfterAdding(updates: seq<string>, base: seq<string>, kv: string)
    ensures NewNames(updates + [kv], base)
            == NewNames(updates, base) + if Find(base, Key(kv)) == |base| then {Key(kv)} else {}
    ensures Key(kv) in NewNames(updates, base)
        <==> Find(base, Key(kv)) == |base| && exists u <- updates :: Key(u) == Key(kv)
  {
  }

  lemma MergeGrows(updates: seq<string>, base: seq<string>, kv: string)
    requires AllAssign(updates) && '=' in kv
    requires |Merge(updates, base)| == |base| + |NewNames(updates, base)|
    ensures |Put(Merge(updates, base), kv)| == |base| + |NewNames(updates + [kv], base)|
  {
    FindAfterMerge(updates, base, Key(kv));
    NewNamesAfterAdding(updates, base, kv);
  }

  lemma PlaceAfterPut(updates: seq<string>, base: seq<string>, kv: string, i: nat)
    requires AllAssign(updates) && '=' in kv && i < |base| <= |Merge(updates, base)|
    ensures Put(Merge(updates, base), kv)[i] ==
      if '=' in base[i] && i == Find(base, Key(base[i])) && Key(base[i]) == Key(kv) then kv else Merge(updates, base)[i]
  {
    FindAfterMerge(updates, base, Key(kv));
    NameMatches(Key(kv), base[i]);
  }

  lemma LastAfterAdding(updates: seq<string>, kv: string, k: string)
    requires '=' in kv && IsName(k)
    ensures LastOf(updates + [kv], k) == if k == Key(kv) then Some(kv) else LastOf(updates, k)
  {
    NameMatches(k, kv);
    assert (updates + [kv])[..|updates|] == updates;
  }

  /** A command runs with `PWD` set to its directory and the other variables as they were. */
  lemma EnvForDir(dir: string, base: seq<string>, k: string)
    requires IsName(k)
    ensures Lookup(Merge(["PWD=" + dir], base), k) == if k == "PWD=" then Some("PWD=" + dir) else Lookup(base, k)
  {
    var kv := "PWD=" + dir;
    assert kv[3] == '=' && '=' in kv;
    LookupAfterMerge([kv], base, k);
    NameMatches("PWD=", kv);
    NameMatches(k, kv);
    assert LastOf([kv], k) == if k <= kv then Some(kv) else LastOf([], k);
  }
}
