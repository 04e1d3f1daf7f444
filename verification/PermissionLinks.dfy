/** Resolving a permission configuration that may be a link to another one. */
module PermissionLinks {
  import opened Wrappers
  import opened Permissions

  /** An entry of the table of configurations: a value or a link to another entry. */
  datatype Entry = Direct(value: Value) | Link(target: string)

  type Table = map<string, Entry>

  /** `Undefined` is the failing property access on a missing entry, `Overflow` an exhausted call stack. */
  datatype Outcome = Found(value: Value) | Undefined | GaveUp | Overflow

  const MAX_TRIES := 20

  /**
   `getConfig` on an entry, with room for `stack` nested calls. The count of tries is handed on to
   `getLinkedPermissionConfig`, which does not pass it back.
   */
  function GetConfig(table: Table, entry: Option<Entry>, tries: nat, stack: nat): Outcome
    decreases stack, 1
  {
    match entry
    case None => Undefined
    case Some(Direct(value)) => Found(value)
    case Some(Link(target)) =>
      if tries >= MAX_TRIES then GaveUp
      else if stack == 0 then Overflow
      else GetLinkedPermissionConfig(table, target, tries + 1, stack)
  }

  function GetLinkedPermissionConfig(table: Table, target: string, tries: nat, stack: nat): Outcome
    requires stack > 0
    decreases stack, 0
  {
    GetConfig(table, Get(table, target), 0, stack - 1)
  }

  function Get(table: Table, key: string): Option<Entry> {
    if key in table then Some(table[key]) else None
  }

  /** The key reached from `key` after `n` links. */
  function Follow(table: Table, key: string, n: nat): Option<string>
    decreases n
  {
    if n == 0 then Some(key)
    else if key in table && table[key].Link? then Follow(table, table[key].target, n - 1)
    else None
  }

  /** Following links from `key` comes back to a key it has seen. */
  ghost predicate Cyclic(table: Table, key: string) {
    exists i: nat, j: nat :: i < j && Follow(table, key, i).Some? && Follow(table, key, i) == Follow(table, key, j)
  }

  /** The limit on tries is never reached. */
  lemma {:induction false} LimitNeverApplies(table: Table, entry: Option<Entry>, stack: nat)
    ensures GetConfig(table, entry, 0, stack) != GaveUp
    decreases stack
  {
    if entry.Some? && entry.value.Link? && stack > 0 {
      LimitNeverApplies(table, Get(table, entry.value.target), stack - 1);
    }
  }

  /** A link is given up only by a caller that says itself that twenty tries were made. */
  lemma GivesUpAtTwenty(table: Table, entry: Option<Entry>, tries: nat, stack: nat)
    ensures GetConfig(table, entry, tries, stack) == GaveUp <==> tries >= 20 && entry.Some? && entry.value.Link?
  {
    if entry.Some? && entry.value.Link? && stack > 0 {
      LimitNeverApplies(table, Get(table, entry.value.target), stack - 1);
    }
  }

  lemma {:induction false} FollowFurther(table: Table, key: string, m: nat, n: nat)
    requires Follow(table, key, m).Some?
    ensures Follow(table, key, m + n) == Follow(table, Follow(table, key, m).value, n)
    decreases m
  {
    if m > 0 {
      FollowFurther(table, table[key].target, m - 1, n);
    }
  }

  lemma {:induction false} FollowLess(table: Table, key: string, m: nat, n: nat)
    requires m <= n && Follow(table, key, n).Some?
    ensures Follow(table, key, m).Some?
    ensures m < n ==> Follow(table, key, m).value in table
    decreases m
  {
    if m > 0 {
      FollowLess(table, table[key].target, m - 1, n - 1);
    }
  }

  /** Resolution overflows a stack exactly if there are more links than it has room for. */
  lemma {:induction false} OverflowsIf(table: Table, key: string, stack: nat)
    ensures GetConfig(table, Get(table, key), 0, stack) == Overflow <==> Follow(table, key, stack + 1).Some?
    decreases stack
  {
    if key in table && table[key].Link? && stack > 0 {
      OverflowsIf(table, table[key].target, stack - 1);
    }
  }

  /** A cycle can be followed for ever. */
  lemma {:induction false} CycleNeverEnds(table: Table, key: string, i: nat, j: nat, n: nat)
    requires i < j && Follow(table, key, i).Some? && Follow(table, key, i) == Follow(table, key, j)
    ensures Follow(table, key, n).Some?
    decreases n
  {
    if n <= j {
      FollowLess(table, key, n, j);
    } else {
      CycleNeverEnds(table, key, i, j, n - (j - i));
      FollowFurther(table, key, i, n - j);
      FollowFurther(table, key, j, n - j);
      assert n - (j - i) == i + (n - j);
    }
  }

  ghost predicate OnChain(table: Table, key: string, n: nat, k: string) {
    exists i: nat :: i < n && Follow(table, key, i) == Some(k)
  }

  /** The different keys among the first `n` of a chain without repetition. */
  lemma {:induction false} ChainIsShort(table: Table, key: string, n: nat) returns (seen: set<string>)
    requires !Cyclic(table, key) && Follow(table, key, n).Some?
    ensures seen <= table.Keys && |seen| == n
    ensures forall k <- seen :: OnChain(table, key, n, k)
    decreases n
  {
    if n == 0 {
      seen := {};
    } else {
      FollowLess(table, key, n - 1, n);
      var before := ChainIsShort(table, key, n - 1);
      var last := Follow(table, key, n - 1).value;
      assert Follow(table, key, n - 1) == Some(last);
      assert last !in before;
      seen := before + {last};
      forall k <- seen
        ensures OnChain(table, key, n, k)
      {
        if k in before {
          assert OnChain(table, key, n - 1, k);
          var i: nat :| i < n - 1 && Follow(table, key, i) == Some(k);
          assert i < n;
        } else {
          assert Follow(table, key, n - 1) == Some(k);
        }
      }
    }
  }

  lemma Subsets(a: set<string>, b: set<string>)
    requires a <= b
    ensures |a| <= |b|
  {
    assert b == a + (b - a);
  }

  /**
   Resolution ends, at the latest after as many links as the table has entries, exactly if the links
   from the key do not form a cycle; on a cycle it overflows every stack.
   */
  lemma ResolvesIfAcyclic(table: Table, key: string)
    ensures !Cyclic(table, key) ==>
      forall stack | stack >= |table| :: GetConfig(table, Get(table, key), 0, stack) != Overflow
    ensures Cyclic(table, key) ==> forall stack: nat :: GetConfig(table, Get(table, key), 0, stack) == Overflow
  {
    if Cyclic(table, key) {
      var i: nat, j: nat :| i < j && Follow(table, key, i).Some? && Follow(table, key, i) == Follow(table, key, j);
      forall stack: nat
        ensures GetConfig(table, Get(table, key), 0, stack) == Overflow
      {
        CycleNeverEnds(table, key, i, j, stack + 1);
        OverflowsIf(table, key, stack);
      }
    } else {
      forall stack | stack >= |table|
        ensures GetConfig(table, Get(table, key), 0, stack) != Overflow
      {
        OverflowsIf(table, key, stack);
        ChainEnds(table, key);
        if Follow(table, key, stack + 1).Some? {
          FollowLess(table, key, |table| + 1, stack + 1);
        }
      }
    }
  }

  /** A chain that does not come back ends within as many links as the table has entries. */
  lemma ChainEnds(table: Table, key: string)
    requires !Cyclic(table, key)
    ensures Follow(table, key, |table| + 1).None?
  {
    if Follow(table, key, |table| + 1).Some? {
      var seen := ChainIsShort(table, key, |table| + 1);
      Subsets(seen, table.Keys);
    }
  }

  /** Following the links from `key` comes to a key that the table does not have. */
  ghost predicate LeavesTable(table: Table, key: string) {
    exists n: nat :: Follow(table, key, n).Some? && Follow(table, key, n).value !in table
  }

  /** Following the links from `key` comes to an entry with a value. */
  ghost predicate EndsInValue(table: Table, key: string) {
    exists n: nat :: Follow(table, key, n).Some? && Follow(table, key, n).value in table
        && table[Follow(table, key, n).value].Direct?
  }

  /** A resolution that does not overflow has followed the chain to its end. */
  lemma {:induction false} ResolvedEnd(table: Table, key: string, stack: nat) returns (n: nat)
    requires GetConfig(table, Get(table, key), 0, stack) != Overflow
    ensures Follow(table, key, n).Some?
    ensures var end := Follow(table, key, n).value;
      && (end in table ==> table[end].Direct? && GetConfig(table, Get(table, key), 0, stack) == Found(table[end].value))
      && (end !in table ==> GetConfig(table, Get(table, key), 0, stack) == Undefined)
    decreases stack
  {
    if key in table && table[key].Link? {
      n := ResolvedEnd(table, table[key].target, stack - 1);
      n := n + 1;
    } else {
      n := 0;
      assert Follow(table, key, 0) == Some(key);
    }
  }

  lemma EndIsLast(table: Table, key: string, m: nat, n: nat)
    requires Follow(table, key, m).Some? && Follow(table, key, n).Some?
    requires Follow(table, key, m).value in table ==> table[Follow(table, key, m).value].Direct?
    ensures n <= m
  {
    if n > m {
      FollowFurther(table, key, m, n - m);
    }
  }

  /**
   On a stack that has room for the table, resolution overflows exactly if the links form a cycle, fails
   on a missing entry exactly if they leave the table, and finds a value exactly if they come to one.
   */
  lemma ThreeOutcomes(table: Table, key: string, stack: nat)
    requires stack >= |table|
    ensures var r := GetConfig(table, Get(table, key), 0, stack);
      && (r == Overflow <==> Cyclic(table, key))
      && (r == Undefined <==> LeavesTable(table, key))
      && (r.Found? <==> EndsInValue(table, key))
  {
    ResolvesIfAcyclic(table, key);
    if Cyclic(table, key) {
      forall n: nat | Follow(table, key, n).Some?
        ensures Follow(table, key, n).value in table && table[Follow(table, key, n).value].Link?
      {
        NextOnCycle(table, key, n);
      }
    } else {
      var m := ResolvedEnd(table, key, stack);
      forall n: nat | Follow(table, key, n).Some?
          && (Follow(table, key, n).value in table ==> table[Follow(table, key, n).value].Direct?)
        ensures n == m
      {
        EndIsLast(table, key, m, n);
        EndIsLast(table, key, n, m);
      }
    }
  }

  lemma NextOnCycle(table: Table, key: string, n: nat)
    requires Cyclic(table, key) && Follow(table, key, n).Some?
    ensures Follow(table, key, n).value in table && table[Follow(table, key, n).value].Link?
  {
    var i: nat, j: nat :| i < j && Follow(table, key, i).Some? && Follow(table, key, i) == Follow(table, key, j);
    CycleNeverEnds(table, key, i, j, n + 1);
    FollowFurther(table, key, n, 1);
  }

  /** A table whose links all lead to its own entries finds a value for each of its keys without a cycle. */
  lemma ClosedTableResolves(table: Table, key: string, stack: nat)
    requires stack >= |table| && key in table && forall k <- table :: table[k].Link? ==> table[k].target in table
    ensures GetConfig(table, Get(table, key), 0, stack).Found? <==> !Cyclic(table, key)
  {
    ThreeOutcomes(table, key, stack);
    forall n: nat | Follow(table, key, n).Some?
      ensures Follow(table, key, n).value in table
    {
      StaysInTable(table, key, n);
    }
    LimitNeverApplies(table, Get(table, key), stack);
  }

  lemma {:induction false} StaysInTable(table: Table, key: string, n: nat)
    requires key in table && (forall k <- table :: table[k].Link? ==> table[k].target in table)
        && Follow(table, key, n).Some?
    ensures Follow(table, key, n).value in table
    decreases n
  {
    if n > 0 {
      StaysInTable(table, table[key].target, n - 1);
    }
  }

  /** What is found is the value, not a link, that the chain ends in. */
  lemma {:induction false} FoundIsEndOfChain(table: Table, key: string, stack: nat) returns (n: nat, end: string)
    requires GetConfig(table, Get(table, key), 0, stack).Found?
    ensures n <= stack && Follow(table, key, n) == Some(end)
    ensures end in table && table[end] == Direct(GetConfig(table, Get(table, key), 0, stack).value)
    decreases stack
  {
    if table[key].Direct? {
      n, end := 0, key;
    } else {
      n, end := FoundIsEndOfChain(table, table[key].target, stack - 1);
      n := n + 1;
    }
  }
}
