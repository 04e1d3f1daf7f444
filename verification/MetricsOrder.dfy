/** When the order in which the pending endpoints are visited does not matter for the metrics relations. */
module MetricsOrder {
  import opened Wrappers
  import opened Metrics

  ghost predicate Complete(providers: seq<Provider>, pending: map<string, Endpoint>, picks: seq<Option<string>>) {
    LegalPicks(providers, pending, picks) && |picks| == |providers|
  }

  /** The position of the first provider that matches, or the number of providers if none does. */
  function FirstMatch(providers: seq<Provider>, e: Endpoint): (i: nat)
    ensures i <= |providers| && (i < |providers| ==> Matches(providers[i], e))
    ensures forall j | 0 <= j < i :: !Matches(providers[j], e)
  {
    if providers == [] || Matches(providers[0], e) then 0 else 1 + FirstMatch(providers[1..], e)
  }

  predicate IsMatched(providers: seq<Provider>, e: Endpoint) {
    FirstMatch(providers, e) < |providers|
  }

  predicate ShareFirst(providers: seq<Provider>, pending: map<string, Endpoint>, g: string, h: string) {
    && g in pending && h in pending && g != h && IsMatched(providers, pending[g])
    && FirstMatch(providers, pending[g]) == FirstMatch(providers, pending[h])
  }

  /** No two pending endpoints have the same first provider. */
  ghost predicate FirstMatchesDiffer(providers: seq<Provider>, pending: map<string, Endpoint>) {
    forall g, h :: !ShareFirst(providers, pending, g, h)
  }

  predicate MatchesBoth(p: Provider, pending: map<string, Endpoint>, g: string, h: string) {
    g in pending && h in pending && g != h && Matches(p, pending[g]) && Matches(p, pending[h])
  }

  ghost predicate NoProviderMatchesTwo(providers: seq<Provider>, pending: map<string, Endpoint>) {
    forall g, h, i: nat | i < |providers| :: !MatchesBoth(providers[i], pending, g, h)
  }

  predicate BothMatch(p: Provider, q: Provider, pending: map<string, Endpoint>, g: string) {
    g in pending && Matches(p, pending[g]) && Matches(q, pending[g])
  }

  ghost predicate NoEndpointIsMatchedTwice(providers: seq<Provider>, pending: map<string, Endpoint>) {
    forall g, i: nat, j: nat | i < j < |providers| :: !BothMatch(providers[i], providers[j], pending, g)
  }

  // ---------------------------------------------------------------- runs can be continued

  lemma AnyPick(left: map<string, Endpoint>, p: Provider) returns (pick: Option<string>)
    ensures LegalPick(left, p, pick)
  {
    if forall g <- left :: !Matches(p, left[g]) {
      pick := None;
    } else {
      var g :| g in left && Matches(p, left[g]);
      pick := Some(g);
    }
  }

  lemma {:induction false} Continued(providers: seq<Provider>, pending: map<string, Endpoint>,
                                     picks: seq<Option<string>>)
    returns (all: seq<Option<string>>)
    requires LegalPicks(providers, pending, picks)
    ensures Complete(providers, pending, all) && picks <= all
    decreases |providers| - |picks|
  {
    all := picks;
    if |picks| < |providers| {
      var pick := AnyPick(Left(pending, picks), providers[|picks|]);
      PickMore(providers, pending, picks, pick);
      all := Continued(providers, pending, picks + [pick]);
    }
  }

  lemma Prefix(providers: seq<Provider>, pending: map<string, Endpoint>, picks: seq<Option<string>>, n: nat)
    requires LegalPicks(providers, pending, picks) && n <= |picks|
    ensures LegalPicks(providers, pending, picks[..n])
  {
    forall i | 0 <= i < n
      ensures LegalPick(Left(pending, picks[..n][..i]), providers[i], picks[..n][i])
    {
      assert picks[..n][..i] == picks[..i];
    }
  }

  /** Some run gives an endpoint to the first provider that matches it. */
  lemma RunPicking(providers: seq<Provider>, pending: map<string, Endpoint>, g: string)
    returns (picks: seq<Option<string>>)
    requires g in pending && IsMatched(providers, pending[g])
    ensures Complete(providers, pending, picks) && picks[FirstMatch(providers, pending[g])] == Some(g)
  {
    var n := FirstMatch(providers, pending[g]);
    assert Left(pending, []) == pending;
    var any := Continued(providers, pending, []);
    var before := any[..n];
    Prefix(providers, pending, any, n);
    MatchingConserves(providers, pending, before);
    PickMore(providers, pending, before, Some(g));
    picks := Continued(providers, pending, before + [Some(g)]);
  }

  // ---------------------------------------------------------------- every order makes the same picks

  /** After each step exactly the endpoints whose first provider is still to come are left. */
  lemma {:induction false} LeftWaitsForFirst(providers: seq<Provider>, pending: map<string, Endpoint>,
                                             picks: seq<Option<string>>, n: nat)
    requires FirstMatchesDiffer(providers, pending) && LegalPicks(providers, pending, picks) && n <= |picks|
    ensures forall g <- pending :: g in Left(pending, picks[..n]) <==> FirstMatch(providers, pending[g]) >= n
  {
    if n > 0 {
      LeftWaitsForFirst(providers, pending, picks, n - 1);
      PickIsFirst(providers, pending, picks, n - 1);
      OneMorePick(pending, picks, n - 1);
    }
  }

  lemma OneMorePick(pending: map<string, Endpoint>, picks: seq<Option<string>>, i: nat)
    requires i < |picks|
    ensures forall g :: g in Left(pending, picks[..i + 1]) <==> g in Left(pending, picks[..i]) && picks[i] != Some(g)
  {
    assert picks[..i + 1] == picks[..i] + [picks[i]];
  }

  lemma PickIsFirst(providers: seq<Provider>, pending: map<string, Endpoint>, picks: seq<Option<string>>, i: nat)
    requires FirstMatchesDiffer(providers, pending) && LegalPicks(providers, pending, picks) && i < |picks|
    requires forall g <- pending :: g in Left(pending, picks[..i]) <==> FirstMatch(providers, pending[g]) >= i
    ensures forall g <- pending :: picks[i] == Some(g) <==> FirstMatch(providers, pending[g]) == i
    ensures picks[i].Some? ==> picks[i].value in pending
  {
    assert LegalPick(Left(pending, picks[..i]), providers[i], picks[i]);
    if picks[i].Some? {
      forall g <- pending
        ensures g == picks[i].value <==> FirstMatch(providers, pending[g]) == i
      {
        assert !ShareFirst(providers, pending, g, picks[i].value);
      }
    }
  }

  /** Every endpoint goes to the first provider that matches it, and those without one are left. */
  lemma FirstProviderPicks(providers: seq<Provider>, pending: map<string, Endpoint>, picks: seq<Option<string>>)
    requires FirstMatchesDiffer(providers, pending) && Complete(providers, pending, picks)
    ensures forall g <- pending, i: nat | i < |picks| :: picks[i] == Some(g) <==> FirstMatch(providers, pending[g]) == i
    ensures forall i | 0 <= i < |picks| && picks[i].Some? :: picks[i].value in pending
    ensures forall g :: g in Left(pending, picks) <==> g in pending && !IsMatched(providers, pending[g])
  {
    forall i: nat | i < |picks|
      ensures forall g <- pending :: picks[i] == Some(g) <==> FirstMatch(providers, pending[g]) == i
      ensures picks[i].Some? ==> picks[i].value in pending
    {
      LeftWaitsForFirst(providers, pending, picks, i);
      PickIsFirst(providers, pending, picks, i);
    }
    LeftWaitsForFirst(providers, pending, picks, |picks|);
    assert picks[..|picks|] == picks;
  }

  /** All orders make the same picks exactly if no two pending endpoints have the same first provider. */
  lemma OrderNeverMatters(providers: seq<Provider>, pending: map<string, Endpoint>)
    ensures FirstMatchesDiffer(providers, pending)
            <==> forall a, b | Complete(providers, pending, a) && Complete(providers, pending, b) :: a == b
  {
    if FirstMatchesDiffer(providers, pending) {
      forall a, b | Complete(providers, pending, a) && Complete(providers, pending, b)
        ensures a == b
      {
        FirstProviderPicks(providers, pending, a);
        FirstProviderPicks(providers, pending, b);
        forall i | 0 <= i < |a|
          ensures a[i] == b[i]
        {
        }
      }
    } else {
      var g, h :| ShareFirst(providers, pending, g, h);
      var a := RunPicking(providers, pending, g);
      var b := RunPicking(providers, pending, h);
      assert a != b;
    }
  }

  lemma SeparateProvidersDiffer(providers: seq<Provider>, pending: map<string, Endpoint>)
    requires NoProviderMatchesTwo(providers, pending)
    ensures FirstMatchesDiffer(providers, pending)
  {
    forall g, h | ShareFirst(providers, pending, g, h)
      ensures false
    {
      assert MatchesBoth(providers[FirstMatch(providers, pending[g])], pending, g, h);
    }
  }

  // ---------------------------------------------------------------- what is left

  /**
   If no endpoint is matched twice, all orders leave the same endpoints exactly if no provider matches
   two, and whether nothing is left does not depend on the order in any case.
   */
  lemma LeftIgnoresOrder(providers: seq<Provider>, pending: map<string, Endpoint>)
    requires NoEndpointIsMatchedTwice(providers, pending)
    ensures NoProviderMatchesTwo(providers, pending)
            <==> forall a, b | Complete(providers, pending, a) && Complete(providers, pending, b) ::
                Left(pending, a) == Left(pending, b)
    ensures forall a | Complete(providers, pending, a) ::
      Left(pending, a) == map[]
      <==> NoProviderMatchesTwo(providers, pending) && forall g <- pending :: IsMatched(providers, pending[g])
  {
    if NoProviderMatchesTwo(providers, pending) {
      SeparateProvidersDiffer(providers, pending);
      forall a | Complete(providers, pending, a)
        ensures forall g :: g in Left(pending, a) <==> g in pending && !IsMatched(providers, pending[g])
      {
        FirstProviderPicks(providers, pending, a);
      }
    } else {
      var g, h, i: nat :| i < |providers| && MatchesBoth(providers[i], pending, g, h);
      forall a | Complete(providers, pending, a)
        ensures a[i] != Some(g) ==> g in Left(pending, a)
        ensures a[i] != Some(h) ==> h in Left(pending, a)
      {
        OnlyProvider(providers, pending, a, i, g);
        OnlyProvider(providers, pending, a, i, h);
      }
      OnlyMatchIsFirst(providers, pending, i, g);
      OnlyMatchIsFirst(providers, pending, i, h);
      var a := RunPicking(providers, pending, g);
      var b := RunPicking(providers, pending, h);
      assert g !in Left(pending, a) && g in Left(pending, b);
    }
  }

  lemma OnlyMatchIsFirst(providers: seq<Provider>, pending: map<string, Endpoint>, i: nat, g: string)
    requires NoEndpointIsMatchedTwice(providers, pending)
    requires g in pending && i < |providers| && Matches(providers[i], pending[g])
    ensures FirstMatch(providers, pending[g]) == i
  {
    var f := FirstMatch(providers, pending[g]);
    assert f < i ==> BothMatch(providers[f], providers[i], pending, g);
  }

  lemma OnlyProvider(providers: seq<Provider>, pending: map<string, Endpoint>, picks: seq<Option<string>>, i: nat,
                     g: string)
    requires NoEndpointIsMatchedTwice(providers, pending) && Complete(providers, pending, picks)
    requires g in pending && i < |providers| && Matches(providers[i], pending[g])
    ensures g in Left(pending, picks) <==> picks[i] != Some(g)
  {
    MatchingConserves(providers, pending, picks);
    if g !in Left(pending, picks) {
      var j :| 0 <= j < |picks| && picks[j] == Some(g);
      OnlyMatchIsFirst(providers, pending, i, g);
      OnlyMatchIsFirst(providers, pending, j, g);
    }
  }

  // ---------------------------------------------------------------- all that can be left

  predicate Takes(p: Provider, pending: map<string, Endpoint>, left: set<string>, g: string) {
    g in left && g in pending && Matches(p, pending[g])
  }

  function Without(left: set<string>, g: string): set<string> {
    left - {g}
  }

  /** What can be left after one more provider. */
  function Step(p: Provider, pending: map<string, Endpoint>, before: set<set<string>>): set<set<string>> {
    (set left | left in before && forall g <- left :: !Takes(p, pending, left, g))
    + (set left, g | left in before && g in left && Takes(p, pending, left, g) :: Without(left, g))
  }

  lemma StepBack(p: Provider, pending: map<string, Endpoint>, before: set<set<string>>, left: set<string>)
    returns (l: set<string>, pick: Option<string>)
    requires left in Step(p, pending, before)
    ensures l in before && (pick.None? ==> left == l && forall g <- l :: !Takes(p, pending, l, g))
    ensures pick.Some? ==> Takes(p, pending, l, pick.value) && left == l - {pick.value}
  {
    if left in before && forall g <- left :: !Takes(p, pending, left, g) {
      l, pick := left, None;
    } else {
      var m, g :| m in before && Takes(p, pending, m, g) && left == Without(m, g);
      l, pick := m, Some(g);
    }
  }

  /** All sets of endpoints that can be left after the first `n` providers. */
  function Reached(providers: seq<Provider>, pending: map<string, Endpoint>, n: nat): set<set<string>>
    requires n <= |providers|
  {
    if n == 0 then {pending.Keys} else Step(providers[n - 1], pending, Reached(providers, pending, n - 1))
  }

  lemma {:induction false} RunIsReached(providers: seq<Provider>, pending: map<string, Endpoint>,
                                        picks: seq<Option<string>>)
    requires LegalPicks(providers, pending, picks)
    ensures Left(pending, picks).Keys in Reached(providers, pending, |picks|)
    decreases |picks|
  {
    if |picks| == 0 {
      assert Left(pending, picks) == pending;
    } else {
      var n := |picks| - 1;
      Prefix(providers, pending, picks, n);
      RunIsReached(providers, pending, picks[..n]);
      assert LegalPick(Left(pending, picks[..n]), providers[n], picks[n]);
      PickMore(providers, pending, picks[..n], picks[n]);
      assert picks[..n] + [picks[n]] == picks;
    }
  }

  lemma {:induction false} ReachedByRun(providers: seq<Provider>, pending: map<string, Endpoint>, n: nat,
                                        left: set<string>)
    returns (picks: seq<Option<string>>)
    requires n <= |providers| && left in Reached(providers, pending, n)
    ensures LegalPicks(providers, pending, picks) && |picks| == n && Left(pending, picks).Keys == left
  {
    if n == 0 {
      picks := [];
      assert Left(pending, picks) == pending;
    } else {
      var before, pick := StepBack(providers[n - 1], pending, Reached(providers, pending, n - 1), left);
      picks := ReachedByRun(providers, pending, n - 1, before);
      assert forall g <- Left(pending, picks) :: g in before && Left(pending, picks)[g] == pending[g];
      assert pick.None? ==> forall g <- before :: !Takes(providers[n - 1], pending, before, g);
      assert LegalPick(Left(pending, picks), providers[n - 1], pick);
      PickMore(providers, pending, picks, pick);
      picks := picks + [pick];
    }
  }

  /** Whether nothing is left is independent of the order exactly if all sets that can be left are empty, or none is. */
  lemma SuccessIgnoresOrder(providers: seq<Provider>, pending: map<string, Endpoint>)
    ensures (forall a, b | Complete(providers, pending, a) && Complete(providers, pending, b) ::
               Left(pending, a) == map[] <==> Left(pending, b) == map[])
            <==> {} !in Reached(providers, pending, |providers|) || Reached(providers, pending, |providers|) == {{}}
  {
    var all := Reached(providers, pending, |providers|);
    forall a | Complete(providers, pending, a)
      ensures Left(pending, a).Keys in all && (Left(pending, a) == map[] <==> Left(pending, a).Keys == {})
    {
      RunIsReached(providers, pending, a);
    }
    if {} in all && all != {{}} {
      var left :| left in all && left != {};
      var a := ReachedByRun(providers, pending, |providers|, {});
      var b := ReachedByRun(providers, pending, |providers|, left);
      assert Complete(providers, pending, a) && Complete(providers, pending, b);
    }
  }

  // ---------------------------------------------------------------- which provider is shown

  /** The relation of this endpoint with this provider shows this provider. */
  predicate ShowsItself(providers: seq<Provider>, i: nat, e: Endpoint)
    requires i < |providers|
  {
    MatchesType(providers[i], e) || providers[i] == providers[|providers| - 1]
  }

  ghost predicate Relates(providers: seq<Provider>, pending: map<string, Endpoint>, picks: seq<Option<string>>, i: nat,
                          g: string) {
    Complete(providers, pending, picks) && g in pending && i < |picks| && picks[i] == Some(g)
  }

  /** In every order each endpoint that is picked shows the provider that picked it. */
  ghost predicate AlwaysShown(providers: seq<Provider>, pending: map<string, Endpoint>) {
    forall picks, g, i: nat | Relates(providers, pending, picks, i, g) ::
        Shown(providers, i, pending[g]) == providers[i]
  }

  /** In general: exactly if no provider can meet an endpoint left for it that it would not show. */
  lemma AlwaysShownIff(providers: seq<Provider>, pending: map<string, Endpoint>)
    ensures AlwaysShown(providers, pending)
            <==> forall i: nat, left, g |
                   i < |providers| && left in Reached(providers, pending, i) && g in left && g in pending ::
                   Matches(providers[i], pending[g]) ==> ShowsItself(providers, i, pending[g])
  {
    if AlwaysShown(providers, pending) {
      forall i: nat, left, g | i < |providers| && left in Reached(providers, pending, i) && g in left && g in pending
                               && Matches(providers[i], pending[g])
        ensures ShowsItself(providers, i, pending[g])
      {
        var before := ReachedByRun(providers, pending, i, left);
        PickMore(providers, pending, before, Some(g));
        var picks := Continued(providers, pending, before + [Some(g)]);
        assert Relates(providers, pending, picks, i, g);
        assert Shown(providers, i, pending[g]) == providers[i];
      }
    } else {
      var picks: seq<Option<string>>, g, i: nat :| Relates(providers, pending, picks, i, g)
          && Shown(providers, i, pending[g]) != providers[i];
      Prefix(providers, pending, picks, i);
      RunIsReached(providers, pending, picks[..i]);
      assert LegalPick(Left(pending, picks[..i]), providers[i], picks[i]);
      assert !ShowsItself(providers, i, pending[g]);
    }
  }

  /** It is enough that all matches show themselves, and it takes at least that all first matches do. */
  lemma AlwaysShownBetween(providers: seq<Provider>, pending: map<string, Endpoint>)
    ensures (forall g <- pending, i: nat | i < |providers| && Matches(providers[i], pending[g]) ::
               ShowsItself(providers, i, pending[g]))
            ==> AlwaysShown(providers, pending)
    ensures AlwaysShown(providers, pending)
            ==> forall g <- pending | IsMatched(providers, pending[g]) ::
                  ShowsItself(providers, FirstMatch(providers, pending[g]), pending[g])
  {
    forall picks, g, i: nat | Relates(providers, pending, picks, i, g)
      ensures Matches(providers[i], pending[g])
    {
      MatchingConserves(providers, pending, picks);
    }
    forall g <- pending | IsMatched(providers, pending[g]) && AlwaysShown(providers, pending)
      ensures ShowsItself(providers, FirstMatch(providers, pending[g]), pending[g])
    {
      var picks := RunPicking(providers, pending, g);
      assert Relates(providers, pending, picks, FirstMatch(providers, pending[g]), g);
      assert Shown(providers, FirstMatch(providers, pending[g]), pending[g])
          == providers[FirstMatch(providers, pending[g])];
    }
  }

  lemma PickerIsFirst(providers: seq<Provider>, pending: map<string, Endpoint>, picks: seq<Option<string>>, i: nat,
                      g: string)
    requires FirstMatchesDiffer(providers, pending) || NoEndpointIsMatchedTwice(providers, pending)
    requires Relates(providers, pending, picks, i, g)
    ensures FirstMatch(providers, pending[g]) == i
  {
    if FirstMatchesDiffer(providers, pending) {
      FirstProviderPicks(providers, pending, picks);
    } else {
      MatchingConserves(providers, pending, picks);
      OnlyMatchIsFirst(providers, pending, i, g);
    }
  }

  /** If no two endpoints have the same first provider, or none is matched twice, the first matches decide. */
  lemma FirstMatchesDecide(providers: seq<Provider>, pending: map<string, Endpoint>)
    requires FirstMatchesDiffer(providers, pending) || NoEndpointIsMatchedTwice(providers, pending)
    ensures AlwaysShown(providers, pending)
            <==> forall g <- pending | IsMatched(providers, pending[g]) ::
                   ShowsItself(providers, FirstMatch(providers, pending[g]), pending[g])
  {
    AlwaysShownBetween(providers, pending);
    forall picks, g, i: nat | Relates(providers, pending, picks, i, g)
      ensures FirstMatch(providers, pending[g]) == i
    {
      PickerIsFirst(providers, pending, picks, i, g);
    }
  }

  // ---------------------------------------------------------------- only the runs that succeed

  function Only(pending: map<string, Endpoint>, left: set<string>): map<string, Endpoint> {
    map g | g in pending && g in left :: pending[g]
  }

  /** A run is a run of the first providers and a run of the others for what is left. */
  lemma RunInTwo(providers: seq<Provider>, pending: map<string, Endpoint>, a: seq<Option<string>>,
                 b: seq<Option<string>>)
    requires |a| <= |providers|
    ensures Left(pending, a + b) == Left(Left(pending, a), b)
    ensures LegalPicks(providers, pending, a + b)
            <==> LegalPicks(providers, pending, a) && LegalPicks(providers[|a|..], Left(pending, a), b)
  {
    var rest := providers[|a|..];
    forall i | 0 <= i < |b| && |a| + |b| <= |providers|
      ensures Left(pending, (a + b)[..|a| + i]) == Left(Left(pending, a), b[..i])
      ensures rest[i] == providers[|a| + i] && (a + b)[|a| + i] == b[i]
    {
      assert (a + b)[..|a| + i] == a + b[..i];
    }
    if LegalPicks(providers, pending, a + b) {
      Prefix(providers, pending, a + b, |a|);
      assert (a + b)[..|a|] == a;
      forall i | 0 <= i < |b|
        ensures LegalPick(Left(Left(pending, a), b[..i]), rest[i], b[i])
      {
        assert LegalPick(Left(pending, (a + b)[..|a| + i]), providers[|a| + i], (a + b)[|a| + i]);
      }
    }
    if LegalPicks(providers, pending, a) && LegalPicks(rest, Left(pending, a), b) {
      forall i | 0 <= i < |a + b|
        ensures LegalPick(Left(pending, (a + b)[..i]), providers[i], (a + b)[i])
      {
        if i < |a| {
          assert (a + b)[..i] == a[..i];
        } else {
          assert LegalPick(Left(Left(pending, a), b[..i - |a|]), rest[i - |a|], b[i - |a|]);
        }
      }
    }
  }

  /** The first `i` providers can leave `left`, the next can take `g` of it, and the others can take the rest. */
  predicate CanTakeAndSucceed(providers: seq<Provider>, pending: map<string, Endpoint>, i: nat, left: set<string>,
                              g: string)
    requires i < |providers|
  {
    && left in Reached(providers, pending, i) && Takes(providers[i], pending, left, g)
    && {} in Reached(providers[i + 1..], Only(pending, left - {g}), |providers| - i - 1)
  }

  lemma SuccessfulRun(providers: seq<Provider>, pending: map<string, Endpoint>, i: nat, left: set<string>, g: string)
    returns (picks: seq<Option<string>>)
    requires i < |providers| && CanTakeAndSucceed(providers, pending, i, left, g)
    ensures Relates(providers, pending, picks, i, g) && Left(pending, picks) == map[]
  {
    var half := TakenRun(providers, pending, i, left, g);
    picks := Finish(providers, pending, half, i + 1);
    assert picks[i] == half[i];
  }

  lemma TakenRun(providers: seq<Provider>, pending: map<string, Endpoint>, i: nat, left: set<string>, g: string)
    returns (half: seq<Option<string>>)
    requires i < |providers| && left in Reached(providers, pending, i) && Takes(providers[i], pending, left, g)
    ensures LegalPicks(providers, pending, half) && |half| == i + 1 && half[i] == Some(g)
    ensures Left(pending, half) == Only(pending, left - {g})
  {
    var before := ReachedByRun(providers, pending, i, left);
    TakeOne(providers, pending, before, left, g);
    half := before + [Some(g)];
  }

  lemma Finish(providers: seq<Provider>, pending: map<string, Endpoint>, half: seq<Option<string>>, n: nat)
    returns (picks: seq<Option<string>>)
    requires LegalPicks(providers, pending, half) && |half| == n
    requires {} in Reached(providers[n..], Left(pending, half), |providers| - n)
    ensures Complete(providers, pending, picks) && half <= picks && Left(pending, picks) == map[]
  {
    var after := ReachedByRun(providers[n..], Left(pending, half), |providers| - n, {});
    RunInTwo(providers, pending, half, after);
    picks := half + after;
    assert Left(Left(pending, half), after) == map[];
  }

  lemma TakeOne(providers: seq<Provider>, pending: map<string, Endpoint>, before: seq<Option<string>>,
                left: set<string>, g: string)
    requires LegalPicks(providers, pending, before) && |before| < |providers| && Left(pending, before).Keys == left
    requires Takes(providers[|before|], pending, left, g)
    ensures LegalPicks(providers, pending, before + [Some(g)])
    ensures Left(pending, before + [Some(g)]) == Only(pending, left - {g})
  {
    assert g in Left(pending, before);
    PickMore(providers, pending, before, Some(g));
  }

  lemma SuccessIsReached(providers: seq<Provider>, pending: map<string, Endpoint>, picks: seq<Option<string>>, i: nat,
                         g: string)
    requires Relates(providers, pending, picks, i, g) && Left(pending, picks) == map[]
    ensures CanTakeAndSucceed(providers, pending, i, Left(pending, picks[..i]).Keys, g)
  {
    FirstHalf(providers, pending, picks, i, g);
    SecondHalf(providers, pending, picks, i + 1);
    assert Left(pending, picks).Keys == {};
  }

  lemma SecondHalf(providers: seq<Provider>, pending: map<string, Endpoint>, picks: seq<Option<string>>, k: nat)
    requires Complete(providers, pending, picks) && k <= |picks|
    ensures Left(pending, picks).Keys in Reached(providers[k..], Left(pending, picks[..k]), |providers| - k)
  {
    assert picks == picks[..k] + picks[k..];
    RunInTwo(providers, pending, picks[..k], picks[k..]);
    RunIsReached(providers[k..], Left(pending, picks[..k]), picks[k..]);
  }

  lemma FirstHalf(providers: seq<Provider>, pending: map<string, Endpoint>, picks: seq<Option<string>>, i: nat,
                  g: string)
    requires Relates(providers, pending, picks, i, g)
    ensures LegalPicks(providers, pending, picks[..i])
    ensures Left(pending, picks[..i]).Keys in Reached(providers, pending, i)
    ensures Takes(providers[i], pending, Left(pending, picks[..i]).Keys, g)
    ensures Left(pending, picks[..i + 1]) == Only(pending, Left(pending, picks[..i]).Keys - {g})
  {
    Prefix(providers, pending, picks, i);
    RunIsReached(providers, pending, picks[..i]);
    assert LegalPick(Left(pending, picks[..i]), providers[i], picks[i]);
    OneMorePick(pending, picks, i);
  }

  function PickerOf(picks: seq<Option<string>>, g: string): (i: nat)
    requires Some(g) in picks
    ensures i < |picks| && picks[i] == Some(g)
  {
    if picks[0] == Some(g) then 0 else 1 + PickerOf(picks[1..], g)
  }

  lemma NothingLeft(pending: map<string, Endpoint>, picks: seq<Option<string>>)
    requires Left(pending, picks) == map[]
    ensures forall g <- pending :: Some(g) in picks
  {
    forall g <- pending
      ensures Some(g) in picks
    {
      assert g !in Left(pending, picks);
    }
  }

  lemma RelationsOf(providers: seq<Provider>, pending: map<string, Endpoint>, picks: seq<Option<string>>)
    returns (relations: map<string, Relation>, source: map<string, nat>)
    requires |picks| == |providers| && forall g <- pending :: Some(g) in picks
    ensures relations.Keys == source.Keys == pending.Keys
    ensures forall g <- pending ::
      && source[g] < |picks| && picks[source[g]] == Some(g) && relations[g] == Related(providers[source[g]], pending[g])
  {
    source := map g | g in pending :: PickerOf(picks, g);
    relations := map g | g in pending :: Related(providers[PickerOf(picks, g)], pending[g]);
  }

  /** Every run that leaves nothing is the run behind an answer. */
  lemma AnswerOf(providers: seq<Provider>, pending: map<string, Endpoint>, picks: seq<Option<string>>)
    returns (r: Result<map<string, Relation>, Error>, source: map<string, nat>)
    requires Complete(providers, pending, picks) && Left(pending, picks) == map[]
    ensures r.Ok? && Answers(providers, pending, r, picks, source)
  {
    NothingLeft(pending, picks);
    var relations;
    relations, source := RelationsOf(providers, pending, picks);
    r := Ok(relations);
  }

  // ---------------------------------------------------------------- the handler

  /**
   If no two pending endpoints have the same first provider, a call succeeds exactly if all of them are
   matched, whatever the order, and every relation is with the first provider that matches. It shows that
   provider exactly if it was matched by type or equals the last of all.
   */
  lemma AnswerIgnoresOrder(providers: seq<Provider>, pending: map<string, Endpoint>,
                           r: Result<map<string, Relation>, Error>,
                           picks: seq<Option<string>>, source: map<string, nat>)
    requires FirstMatchesDiffer(providers, pending) && Answers(providers, pending, r, picks, source)
    ensures r.Ok? <==> forall g <- pending :: IsMatched(providers, pending[g])
    ensures r.Ok? ==> forall g <- pending ::
      && g in r.value && source[g] == FirstMatch(providers, pending[g])
      && (Read(r.value[g].metrics, providers) == providers[source[g]]
          <==> ShowsItself(providers, source[g], pending[g]))
  {
    FirstProviderPicks(providers, pending, picks);
    if r.Ok? {
      forall g <- pending
        ensures source[g] == FirstMatch(providers, pending[g])
      {
        assert picks[source[g]] == Some(g);
      }
    }
  }
  /**
   A call for one endpoint succeeds exactly if a provider has its API URL, or its type and logging URL;
   the relation is with the first of them.
   */
  lemma OneEndpointIsMatched(providers: seq<Provider>, e: Endpoint, r: Result<map<string, Relation>, Error>,
                             picks: seq<Option<string>>, source: map<string, nat>)
    requires Answers(providers, map[e.guid := e], r, picks, source)
    ensures r.Ok? <==> exists p <- providers :: p.url == e.api || (p.kind == e.kind && p.url == e.doppler)
    ensures r.Ok? ==>
      var p := providers[source[e.guid]];
      && (p.url == e.api || (p.kind == e.kind && p.url == e.doppler))
      && forall i | 0 <= i < source[e.guid] ::
           providers[i].url != e.api && !(providers[i].kind == e.kind && providers[i].url == e.doppler)
  {
    var pending := map[e.guid := e];
    assert FirstMatchesDiffer(providers, pending);
    AnswerIgnoresOrder(providers, pending, r, picks, source);
    var n := FirstMatch(providers, e);
    if n < |providers| {
      assert providers[n] in providers;
    }
    forall p <- providers
      ensures p.url == e.api || (p.kind == e.kind && p.url == e.doppler) ==> n < |providers|
    {
      var i :| 0 <= i < |providers| && providers[i] == p;
    }
  }

  /** Every relation of every answer shows the provider it is with. */
  ghost predicate AnswersShow(providers: seq<Provider>, pending: map<string, Endpoint>) {
    forall r: Result<map<string, Relation>, Error>, picks, source, g |
      Answers(providers, pending, r, picks, source) && r.Ok? && g in pending ::
      Read(r.value[g].metrics, providers) == providers[source[g]]
  }

  /**
   All relations that a call can return show their provider exactly if no provider can take an endpoint
   that it would not show in a run that succeeds.
   */
  lemma AnswersShowIff(providers: seq<Provider>, pending: map<string, Endpoint>)
    ensures AnswersShow(providers, pending)
            <==> forall i: nat, left, g | i < |providers| && CanTakeAndSucceed(providers, pending, i, left, g) ::
                   ShowsItself(providers, i, pending[g])
  {
    if AnswersShow(providers, pending) {
      forall i: nat, left, g | i < |providers| && CanTakeAndSucceed(providers, pending, i, left, g)
        ensures ShowsItself(providers, i, pending[g])
      {
        var picks := SuccessfulRun(providers, pending, i, left, g);
        var r, source := AnswerOf(providers, pending, picks);
        MatchingConserves(providers, pending, picks);
        assert source[g] == i;
        assert Read(r.value[g].metrics, providers) == providers[i];
      }
    } else {
      var r: Result<map<string, Relation>, Error>, picks: seq<Option<string>>, source: map<string, nat>, g :|
        Answers(providers, pending, r, picks, source) && r.Ok? && g in pending
        && Read(r.value[g].metrics, providers) != providers[source[g]];
      SuccessIsReached(providers, pending, picks, source[g], g);
    }
  }
}
