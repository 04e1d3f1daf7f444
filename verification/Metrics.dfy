/** Matching endpoints with the metrics providers that describe them. */
module Metrics {
  import opened Wrappers

  datatype Provider = Provider(endpointGuid: string, kind: string, url: string, job: string)

  /** An endpoint the user can reach; `provided` is its token metadata, if that parses. */
  datatype Endpoint = Endpoint(guid: string, kind: string, doppler: string, api: string,
                               provided: Option<seq<Provider>>)

  const METRICS := "metrics"

  // ---------------------------------------------------------------- what is to be matched

  /** The requested endpoints by GUID; of several with one GUID the last counts. */
  function Requested(accessible: seq<Endpoint>, cnsiList: seq<string>): map<string, Endpoint> {
    if accessible == [] then map[]
    else
      var e, before := accessible[|accessible| - 1], Requested(accessible[..|accessible| - 1], cnsiList);
      if e.guid in cnsiList then before[e.guid := e] else before
  }

  function ProvidersOf(e: Endpoint): seq<Provider> {
    if e.provided.None? then []
    else seq(|e.provided.value|, i requires 0 <= i < |e.provided.value| => e.provided.value[i].(endpointGuid := e.guid))
  }

  /** What the metrics endpoints that are not themselves requested provide. */
  function Providers(accessible: seq<Endpoint>, cnsiList: seq<string>): seq<Provider> {
    if accessible == [] then []
    else
      var e, before := accessible[|accessible| - 1], Providers(accessible[..|accessible| - 1], cnsiList);
      if e.guid !in cnsiList && e.kind == METRICS then before + ProvidersOf(e) else before
  }

  lemma {:induction false} RequestedAreAccessible(accessible: seq<Endpoint>, cnsiList: seq<string>)
    ensures forall g :: g in Requested(accessible, cnsiList) <==> g in cnsiList && exists e <- accessible :: e.guid == g
    ensures forall g <- Requested(accessible, cnsiList) ::
      Requested(accessible, cnsiList)[g].guid == g && Requested(accessible, cnsiList)[g] in accessible
    decreases |accessible|
  {
    if accessible != [] {
      var n := |accessible| - 1;
      RequestedAreAccessible(accessible[..n], cnsiList);
      assert accessible == accessible[..n] + [accessible[n]];
    }
  }

  lemma {:induction false} ProvidersAreNotRequested(accessible: seq<Endpoint>, cnsiList: seq<string>)
    ensures forall p <- Providers(accessible, cnsiList) ::
      p.endpointGuid !in cnsiList && exists e <- accessible :: e.guid == p.endpointGuid && e.kind == METRICS
    decreases |accessible|
  {
    if accessible != [] {
      var n := |accessible| - 1;
      ProvidersAreNotRequested(accessible[..n], cnsiList);
      assert accessible == accessible[..n] + [accessible[n]];
    }
  }

  /** They are what the metadata of those endpoints list, with the endpoint's GUID and in their order. */
  lemma {:induction false} ProvidersAreListed(accessible: seq<Endpoint>, cnsiList: seq<string>)
    ensures forall p :: p in Providers(accessible, cnsiList) <==>
      exists e <- accessible ::
        && e.guid !in cnsiList && e.kind == "metrics" && e.provided.Some?
        && exists x <- e.provided.value :: p == Provider(e.guid, x.kind, x.url, x.job)
    decreases |accessible|
  {
    if accessible != [] {
      var n := |accessible| - 1;
      ProvidersAreListed(accessible[..n], cnsiList);
      assert accessible == accessible[..n] + [accessible[n]];
      ProvidersOfOne(accessible[n]);
    }
  }

  lemma ProvidersOfOne(e: Endpoint)
    ensures |ProvidersOf(e)| == if e.provided.Some? then |e.provided.value| else 0
    ensures forall i | 0 <= i < |ProvidersOf(e)| ::
      var x := e.provided.value[i]; ProvidersOf(e)[i] == Provider(e.guid, x.kind, x.url, x.job)
    ensures forall p :: p in ProvidersOf(e) <==>
      e.provided.Some? && exists x <- e.provided.value :: p == Provider(e.guid, x.kind, x.url, x.job)
  {
    if e.provided.Some? {
      forall x <- e.provided.value
        ensures Provider(e.guid, x.kind, x.url, x.job) in ProvidersOf(e)
      {
        var i :| 0 <= i < |e.provided.value| && e.provided.value[i] == x;
        assert ProvidersOf(e)[i] == Provider(e.guid, x.kind, x.url, x.job);
      }
    }
  }

  /** What comes first in the list comes first among the providers. */
  lemma {:induction false} ProvidersInOrder(a: seq<Endpoint>, b: seq<Endpoint>, cnsiList: seq<string>)
    ensures Providers(a + b, cnsiList) == Providers(a, cnsiList) + Providers(b, cnsiList)
    decreases |b|
  {
    if b == [] {
      assert a + b == a;
    } else {
      var n := |b| - 1;
      assert (a + b)[..|a + b| - 1] == a + b[..n] && (a + b)[|a + b| - 1] == b[n];
      ProvidersInOrder(a, b[..n], cnsiList);
    }
  }

  /** Of several endpoints with one GUID the last one is kept. */
  lemma {:induction false} LastOfGuidCounts(accessible: seq<Endpoint>, cnsiList: seq<string>, i: nat)
    requires i < |accessible| && accessible[i].guid in cnsiList
    requires forall j | i < j < |accessible| :: accessible[j].guid != accessible[i].guid
    ensures accessible[i].guid in Requested(accessible, cnsiList)
    ensures Requested(accessible, cnsiList)[accessible[i].guid] == accessible[i]
    decreases |accessible|
  {
    var n := |accessible| - 1;
    if i < n {
      LastOfGuidCounts(accessible[..n], cnsiList, i);
    }
  }

  // ---------------------------------------------------------------- greedy matching in any order

  predicate MatchesType(p: Provider, e: Endpoint) {
    e.kind == p.kind && e.doppler == p.url
  }

  predicate Matches(p: Provider, e: Endpoint) {
    MatchesType(p, e) || e.api == p.url
  }

  /** What is left of the pending endpoints after the first providers picked `picks`. */
  function Left(pending: map<string, Endpoint>, picks: seq<Option<string>>): map<string, Endpoint> {
    map g | g in pending && Some(g) !in picks :: pending[g]
  }

  /** The map may be visited in any order, so a provider picks any endpoint left that matches, or none if none does. */
  ghost predicate LegalPick(left: map<string, Endpoint>, p: Provider, pick: Option<string>) {
    match pick
    case None => forall g <- left :: !Matches(p, left[g])
    case Some(g) => g in left && Matches(p, left[g])
  }

  ghost predicate LegalPicks(providers: seq<Provider>, pending: map<string, Endpoint>, picks: seq<Option<string>>) {
    && |picks| <= |providers|
    && forall i | 0 <= i < |picks| :: LegalPick(Left(pending, picks[..i]), providers[i], picks[i])
  }

  function Picked(picks: seq<Option<string>>): set<string> {
    set p | p in picks && p.Some? :: p.value
  }

  /**
   Whatever the order, every pending endpoint is either left or was picked, by one provider that
   matches it, and no provider picked two.
   */
  lemma MatchingConserves(providers: seq<Provider>, pending: map<string, Endpoint>, picks: seq<Option<string>>)
    requires LegalPicks(providers, pending, picks)
    ensures Left(pending, picks).Keys !! Picked(picks) && Left(pending, picks).Keys + Picked(picks) == pending.Keys
    ensures forall i, j | 0 <= i < j < |picks| && picks[i].Some? :: picks[i] != picks[j]
    ensures forall i | 0 <= i < |picks| && picks[i].Some? ::
      picks[i].value in pending && Matches(providers[i], pending[picks[i].value])
  {
    forall i, j | 0 <= i < j < |picks| && picks[i].Some?
      ensures picks[i] != picks[j]
    {
      assert picks[..j][i] == picks[i];
      assert LegalPick(Left(pending, picks[..j]), providers[j], picks[j]);
    }
    forall g <- Picked(picks)
      ensures g in pending
    {
      var i :| 0 <= i < |picks| && picks[i] == Some(g);
      assert LegalPick(Left(pending, picks[..i]), providers[i], picks[i]);
    }
  }

  /** No endpoint that is left in the end matches a provider that picked nothing. */
  lemma NoMatchIsMissed(providers: seq<Provider>, pending: map<string, Endpoint>, picks: seq<Option<string>>, i: nat,
                        g: string)
    requires LegalPicks(providers, pending, picks) && i < |picks| && picks[i].None?
    requires g in Left(pending, picks)
    ensures !Matches(providers[i], pending[g])
  {
    assert g in Left(pending, picks[..i]);
  }

  /** The first of two providers can take the endpoint that only the second could have: the order decides. */
  lemma SuccessDependsOnOrder(a: Endpoint, b: Endpoint, p: Provider, q: Provider)
    returns (good: seq<Option<string>>, bad: seq<Option<string>>)
    requires a.guid != b.guid && Matches(p, a) && Matches(p, b) && Matches(q, a) && !Matches(q, b)
    ensures var pending := map[a.guid := a, b.guid := b];
      && LegalPicks([p, q], pending, good) && |good| == 2 && Left(pending, good) == map[]
      && LegalPicks([p, q], pending, bad) && |bad| == 2 && Left(pending, bad) == map[b.guid := b]
  {
    var pending := map[a.guid := a, b.guid := b];
    good, bad := [Some(b.guid), Some(a.guid)], [Some(a.guid), None];
    assert good[..0] == [] && good[..1] == [Some(b.guid)] && bad[..0] == [] && bad[..1] == [Some(a.guid)];
    assert Left(pending, []) == pending;
    assert Left(pending, good[..1]) == map[a.guid := a];
    assert Left(pending, bad[..1]) == map[b.guid := b];
  }

  // ---------------------------------------------------------------- the handler

  /** What a relation points to: a copy of its own, or the loop variable that all iterations share. */
  datatype Pointer = Copy(info: Provider) | LoopVariable

  datatype Relation = Relation(metrics: Pointer, endpoint: Endpoint)

  datatype Error = NoEndpointList | NotAllProvided

  /** The provider a relation shows in the end: the copied one, or the last value of the loop variable. */
  function Shown(providers: seq<Provider>, i: nat, e: Endpoint): Provider
    requires i < |providers|
  {
    if MatchesType(providers[i], e) then providers[i] else providers[|providers| - 1]
  }

  /** What the pointer reads once the loop is over. */
  function Read(p: Pointer, providers: seq<Provider>): Provider
    requires p.LoopVariable? ==> providers != []
  {
    match p
    case Copy(info) => info
    case LoopVariable => providers[|providers| - 1]
  }

  method FindPick(p: Provider, pending: map<string, Endpoint>) returns (pick: Option<string>)
    ensures LegalPick(pending, p, pick)
  {
    var left := pending.Keys;
    while left != {}
      invariant left <= pending.Keys
      invariant forall g <- pending :: g in left || !Matches(p, pending[g])
      decreases |left|
    {
      var g :| g in left;
      if Matches(p, pending[g]) {
        return Some(g);
      }
      left := left - {g};
    }
    return None;
  }

  lemma PickMore(providers: seq<Provider>, pending: map<string, Endpoint>, picks: seq<Option<string>>,
                 pick: Option<string>)
    requires LegalPicks(providers, pending, picks) && |picks| < |providers|
    requires LegalPick(Left(pending, picks), providers[|picks|], pick)
    ensures LegalPicks(providers, pending, picks + [pick])
    ensures Left(pending, picks + [pick])
            == if pick.Some? then Left(pending, picks) - {pick.value} else Left(pending, picks)
  {
    forall i | 0 <= i <= |picks|
      ensures (picks + [pick])[..i] == picks[..i]
    {
    }
    assert picks[..|picks|] == picks;
  }

  function Related(p: Provider, e: Endpoint): Relation {
    Relation(if MatchesType(p, e) then Copy(p) else LoopVariable, e)
  }

  /** Every relation is with the provider that `source` names, which picked the endpoint. */
  ghost predicate RelatesPicks(providers: seq<Provider>, pending: map<string, Endpoint>, picks: seq<Option<string>>,
                               source: map<string, nat>, results: map<string, Relation>) {
    && results.Keys == source.Keys && |picks| <= |providers|
    && forall g <- results ::
         && g in pending && source[g] < |picks| && picks[source[g]] == Some(g)
         && results[g] == Related(providers[source[g]], pending[g])
  }

  lemma RelateMore(providers: seq<Provider>, pending: map<string, Endpoint>, picks: seq<Option<string>>,
                   source: map<string, nat>, results: map<string, Relation>, pick: Option<string>)
    requires RelatesPicks(providers, pending, picks, source, results) && |picks| < |providers|
    requires pick.Some? ==> pick.value in pending
    ensures if pick.None? then RelatesPicks(providers, pending, picks + [pick], source, results)
            else RelatesPicks(providers, pending, picks + [pick], source[pick.value := |picks|],
                              results[pick.value := Related(providers[|picks|], pending[pick.value])])
  {
  }

  /** A relation found by type gets a copy of the provider; one found by API URL points to the loop variable. */
  method Relate(providers: seq<Provider>, pending: map<string, Endpoint>)
    returns (results: map<string, Relation>, left: map<string, Endpoint>, ghost picks: seq<Option<string>>,
             ghost source: map<string, nat>)
    ensures LegalPicks(providers, pending, picks) && |picks| == |providers|
    ensures left == Left(pending, picks) && results.Keys == source.Keys == pending.Keys - left.Keys
    ensures forall g <- results :: source[g] < |picks| && picks[source[g]] == Some(g)
    ensures forall g <- results ::
      results[g].endpoint == pending[g]
          && Read(results[g].metrics, providers) == Shown(providers, source[g], pending[g])
  {
    picks, source, left, results := [], map[], pending, map[];
    assert Left(pending, []) == pending;
    for n := 0 to |providers|
      invariant |picks| == n && LegalPicks(providers, pending, picks)
      invariant left == Left(pending, picks) && results.Keys == source.Keys == pending.Keys - left.Keys
      invariant RelatesPicks(providers, pending, picks, source, results)
    {
      var pick := FindPick(providers[n], left);
      PickMore(providers, pending, picks, pick);
      RelateMore(providers, pending, picks, source, results, pick);
      picks := picks + [pick];
      if pick.Some? {
        var info := left[pick.value];
        results, source := results[pick.value := Related(providers[n], info)], source[pick.value := n];
        left := left - {pick.value};
      }
    }
  }

  /** The result of a call for these pending endpoints, with the picks it made and the provider behind each relation. */
  ghost predicate Answers(providers: seq<Provider>, pending: map<string, Endpoint>,
                          r: Result<map<string, Relation>, Error>,
                          picks: seq<Option<string>>, source: map<string, nat>) {
    && LegalPicks(providers, pending, picks) && |picks| == |providers|
    && (if Left(pending, picks) == map[] then r.Ok? else r == Err(NotAllProvided))
    && (r.Ok? ==>
          && r.value.Keys == source.Keys == pending.Keys
          && forall g <- pending ::
               && source[g] < |picks| && picks[source[g]] == Some(g) && r.value[g].endpoint == pending[g]
               && Read(r.value[g].metrics, providers) == Shown(providers, source[g], pending[g]))
  }

  /** Relates every requested endpoint with a provider, or fails. */
  method GetMetricsEndpoints(own: Option<seq<Endpoint>>, shared: Option<seq<Endpoint>>, cnsiList: seq<string>)
    returns (r: Result<map<string, Relation>, Error>, ghost picks: seq<Option<string>>, ghost source: map<string, nat>)
    ensures r == Err(NoEndpointList) <==> own.None? || shared.None?
    ensures own.Some? && shared.Some? ==>
      Answers(Providers(own.value + shared.value, cnsiList), Requested(own.value + shared.value, cnsiList),
              r, picks, source)
  {
    picks, source := [], map[];
    if own.None? || shared.None? {
      return Err(NoEndpointList), picks, source;
    }
    var endpoints, providers := Collect(own.value + shared.value, cnsiList);
    var results, left;
    results, left, picks, source := Relate(providers, endpoints);
    if left != map[] {
      return Err(NotAllProvided), picks, source;
    }
    return Ok(results), picks, source;
  }

  method Collect(accessible: seq<Endpoint>, cnsiList: seq<string>)
    returns (endpoints: map<string, Endpoint>, providers: seq<Provider>)
    ensures endpoints == Requested(accessible, cnsiList) && providers == Providers(accessible, cnsiList)
  {
    endpoints, providers := map[], [];
    for i := 0 to |accessible|
      invariant endpoints == Requested(accessible[..i], cnsiList) && providers == Providers(accessible[..i], cnsiList)
    {
      var e := accessible[i];
      assert accessible[..i + 1][..i] == accessible[..i];
      if e.guid in cnsiList {
        endpoints := endpoints[e.guid := e];
      } else if e.kind == METRICS {
        providers := providers + ProvidersOf(e);
      }
    }
    assert accessible[..|accessible|] == accessible;
  }

  /** A relation shows the provider that was matched exactly if it was matched by type or is the last one. */
  lemma ShownIsMatched(providers: seq<Provider>, pending: map<string, Endpoint>, picks: seq<Option<string>>, i: nat,
                       g: string)
    requires LegalPicks(providers, pending, picks) && i < |picks| && picks[i] == Some(g)
    ensures g in pending
    ensures Shown(providers, i, pending[g]) == providers[i]
            <==> MatchesType(providers[i], pending[g]) || providers[i] == providers[|providers| - 1]
    ensures Shown(providers, i, pending[g]) != providers[i] ==> pending[g].api == providers[i].url
  {
    MatchingConserves(providers, pending, picks);
  }
}
