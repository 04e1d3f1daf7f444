/** When the order in which a template's keys are replaced matters, and the commands built from templates. */
module TemplateOrder {
  import opened Template

  // ---------------------------------------------------------------- nested braces in a template

  /** Text and innermost pairs of braces only. */
  predicate Groups(w: string) {
    || w == ""
    || (StartsGroup(w) && Groups(AfterGroup(w)))
    || (!IsBrace(w[0]) && Groups(w[1..]))
  }

  lemma {:induction false} DanglingFewerOpen(s: string, depth: nat)
    requires Dangling(s, depth + 1)
    ensures Dangling(s, depth)
    decreases |s|
  {
    if s[0] == '{' {
      DanglingFewerOpen(s[1..], depth + 1);
    } else if s[0] == '}' {
      if depth > 0 {
        DanglingFewerOpen(s[1..], depth - 1);
      }
    } else {
      DanglingFewerOpen(s[1..], depth);
    }
  }

  lemma {:induction false} FindClose(s: string) returns (w: string, b: string)
    requires Flat(s) && Dangling(s, 0)
    ensures s == w + "}" + b && Groups(w)
    decreases |s|
  {
    if s[0] == '}' {
      w, b := "", s[1..];
    } else if StartsGroup(s) {
      var key, rest := GroupKey(s), AfterGroup(s);
      DanglingGroup(key, rest, 0);
      w, b := FindClose(rest);
      GroupOf(key, w);
      w := Slot(key) + w;
    } else {
      if s[0] == '{' {
        DanglingFewerOpen(s[1..], 0);
      }
      w, b := FindClose(s[1..]);
      w := [s[0]] + w;
      assert w[1..] + "}" + b == s[1..];
    }
  }

  lemma {:induction false} GroupsWithoutBrace(w: string)
    requires Groups(w) && '{' !in w
    ensures BraceFree(w)
    decreases |w|
  {
    if w != "" {
      assert w[0] in w;
      GroupsWithoutBrace(w[1..]);
      assert w == [w[0]] + w[1..];
    }
  }

  function Nest(a: string, w: string, b: string): string {
    a + ("{" + (w + "}") + b)
  }

  lemma Concat(a: string, b: string, c: string)
    ensures a + (b + c) == (a + b) + c
  {
  }

  lemma NestBehind(p: string, a: string, w: string, b: string)
    ensures p + Nest(a, w, b) == Nest(p + a, w, b)
  {
  }

  lemma UnclosedHasGroup(w: string, b: string)
    requires Groups(w) && !StartsGroup("{" + (w + ("}" + b)))
    ensures '{' in w
  {
    if '{' !in w {
      GroupsWithoutBrace(w);
      GroupOf(w, b);
      SlotSpelledOut(w, b);
    }
  }

  /** A template that is not flat has an innermost nest: a pair of braces around text and pairs. */
  lemma {:induction false} FindNest(s: string) returns (a: string, w: string, b: string)
    requires !Flat(s)
    ensures s == Nest(a, w, b) && Groups(w) && '{' in w
    decreases |s|
  {
    if StartsGroup(s) {
      a, w, b := FindNest(AfterGroup(s));
      NestBehind(Slot(GroupKey(s)), a, w, b);
      a := Slot(GroupKey(s)) + a;
    } else if !Flat(s[1..]) {
      a, w, b := FindNest(s[1..]);
      NestBehind([s[0]], a, w, b);
      a := [s[0]] + a;
    } else {
      a := "";
      w, b := FindClose(s[1..]);
      Concat(w, "}", b);
      Concat("{", w + "}", b);
      UnclosedHasGroup(w, b);
    }
  }

  // ---------------------------------------------------------------- replacing inside a nest

  lemma AppendAfterGroup(m: map<string, string>, a: string, c: string)
    requires StartsGroup(a) && Substitute(m, AfterGroup(a) + c) == Substitute(m, AfterGroup(a)) + Substitute(m, c)
    ensures Substitute(m, a + c) == Substitute(m, a) + Substitute(m, c)
  {
    var key, rest := GroupKey(a), AfterGroup(a);
    Concat(Slot(key), rest, c);
    SubstituteGroup(m, key, rest);
    SubstituteGroup(m, key, rest + c);
    Concat(if key in m then m[key] else Slot(key), Substitute(m, rest), Substitute(m, c));
  }

  lemma AppendAfterChar(m: map<string, string>, a: string, c: string)
    requires a != "" && (a[0] == '{' ==> !StartsGroup(a) && !StartsGroup(a + c))
    requires Substitute(m, a[1..] + c) == Substitute(m, a[1..]) + Substitute(m, c)
    ensures Substitute(m, a + c) == Substitute(m, a) + Substitute(m, c)
  {
    assert (a + c)[1..] == a[1..] + c;
    Concat([a[0]], Substitute(m, a[1..]), Substitute(m, c));
  }

  /** Substitution can be split where no placeholder straddles the cut. */
  lemma {:induction false} SubstituteSplit(m: map<string, string>, a: string, c: string)
    requires (c != "" && c[0] == '{') || a == "" || a[|a| - 1] == '}'
    ensures Substitute(m, a + c) == Substitute(m, a) + Substitute(m, c)
    decreases |a|
  {
    if a == "" {
      assert a + c == c;
    } else if StartsGroup(a) {
      SubstituteSplit(m, AfterGroup(a), c);
      AppendAfterGroup(m, a, c);
    } else {
      SubstituteSplit(m, a[1..], c);
      if a[0] == '{' {
        NoGroupAcross(a, c);
      }
      AppendAfterChar(m, a, c);
    }
  }

  lemma NoGroupAcross(a: string, c: string)
    requires a != "" && a[0] == '{' && !StartsGroup(a)
    requires (c != "" && c[0] == '{') || a[|a| - 1] == '}'
    ensures !StartsGroup(a + c)
  {
    var t := a[1..];
    var n := NextBrace(t);
    assert (a + c)[1..] == t + c;
    assert (t + c)[..n] == t[..n];
    assert n == |t| ==> t[..n] == t;
    assert t != "" ==> t[|t| - 1] in t && t[|t| - 1] == a[|a| - 1];
    NextBraceUnique(t + c, n);
  }

  /** A pair of braces survives a replacement of something else than its own content. */
  lemma SubstituteInside(g: string, v: string, u: string)
    requires BraceFree(g) && BraceFree(v) && u != g && Groups(u)
    ensures Substitute(map[g := v], "{" + (u + "}")) == "{" + (Substitute(map[g := v], u) + "}")
  {
    var m := map[g := v];
    GroupsSplit(m, u, "}");
    SubstituteChar(m, '}', "");
    assert ['}'] + "" == "}";
    if NextBrace(u) == |u| {
      assert u[..|u|] == u;
      GroupOf(u, "");
      assert Slot(u) + "" == "{" + (u + "}");
      CopyFirst(m, "{" + (u + "}"), u + "}");
    } else {
      GroupsThenClose(u);
      SubstituteChar(m, '{', u + "}");
    }
  }

  /** Text and pairs with some pair in front of a closing brace: the brace before does not pair up with it. */
  lemma GroupsThenClose(u: string)
    requires Groups(u) && NextBrace(u) < |u|
    ensures !StartsGroup("{" + (u + "}"))
  {
    var n := NextBrace(u);
    assert ("{" + (u + "}"))[1..] == u + "}";
    FirstBraceOpens(u);
    assert (u + "}")[..n] == u[..n];
    NextBraceUnique(u + "}", n);
  }

  lemma {:induction false} FirstBraceOpens(u: string)
    requires Groups(u) && NextBrace(u) < |u|
    ensures u[NextBrace(u)] == '{'
    decreases |u|
  {
    if !StartsGroup(u) {
      FirstBraceOpens(u[1..]);
    }
  }

  /** Text and pairs can be split off from whatever follows. */
  lemma {:induction false} GroupsSplit(m: map<string, string>, u: string, c: string)
    requires Groups(u)
    ensures Substitute(m, u + c) == Substitute(m, u) + Substitute(m, c)
    decreases |u|
  {
    if u == "" {
      assert u + c == c;
    } else if StartsGroup(u) {
      GroupsSplit(m, AfterGroup(u), c);
      AppendAfterGroup(m, u, c);
    } else {
      GroupsSplit(m, u[1..], c);
      AppendAfterChar(m, u, c);
    }
  }

  lemma {:induction false} GroupsAreFlat(w: string)
    requires Groups(w)
    ensures Flat(w)
    decreases |w|
  {
    if w != "" {
      if StartsGroup(w) {
        GroupsAreFlat(AfterGroup(w));
      } else {
        GroupsAreFlat(w[1..]);
      }
    }
  }

  lemma {:induction false} SubstituteKeepsGroups(m: map<string, string>, w: string)
    requires Groups(w) && BraceFreeMap(m)
    ensures Groups(Substitute(m, w))
    decreases |w|
  {
    if w != "" {
      if StartsGroup(w) {
        var key, rest := GroupKey(w), AfterGroup(w);
        SubstituteKeepsGroups(m, rest);
        SubstituteGroup(m, key, rest);
        if key in m {
          TextThenGroups(m[key], Substitute(m, rest));
        } else {
          GroupOf(key, Substitute(m, rest));
        }
      } else {
        SubstituteKeepsGroups(m, w[1..]);
        TextThenGroups([w[0]], Substitute(m, w[1..]));
      }
    }
  }

  lemma {:induction false} TextThenGroups(text: string, w: string)
    requires BraceFree(text) && Groups(w)
    ensures Groups(text + w)
    decreases |text|
  {
    if text == "" {
      assert text + w == w;
    } else {
      assert text[0] in text;
      assert (text + w)[1..] == text[1..] + w;
      TextThenGroups(text[1..], w);
    }
  }

  // ---------------------------------------------------------------- two orders that disagree

  /** The different keys of the pairs in `w`. */
  function KeysOf(w: string): (keys: seq<string>)
    requires Groups(w)
    ensures forall k <- keys :: BraceFree(k) && |k| < |w|
    ensures forall i, j | 0 <= i < j < |keys| :: keys[i] != keys[j]
  {
    if w == "" then []
    else if StartsGroup(w) then
      var rest := KeysOf(AfterGroup(w));
      if GroupKey(w) in rest then rest else [GroupKey(w)] + rest
    else KeysOf(w[1..])
  }

  function Filler(n: nat): (v: string)
    ensures |v| == n && BraceFree(v)
  {
    seq(n, _ => 'a')
  }

  function FillAll(keys: seq<string>, n: nat): map<string, string> {
    map k | k in keys :: Filler(n)
  }

  /** With every key filled in, no brace is left and the result is longer than any key. */
  lemma {:induction false} FilledIn(w: string, keys: seq<string>, n: nat)
    requires Groups(w) && forall k <- KeysOf(w) :: k in keys
    ensures BraceFree(Substitute(FillAll(keys, n), w))
    ensures '{' in w ==> |Substitute(FillAll(keys, n), w)| >= n
    decreases |w|
  {
    var m := FillAll(keys, n);
    if w != "" {
      if StartsGroup(w) {
        FilledIn(AfterGroup(w), keys, n);
        assert GroupKey(w) in KeysOf(w);
      } else {
        FilledIn(w[1..], keys, n);
        assert Substitute(m, w) == [w[0]] + Substitute(m, w[1..]);
        assert w == [w[0]] + w[1..];
      }
    }
  }

  /** Replacing a key by something at least as long as its placeholder does not shorten the text. */
  lemma {:induction false} LongValuesLengthen(g: string, v: string, s: string)
    requires |v| >= |g| + 2 && BraceFree(g)
    ensures |Substitute(map[g := v], s)| >= |s|
    ensures Groups(s) && '{' in s && BraceFree(v) && '{' !in Substitute(map[g := v], s)
        ==> |Substitute(map[g := v], s)| >= |v|
    decreases |s|
  {
    var m := map[g := v];
    if s != "" {
      if StartsGroup(s) && GroupKey(s) == g {
        LongValuesLengthen(g, v, AfterGroup(s));
      } else {
        LongValuesLengthen(g, v, s[1..]);
        var t := Substitute(m, s);
        assert t == [s[0]] + Substitute(m, s[1..]);
        assert t[0] in t;
        assert s == [s[0]] + s[1..];
      }
    }
  }

  /**
   Filling in the keys of a nest one by one works on the text before, inside and after the nest
   separately, and the braces of the nest stay.
   */
  lemma {:induction false} ExpandInParts(m: map<string, string>, order: seq<string>, n: nat, a: string, w: string,
                                         b: string)
    requires (forall k <- order :: k in m && BraceFree(k) && |k| + 2 <= n && m[k] == Filler(n))
    requires Groups(w) && '{' in w
    ensures ExpandIn(m, order, Nest(a, w, b))
        == Nest(ExpandIn(m, order, a), ExpandIn(m, order, w), ExpandIn(m, order, b))
    ensures Groups(ExpandIn(m, order, w))
    ensures '{' in ExpandIn(m, order, w) || |ExpandIn(m, order, w)| >= n
    decreases |order|
  {
    if order != [] {
      var last, before := order[|order| - 1], order[..|order| - 1];
      ExpandInParts(m, before, n, a, w, b);
      var x, u, y := ExpandIn(m, before, a), ExpandIn(m, before, w), ExpandIn(m, before, b);
      ReplaceIsSubstitute(x, last, m[last]);
      ReplaceIsSubstitute(u, last, m[last]);
      ReplaceIsSubstitute(y, last, m[last]);
      ReplaceIsSubstitute(Nest(x, u, y), last, m[last]);
      ReplaceInParts(last, m[last], x, u, y);
      SubstituteKeepsGroups(map[last := m[last]], u);
      LongValuesLengthen(last, m[last], u);
    }
  }

  lemma ReplaceInParts(g: string, v: string, x: string, u: string, y: string)
    requires BraceFree(g) && BraceFree(v) && Groups(u) && u != g
    ensures Substitute(map[g := v], Nest(x, u, y))
            == Nest(Substitute(map[g := v], x), Substitute(map[g := v], u), Substitute(map[g := v], y))
  {
    var m := map[g := v];
    SubstituteSplit(m, x, "{" + (u + "}") + y);
    SubstituteSplit(m, "{" + (u + "}"), y);
    SubstituteInside(g, v, u);
  }

  lemma ReplaceTooLong(s: string, pattern: string, value: string)
    requires |pattern| > |s|
    ensures Replace(s, pattern, value) == s
  {
  }

  lemma {:induction false} ErasingShortens(key: string, s: string)
    requires BraceFree(key)
    ensures |Substitute(map[key := ""], s)| <= |s|
    decreases |s|
  {
    if s != "" {
      if StartsGroup(s) && GroupKey(s) == key {
        ErasingShortens(key, AfterGroup(s));
      } else {
        ErasingShortens(key, s[1..]);
      }
    }
  }

  /** Adding keys at the front of an order first applies them. */
  lemma {:induction false} ExpandFirst(m: map<string, string>, first: string, order: seq<string>, s: string)
    requires first in m && forall k <- order :: k in m
    ensures ExpandIn(m, [first] + order, s) == ExpandIn(m, order, Replace(s, Slot(first), m[first]))
    decreases |order|
  {
    var whole := [first] + order;
    if order == [] {
      assert whole[..0] == [];
    } else {
      assert whole[..|whole| - 1] == [first] + order[..|order| - 1];
      ExpandFirst(m, first, order[..|order| - 1], s);
    }
  }

  /** Erasing a placeholder that is there shortens the text by at least its length. */
  lemma ErasingSlotShortens(f: string, x: string, y: string)
    requires BraceFree(f)
    ensures |Substitute(map[f := ""], Nest(x, f, y))| <= |x| + |y|
  {
    var m := map[f := ""];
    assert Nest(x, f, y) == x + (Slot(f) + y);
    SubstituteSplit(m, x, Slot(f) + y);
    SubstituteGroup(m, f, y);
    ErasingShortens(f, x);
    ErasingShortens(f, y);
  }

  /** With the keys of the nest before `f`, the nest becomes the placeholder of `f`. */
  lemma NestBecomesSlot(m: map<string, string>, n: nat, a: string, w: string, b: string)
    requires Groups(w) && '{' in w && |w| + 2 <= n
    requires forall k <- KeysOf(w) :: k in m && m[k] == Filler(n)
    ensures var keys := KeysOf(w);
      ExpandIn(m, keys, Nest(a, w, b))
      == Nest(ExpandIn(m, keys, a), Substitute(FillAll(keys, n), w), ExpandIn(m, keys, b))
  {
    var keys := KeysOf(w);
    ExpandInParts(m, keys, n, a, w, b);
    GroupsAreFlat(w);
    ExpandInDependsOnKeys(m, FillAll(keys, n), keys, w);
    FlatExpandIsSubstitute(FillAll(keys, n), keys, w);
  }

  lemma {:induction false} ExpandInDependsOnKeys(m: map<string, string>, o: map<string, string>, order: seq<string>,
                                                 s: string)
    requires forall k <- order :: k in m && k in o && m[k] == o[k]
    ensures ExpandIn(m, order, s) == ExpandIn(o, order, s)
    decreases |order|
  {
    if order != [] {
      ExpandInDependsOnKeys(m, o, order[..|order| - 1], s);
    }
  }

  lemma FirstAndLast(fill: map<string, string>, keys: seq<string>, f: string)
    requires fill.Keys == (set k | k in keys) && f !in keys && BraceFree(f) && BraceFreeMap(fill)
    requires forall i, j | 0 <= i < j < |keys| :: keys[i] != keys[j]
    ensures var m := fill[f := ""]; BraceFreeMap(m) && IsOrder(m, keys + [f]) && IsOrder(m, [f] + keys)
  {
    assert forall k <- keys :: k in fill;
    assert f in keys + [f] && f in [f] + keys;
  }

  lemma FilledKeys(w: string, n: nat) returns (fill: map<string, string>, f: string)
    requires Groups(w) && '{' in w && |w| < n
    ensures fill == FillAll(KeysOf(w), n) && f == Substitute(fill, w)
    ensures fill.Keys == (set k | k in KeysOf(w)) && BraceFreeMap(fill)
    ensures BraceFree(f) && |f| >= n && f !in KeysOf(w)
  {
    fill := FillAll(KeysOf(w), n);
    f := Substitute(fill, w);
    FilledIn(w, KeysOf(w), n);
  }

  /** A key too long to be in the template is erased if it comes last, and never found if it comes first. */
  lemma LastErasesFirstDoesNot(m: map<string, string>, keys: seq<string>, f: string, s: string, x: string, y: string)
    requires f in m && m[f] == "" && BraceFree(f) && (forall k <- keys :: k in m) && |f| > |s|
    requires ExpandIn(m, keys, s) == Nest(x, f, y)
    ensures ExpandIn(m, keys + [f], s) != ExpandIn(m, [f] + keys, s)
  {
    assert (keys + [f])[..|keys|] == keys;
    ReplaceIsSubstitute(Nest(x, f, y), f, "");
    ErasingSlotShortens(f, x, y);
    ExpandFirst(m, f, keys, s);
    ReplaceTooLong(s, Slot(f), "");
  }

  lemma NestedOrders(a: string, w: string, b: string, n: nat)
    returns (m: map<string, string>, keys: seq<string>, f: string)
    requires Groups(w) && '{' in w && |w| + 2 <= n
    ensures BraceFreeMap(m) && IsOrder(m, keys + [f]) && IsOrder(m, [f] + keys)
    ensures f in m && m[f] == "" && BraceFree(f) && |f| >= n && (forall k <- keys :: k in m)
    ensures ExpandIn(m, keys, Nest(a, w, b)) == Nest(ExpandIn(m, keys, a), f, ExpandIn(m, keys, b))
  {
    var fill;
    keys := KeysOf(w);
    fill, f := FilledKeys(w, n);
    FirstAndLast(fill, keys, f);
    m := fill[f := ""];
    NestBecomesSlot(m, n, a, w, b);
  }

  /** For a template that is not flat there are a brace-free map and two orders that disagree. */
  lemma NestDependsOnOrder(s: string) returns (m: map<string, string>, o1: seq<string>, o2: seq<string>)
    requires !Flat(s)
    ensures BraceFreeMap(m) && IsOrder(m, o1) && IsOrder(m, o2)
    ensures ExpandIn(m, o1, s) != ExpandIn(m, o2, s)
  {
    var a, w, b := FindNest(s);
    var keys, f;
    m, keys, f := NestedOrders(a, w, b, |s| + 2);
    o1, o2 := keys + [f], [f] + keys;
    LastErasesFirstDoesNot(m, keys, f, s, ExpandIn(m, keys, a), ExpandIn(m, keys, b));
  }

  /**
   Expansion gives one and the same text for every order of every map whose keys and values contain
   no brace, if and only if the template is flat; and then it is simultaneous substitution.
   */
  lemma ExpandIgnoresOrder(s: string)
    ensures Flat(s) <==>
              forall m, o1, o2 | BraceFreeMap(m) && IsOrder(m, o1) && IsOrder(m, o2) ::
                ExpandIn(m, o1, s) == ExpandIn(m, o2, s)
    ensures Flat(s) ==> forall m, o | BraceFreeMap(m) && IsOrder(m, o) :: ExpandIn(m, o, s) == Substitute(m, s)
  {
    if Flat(s) {
      forall m, o | BraceFreeMap(m) && IsOrder(m, o)
        ensures ExpandIn(m, o, s) == Substitute(m, s)
      {
        FlatExpandIsSubstitute(m, o, s);
      }
    } else {
      var m, o1, o2 := NestDependsOnOrder(s);
    }
  }
}
