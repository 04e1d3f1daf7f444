/** Command templates: `{key}` placeholders expanded by one text replacement per map entry. */
module Template {

  predicate IsBrace(c: char) {
    c == '{' || c == '}'
  }

  predicate BraceFree(s: string) {
    forall c <- s :: !IsBrace(c)
  }

  function Slot(key: string): string {
    "{" + key + "}"
  }

  /** `strings.Replace(s, pattern, value, -1)`: all leftmost matches that do not overlap. */
  function Replace(s: string, pattern: string, value: string): string
    requires pattern != ""
  {
    if |s| < |pattern| then s
    else if s[..|pattern|] == pattern then value + Replace(s[|pattern|..], pattern, value)
    else [s[0]] + Replace(s[1..], pattern, value)
  }

  /** An order in which a range over the map may visit its keys. */
  ghost predicate IsOrder(m: map<string, string>, order: seq<string>) {
    && (forall k <- order :: k in m)
    && (forall k <- m :: k in order)
    && (forall i, j | 0 <= i < j < |order| :: order[i] != order[j])
  }

  function ExpandIn(m: map<string, string>, order: seq<string>, s: string): string
    requires forall k <- order :: k in m
  {
    if order == [] then s
    else
      var last := order[|order| - 1];
      Replace(ExpandIn(m, order[..|order| - 1], s), Slot(last), m[last])
  }

  ghost predicate BraceFreeMap(m: map<string, string>) {
    forall k <- m :: BraceFree(k) && BraceFree(m[k])
  }

  // ---------------------------------------------------------------- simultaneous substitution

  /** The position of the first brace of `s`, or its length. */
  function NextBrace(s: string): (n: nat)
    ensures n <= |s| && BraceFree(s[..n]) && (n < |s| ==> IsBrace(s[n]))
  {
    if s == "" || IsBrace(s[0]) then 0
    else
      var n := 1 + NextBrace(s[1..]);
      assert s[..n] == [s[0]] + s[1..][..n - 1];
      n
  }

  /** `s` starts with an innermost pair of braces. */
  predicate StartsGroup(s: string) {
    s != "" && s[0] == '{' && NextBrace(s[1..]) < |s| - 1 && s[1..][NextBrace(s[1..])] == '}'
  }

  function GroupKey(s: string): string
    requires StartsGroup(s)
  {
    s[1..][..NextBrace(s[1..])]
  }

  function AfterGroup(s: string): (r: string)
    requires StartsGroup(s)
    ensures |r| < |s| && s == Slot(GroupKey(s)) + r && BraceFree(GroupKey(s))
  {
    s[NextBrace(s[1..]) + 2..]
  }

  /** All placeholders of `s` that are keys of `m`, replaced at once. */
  function Substitute(m: map<string, string>, s: string): string {
    if s == "" then ""
    else if StartsGroup(s) && GroupKey(s) in m then m[GroupKey(s)] + Substitute(m, AfterGroup(s))
    else [s[0]] + Substitute(m, s[1..])
  }

  /** A closing brace of `s` has no partner even if `depth` braces were open before. */
  predicate Dangling(s: string, depth: nat) {
    if s == "" then false
    else if s[0] == '{' then Dangling(s[1..], depth + 1)
    else if s[0] == '}' then depth == 0 || Dangling(s[1..], depth - 1)
    else Dangling(s[1..], depth)
  }

  /**
   No pair of braces contains another pair: an opening brace that is followed by another opening
   brace is never closed.
   */
  predicate Flat(s: string) {
    if s == "" then true
    else if StartsGroup(s) then Flat(AfterGroup(s))
    else (s[0] == '{' ==> !Dangling(s[1..], 0)) && Flat(s[1..])
  }

  lemma {:induction false} NextBraceUnique(s: string, n: nat)
    requires n < |s| && BraceFree(s[..n]) && IsBrace(s[n])
    ensures NextBrace(s) == n
    decreases n
  {
    if n > 0 {
      assert s[..n][0] in s[..n] && s[..n][0] == s[0];
      assert s[1..][..n - 1] == s[..n][1..];
      NextBraceUnique(s[1..], n - 1);
    }
  }

  lemma GroupOf(key: string, rest: string)
    requires BraceFree(key)
    ensures StartsGroup(Slot(key) + rest) && GroupKey(Slot(key) + rest) == key && AfterGroup(Slot(key) + rest) == rest
  {
    var s := Slot(key) + rest;
    assert s[1..] == key + "}" + rest;
    assert s[1..][..|key|] == key;
    NextBraceUnique(s[1..], |key|);
  }

  lemma SubstituteChar(m: map<string, string>, c: char, s: string)
    requires c != '{' || !StartsGroup([c] + s)
    ensures Substitute(m, [c] + s) == [c] + Substitute(m, s)
  {
    assert ([c] + s)[1..] == s;
  }

  /** Text without braces is copied. */
  lemma {:induction false} SubstituteText(m: map<string, string>, text: string, s: string)
    requires BraceFree(text)
    ensures Substitute(m, text + s) == text + Substitute(m, s)
    decreases |text|
  {
    if text == "" {
      assert text + s == s;
    } else {
      assert text[0] in text;
      assert text + s == [text[0]] + (text[1..] + s);
      SubstituteChar(m, text[0], text[1..] + s);
      SubstituteText(m, text[1..], s);
    }
  }

  lemma SlotSpelledOut(key: string, s: string)
    ensures Slot(key) + s == "{" + (key + ("}" + s))
  {
  }

  lemma SubstituteGroup(m: map<string, string>, key: string, s: string)
    requires BraceFree(key)
    ensures Substitute(m, Slot(key) + s) == (if key in m then m[key] else Slot(key)) + Substitute(m, s)
  {
    GroupOf(key, s);
    if key !in m {
      SlotSpelledOut(key, s);
      SlotSpelledOut(key, Substitute(m, s));
      SubstituteText(m, key, "}" + s);
      SubstituteChar(m, '}', s);
      CopyFirst(m, Slot(key) + s, key + ("}" + s));
    }
  }

  lemma CopyFirst(m: map<string, string>, s: string, rest: string)
    requires s == "{" + rest && StartsGroup(s) && GroupKey(s) !in m
    ensures Substitute(m, s) == "{" + Substitute(m, rest)
  {
    assert s[1..] == rest;
  }

  /** One replacement of a brace-free key is a substitution for that key alone. */
  lemma {:induction false} ReplaceIsSubstitute(s: string, key: string, value: string)
    requires BraceFree(key)
    ensures Replace(s, Slot(key), value) == Substitute(map[key := value], s)
    decreases |s|
  {
    var m := map[key := value];
    assert StartsGroup(s) && GroupKey(s) == key ==> |s| >= |Slot(key)| && s[..|Slot(key)|] == Slot(key);
    if |s| >= |Slot(key)| && s[..|Slot(key)|] == Slot(key) {
      var rest := s[|Slot(key)|..];
      assert s == Slot(key) + rest;
      SubstituteGroup(m, key, rest);
      ReplaceIsSubstitute(rest, key, value);
    } else if s != "" {
      ReplaceIsSubstitute(s[1..], key, value);
      if |s| < |Slot(key)| {
        assert s == [s[0]] + s[1..];
      }
    }
  }

  // ---------------------------------------------------------------- flat templates

  lemma {:induction false} DanglingText(text: string, s: string, depth: nat)
    requires BraceFree(text)
    ensures Dangling(text + s, depth) == Dangling(s, depth)
    decreases |text|
  {
    if text == "" {
      assert text + s == s;
    } else {
      assert (text + s)[1..] == text[1..] + s && (text + s)[0] == text[0];
      assert text[0] in text;
      DanglingText(text[1..], s, depth);
    }
  }

  lemma DanglingGroup(key: string, s: string, depth: nat)
    requires BraceFree(key)
    ensures Dangling(Slot(key) + s, depth) == Dangling(s, depth)
  {
    assert (Slot(key) + s)[1..] == key + ("}" + s);
    DanglingText(key, "}" + s, depth + 1);
    assert ("}" + s)[1..] == s;
  }

  lemma {:induction false} SubstituteKeepsDangling(m: map<string, string>, s: string, depth: nat)
    requires BraceFreeMap(m)
    ensures Dangling(Substitute(m, s), depth) == Dangling(s, depth)
    decreases |s|
  {
    if s != "" {
      if StartsGroup(s) && GroupKey(s) in m {
        var rest := AfterGroup(s);
        DanglingGroup(GroupKey(s), rest, depth);
        DanglingText(m[GroupKey(s)], Substitute(m, rest), depth);
        SubstituteKeepsDangling(m, rest, depth);
      } else {
        assert Substitute(m, s)[1..] == Substitute(m, s[1..]);
        SubstituteKeepsDangling(m, s[1..], depth + 1);
        SubstituteKeepsDangling(m, s[1..], depth);
        if depth > 0 {
          SubstituteKeepsDangling(m, s[1..], depth - 1);
        }
      }
    }
  }

  lemma NotDanglingOpensNoGroup(s: string)
    requires !Dangling(s, 0)
    ensures !StartsGroup("{" + s)
  {
    assert ("{" + s)[1..] == s;
    var n := NextBrace(s);
    if n < |s| && s[n] == '}' {
      assert s == s[..n] + s[n..];
      DanglingText(s[..n], s[n..], 0);
    }
  }

  /** In a flat template substituting for one more key afterwards is substituting for all at once. */
  lemma {:induction false} SubstituteAfter(m: map<string, string>, key: string, value: string, s: string)
    requires Flat(s) && BraceFreeMap(m) && key !in m && BraceFree(key) && BraceFree(value)
    ensures Substitute(map[key := value], Substitute(m, s)) == Substitute(m[key := value], s)
    decreases |s|
  {
    var one, all := map[key := value], m[key := value];
    if s != "" {
      if StartsGroup(s) {
        var k, rest := GroupKey(s), AfterGroup(s);
        SubstituteAfter(m, key, value, rest);
        SubstituteGroup(m, k, rest);
        SubstituteGroup(all, k, rest);
        if k in m {
          SubstituteText(one, m[k], Substitute(m, rest));
        } else {
          SubstituteGroup(one, k, Substitute(m, rest));
        }
      } else {
        SubstituteAfter(m, key, value, s[1..]);
        var t := Substitute(m, s);
        assert t[1..] == Substitute(m, s[1..]) && t[0] == s[0];
        if s[0] == '{' {
          SubstituteKeepsDangling(m, s[1..], 0);
          NotDanglingOpensNoGroup(t[1..]);
          assert t == "{" + t[1..];
        }
      }
    }
  }

  function Restrict(m: map<string, string>, keys: seq<string>): map<string, string>
    requires forall k <- keys :: k in m
  {
    map k | k in keys :: m[k]
  }

  lemma {:induction false} SubstituteNothing(s: string)
    ensures Substitute(map[], s) == s
    decreases |s|
  {
    if s != "" {
      SubstituteNothing(s[1..]);
    }
  }

  lemma {:induction false} ExpandIsRestrictedSubstitute(m: map<string, string>, order: seq<string>, s: string)
    requires Flat(s) && BraceFreeMap(m) && (forall k <- order :: k in m)
    requires forall i, j | 0 <= i < j < |order| :: order[i] != order[j]
    ensures ExpandIn(m, order, s) == Substitute(Restrict(m, order), s)
    decreases |order|
  {
    if order == [] {
      assert Restrict(m, order) == map[];
      SubstituteNothing(s);
    } else {
      var n := |order| - 1;
      var last, before := order[n], order[..n];
      ExpandIsRestrictedSubstitute(m, before, s);
      ReplaceIsSubstitute(ExpandIn(m, before, s), last, m[last]);
      assert BraceFreeMap(Restrict(m, before));
      SubstituteAfter(Restrict(m, before), last, m[last], s);
      assert order == before + [last];
      assert Restrict(m, before)[last := m[last]] == Restrict(m, order);
    }
  }

  /** For a flat template every order of the map expands to the simultaneous substitution. */
  lemma FlatExpandIsSubstitute(m: map<string, string>, order: seq<string>, s: string)
    requires Flat(s) && BraceFreeMap(m) && IsOrder(m, order)
    ensures ExpandIn(m, order, s) == Substitute(m, s)
  {
    ExpandIsRestrictedSubstitute(m, order, s);
    assert Restrict(m, order) == m;
  }
}
