/** Arguments of a version control command: a command line split into fields, each field a template. */
module Commands {
  import opened Wrappers
  import opened Template
  import opened TemplateOrder

  predicate IsSpace(c: char) {
    var n := c as int;
    || 9 <= n <= 13 || n == 0x20 || n == 0x85 || n == 0xA0 || n == 0x1680
    || 0x2000 <= n <= 0x200A || n == 0x2028 || n == 0x2029 || n == 0x202F || n == 0x205F || n == 0x3000
  }

  predicate IsWord(s: string) {
    s != "" && forall c <- s :: !IsSpace(c)
  }

  function WordEnd(s: string): (n: nat)
    ensures n <= |s| && (forall c <- s[..n] :: !IsSpace(c)) && (n < |s| ==> IsSpace(s[n]))
  {
    if s == "" || IsSpace(s[0]) then 0
    else
      var n := 1 + WordEnd(s[1..]);
      assert s[..n] == [s[0]] + s[1..][..n - 1];
      n
  }

  /** `strings.Fields`: the maximal runs of characters that are no white space. */
  function Fields(s: string): seq<string>
    decreases |s|
  {
    if s == "" then []
    else if IsSpace(s[0]) then Fields(s[1..])
    else [s[..WordEnd(s)]] + Fields(s[WordEnd(s)..])
  }

  /** Words written one after another with single spaces between them. */
  function Joined(words: seq<string>): string {
    if words == [] then ""
    else if |words| == 1 then words[0]
    else words[0] + " " + Joined(words[1..])
  }

  lemma {:induction false} WordEndOf(word: string, rest: string)
    requires forall c <- word :: !IsSpace(c)
    requires rest == "" || IsSpace(rest[0])
    ensures WordEnd(word + rest) == |word|
    decreases |word|
  {
    if word != "" {
      assert word[0] in word;
      assert (word + rest)[1..] == word[1..] + rest;
      WordEndOf(word[1..], rest);
    }
  }

  lemma FirstField(word: string, rest: string)
    requires IsWord(word) && (rest == "" || IsSpace(rest[0]))
    ensures Fields(word + rest) == [word] + Fields(rest)
  {
    assert word[0] in word;
    WordEndOf(word, rest);
    assert (word + rest)[..|word|] == word && (word + rest)[|word|..] == rest;
  }

  /** Splitting gives back the words a command line was written with. */
  lemma {:induction false} FieldsOfJoined(words: seq<string>)
    requires forall w <- words :: IsWord(w)
    ensures Fields(Joined(words)) == words
    decreases |words|
  {
    if |words| == 1 {
      assert words[0] in words;
      FirstField(words[0], "");
      assert words[0] + "" == words[0];
    } else if |words| > 1 {
      assert words[0] in words;
      var rest := " " + Joined(words[1..]);
      Concat(words[0], " ", Joined(words[1..]));
      FirstField(words[0], rest);
      assert rest[1..] == Joined(words[1..]);
      FieldsOfJoined(words[1..]);
    }
  }

  /** The map a list of alternating keys and values stands for: the last value of a key counts. */
  function Pairs(keyval: seq<string>): map<string, string>
    requires |keyval| % 2 == 0
  {
    if keyval == [] then map[]
    else Pairs(keyval[..|keyval| - 2])[keyval[|keyval| - 2] := keyval[|keyval| - 1]]
  }

  /** Keys stand at even places, each before its value, and the last pair of a key counts. */
  lemma {:induction false} PairsAlternate(keyval: seq<string>)
    requires |keyval| % 2 == 0
    ensures forall k :: k in Pairs(keyval) <==> exists i :: 0 <= i < |keyval| / 2 && keyval[2 * i] == k
    ensures forall i | 0 <= i < |keyval| / 2 && (forall j | i < j < |keyval| / 2 :: keyval[2 * j] != keyval[2 * i]) ::
      Pairs(keyval)[keyval[2 * i]] == keyval[2 * i + 1]
    decreases |keyval|
  {
    if keyval != [] {
      var n := |keyval| / 2 - 1;
      var before := keyval[..2 * n];
      PairsAlternate(before);
      assert Pairs(keyval) == Pairs(before)[keyval[2 * n] := keyval[2 * n + 1]];
      forall k
        ensures k in Pairs(keyval) <==> exists i :: 0 <= i <= n && keyval[2 * i] == k
      {
        if k in Pairs(before) {
          var i :| 0 <= i < n && before[2 * i] == k;
          assert keyval[2 * i] == k;
        }
        if i :| 0 <= i <= n && keyval[2 * i] == k {
          assert i < n ==> before[2 * i] == k;
        }
      }
      forall i | 0 <= i <= n && (forall j | i < j <= n :: keyval[2 * j] != keyval[2 * i])
        ensures Pairs(keyval)[keyval[2 * i]] == keyval[2 * i + 1]
      {
        if i < n {
          assert keyval[2 * n] != keyval[2 * i];
          assert forall j | i < j < n :: before[2 * j] == keyval[2 * j];
          assert before[2 * i] == keyval[2 * i] && before[2 * i + 1] == keyval[2 * i + 1];
        }
      }
    }
  }

  ghost predicate IsExpansion(m: map<string, string>, s: string, r: string) {
    exists order :: IsOrder(m, order) && r == ExpandIn(m, order, s)
  }

  /** A range over the map visits its entries in any order and replaces one key after another. */
  method Expand(m: map<string, string>, s: string) returns (r: string)
    ensures IsExpansion(m, s, r)
    ensures Flat(s) && BraceFreeMap(m) ==> r == Substitute(m, s)
  {
    r := s;
    var left := m.Keys;
    ghost var order := [];
    while left != {}
      invariant left <= m.Keys && forall k <- order :: k in m && k !in left
      invariant forall k <- m :: k in left || k in order
      invariant forall i, j | 0 <= i < j < |order| :: order[i] != order[j]
      invariant r == ExpandIn(m, order, s)
      decreases |left|
    {
      var k :| k in left;
      r := Replace(r, Slot(k), m[k]);
      left := left - {k};
      assert (order + [k])[..|order|] == order;
      order := order + [k];
    }
    assert IsOrder(m, order);
    if Flat(s) && BraceFreeMap(m) {
      FlatExpandIsSubstitute(m, order, s);
    }
  }

  /** The arguments of one command; an odd list of keys and values makes the indexing fail. */
  method Arguments(cmdline: string, keyval: seq<string>) returns (r: Option<seq<string>>)
    ensures r.None? <==> |keyval| % 2 == 1
    ensures r.Some? ==> |r.value| == |Fields(cmdline)|
    ensures r.Some? ==> forall i | 0 <= i < |r.value| :: IsExpansion(Pairs(keyval), Fields(cmdline)[i], r.value[i])
    ensures r.Some? && BraceFreeMap(Pairs(keyval)) ==>
      forall i | 0 <= i < |r.value| && Flat(Fields(cmdline)[i]) ::
          r.value[i] == Substitute(Pairs(keyval), Fields(cmdline)[i])
  {
    var m: map<string, string> := map[];
    var i := 0;
    while i < |keyval|
      invariant 0 <= i <= |keyval| && i % 2 == 0
      invariant m == Pairs(keyval[..i])
    {
      if i + 1 >= |keyval| {
        return None;
      }
      m := m[keyval[i] := keyval[i + 1]];
      assert keyval[..i + 2][..i] == keyval[..i];
      i := i + 2;
    }
    assert keyval[..i] == keyval;
    var args := Fields(cmdline);
    var n := 0;
    while n < |args|
      invariant 0 <= n <= |args| == |Fields(cmdline)|
      invariant forall j | n <= j < |args| :: args[j] == Fields(cmdline)[j]
      invariant forall j | 0 <= j < n :: IsExpansion(m, Fields(cmdline)[j], args[j])
      invariant BraceFreeMap(m) ==> forall j | 0 <= j < n && Flat(Fields(cmdline)[j]) ::
          args[j] == Substitute(m, Fields(cmdline)[j])
    {
      var arg := Expand(m, args[n]);
      args := args[n := arg];
      n := n + 1;
    }
    return Some(args);
  }

  /** The fields of the command templates in use, a text followed by at most one placeholder, are flat. */
  lemma TextAndSlotIsFlat(m: map<string, string>, text: string, key: string)
    requires BraceFree(text) && BraceFree(key)
    ensures Flat(text) && Flat(text + Slot(key))
    ensures key in m ==> Substitute(m, text + Slot(key)) == text + m[key]
    ensures Substitute(m, text) == text
  {
    FlatText(text, "");
    FlatText(text, Slot(key));
    GroupOf(key, "");
    assert Slot(key) + "" == Slot(key) && text + "" == text;
    SubstituteText(m, text, Slot(key));
    SubstituteText(m, text, "");
    SubstituteGroup(m, key, "");
  }

  lemma {:induction false} FlatText(text: string, s: string)
    requires BraceFree(text)
    ensures Flat(text + s) == Flat(s)
    decreases |text|
  {
    if text == "" {
      assert text + s == s;
    } else {
      assert text[0] in text;
      assert (text + s)[1..] == text[1..] + s;
      FlatText(text[1..], s);
    }
  }
}
