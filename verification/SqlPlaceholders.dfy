/** Numbered SQL placeholders (`$1`) rewritten to positional ones (`?`) for SQLite and MySQL. */
module SqlPlaceholders {
  datatype Provider = Postgres | Sqlite | Mysql

  predicate IsDigit(c: char) {
    48 <= c as int <= 57
  }

  /** The length of the longest run of digits at the start of `s`. */
  function DigitRun(s: string): (n: nat)
    ensures n <= |s|
  {
    if s != "" && IsDigit(s[0]) then 1 + DigitRun(s[1..]) else 0
  }

  function DigitValue(c: char): nat
    requires IsDigit(c)
  {
    c as int - 48
  }

  function Number(digits: string): nat
    requires forall c <- digits :: IsDigit(c)
  {
    if digits == "" then 0
    else
      assert IsDigit(digits[|digits| - 1]);
      10 * Number(digits[..|digits| - 1]) + DigitValue(digits[|digits| - 1])
  }

  lemma {:induction false} DigitRunIsDigits(s: string)
    ensures forall c <- s[..DigitRun(s)] :: IsDigit(c)
    decreases |s|
  {
    if s != "" && IsDigit(s[0]) {
      DigitRunIsDigits(s[1..]);
      assert s[..DigitRun(s)] == [s[0]] + s[1..][..DigitRun(s[1..])];
    }
  }

  /** The text of the placeholder that `s` starts with: a dollar sign and all digits after it. */
  function PlaceholderLength(s: string): (n: nat)
    ensures n <= |s| && n != 1
  {
    if s != "" && s[0] == '$' && DigitRun(s[1..]) > 0 then 1 + DigitRun(s[1..]) else 0
  }

  function PlaceholderNumber(s: string): nat
    requires PlaceholderLength(s) > 0
  {
    DigitRunIsDigits(s[1..]);
    Number(s[1..][..DigitRun(s[1..])])
  }

  /** Every leftmost, longest match of a dollar sign and digits becomes a question mark. */
  function Rewrite(s: string): string {
    if s == "" then ""
    else if PlaceholderLength(s) > 0 then "?" + Rewrite(s[PlaceholderLength(s)..])
    else [s[0]] + Rewrite(s[1..])
  }

  function ModifySqlStatement(sql: string, provider: Provider): string {
    if provider.Sqlite? || provider.Mysql? then Rewrite(sql) else sql
  }

  // ---------------------------------------------------------------- what a statement means

  /** A statement with its arguments in place. */
  datatype Piece<V> = Text(c: char) | Value(v: V) | Unbound

  function BindByNumber<V>(s: string, args: seq<V>): seq<Piece<V>> {
    if s == "" then []
    else if PlaceholderLength(s) > 0 then
      var n := PlaceholderNumber(s);
      [if 1 <= n <= |args| then Value(args[n - 1]) else Unbound] + BindByNumber(s[PlaceholderLength(s)..], args)
    else [Text(s[0])] + BindByNumber(s[1..], args)
  }

  function BindByPosition<V>(s: string, args: seq<V>): seq<Piece<V>> {
    if s == "" then []
    else if s[0] == '?' then
      if args == [] then [Unbound] + BindByPosition(s[1..], args)
      else [Value(args[0])] + BindByPosition(s[1..], args[1..])
    else [Text(s[0])] + BindByPosition(s[1..], args)
  }

  function Numbers(s: string): seq<nat> {
    if s == "" then []
    else if PlaceholderLength(s) > 0 then [PlaceholderNumber(s)] + Numbers(s[PlaceholderLength(s)..])
    else Numbers(s[1..])
  }

  function Count(s: string, c: char): nat {
    if s == "" then 0 else (if s[0] == c then 1 else 0) + Count(s[1..], c)
  }

  // ---------------------------------------------------------------- laws

  /** The numbers are `first + 1`, `first + 2`, ... in this order. */
  predicate InOrder(numbers: seq<nat>, first: nat) {
    forall i | 0 <= i < |numbers| :: numbers[i] == first + i + 1
  }

  lemma {:induction false} InOrderBindsAlike<V>(s: string, args: seq<V>, first: nat)
    requires '?' !in s && InOrder(Numbers(s), first) && first + |Numbers(s)| <= |args|
    ensures BindByPosition(Rewrite(s), args[first..]) == BindByNumber(s, args)
    decreases |s|
  {
    if s != "" {
      var n := PlaceholderLength(s);
      if n > 0 {
        var rest := s[n..];
        assert Numbers(s)[1..] == Numbers(rest) && Numbers(s)[0] == first + 1;
        assert forall i | 0 <= i < |Numbers(rest)| :: Numbers(rest)[i] == Numbers(s)[i + 1];
        InOrderBindsAlike(rest, args, first + 1);
        assert args[first..][1..] == args[first + 1..];
        assert Rewrite(s)[1..] == Rewrite(rest);
      } else {
        InOrderBindsAlike(s[1..], args, first);
        assert Rewrite(s)[1..] == Rewrite(s[1..]);
      }
    }
  }

  lemma {:induction false} BoundAlikeIsInOrder(s: string, args: seq<int>, first: nat)
    requires '?' !in s && first + |Numbers(s)| <= |args|
    requires forall i | 0 <= i < |args| :: args[i] == i
    requires BindByPosition(Rewrite(s), args[first..]) == BindByNumber(s, args)
    ensures InOrder(Numbers(s), first)
    decreases |s|
  {
    if s != "" {
      var n := PlaceholderLength(s);
      if n > 0 {
        var rest := s[n..];
        assert Rewrite(s)[1..] == Rewrite(rest);
        assert args[first..][1..] == args[first + 1..];
        var a, b := BindByPosition(Rewrite(s), args[first..]), BindByNumber(s, args);
        assert a[0] == b[0] && a[1..] == b[1..];
        assert a == [Value(args[first])] + BindByPosition(Rewrite(rest), args[first + 1..]);
        assert b[1..] == BindByNumber(rest, args);
        BoundAlikeIsInOrder(rest, args, first + 1);
        forall i | 0 <= i < |Numbers(s)|
          ensures Numbers(s)[i] == first + i + 1
        {
          assert i > 0 ==> Numbers(s)[i] == Numbers(rest)[i - 1];
        }
      } else {
        assert Rewrite(s)[1..] == Rewrite(s[1..]);
        var a, b := BindByPosition(Rewrite(s), args[first..]), BindByNumber(s, args);
        assert a[1..] == b[1..];
        assert a == [Text(s[0])] + BindByPosition(Rewrite(s[1..]), args[first..]);
        assert b[1..] == BindByNumber(s[1..], args);
        BoundAlikeIsInOrder(s[1..], args, first);
      }
    }
  }

  /**
   For a statement without question marks, binding the rewritten text by position means the same as
   binding the original by number, for all arguments, if and only if its placeholders are numbered
   from one upwards in the order in which they occur.
   */
  lemma RewriteKeepsMeaning(s: string, m: nat)
    requires '?' !in s && |Numbers(s)| <= m
    ensures (forall args: seq<int> | |args| == m :: BindByPosition(Rewrite(s), args) == BindByNumber(s, args))
            <==> InOrder(Numbers(s), 0)
  {
    if InOrder(Numbers(s), 0) {
      forall args: seq<int> | |args| == m
        ensures BindByPosition(Rewrite(s), args) == BindByNumber(s, args)
      {
        InOrderBindsAlike(s, args, 0);
        assert args[0..] == args;
      }
    }
    if forall args: seq<int> | |args| == m :: BindByPosition(Rewrite(s), args) == BindByNumber(s, args) {
      var args := seq(m, i => i);
      assert args[0..] == args;
      BoundAlikeIsInOrder(s, args, 0);
    }
  }

  lemma {:induction false} RewriteHasNoPlaceholder(s: string)
    ensures Numbers(Rewrite(s)) == []
    ensures Rewrite(s) != "" && IsDigit(Rewrite(s)[0]) ==> s != "" && s[0] == Rewrite(s)[0]
    ensures DigitRun(Rewrite(s)) == DigitRun(s)
    decreases |s|
  {
    if s != "" {
      var n := PlaceholderLength(s);
      var rest := if n > 0 then s[n..] else s[1..];
      RewriteHasNoPlaceholder(rest);
      assert Rewrite(s)[1..] == Rewrite(rest);
    }
  }

  lemma {:induction false} NothingToRewrite(s: string)
    requires Numbers(s) == []
    ensures Rewrite(s) == s
    decreases |s|
  {
    if s != "" {
      assert PlaceholderLength(s) == 0;
      NothingToRewrite(s[1..]);
    }
  }

  /** Rewriting twice is rewriting once. */
  lemma RewriteIsIdempotent(s: string)
    ensures Rewrite(Rewrite(s)) == Rewrite(s)
  {
    RewriteHasNoPlaceholder(s);
    NothingToRewrite(Rewrite(s));
  }

  /** No placeholder is lost or made up. */
  lemma {:induction false} RewriteKeepsCount(s: string)
    ensures Count(Rewrite(s), '?') == |Numbers(s)| + Count(s, '?')
    decreases |s|
  {
    if s != "" {
      var n := PlaceholderLength(s);
      if n > 0 {
        RewriteKeepsCount(s[n..]);
        assert Rewrite(s)[1..] == Rewrite(s[n..]);
        SkipPlaceholder(s);
      } else {
        RewriteKeepsCount(s[1..]);
        assert Rewrite(s)[1..] == Rewrite(s[1..]);
      }
    }
  }

  lemma SkipPlaceholder(s: string)
    requires PlaceholderLength(s) > 0
    ensures Count(s, '?') == Count(s[PlaceholderLength(s)..], '?')
  {
    var n := PlaceholderLength(s);
    DigitRunIsDigits(s[1..]);
    assert s[..n] == ['$'] + s[1..][..n - 1];
    assert '?' !in s[1..][..n - 1];
    SkipDigits(s, n);
  }

  lemma {:induction false} SkipDigits(s: string, n: nat)
    requires n <= |s| && '?' !in s[..n]
    ensures Count(s, '?') == Count(s[n..], '?')
    decreases n
  {
    if n > 0 {
      assert s[..n][0] == s[0] && s[1..][..n - 1] == s[..n][1..];
      SkipDigits(s[1..], n - 1);
      assert s[1..][n - 1..] == s[n..];
    } else {
      assert s[0..] == s;
    }
  }

  // ---------------------------------------------------------------- statements as they are written

  /** The decimal digits of a number, without leading zeros. */
  function Decimal(n: nat): (s: string)
    ensures s != ""
  {
    if n < 10 then ["0123456789"[n]] else Decimal(n / 10) + ["0123456789"[n % 10]]
  }

  lemma {:induction false} DecimalIsNumber(n: nat)
    ensures (forall c <- Decimal(n) :: IsDigit(c)) && Number(Decimal(n)) == n
    decreases n
  {
    if n >= 10 {
      DecimalIsNumber(n / 10);
      assert Decimal(n)[..|Decimal(n)| - 1] == Decimal(n / 10);
    }
  }

  lemma {:induction false} RunOfDigits(digits: string, rest: string)
    requires (forall c <- digits :: IsDigit(c)) && (rest == "" || !('0' <= rest[0] <= '9'))
    ensures DigitRun(digits + rest) == |digits|
    decreases |digits|
  {
    if digits == "" {
      assert digits + rest == rest;
    } else {
      assert (digits + rest)[1..] == digits[1..] + rest;
      assert digits[0] in digits;
      RunOfDigits(digits[1..], rest);
    }
  }

  /** A dollar sign and a number are the placeholder of that number, up to what is no digit. */
  lemma NumberedPlaceholder(n: nat, rest: string)
    requires rest == "" || !('0' <= rest[0] <= '9')
    ensures var s := "$" + Decimal(n) + rest;
      PlaceholderLength(s) == 1 + |Decimal(n)| && PlaceholderNumber(s) == n && s[PlaceholderLength(s)..] == rest
  {
    var s := "$" + Decimal(n) + rest;
    DecimalIsNumber(n);
    RunOfDigits(Decimal(n), rest);
    assert s[1..] == Decimal(n) + rest;
    assert s[1..][..|Decimal(n)|] == Decimal(n);
  }

  /** A statement in parts: words without dollar signs, and parameters by number. */
  datatype Part = Words(text: string) | Parameter(n: nat)

  function Numbered(parts: seq<Part>): string {
    if parts == [] then ""
    else (match parts[0] case Words(text) => text case Parameter(n) => "$" + Decimal(n)) + Numbered(parts[1..])
  }

  function Positional(parts: seq<Part>): string {
    if parts == [] then ""
    else (match parts[0] case Words(text) => text case Parameter(_) => "?") + Positional(parts[1..])
  }

  function ParametersOf(parts: seq<Part>): seq<nat> {
    if parts == [] then []
    else (match parts[0] case Words(_) => [] case Parameter(n) => [n]) + ParametersOf(parts[1..])
  }

  /** No words have a dollar sign, and no digit follows a parameter. */
  predicate Separated(parts: seq<Part>) {
    parts != [] ==>
      && Separated(parts[1..])
      && match parts[0]
         case Words(text) => '$' !in text
         case Parameter(_) => Numbered(parts[1..]) != "" ==> !('0' <= Numbered(parts[1..])[0] <= '9')
  }

  lemma {:induction false} RewriteWords(text: string, rest: string)
    requires '$' !in text
    ensures Rewrite(text + rest) == text + Rewrite(rest) && Numbers(text + rest) == Numbers(rest)
    decreases |text|
  {
    if text == "" {
      assert text + rest == rest;
    } else {
      assert (text + rest)[1..] == text[1..] + rest && PlaceholderLength(text + rest) == 0;
      RewriteWords(text[1..], rest);
      assert [text[0]] + (text[1..] + Rewrite(rest)) == text + Rewrite(rest);
    }
  }

  /** Rewriting a statement turns each parameter into a question mark and leaves the words alone. */
  lemma {:induction false} RewriteReplacesParameters(parts: seq<Part>)
    requires Separated(parts)
    ensures Rewrite(Numbered(parts)) == Positional(parts) && Numbers(Numbered(parts)) == ParametersOf(parts)
    decreases |parts|
  {
    if parts != [] {
      RewriteReplacesParameters(parts[1..]);
      match parts[0] {
        case Words(text) => RewriteWords(text, Numbered(parts[1..]));
        case Parameter(n) => NumberedPlaceholder(n, Numbered(parts[1..]));
      }
    }
  }

  // ---------------------------------------------------------------- what the engines accept

  /** The text of the placeholder that `s` starts with. */
  function PlaceholderText(s: string): string {
    s[..PlaceholderLength(s)]
  }

  /** The index of the first occurrence of `name`, or the length of the list. */
  function IndexOf(names: seq<string>, name: string): (i: nat)
    ensures i <= |names| && (i < |names| ==> names[i] == name) && (name in names ==> i < |names|)
  {
    if names == [] then 0
    else if names[0] == name then 0
    else
      assert names == [names[0]] + names[1..];
      1 + IndexOf(names[1..], name)
  }

  function Argument<V>(args: seq<V>, i: nat): Piece<V> {
    if i < |args| then Value(args[i]) else Unbound
  }

  /**
   SQLite numbers its parameters in the order in which they first occur: each question mark is a new
   one, and `$1` is a parameter with that name. `names` are those seen so far, empty for question marks.
   */
  function BindAsSqlite<V>(s: string, args: seq<V>, names: seq<string>): seq<Piece<V>> {
    if s == "" then []
    else if s[0] == '?' then [Argument(args, |names|)] + BindAsSqlite(s[1..], args, names + [""])
    else if PlaceholderLength(s) > 0 then
      var name := PlaceholderText(s);
      var i := IndexOf(names, name);
      [Argument(args, i)] + BindAsSqlite(s[PlaceholderLength(s)..], args, if i < |names| then names else names + [name])
    else [Text(s[0])] + BindAsSqlite(s[1..], args, names)
  }

  /** The statement that a provider executes for a text and its arguments. */
  function Execute<V>(provider: Provider, s: string, args: seq<V>): seq<Piece<V>> {
    match provider
    case Postgres => BindByNumber(s, args)
    case Sqlite => BindAsSqlite(s, args, [])
    case Mysql => BindByPosition(s, args)
  }

  /** Executing `sent` means what `original` says, for all arguments. */
  ghost predicate Faithful(provider: Provider, sent: string, original: string) {
    forall args: seq<int> | |args| == |Numbers(original)| ::
        Execute(provider, sent, args) == BindByNumber(original, args)
  }

  /** A statement as the repositories write them. */
  predicate WellNumbered(s: string) {
    '?' !in s && InOrder(Numbers(s), 0)
  }

  /** The names are placeholders with numbers up to `first`. */
  predicate NamesUpTo(names: seq<string>, first: nat) {
    forall i | 0 <= i < |names| :: PlaceholderLength(names[i]) > 0 && PlaceholderNumber(names[i]) <= first
  }

  lemma PlaceholderTextIsPlaceholder(s: string)
    requires PlaceholderLength(s) > 0
    ensures PlaceholderLength(PlaceholderText(s)) == PlaceholderLength(s)
    ensures PlaceholderNumber(PlaceholderText(s)) == PlaceholderNumber(s)
  {
    var t, n := PlaceholderText(s), DigitRun(s[1..]);
    assert t[1..] == s[1..][..n];
    DigitRunOfPrefix(s[1..], n);
    assert t[1..][..n] == s[1..][..n];
  }

  lemma {:induction false} DigitRunOfPrefix(s: string, n: nat)
    requires n == DigitRun(s)
    ensures DigitRun(s[..n]) == n
    decreases |s|
  {
    if n > 0 {
      assert s[..n][1..] == s[1..][..n - 1];
      DigitRunOfPrefix(s[1..], n - 1);
    }
  }

  lemma NextName(names: seq<string>, name: string)
    requires NamesUpTo(names, |names|) && PlaceholderLength(name) > 0 && PlaceholderNumber(name) == |names| + 1
    ensures IndexOf(names, name) == |names| && NamesUpTo(names + [name], |names| + 1)
  {
    assert name !in names;
    forall i | 0 <= i < |names + [name]|
      ensures PlaceholderLength((names + [name])[i]) > 0 && PlaceholderNumber((names + [name])[i]) <= |names| + 1
    {
      assert i < |names| ==> (names + [name])[i] == names[i];
    }
  }

  /** SQLite binds a well-numbered statement by number although it does not look at the number. */
  lemma {:induction false} SqliteBindsNumbered<V>(s: string, args: seq<V>, names: seq<string>)
    requires '?' !in s && InOrder(Numbers(s), |names|) && |names| + |Numbers(s)| <= |args| && NamesUpTo(names, |names|)
    ensures BindAsSqlite(s, args, names) == BindByNumber(s, args)
    decreases |s|
  {
    if s != "" {
      var n := PlaceholderLength(s);
      if n > 0 {
        var rest, name := s[n..], PlaceholderText(s);
        PlaceholderTextIsPlaceholder(s);
        assert Numbers(s)[0] == PlaceholderNumber(s) == |names| + 1;
        NextName(names, name);
        assert Numbers(s) == [|names| + 1] + Numbers(rest);
        assert forall i | 0 <= i < |Numbers(rest)| :: Numbers(rest)[i] == Numbers(s)[i + 1];
        SqliteBindsNumbered(rest, args, names + [name]);
      } else {
        SqliteBindsNumbered(s[1..], args, names);
      }
    }
  }

  /** It binds question marks by position. */
  lemma {:induction false} SqliteBindsPositions<V>(s: string, args: seq<V>, names: seq<string>)
    requires Numbers(s) == [] && |names| <= |args|
    ensures BindAsSqlite(s, args, names) == BindByPosition(s, args[|names|..])
            || |names| + Count(s, '?') > |args|
    decreases |s|
  {
    if s != "" {
      assert PlaceholderLength(s) == 0;
      if s[0] == '?' {
        if |names| < |args| {
          SqliteBindsPositions(s[1..], args, names + [""]);
          assert args[|names|..][1..] == args[|names| + 1..];
        }
      } else {
        SqliteBindsPositions(s[1..], args, names);
      }
    }
  }

  /** A rewritten statement executes as it was meant, on every provider. */
  lemma RewrittenIsFaithful(provider: Provider, s: string)
    requires WellNumbered(s)
    ensures Faithful(provider, ModifySqlStatement(s, provider), s)
  {
    forall args: seq<int> | |args| == |Numbers(s)|
      ensures Execute(provider, ModifySqlStatement(s, provider), args) == BindByNumber(s, args)
    {
      if provider != Postgres {
        InOrderBindsAlike(s, args, 0);
        RewriteHasNoPlaceholder(s);
        RewriteKeepsCount(s);
        NoneCounted(s, '?');
        SqliteBindsPositions(Rewrite(s), args, []);
        assert args[0..] == args;
      }
    }
  }

  lemma {:induction false} NoneCounted(s: string, c: char)
    requires c !in s
    ensures Count(s, c) == 0
    decreases |s|
  {
    if s != "" {
      NoneCounted(s[1..], c);
    }
  }

  /**
   A statement with placeholders that is sent as it is executes as it was meant exactly if the
   provider is not MySQL: SQLite takes `$1` as a parameter too.
   */
  lemma UnrewrittenIsFaithful(provider: Provider, s: string)
    requires WellNumbered(s) && Numbers(s) != []
    ensures Faithful(provider, s, s) <==> !provider.Mysql?
  {
    var args := seq(|Numbers(s)|, i => i);
    if provider.Mysql? {
      UnrewrittenBindsNothing(s, args);
      NumberedIsNotText(s, args);
    } else if provider.Sqlite? {
      forall args: seq<int> | |args| == |Numbers(s)|
        ensures Execute(provider, s, args) == BindByNumber(s, args)
      {
        SqliteBindsNumbered(s, args, []);
      }
    }
  }

  lemma {:induction false} UnrewrittenBindsNothing<V>(s: string, args: seq<V>)
    requires '?' !in s
    ensures forall i | 0 <= i < |BindByPosition(s, args)| :: BindByPosition(s, args)[i].Text?
    decreases |s|
  {
    if s != "" {
      UnrewrittenBindsNothing(s[1..], args);
    }
  }

  lemma {:induction false} NumberedIsNotText<V>(s: string, args: seq<V>)
    requires Numbers(s) != []
    ensures exists i :: 0 <= i < |BindByNumber(s, args)| && !BindByNumber(s, args)[i].Text?
    decreases |s|
  {
    if PlaceholderLength(s) > 0 {
      assert !BindByNumber(s, args)[0].Text?;
    } else {
      NumberedIsNotText(s[1..], args);
      var i :| 0 <= i < |BindByNumber(s[1..], args)| && !BindByNumber(s[1..], args)[i].Text?;
      assert BindByNumber(s, args)[i + 1] == BindByNumber(s[1..], args)[i];
    }
  }
}
