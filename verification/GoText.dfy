/** Text as Go sees it, the quoting of `%q`, and when a quoted text is a JSON string. */
module GoText {
  import opened Wrappers

  /** A decoded character, or a byte that is no UTF-8. */
  datatype Unit = Rune(c: char) | Broken(byte: nat)

  type Text = seq<Unit>

  function Ascii(s: string): Text {
    seq(|s|, i requires 0 <= i < |s| => Rune(s[i]))
  }

  /**
   What `%q` depends on: the characters above ASCII that count as printable, and whether the toolchain
   writes the delete character as a byte (`\x7f`) or as a code point.
   */
  datatype Printer = Printer(printable: char -> bool, delAsByte: bool)

  predicate IsPrint(p: Printer, c: char) {
    0x20 <= c as int < 0x7F || (c as int > 0x7F && p.printable(c))
  }

  function HexDigit(n: nat): char {
    "0123456789abcdef"[n % 16]
  }

  /** The last `digits` hexadecimal digits of `n`. */
  function Hex(n: nat, digits: nat): (t: Text)
    ensures |t| == digits && forall u <- t :: IsHex(u)
  {
    if digits == 0 then [] else Hex(n / 16, digits - 1) + [Rune(HexDigit(n))]
  }

  predicate IsHex(u: Unit) {
    u.Rune? && ('0' <= u.c <= '9' || 'a' <= u.c <= 'f' || 'A' <= u.c <= 'F')
  }

  /** The letter of a short escape, or a blank for other characters. */
  function ShortEscape(c: char): char {
    match c as int
    case 7 => 'a'
    case 8 => 'b'
    case 9 => 't'
    case 10 => 'n'
    case 11 => 'v'
    case 12 => 'f'
    case 13 => 'r'
    case _ => ' '
  }

  function Escape(p: Printer, u: Unit): Text {
    match u
    case Broken(b) => Ascii("\\x") + Hex(b, 2)
    case Rune(c) =>
      if c == '"' || c == '\\' then [Rune('\\'), u]
      else if IsPrint(p, c) then [u]
      else if ShortEscape(c) != ' ' then [Rune('\\'), Rune(ShortEscape(c))]
      else if c as int < 0x20 || (c as int == 0x7F && p.delAsByte) then Ascii("\\x") + Hex(c as int, 2)
      else if c as int < 0x10000 then Ascii("\\u") + Hex(c as int, 4)
      else Ascii("\\U") + Hex(c as int, 8)
  }

  function Escaped(p: Printer, t: Text): Text {
    if t == [] then [] else Escape(p, t[0]) + Escaped(p, t[1..])
  }

  function Quote(p: Printer, t: Text): Text {
    [Rune('"')] + Escaped(p, t) + [Rune('"')]
  }

  // ---------------------------------------------------------------- reading a quoted text back

  function HexValue(u: Unit): nat
    requires IsHex(u)
  {
    if u.c <= '9' then u.c as int - 48 else if u.c <= 'F' then u.c as int - 55 else u.c as int - 87
  }

  function HexNumber(t: Text): nat
    requires forall i | 0 <= i < |t| :: IsHex(t[i])
  {
    if t == [] then 0 else 16 * HexNumber(t[..|t| - 1]) + HexValue(t[|t| - 1])
  }

  function Power16(digits: nat): nat {
    if digits == 0 then 1 else 16 * Power16(digits - 1)
  }

  lemma {:induction false} HexIsNumber(n: nat, digits: nat)
    requires n < Power16(digits)
    ensures forall i | 0 <= i < digits :: IsHex(Hex(n, digits)[i])
    ensures HexNumber(Hex(n, digits)) == n
  {
    if digits > 0 {
      HexIsNumber(n / 16, digits - 1);
      var t := Hex(n, digits);
      assert t[..digits - 1] == Hex(n / 16, digits - 1) && t[digits - 1] == Rune(HexDigit(n));
      assert HexValue(Rune(HexDigit(n))) == n % 16;
    }
  }

  predicate IsScalar(n: nat) {
    n < 0xD800 || 0xE000 <= n < 0x110000
  }

  /** The number in the `digits` hexadecimal digits behind an escape letter. */
  function ReadHex(t: Text, digits: nat): Option<nat> {
    if |t| < 2 + digits || exists i | 2 <= i < 2 + digits :: !IsHex(t[i]) then None
    else Some(HexNumber(t[2..2 + digits]))
  }

  /** The first character of a quoted text, and what is behind it: escapes as Go's own syntax has them. */
  function ReadUnit(t: Text): Option<(Unit, Text)> {
    if t == [] then None
    else if t[0] != Rune('\\') then Some((t[0], t[1..]))
    else if |t| < 2 || t[1].Broken? then None
    else
      match t[1].c
      case '"' => Some((Rune('"'), t[2..]))
      case '\\' => Some((Rune('\\'), t[2..]))
      case 'a' => Some((Rune('\U{7}'), t[2..]))
      case 'b' => Some((Rune('\U{8}'), t[2..]))
      case 't' => Some((Rune('\t'), t[2..]))
      case 'n' => Some((Rune('\n'), t[2..]))
      case 'v' => Some((Rune('\U{B}'), t[2..]))
      case 'f' => Some((Rune('\U{C}'), t[2..]))
      case 'r' => Some((Rune('\r'), t[2..]))
      case 'x' =>
        var n := ReadHex(t, 2);
        if n.None? then None else Some((if n.value < 0x80 then Rune(n.value as char) else Broken(n.value), t[4..]))
      case 'u' =>
        var n := ReadHex(t, 4);
        if n.None? || !IsScalar(n.value) then None else Some((Rune(n.value as char), t[6..]))
      case 'U' =>
        var n := ReadHex(t, 8);
        if n.None? || !IsScalar(n.value) then None else Some((Rune(n.value as char), t[10..]))
      case _ => None
  }

  function Read(t: Text): Option<Text>
    decreases |t|
  {
    if t == [] then Some([])
    else
      var first := ReadUnit(t);
      if first.None? || |first.value.1| >= |t| then None
      else
        var rest := Read(first.value.1);
        if rest.None? then None else Some([first.value.0] + rest.value)
  }

  /** A byte that is no UTF-8 is none of ASCII. */
  predicate IsUnit(u: Unit) {
    u.Broken? ==> 0x80 <= u.byte < 0x100
  }

  lemma EscapeOfHex(letter: char, n: nat, digits: nat, rest: Text)
    requires n < Power16(digits)
    ensures var t := Ascii(['\\', letter]) + Hex(n, digits) + rest;
      |t| == 2 + digits + |rest| && ReadHex(t, digits) == Some(n) && t[2 + digits..] == rest
  {
    var t := Ascii(['\\', letter]) + Hex(n, digits) + rest;
    HexIsNumber(n, digits);
    assert t[2..2 + digits] == Hex(n, digits);
    forall i | 2 <= i < 2 + digits
      ensures IsHex(t[i])
    {
      assert t[i] == Hex(n, digits)[i - 2];
    }
  }

  /** An escaped character reads as that character. */
  lemma EscapeReads(p: Printer, u: Unit, rest: Text)
    requires IsUnit(u)
    ensures ReadUnit(Escape(p, u) + rest) == Some((u, rest)) && Escape(p, u) != []
  {
    var e := Escape(p, u);
    var t := e + rest;
    assert Power16(2) == 0x100 && Power16(4) == 0x10000 && Power16(8) == 0x100000000;
    if u.Broken? {
      EscapeOfHex('x', u.byte, 2, rest);
    } else if |e| == 1 {
      assert t[0] == u && t[1..] == rest;
    } else if |e| == 2 {
      assert t[0] == Rune('\\') && t[1] == e[1] && t[2..] == rest;
    } else if |e| == 4 {
      EscapeOfHex('x', u.c as int, 2, rest);
    } else if |e| == 6 {
      EscapeOfHex('u', u.c as int, 4, rest);
    } else {
      EscapeOfHex('U', u.c as int, 8, rest);
    }
  }

  /** Quoting loses nothing: what is between the quotes reads as the text. */
  lemma {:induction false} QuotedReadsBack(p: Printer, t: Text)
    requires forall u <- t :: IsUnit(u)
    ensures Read(Escaped(p, t)) == Some(t)
    decreases |t|
  {
    if t != [] {
      QuotedReadsBack(p, t[1..]);
      EscapeReads(p, t[0], Escaped(p, t[1..]));
      assert t == [t[0]] + t[1..];
    }
  }

  /** Printable ASCII stands for itself, but for the quote and the backslash, and nothing below it does. */
  lemma PlainCharacters(p: Printer, c: char)
    ensures ' ' <= c <= '~' && c != '"' && c != '\\' ==> Escape(p, Rune(c)) == [Rune(c)]
    ensures c < ' ' || c as int == 0x7F || c == '"' || c == '\\' ==> |Escape(p, Rune(c))| > 1
    ensures c as int > 0x7F ==> (Escape(p, Rune(c)) == [Rune(c)] <==> p.printable(c))
  {
  }

  // ---------------------------------------------------------------- JSON strings

  /** The inside of a JSON string: no bare quotes or controls, and the escapes that JSON knows. */
  predicate Inner(t: Text) {
    if t == [] then true
    else if t[0] == Rune('\\') then
      || (|t| >= 2 && t[1].Rune? && t[1].c in "\"\\/bfnrt" && Inner(t[2..]))
      || (|t| >= 6 && t[1] == Rune('u') && IsHex(t[2]) && IsHex(t[3]) && IsHex(t[4]) && IsHex(t[5]) && Inner(t[6..]))
    else (t[0].Rune? ==> t[0].c != '"' && t[0].c as int >= 0x20) && Inner(t[1..])
  }

  predicate IsStringLiteral(t: Text) {
    |t| >= 2 && t[0] == Rune('"') && t[|t| - 1] == Rune('"') && Inner(t[1..|t| - 1])
  }

  /** A character that `%q` writes in a form that JSON knows. */
  predicate JsonSafe(p: Printer, u: Unit) {
    && u.Rune?
    && var n := u.c as int;
       n in {8, 9, 10, 12, 13} || (n >= 0x20 && !(n == 0x7F && p.delAsByte) && (n < 0x10000 || IsPrint(p, u.c)))
  }

  lemma HexCharacters(c: char)
    ensures IsHex(Rune(c)) <==> c in "0123456789abcdefABCDEF"
  {
  }

  /** The inside of a JSON string never has a quote or a control character of its own. */
  lemma {:induction false} NoBareQuoteInside(a: Text, c: char, b: Text)
    requires Inner(a) && (c == '"' || c as int < 0x20)
    ensures !Inner(a + [Rune(c)] + b)
    decreases |a|
  {
    var t := a + [Rune(c)] + b;
    if a == [] {
      assert t[0] == Rune(c);
    } else if a[0] != Rune('\\') {
      assert t[0] == a[0] && t[1..] == a[1..] + [Rune(c)] + b;
      NoBareQuoteInside(a[1..], c, b);
    } else if a[1] == Rune('u') {
      assert t[0] == a[0] && t[1] == a[1] && t[6..] == a[6..] + [Rune(c)] + b;
      NoBareQuoteInside(a[6..], c, b);
    } else {
      assert t[0] == a[0] && t[1] == a[1] && t[2..] == a[2..] + [Rune(c)] + b;
      NoBareQuoteInside(a[2..], c, b);
    }
  }

  lemma EscapedScans(p: Printer, u: Unit, rest: Text)
    ensures Inner(Escape(p, u) + rest) <==> JsonSafe(p, u) && Inner(rest)
  {
    var e := Escape(p, u);
    var t := e + rest;
    if u.Broken? || |e| == 4 || |e| == 10 {
      assert t[0] == Rune('\\') && t[1] == e[1];
    } else if |e| == 1 {
      assert t[1..] == rest;
    } else if |e| == 2 {
      assert t[2..] == rest && t[1] == e[1];
    } else {
      assert |e| == 6 && t[6..] == rest && t[1] == Rune('u');
      forall i | 2 <= i < 6
        ensures IsHex(t[i])
      {
        assert t[i] == Hex(u.c as int, 4)[i - 2];
      }
    }
  }

  lemma {:induction false} TextScans(p: Printer, t: Text)
    ensures Inner(Escaped(p, t)) <==> forall u <- t :: JsonSafe(p, u)
    decreases |t|
  {
    if t != [] {
      TextScans(p, t[1..]);
      EscapedScans(p, t[0], Escaped(p, t[1..]));
      assert t == [t[0]] + t[1..];
    }
  }

  /** A quoted text is a JSON string exactly if all its characters are safe. */
  lemma QuoteIsJsonString(p: Printer, t: Text)
    ensures IsStringLiteral(Quote(p, t)) <==> forall u <- t :: JsonSafe(p, u)
  {
    var q := Quote(p, t);
    assert q[1..|q| - 1] == Escaped(p, t);
    TextScans(p, t);
  }

  /** A byte that is no UTF-8, a bell and, in some toolchains, a delete character are not safe. */
  lemma UnsafeCharacters(p: Printer)
    ensures !JsonSafe(p, Broken(0xFF)) && !JsonSafe(p, Rune(7 as char))
        && (JsonSafe(p, Rune(0x7F as char)) <==> !p.delAsByte)
  {
  }

  // ---------------------------------------------------------------- the JSON library

  /**
   `parses` is `json.Unmarshal` into an empty interface, `wellFormed` the syntax check that encoding a
   raw message makes.
   */
  datatype Json = Json(parses: Text -> bool, wellFormed: Text -> bool, printer: Printer)

  /**
   What parses is well-formed, a well-formed text begins with one of a few characters, and a text between
   two quotes is well-formed exactly if it is a JSON string.
   */
  ghost predicate Lawful(json: Json) {
    && (forall t :: json.parses(t) ==> json.wellFormed(t))
    && (forall t: Text | json.wellFormed(t) :: t != [] && t[0].Rune? && t[0].c in " \t\r\n{[\"-0123456789tfn")
    && (forall t: Text | |t| >= 2 && t[0] == Rune('"') && t[|t| - 1] == Rune('"') ::
          json.wellFormed(t) <==> IsStringLiteral(t))
  }
}
