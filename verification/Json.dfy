/** Strings and numbers as `encoding/json` writes them, and how they are read back. */
module Json {
  import opened Prelude

  // -------- Writing

  function HexDigit(n: nat): char
    requires n < 16
  {
    "0123456789abcdef"[n]
  }

  function Hex4(n: nat): (code: string)
    requires n < 0x10000
    ensures |code| == 4
  {
    var a, b, c := n / 16, n / 16 / 16, n / 16 / 16 / 16;
    [HexDigit(c), HexDigit(b % 16), HexDigit(a % 16), HexDigit(n % 16)]
  }

  /** What stands after the backslash of an escaped character; a `u` is followed by four digits. */
  function Mark(c: char): Option<char> {
    if c == '"' || c == '\\' then Some(c)
    else if c == '\n' then Some('n')
    else if c == '\r' then Some('r')
    else if c == '\t' then Some('t')
    else if c == '\U{0008}' then Some('b')
    else if c == '\U{000C}' then Some('f')
    else if c < ' ' || c == '<' || c == '>' || c == '&' || c == '\U{2028}' || c == '\U{2029}' then Some('u')
    else None
  }

  function EscapedChar(c: char): string {
    match Mark(c)
    case None => [c]
    case Some(m) => ['\\', m] + if m == 'u' then Hex4(c as int) else ""
  }

  function Escaped(s: string): string {
    if s == "" then "" else EscapedChar(s[0]) + Escaped(s[1..])
  }

  function Digits(n: nat): string {
    (if n < 10 then "" else Digits(n / 10)) + ["0123456789"[n % 10]]
  }

  // -------- Reading (sections 6 and 7 of RFC 8259)

  /** The value of a hexadecimal digit, from its character code. */
  function HexValue(c: char): Option<nat> {
    if '0' <= c <= '9' then Some(c as int - '0' as int)
    else if 'a' <= c <= 'f' then Some(c as int - 'a' as int + 10)
    else if 'A' <= c <= 'F' then Some(c as int - 'A' as int + 10)
    else None
  }

  /** The character with the code of four hexadecimal digits, other than half of a surrogate pair. */
  function ReadHex4(s: string): Option<char>
    requires |s| >= 4
  {
    var a, b, c, d := HexValue(s[0]), HexValue(s[1]), HexValue(s[2]), HexValue(s[3]);
    if a.None? || b.None? || c.None? || d.None? then None else
      var n := a.value * 4096 + b.value * 256 + c.value * 16 + d.value;
      if n < 0xD800 || 0xE000 <= n < 0x10000 then Some(n as char) else None
  }

  /** The character an escape of two characters stands for. */
  function Unmark(m: char): Option<char> {
    match m
    case '"' => Some('"')
    case '\\' => Some('\\')
    case '/' => Some('/')
    case 'b' => Some('\U{0008}')
    case 'f' => Some('\U{000C}')
    case 'n' => Some('\n')
    case 'r' => Some('\r')
    case 't' => Some('\t')
    case _ => None
  }

  /** The first character of a string literal, and what follows it. */
  function ReadChar(s: string): Option<(char, string)>
    ensures ReadChar(s).Some? ==> |ReadChar(s).value.1| < |s|
  {
    if s == "" || s[0] < ' ' then None
    else if s[0] != '\\' then Some((s[0], s[1..]))
    else if |s| >= 6 && s[1] == 'u' then
      var c := ReadHex4(s[2..]);
      if c.None? then None else Some((c.value, s[6..]))
    else if |s| >= 2 then
      var c := Unmark(s[1]);
      if c.None? then None else Some((c.value, s[2..]))
    else None
  }

  /** The string up to its closing quote, and what follows that; s begins after the opening quote. */
  function ReadString(s: string): Option<(string, string)>
    decreases |s|
  {
    if s != "" && s[0] == '"' then Some(("", s[1..])) else
      var first := ReadChar(s);
      if first.None? then None else
        var rest := ReadString(first.value.1);
        if rest.None? then None else Some(([first.value.0] + rest.value.0, rest.value.1))
  }

  /** The number that begins with `before` and goes on with the digits of s, and what follows them. */
  function ReadNumber(before: nat, s: string): (nat, string)
    decreases |s|
  {
    if s != "" && '0' <= s[0] <= '9' then ReadNumber(10 * before + (s[0] as int - '0' as int), s[1..]) else (before, s)
  }

  // -------- What is written is read back

  lemma HexDigitsAreRead(n: nat)
    requires n < 16
    ensures HexValue(HexDigit(n)) == Some(n)
  {
  }

  lemma CodesAreRead(c: char)
    requires c as int < 0xD800
    ensures ReadHex4(Hex4(c as int)) == Some(c)
  {
    hide HexDigit, HexValue;
    var n := c as int;
    HexDigitsAreRead(n / 16 / 16 / 16);
    HexDigitsAreRead(n / 16 / 16 % 16);
    HexDigitsAreRead(n / 16 % 16);
    HexDigitsAreRead(n % 16);
  }

  lemma CharIsRead(c: char, s: string)
    ensures var text := EscapedChar(c) + s; text[0] != '"' && ReadChar(text) == Some((c, s))
  {
    hide Hex4, ReadHex4;
    var text := EscapedChar(c) + s;
    if Mark(c) == Some('u') {
      CodesAreRead(c);
      assert text[2..] == Hex4(c as int) + s && text[6..] == s;
      OnlyFourCount(Hex4(c as int), s);
    } else if Mark(c).Some? {
      assert text[2..] == s;
    } else {
      assert text[1..] == s;
    }
  }

  lemma OnlyFourCount(code: string, s: string)
    requires |code| == 4
    ensures ReadHex4(code + s) == ReadHex4(code)
  {
  }

  /** A literal is read up to the quote that ends it, and gives the string it was written for. */
  lemma {:induction false} StringsAreReadBack(x: string, s: string)
    ensures ReadString(Escaped(x) + (['"'] + s)) == Some((x, s))
  {
    hide EscapedChar, ReadChar;
    var text := Escaped(x) + (['"'] + s);
    if x == "" {
      assert text == ['"'] + s && text[1..] == s;
    } else {
      var rest := Escaped(x[1..]) + (['"'] + s);
      assert text == EscapedChar(x[0]) + rest;
      CharIsRead(x[0], rest);
      StringsAreReadBack(x[1..], s);
      assert x == [x[0]] + x[1..];
    }
  }

  lemma {:induction false} DigitsAreReadOn(n: nat, s: string)
    ensures ReadNumber(0, Digits(n) + s) == ReadNumber(n, s)
  {
    var d := "0123456789"[n % 10];
    assert d as int == '0' as int + n % 10;
    assert ([d] + s)[1..] == s;
    if n < 10 {
      assert Digits(n) + s == [d] + s;
    } else {
      assert Digits(n) + s == Digits(n / 10) + ([d] + s);
      DigitsAreReadOn(n / 10, [d] + s);
    }
  }

  /** A decimal number is read up to its last digit, and gives the number it was written for. */
  lemma NumbersAreReadBack(n: nat, s: string)
    requires s != "" && !('0' <= s[0] <= '9')
    ensures ReadNumber(0, Digits(n) + s) == (n, s)
  {
    DigitsAreReadOn(n, s);
  }
}
