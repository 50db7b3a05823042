/**
  Go's reading of a struct tag, `reflect.StructTag.Lookup` and `Get`: the
  conventional form of `key:"value"` items separated by spaces, each value a
  double-quoted Go string literal. This is how the container reads the `name`,
  `group` and `optional` items of a parameter-bag field.
 */
module StructTag {
  import opened Wrappers

  /** A character that may appear in a key: printable, not a space, `:` or `"`. */
  predicate IsKeyChar(c: char)
  {
    c > ' ' && c != ':' && c != '"' && c != '\U{7f}'
  }

  /** A key the reader accepts: non-empty and made of key characters. */
  predicate ValidKey(k: string)
  {
    k != [] && forall i :: 0 <= i < |k| ==> IsKeyChar(k[i])
  }

  /** A value that reads back as itself between quotes: no quote, backslash or newline. */
  predicate PlainValue(v: string)
  {
    '"' !in v && '\\' !in v && '\n' !in v
  }

  /** Values that need no escape stay so when joined. */
  lemma PlainConcat(a: string, b: string)
    requires PlainValue(a) && PlainValue(b)
    ensures PlainValue(a + b)
  {
  }

  /** The tag with its leading spaces dropped. */
  function SkipSpaces(t: string): (s: string)
    ensures |s| <= |t|
  {
    if t != [] && t[0] == ' ' then SkipSpaces(t[1..]) else t
  }

  /** The length of the run of key characters that starts the tag. */
  function KeyLength(t: string): (n: nat)
    ensures n <= |t|
  {
    if t != [] && IsKeyChar(t[0]) then 1 + KeyLength(t[1..]) else 0
  }

  /** The index of the quote that closes a literal whose body starts `s`; a
      backslash makes the reader skip the character after it. None when unclosed. */
  function ClosingQuote(s: string): (j: Option<nat>)
    ensures j.Some? ==> j.value < |s| && s[j.value] == '"'
  {
    if s == [] then None
    else if s[0] == '"' then Some(0)
    else if s[0] == '\\' then
      if |s| < 2 then None
      else match ClosingQuote(s[2..])
        case None => None
        case Some(k) => Some(k + 2)
    else match ClosingQuote(s[1..])
      case None => None
      case Some(k) => Some(k + 1)
  }

  /** The character a one-letter escape `\c` stands for in a double-quoted Go
      literal; None for a letter Go rejects after a backslash. */
  function SimpleEscape(c: char): Option<char>
  {
    match c
    case 'a' => Some('\U{7}')
    case 'b' => Some('\U{8}')
    case 'f' => Some('\U{c}')
    case 'n' => Some('\n')
    case 'r' => Some('\r')
    case 't' => Some('\t')
    case 'v' => Some('\U{b}')
    case '\\' => Some('\\')
    case '"' => Some('"')
    case _ => None
  }

  /** The value of the hexadecimal digit `c`, in either case. */
  function HexDigit(c: char): Option<nat>
  {
    if '0' <= c <= '9' then Some(c as nat - '0' as nat)
    else if 'a' <= c <= 'f' then Some(c as nat - 'a' as nat + 10)
    else if 'A' <= c <= 'F' then Some(c as nat - 'A' as nat + 10)
    else None
  }

  /** The number the hexadecimal digits `d` spell, most significant first;
      None when one of them is not a digit. */
  function HexValue(d: string): Option<nat>
  {
    if d == [] then Some(0)
    else match HexValue(d[..|d| - 1])
      case None => None
      case Some(v) =>
        match HexDigit(d[|d| - 1])
        case None => None
        case Some(x) => Some(16 * v + x)
  }

  /** Whether `c` is an octal digit. */
  predicate IsOctal(c: char)
  {
    '0' <= c <= '7'
  }

  /** Whether `v` is a Unicode scalar value, what `utf8.ValidRune` accepts. */
  predicate IsScalar(v: nat)
  {
    v < 0xD800 || 0xE000 <= v < 0x11_0000
  }

  /** The escape sequence at the front of `s`, which starts with a backslash, as
      `strconv.UnquoteChar` reads it inside a double-quoted literal: the character
      it stands for and how many characters it takes. `\x` takes two hexadecimal
      digits, `\u` four and `\U` eight, which must spell a scalar value; an octal
      escape takes three octal digits. A `\x` or octal escape of a byte of 0x80 or
      more gives None: Go writes that raw byte, which a character cannot hold. */
  function EscapeAt(s: string): (r: Option<(char, nat)>)
    requires s != [] && s[0] == '\\'
    ensures r.Some? ==> 2 <= r.value.1 <= |s|
  {
    if |s| < 2 then None
    else if s[1] == 'x' || s[1] == 'u' || s[1] == 'U' then
      var n := if s[1] == 'x' then 2 else if s[1] == 'u' then 4 else 8;
      if |s| < 2 + n then None
      else match HexValue(s[2..2 + n])
        case None => None
        case Some(v) =>
          if s[1] == 'x' && v < 0x80 then Some((v as char, 4))
          else if s[1] != 'x' && IsScalar(v) then Some((v as char, 2 + n))
          else None
    else if IsOctal(s[1]) then
      if |s| < 4 || !IsOctal(s[2]) || !IsOctal(s[3]) then None
      else
        var v := 64 * (s[1] as nat - '0' as nat) + 8 * (s[2] as nat - '0' as nat) + (s[3] as nat - '0' as nat);
        if v < 0x80 then Some((v as char, 4)) else None
    else match SimpleEscape(s[1])
      case None => None
      case Some(c) => Some((c, 2))
  }

  /** `strconv.Unquote` of a double-quoted literal, given the text between its quotes.
      None on a raw newline, an unescaped quote or an escape it does not accept. */
  function Unquote(s: string): Option<string>
  {
    if s == [] then Some([])
    else if s[0] == '\n' || s[0] == '"' then None
    else if s[0] != '\\' then
      match Unquote(s[1..])
      case None => None
      case Some(rest) => Some([s[0]] + rest)
    else match EscapeAt(s)
      case None => None
      case Some((c, n)) =>
        match Unquote(s[n..])
        case None => None
        case Some(rest) => Some([c] + rest)
  }

  /** `StructTag.Lookup(key)`: the unquoted value of the first item whose key is `key`.
      Reading stops, finding nothing, at the first malformed item, and also when the
      matching item's value does not unquote. */
  function Lookup(t: string, key: string): Option<string>
    decreases |t|, 2
  {
    LookupItems(SkipSpaces(t), key)
  }

  /** Reading from the start of an item: its key, then `:"` and the literal's body. */
  function LookupItems(t: string, key: string): Option<string>
    decreases |t|, 1
  {
    if t == [] then None
    else
      var i := KeyLength(t);
      if i == 0 || i + 1 >= |t| || t[i] != ':' || t[i + 1] != '"' then None
      else LookupValue(t[..i], t[i + 2..], key)
  }

  /** Reading the literal of the item whose key is `name`; on no match, on to the next item. */
  function LookupValue(name: string, body: string, key: string): Option<string>
    decreases |body|, 0
  {
    match ClosingQuote(body)
    case None => None
    case Some(j) =>
      if name == key then Unquote(body[..j])
      else Lookup(body[j + 1..], key)
  }

  /** `StructTag.Get(key)`: the looked-up value, or "" when there is none. */
  function Get(t: string, key: string): string
  {
    match Lookup(t, key)
    case Some(v) => v
    case None => ""
  }

  /** Behind a run of key characters, the first non-key character is where the key ends. */
  lemma {:induction false} KeyLengthPast(k: string, rest: string)
    requires forall i :: 0 <= i < |k| ==> IsKeyChar(k[i])
    requires rest != [] && !IsKeyChar(rest[0])
    ensures KeyLength(k + rest) == |k|
    decreases |k|
  {
    if k == [] {
      assert k + rest == rest;
    } else {
      assert (k + rest)[1..] == k[1..] + rest;
      KeyLengthPast(k[1..], rest);
    }
  }

  /** A body with no quote or backslash is scanned straight through. */
  lemma {:induction false} ClosingQuotePlain(v: string, rest: string)
    requires '"' !in v && '\\' !in v
    ensures ClosingQuote(v + rest) ==
      match ClosingQuote(rest)
      case None => None
      case Some(k) => Some(k + |v|)
    decreases |v|
  {
    if v == [] {
      assert v + rest == rest;
    } else {
      assert v[0] in v;
      assert (v + rest)[0] == v[0];
      assert (v + rest)[1..] == v[1..] + rest;
      ClosingQuotePlain(v[1..], rest);
    }
  }

  /** A value with no quote, backslash or newline unquotes to itself, in front of whatever follows. */
  lemma {:induction false} UnquotePlain(v: string, rest: string)
    requires PlainValue(v)
    ensures Unquote(v + rest) ==
      match Unquote(rest)
      case None => None
      case Some(u) => Some(v + u)
    decreases |v|
  {
    if v == [] {
      assert v + rest == rest;
      match Unquote(rest) {
        case None =>
        case Some(u) => assert v + u == u;
      }
    } else {
      assert v[0] in v;
      assert (v + rest)[0] == v[0];
      assert (v + rest)[1..] == v[1..] + rest;
      UnquotePlain(v[1..], rest);
      match Unquote(rest) {
        case None =>
        case Some(u) => assert [v[0]] + (v[1..] + u) == v + u;
      }
    }
  }

  /** 16 to the power `n`: how many values `n` hexadecimal digits can spell. */
  function Power16(n: nat): nat
  {
    if n == 0 then 1 else 16 * Power16(n - 1)
  }

  /** The lower-case hexadecimal digit for `d`. */
  function HexChar(d: nat): char
    requires d < 16
  {
    if d < 10 then ('0' as nat + d) as char else ('a' as nat + d - 10) as char
  }

  /** `v` written with `n` hexadecimal digits, most significant first, as the
      `\x`, `\u` and `\U` escapes of Go's literals write a value. */
  function HexDigits(v: nat, n: nat): (d: string)
    ensures |d| == n && PlainValue(d)
  {
    if n == 0 then [] else HexDigits(v / 16, n - 1) + [HexChar(v % 16)]
  }

  /** Reading `n` hexadecimal digits back gives the value they were written from. */
  lemma {:induction false} HexDigitsValue(v: nat, n: nat)
    requires v < Power16(n)
    ensures HexValue(HexDigits(v, n)) == Some(v)
  {
    if n > 0 {
      var d := HexDigits(v, n);
      HexDigitsValue(v / 16, n - 1);
      assert d[..|d| - 1] == HexDigits(v / 16, n - 1);
      assert HexDigit(d[|d| - 1]) == Some(v % 16);
    }
  }

  /** A character below 0x80 written as `\x` and two digits is read back as itself. */
  lemma ByteEscapeRead(c: char, rest: string)
    requires c as nat < 0x80
    ensures EscapeAt("\\x" + HexDigits(c as nat, 2) + rest) == Some((c, 4))
  {
    var e := "\\x" + HexDigits(c as nat, 2) + rest;
    HexDigitsValue(c as nat, 2);
    assert e[2..4] == HexDigits(c as nat, 2);
  }

  /** Any character written as `\U` and eight digits is read back as itself. */
  lemma ScalarEscapeRead(c: char, rest: string)
    ensures EscapeAt("\\U" + HexDigits(c as nat, 8) + rest) == Some((c, 10))
  {
    var e := "\\U" + HexDigits(c as nat, 8) + rest;
    assert Power16(8) == 0x1_0000_0000;
    HexDigitsValue(c as nat, 8);
    assert e[2..10] == HexDigits(c as nat, 8);
  }

  /** A character below 0x1_0000 written as `\u` and four digits is read back as itself. */
  lemma ShortScalarEscapeRead(c: char, rest: string)
    requires c as nat < 0x1_0000
    ensures EscapeAt("\\u" + HexDigits(c as nat, 4) + rest) == Some((c, 6))
  {
    var e := "\\u" + HexDigits(c as nat, 4) + rest;
    assert Power16(4) == 0x1_0000;
    HexDigitsValue(c as nat, 4);
    assert e[2..6] == HexDigits(c as nat, 4);
  }

  /** The three octal digits of a value below 0x80. */
  function OctalDigits(v: nat): (d: string)
    requires v < 0x80
    ensures |d| == 3 && PlainValue(d)
  {
    [('0' as nat + v / 64) as char, ('0' as nat + v / 8 % 8) as char, ('0' as nat + v % 8) as char]
  }

  /** A character below 0x80 written as a backslash and three octal digits is read back as itself. */
  lemma OctalEscapeRead(c: char, rest: string)
    requires c as nat < 0x80
    ensures EscapeAt("\\" + OctalDigits(c as nat) + rest) == Some((c, 4))
  {
    var e := "\\" + OctalDigits(c as nat) + rest;
    var v := c as nat;
    assert e[1..4] == OctalDigits(v);
    assert v / 8 == 8 * (v / 64) + v / 8 % 8 && v == 8 * (v / 8) + v % 8;
    assert e[1] as nat - '0' as nat == v / 64;
    assert e[2] as nat - '0' as nat == v / 8 % 8;
    assert e[3] as nat - '0' as nat == v % 8;
  }

  /** Reading the item a tag starts with, once its key `k` and the `:"` after it are known. */
  lemma LookupUnfold(k: string, body: string, key: string)
    requires ValidKey(k)
    ensures Lookup(k + ":\"" + body, key) == LookupValue(k, body, key)
  {
    var afterKey := [':', '"'] + body;
    var t := k + afterKey;
    assert t == k + ":\"" + body;
    assert t[0] == k[0] && IsKeyChar(k[0]);
    assert SkipSpaces(t) == t;
    KeyLengthPast(k, afterKey);
    assert t[|k|] == ':' && t[|k| + 1] == '"';
    assert t[..|k|] == k;
    assert t[|k| + 2..] == body;
  }

  /** The literal in front of a tag's next item, once its closing quote is known. */
  lemma LookupValueAt(name: string, body: string, key: string, j: nat)
    requires ClosingQuote(body) == Some(j)
    ensures LookupValue(name, body, key) == if name == key then Unquote(body[..j]) else Lookup(body[j + 1..], key)
  {
  }

  /** Reading one well-formed item `key:"value"` off the front of a tag. */
  lemma LookupItem(k: string, v: string, tail: string, key: string)
    requires ValidKey(k) && PlainValue(v)
    requires tail == [] || tail[0] == ' '
    ensures Lookup(k + ":\"" + v + "\"" + tail, key) == if key == k then Some(v) else Lookup(tail, key)
  {
    var body := v + ("\"" + tail);
    assert k + ":\"" + v + "\"" + tail == k + ":\"" + body;
    LookupUnfold(k, body, key);
    ClosingQuotePlain(v, "\"" + tail);
    assert ClosingQuote("\"" + tail) == Some(0);
    LookupValueAt(k, body, key, |v|);
    assert body[..|v|] == v + [];
    assert body[|v| + 1..] == tail;
    UnquotePlain(v, []);
  }
}
