/**
  Selection criteria for one parameter of an adapted function: by group or by
  name, each optionally marked `optional`, and the struct tag each becomes.
 */
module Annotations {
  import opened Wrappers
  import opened StructTag

  /** The two annotation kinds: groupAnnotation and nameAnnotation. */
  datatype Annotation =
    | Group(group: string, optional: bool)
    | Name(name: string, optional: bool)
  {
    /** The tag key this annotation selects by. */
    function Key(): string
    {
      if Group? then "group" else "name"
    }

    /** The group or name this annotation carries. */
    function Selector(): string
    {
      if Group? then group else name
    }

    /** A copy of this annotation, of the same kind and selector, marked optional. */
    function IsOptional(): (r: Annotation)
      ensures r.optional
      ensures r.Group? == Group? && r.Key() == Key() && r.Selector() == Selector()
    {
      match this
      case Group(g, _) => Group(g, true)
      case Name(n, _) => Name(n, true)
    }
  }

  /** GroupAnnotation(group): a required annotation that selects a whole group. */
  function GroupAnnotation(group: string): (a: Annotation)
    ensures a.Group? && a.Key() == "group" && a.Selector() == group && !a.optional
  {
    Group(group, false)
  }

  /** NameAnnotation(name): a required annotation that selects a named value. */
  function NameAnnotation(name: string): (a: Annotation)
    ensures a.Name? && a.Key() == "name" && a.Selector() == name && !a.optional
  {
    Name(name, false)
  }

  /** Marking an annotation optional twice is the same as marking it once. */
  lemma IsOptionalIdempotent(a: Annotation)
    ensures a.IsOptional().IsOptional() == a.IsOptional()
    ensures a.IsOptional() == a <==> a.optional
  {
  }

  /** `strings.Join`. */
  function Join(parts: seq<string>, sep: string): (joined: string)
    ensures parts == [] ==> joined == ""
    ensures parts != [] ==> parts[0] <= joined
  {
    if parts == [] then ""
    else if |parts| == 1 then parts[0]
    else parts[0] + sep + Join(parts[1..], sep)
  }

  /** One `key:"value"` item of a struct tag, the value inserted verbatim. */
  function TagItem(key: string, value: string): string
  {
    key + ":\"" + value + "\""
  }

  /** The items that the switch over the annotation kind appends to `tags`. */
  function TagItems(a: Annotation): seq<string>
  {
    [TagItem(a.Key(), a.Selector())] + (if a.optional then [TagItem("optional", "true")] else [])
  }

  /** The struct tag of a slot that carries annotation `a`. */
  function TagOf(a: Annotation): (t: string)
    ensures t != ""
  {
    JoinShort(TagItem(a.Key(), a.Selector()), TagItem("optional", "true"), " ");
    Join(TagItems(a), " ")
  }

  /** Joining one item, or two. */
  lemma JoinShort(x: string, y: string, sep: string)
    ensures Join([x], sep) == x
    ensures Join([x, y], sep) == x + sep + y
  {
    assert [x, y][1..] == [y];
  }

  /** The tag is `group:"g"` or `name:"n"`, followed by ` optional:"true"` exactly when the flag is set. */
  lemma TagOfShape(a: Annotation)
    ensures a.Group? ==> TagOf(a) == "group:\"" + a.group + "\"" + (if a.optional then " optional:\"true\"" else "")
    ensures a.Name? ==> TagOf(a) == "name:\"" + a.name + "\"" + (if a.optional then " optional:\"true\"" else "")
  {
    TagOfItems(a);
    OptionalItemText();
    var v := a.Selector();
    if a.Group? {
      assert "group" + ":\"" == "group:\"";
      assert TagItem("group", v) == "group:\"" + v + "\"";
    } else {
      assert "name" + ":\"" == "name:\"";
      assert TagItem("name", v) == "name:\"" + v + "\"";
    }
  }

  /** The `optional` item, with the space in front of it. */
  lemma OptionalItemText()
    ensures " " + TagItem("optional", "true") == " optional:\"true\""
  {
  }

  /** The tag is the annotation's item, then a space and the `optional` item when the flag is set. */
  lemma TagOfItems(a: Annotation)
    ensures TagOf(a) == TagItem(a.Key(), a.Selector()) + (if a.optional then " " + TagItem("optional", "true") else "")
  {
    var x, y := TagItem(a.Key(), a.Selector()), TagItem("optional", "true");
    JoinShort(x, y, " ");
    if a.optional {
      assert TagItems(a) == [x, y];
    } else {
      assert TagItems(a) == [x];
      assert x + "" == x;
    }
  }

  /** The keys a slot's tag uses are ones the reader accepts, and `true` reads back as itself. */
  lemma TagKeysValid()
    ensures ValidKey("group") && ValidKey("name") && ValidKey("optional") && PlainValue("true")
  {
    assert "group"[0] == 'g' && "name"[0] == 'n' && "optional"[0] == 'o';
  }

  /** Spaces in front of an item are skipped. */
  lemma LookupAfterSpace(t: string, key: string)
    ensures Lookup(" " + t, key) == Lookup(t, key)
  {
    assert (" " + t)[1..] == t;
    assert SkipSpaces(" " + t) == SkipSpaces(t);
  }

  /** What the container reads from the ` optional:"true"` suffix, or from no suffix. */
  lemma LookupOptionalSuffix(optional: bool, key: string)
    ensures Lookup(if optional then " optional:\"true\"" else "", key) ==
      if optional && key == "optional" then Some("true") else None
  {
    TagKeysValid();
    if optional {
      assert " optional:\"true\"" == " " + ("optional" + ":\"" + "true" + "\"" + "");
      LookupAfterSpace("optional" + ":\"" + "true" + "\"" + "", key);
      LookupItem("optional", "true", "", key);
    }
  }

  /** Reading an annotation's tag back with Go's tag reader, for a selector with no quote,
      backslash or newline, gives its kind's key with the selector, `optional` with `true`
      exactly when it is optional, and nothing for any other key. */
  lemma TagRoundTrip(a: Annotation)
    requires PlainValue(a.Selector())
    ensures Lookup(TagOf(a), a.Key()) == Some(a.Selector())
    ensures Lookup(TagOf(a), "optional") == if a.optional then Some("true") else None
    ensures forall key :: key != a.Key() && key != "optional" ==> Lookup(TagOf(a), key) == None
  {
    TagOfShape(a);
    TagKeysValid();
    var suffix := if a.optional then " optional:\"true\"" else "";
    assert TagOf(a) == a.Key() + ":\"" + a.Selector() + "\"" + suffix;
    forall key
      ensures Lookup(TagOf(a), key) ==
        if key == a.Key() then Some(a.Selector()) else if a.optional && key == "optional" then Some("true") else None
    {
      LookupItem(a.Key(), a.Selector(), suffix, key);
      LookupOptionalSuffix(a.optional, key);
    }
  }

  /** A quote in a name ends its value early: the name `p" x:"y` reads back as `p`,
      followed by a forged item `x` with value `y`. */
  lemma QuoteTruncatesName(p: string, key: string)
    requires PlainValue(p)
    ensures Lookup(TagOf(NameAnnotation(p + "\" x:\"y")), key) ==
      if key == "name" then Some(p) else if key == "x" then Some("y") else None
  {
    TagOfShape(NameAnnotation(p + "\" x:\"y"));
    TagKeysValid();
    assert ValidKey("x") && PlainValue("y");
    var tail := "x" + ":\"" + "y" + "\"" + "";
    assert TagOf(NameAnnotation(p + "\" x:\"y")) == "name" + ":\"" + p + "\"" + (" " + tail);
    LookupItem("name", p, " " + tail, key);
    LookupAfterSpace(tail, key);
    LookupItem("x", "y", "", key);
  }

  /** A literal body whose only quote is its last character is closed there or not at all. */
  lemma OnlyQuoteAtEnd(s: string)
    requires s != [] && '"' !in s[..|s| - 1]
    ensures ClosingQuote(s) == None || ClosingQuote(s) == Some(|s| - 1)
  {
  }

  /** The body of a literal holding `\c` has one quote, at its end: the scan stops
      there or nowhere. */
  lemma BadEscapeScan(p: string, q: string, s: string)
    requires PlainValue(p) && '"' !in q
    requires s == p + ("\\c" + (q + "\""))
    ensures ClosingQuote(s) == None || ClosingQuote(s) == Some(|p| + 2 + |q|)
  {
    var front := p + ("\\c" + q);
    assert s[..|s| - 1] == front;
    forall i | 0 <= i < |front|
      ensures front[i] != '"'
    {
      if i < |p| {
        assert front[i] == p[i] && p[i] in p;
      } else if i >= |p| + 2 {
        assert front[i] == q[i - |p| - 2] && q[i - |p| - 2] in q;
      }
    }
    OnlyQuoteAtEnd(s);
  }

  /** `\c` is not an escape Go's literals have, so the body does not unquote. */
  lemma BadEscapeUnquote(p: string, q: string)
    requires PlainValue(p)
    ensures Unquote(p + ("\\c" + q)) == None
  {
    UnquotePlain(p, "\\c" + q);
    assert ("\\c" + q)[1] == 'c';
  }

  /** An escape sequence read whole, whose characters after the first two are plain,
      is closed by the quote behind it and unquotes to its one character. */
  lemma EscapeScan(e: string, c: char)
    requires |e| >= 2 && e[0] == '\\' && PlainValue(e[2..])
    requires EscapeAt(e) == Some((c, |e|))
    ensures ClosingQuote(e + "\"") == Some(|e|) && Unquote(e) == Some([c])
  {
    assert (e + "\"")[2..] == e[2..] + "\"";
    ClosingQuotePlain(e[2..], "\"");
    assert e[|e|..] == [] && Unquote([]) == Some([]) && [c] + [] == [c];
  }

  /** `\x` and the two digits of a character below 0x80 form such an escape. */
  lemma ByteEscapeScan(c: char, e: string)
    requires c as nat < 0x80
    requires e == "\\x" + HexDigits(c as nat, 2)
    ensures ClosingQuote(e + "\"") == Some(4) && Unquote(e) == Some([c])
  {
    assert e + "" == e;
    ByteEscapeRead(c, "");
    assert e[2..] == HexDigits(c as nat, 2);
    EscapeScan(e, c);
  }

  /** As written, a name holding `\x` and two hexadecimal digits of a character
      below 0x80 reads back with that character in their place. */
  lemma ByteEscapeReadsAs(p: string, c: char, key: string)
    requires PlainValue(p) && c as nat < 0x80
    ensures Lookup(TagOf(NameAnnotation(p + "\\x" + HexDigits(c as nat, 2))), key) ==
      if key == "name" then Some(p + [c]) else None
  {
    var e := "\\x" + HexDigits(c as nat, 2);
    var v := p + e;
    assert p + "\\x" + HexDigits(c as nat, 2) == v;
    TagOfShape(NameAnnotation(v));
    TagKeysValid();
    ByteEscapeScan(c, e);
    assert v + ("\"" + "") == p + (e + "\"");
    ClosingQuotePlain(p, e + "\"");
    UnquotePlain(p, e);
    assert TagOf(NameAnnotation(v)) == "name" + ":\"" + v + "\"" + "";
    LookupLiteralItem("name", v, p + [c], "", key);
  }

  /** A name holding `\c`, an escape Go's literals do not have, reads back as nothing:
      neither its name nor any other key is found. */
  lemma BadEscapeHidesName(p: string, q: string, key: string)
    requires PlainValue(p) && '"' !in q
    ensures Lookup(TagOf(NameAnnotation(p + "\\c" + q)), key) == None
  {
    TagOfShape(NameAnnotation(p + "\\c" + q));
    TagKeysValid();
    var body := p + ("\\c" + (q + "\""));
    assert TagOf(NameAnnotation(p + "\\c" + q)) == "name" + ":\"" + body;
    LookupUnfold("name", body, key);
    BadEscapeScan(p, q, body);
    if ClosingQuote(body).Some? {
      var j := |p| + 2 + |q|;
      LookupValueAt("name", body, key, j);
      assert body[..j] == p + ("\\c" + q);
      assert body[j + 1..] == [];
      BadEscapeUnquote(p, q);
    }
  }

  /** The corrected quoting: a value written as a Go literal, its quotes, backslashes and
      newlines escaped. */
  function EscapeChar(c: char): string
  {
    if c == '"' then "\\\"" else if c == '\\' then "\\\\" else if c == '\n' then "\\n" else [c]
  }

  /** A value with each character escaped in turn. */
  function Escape(v: string): string
  {
    if v == [] then [] else EscapeChar(v[0]) + Escape(v[1..])
  }

  /** A value that needs no escape: its first character is none of the three, and the rest needs none either. */
  lemma PlainFront(v: string)
    requires PlainValue(v) && v != []
    ensures v[0] != '"' && v[0] != '\\' && v[0] != '\n' && PlainValue(v[1..])
  {
    assert v[0] in v;
    forall c | c in v[1..]
      ensures c in v
    {
      var i :| 0 <= i < |v[1..]| && v[1..][i] == c;
      assert v[i + 1] == c;
    }
  }

  /** A value that needs no escape is written as itself. */
  lemma {:induction false} EscapePlain(v: string)
    requires PlainValue(v)
    ensures Escape(v) == v
    decreases |v|
  {
    if v != [] {
      PlainFront(v);
      EscapePlain(v[1..]);
      assert EscapeChar(v[0]) == [v[0]];
      assert [v[0]] + v[1..] == v;
    }
  }

  /** A slot's tag with the selector written as a Go literal rather than verbatim. */
  function QuotedTagOf(a: Annotation): string
  {
    a.Key() + ":\"" + Escape(a.Selector()) + "\"" + (if a.optional then " optional:\"true\"" else "")
  }

  /** The reader scans one escaped character as a unit. */
  lemma ClosingQuoteEscapeChar(c: char, rest: string)
    ensures ClosingQuote(EscapeChar(c) + rest) ==
      match ClosingQuote(rest)
      case None => None
      case Some(k) => Some(k + |EscapeChar(c)|)
  {
    var e := EscapeChar(c);
    if |e| == 2 {
      assert (e + rest)[0] == '\\' && (e + rest)[2..] == rest;
    } else {
      assert (e + rest)[0] == c && (e + rest)[1..] == rest;
    }
  }

  /** The reader scans an escaped value straight through to the quote after it. */
  lemma {:induction false} ClosingQuoteEscaped(v: string, rest: string)
    ensures ClosingQuote(Escape(v) + rest) ==
      match ClosingQuote(rest)
      case None => None
      case Some(k) => Some(k + |Escape(v)|)
    decreases |v|
  {
    if v != [] {
      ClosingQuoteEscaped(v[1..], rest);
      ClosingQuoteEscapedStep(v, rest);
    } else {
      assert Escape(v) + rest == rest;
    }
  }

  /** One step of that scan: the first escaped character, then the already scanned rest. */
  lemma ClosingQuoteEscapedStep(v: string, rest: string)
    requires v != []
    requires ClosingQuote(Escape(v[1..]) + rest) ==
      match ClosingQuote(rest)
      case None => None
      case Some(k) => Some(k + |Escape(v[1..])|)
    ensures ClosingQuote(Escape(v) + rest) ==
      match ClosingQuote(rest)
      case None => None
      case Some(k) => Some(k + |Escape(v)|)
  {
    ClosingQuoteEscapedFirst(v, rest);
    ClosingQuoteCons(Escape(v) + rest, |Escape(v)|, |EscapeChar(v[0])|, |Escape(v[1..])|, Escape(v[1..]) + rest, rest);
  }

  /** The reader scans an escaped value's first character, then the rest. */
  lemma ClosingQuoteEscapedFirst(v: string, rest: string)
    requires v != []
    ensures |Escape(v)| == |EscapeChar(v[0])| + |Escape(v[1..])|
    ensures ClosingQuote(Escape(v) + rest) ==
      match ClosingQuote(Escape(v[1..]) + rest)
      case None => None
      case Some(k) => Some(k + |EscapeChar(v[0])|)
  {
    EscapeFront(v, rest);
    ClosingQuoteEscapeChar(v[0], Escape(v[1..]) + rest);
  }

  /** A piece `s` scanned as `m` characters and then `later`, where `later` is scanned as
      `n` characters and then `rest`: `s` is scanned as `len == m + n` characters and then `rest`. */
  lemma ClosingQuoteCons(s: string, len: nat, m: nat, n: nat, later: string, rest: string)
    requires len == m + n
    requires ClosingQuote(s) ==
      match ClosingQuote(later)
      case None => None
      case Some(k) => Some(k + m)
    requires ClosingQuote(later) ==
      match ClosingQuote(rest)
      case None => None
      case Some(k) => Some(k + n)
    ensures ClosingQuote(s) ==
      match ClosingQuote(rest)
      case None => None
      case Some(k) => Some(k + len)
  {
  }

  /** Unquoting one escaped character gives the character back. */
  lemma UnquoteEscapeChar(c: char, rest: string)
    ensures Unquote(EscapeChar(c) + rest) ==
      match Unquote(rest)
      case None => None
      case Some(u) => Some([c] + u)
  {
    var e := EscapeChar(c);
    if |e| == 2 {
      assert (e + rest)[0] == '\\' && (e + rest)[2..] == rest;
    } else {
      assert (e + rest)[0] == c && (e + rest)[1..] == rest;
    }
  }

  /** Unquoting an escaped value gives the value back. */
  lemma {:induction false} UnquoteEscaped(v: string, rest: string)
    ensures Unquote(Escape(v) + rest) ==
      match Unquote(rest)
      case None => None
      case Some(u) => Some(v + u)
    decreases |v|
  {
    if v == [] {
      assert Escape(v) + rest == rest;
      match Unquote(rest) {
        case None =>
        case Some(u) => assert v + u == u;
      }
    } else {
      UnquoteEscaped(v[1..], rest);
      UnquoteEscapedFirst(v, rest);
      UnquoteCons(Escape(v) + rest, v, Escape(v[1..]) + rest, rest);
    }
  }

  /** Unquoting an escaped value gives its first character, then what the rest unquotes to. */
  lemma UnquoteEscapedFirst(v: string, rest: string)
    requires v != []
    ensures Unquote(Escape(v) + rest) ==
      match Unquote(Escape(v[1..]) + rest)
      case None => None
      case Some(x) => Some([v[0]] + x)
  {
    EscapeFront(v, rest);
    UnquoteEscapeChar(v[0], Escape(v[1..]) + rest);
  }

  /** A piece `s` that unquotes to `v[0]` and then the unquoting of `later`, where `later`
      unquotes to `v[1..]` and then the unquoting of `rest`. */
  lemma UnquoteCons(s: string, v: string, later: string, rest: string)
    requires v != []
    requires Unquote(s) ==
      match Unquote(later)
      case None => None
      case Some(x) => Some([v[0]] + x)
    requires Unquote(later) ==
      match Unquote(rest)
      case None => None
      case Some(u) => Some(v[1..] + u)
    ensures Unquote(s) ==
      match Unquote(rest)
      case None => None
      case Some(u) => Some(v + u)
  {
    if Unquote(rest).Some? {
      var u := Unquote(rest).value;
      assert [v[0]] + (v[1..] + u) == v + u;
    }
  }

  /** An escaped value, followed by `rest`, starts with its first character escaped. */
  lemma EscapeFront(v: string, rest: string)
    requires v != []
    ensures Escape(v) + rest == EscapeChar(v[0]) + (Escape(v[1..]) + rest)
  {
  }

  /** Reading one item whose value is escaped off the front of a tag. */
  lemma LookupQuotedItem(k: string, v: string, tail: string, key: string)
    requires ValidKey(k)
    requires tail == [] || tail[0] == ' '
    ensures Lookup(k + ":\"" + Escape(v) + "\"" + tail, key) == if key == k then Some(v) else Lookup(tail, key)
  {
    ClosingQuoteEscaped(v, "\"" + tail);
    assert ClosingQuote("\"" + tail) == Some(0);
    UnquoteEscaped(v, []);
    assert Escape(v) + [] == Escape(v) && v + [] == v;
    LookupLiteralItem(k, Escape(v), v, tail, key);
  }

  /** Reading one item `key:"e"` off the front of a tag, where the reader scans the literal
      body `e` up to the quote after it and unquotes it to `v`. */
  lemma LookupLiteralItem(k: string, e: string, v: string, tail: string, key: string)
    requires ValidKey(k)
    requires tail == [] || tail[0] == ' '
    requires ClosingQuote(e + ("\"" + tail)) == Some(|e|)
    requires Unquote(e) == Some(v)
    ensures Lookup(k + ":\"" + e + "\"" + tail, key) == if key == k then Some(v) else Lookup(tail, key)
  {
    var body := e + ("\"" + tail);
    assert k + ":\"" + e + "\"" + tail == k + ":\"" + body;
    LookupUnfold(k, body, key);
    LookupValueAt(k, body, key, |e|);
    assert body[..|e|] == e;
    assert body[|e| + 1..] == tail;
  }

  /** With the corrected quoting every selector reads back exactly, and the tag equals
      the verbatim one whenever the selector needs no escape. */
  lemma QuotedTagRoundTrip(a: Annotation)
    ensures Lookup(QuotedTagOf(a), a.Key()) == Some(a.Selector())
    ensures Lookup(QuotedTagOf(a), "optional") == if a.optional then Some("true") else None
    ensures forall key :: key != a.Key() && key != "optional" ==> Lookup(QuotedTagOf(a), key) == None
    ensures PlainValue(a.Selector()) ==> QuotedTagOf(a) == TagOf(a)
  {
    forall key
      ensures Lookup(QuotedTagOf(a), key) ==
        if key == a.Key() then Some(a.Selector()) else if a.optional && key == "optional" then Some("true") else None
    {
      QuotedTagLookup(a, key);
    }
    if PlainValue(a.Selector()) {
      QuotedTagPlain(a);
    }
  }

  /** For a selector that needs no escape the corrected tag is the verbatim one. */
  lemma QuotedTagPlain(a: Annotation)
    requires PlainValue(a.Selector())
    ensures QuotedTagOf(a) == TagOf(a)
  {
    EscapePlain(a.Selector());
    TagOfItems(a);
    OptionalItemText();
  }

  /** Looking one key up in the corrected tag. */
  lemma QuotedTagLookup(a: Annotation, key: string)
    ensures Lookup(QuotedTagOf(a), key) ==
      if key == a.Key() then Some(a.Selector()) else if a.optional && key == "optional" then Some("true") else None
  {
    TagKeysValid();
    var suffix := if a.optional then " optional:\"true\"" else "";
    assert QuotedTagOf(a) == a.Key() + ":\"" + Escape(a.Selector()) + "\"" + suffix;
    LookupQuotedItem(a.Key(), a.Selector(), suffix, key);
    LookupOptionalSuffix(a.optional, key);
  }

  /** The selector is inserted verbatim, so a double quote in it can forge an `optional` item. */
  lemma TagOfQuoteAmbiguity()
    ensures TagOf(Group("x\" optional:\"true", false)) == TagOf(Group("x", true))
  {
  }
}
