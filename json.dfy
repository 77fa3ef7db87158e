/** The part of JSON the client pages store and read back: `null` and objects whose
    members are all strings. `Stringify` writes what `JSON.stringify` writes for
    such a value; `Parse` reads what `JSON.parse` reads of such a text (whitespace
    between tokens allowed) and answers `None` for any other text. */
module Json {
  import opened Prelude

  type Member = (string, string)

  datatype JsonDoc = JNull | JObject(members: seq<Member>)

  // ----- JSON.stringify -----

  function HexDigit(d: nat): (c: char)
    requires d < 16
  {
    "0123456789abcdef"[d]
  }

  /** How `JSON.stringify` writes one character inside a string literal. */
  function EscapeChar(c: char): (r: string)
    ensures |r| >= 1
    ensures r[0] == '"' ==> false
    ensures |r| == 1 <==> r == [c]
  {
    if c == '"' then ['\\', '"']
    else if c == '\\' then ['\\', '\\']
    else if c == 8 as char then ['\\', 'b']
    else if c == '\t' then ['\\', 't']
    else if c == '\n' then ['\\', 'n']
    else if c == 12 as char then ['\\', 'f']
    else if c == '\r' then ['\\', 'r']
    else if c < ' ' then ['\\', 'u', '0', '0', HexDigit(c as int / 16), HexDigit(c as int % 16)]
    else [c]
  }

  function Escape(s: string): string {
    if s == [] then [] else EscapeChar(s[0]) + Escape(s[1..])
  }

  function Quote(s: string): string {
    ['"'] + Escape(s) + ['"']
  }

  function StringifyMember(m: Member): string {
    Quote(m.0) + [':'] + Quote(m.1)
  }

  function StringifyMembers(ms: seq<Member>): string
    requires ms != []
  {
    StringifyMember(ms[0])
      + (if |ms| == 1 then [] else [','] + StringifyMembers(ms[1..]))
  }

  /** `JSON.stringify(doc)`. */
  function Stringify(doc: JsonDoc): (r: string)
    ensures doc.JNull? <==> r == "null"
    ensures doc.JObject? ==> |r| >= 2 && r[0] == '{' && r[|r| - 1] == '}'
  {
    match doc
    case JNull => "null"
    case JObject(ms) => if ms == [] then "{}" else ['{'] + StringifyMembers(ms) + ['}']
  }

  // ----- JSON.parse -----

  predicate IsWs(c: char) { c == ' ' || c == '\t' || c == '\n' || c == '\r' }

  /** Drops the JSON whitespace at the front of `s`. */
  function SkipWs(s: string): (r: string)
    ensures |r| <= |s|
    ensures r == [] || !IsWs(r[0])
    ensures s != [] && !IsWs(s[0]) ==> r == s
  {
    if s != [] && IsWs(s[0]) then SkipWs(s[1..]) else s
  }

  function HexValue(c: char): (r: Option<nat>)
    ensures r.Some? ==> r.value < 16
  {
    if '0' <= c <= '9' then Some(c as int - '0' as int)
    else if 'a' <= c <= 'f' then Some(c as int - 'a' as int + 10)
    else if 'A' <= c <= 'F' then Some(c as int - 'A' as int + 10)
    else None
  }

  /** The character named by the code point `code`, unless it is a surrogate
      (lone surrogates are not characters here). */
  function CodeUnit(code: nat): (r: Option<char>)
    requires code < 0x1_0000
    ensures r.Some? ==> r.value as int == code
  {
    if code < 0xD800 || 0xE000 <= code then Some(code as char) else None
  }

  /** Reads one escape; `s` starts just after the backslash. Answers the character
      and what follows the escape. */
  function Unescape(s: string): (r: Option<(char, string)>)
    ensures r.Some? ==> |r.value.1| < |s|
  {
    if s == [] then None
    else if s[0] == '"' then Some(('"', s[1..]))
    else if s[0] == '\\' then Some(('\\', s[1..]))
    else if s[0] == '/' then Some(('/', s[1..]))
    else if s[0] == 'b' then Some((8 as char, s[1..]))
    else if s[0] == 't' then Some(('\t', s[1..]))
    else if s[0] == 'n' then Some(('\n', s[1..]))
    else if s[0] == 'f' then Some((12 as char, s[1..]))
    else if s[0] == 'r' then Some(('\r', s[1..]))
    else if s[0] == 'u' && |s| >= 5 then
      match (HexValue(s[1]), HexValue(s[2]), HexValue(s[3]), HexValue(s[4]))
      case (Some(h1), Some(h2), Some(h3), Some(h4)) =>
        assert h1 * 4096 <= 15 * 4096 && h2 * 256 <= 15 * 256;
        (match CodeUnit(h1 * 4096 + h2 * 256 + h3 * 16 + h4)
         case Some(c) => Some((c, s[5..]))
         case None => None)
      case _ => None
    else None
  }

  /** Reads the rest of a string literal; `s` starts just after the opening quote.
      Answers the decoded string and what follows the closing quote. */
  function ParseStringBody(s: string): (r: Option<(string, string)>)
    ensures r.Some? ==> |r.value.1| < |s|
    decreases |s|
  {
    if s == [] then None
    else if s[0] == '"' then Some(([], s[1..]))
    else if s[0] == '\\' then
      match Unescape(s[1..])
      case None => None
      case Some((c, rest)) =>
        match ParseStringBody(rest)
        case None => None
        case Some((t, after)) => Some(([c] + t, after))
    else if s[0] < ' ' then None
    else
      match ParseStringBody(s[1..])
      case None => None
      case Some((t, after)) => Some(([s[0]] + t, after))
  }

  /** Reads a string literal after optional whitespace: the decoded string and
      what follows the closing quote. */
  function ParseQuoted(s: string): (r: Option<(string, string)>)
    ensures r.Some? ==> |r.value.1| < |s|
  {
    var s1 := SkipWs(s);
    if s1 == [] || s1[0] != '"' then None else ParseStringBody(s1[1..])
  }

  /** Reads one `"key": "value"` member. */
  function ParseMember(s: string): (r: Option<(Member, string)>)
    ensures r.Some? ==> |r.value.1| < |s|
  {
    match ParseQuoted(s)
    case None => None
    case Some((k, r1)) =>
      var r2 := SkipWs(r1);
      if r2 == [] || r2[0] != ':' then None
      else
        match ParseQuoted(r2[1..])
        case None => None
        case Some((v, r3)) => Some(((k, v), r3))
  }

  /** Reads members separated by commas up to and including the closing brace. */
  function ParseMembers(s: string): (r: Option<(seq<Member>, string)>)
    ensures r.Some? ==> |r.value.1| < |s|
    decreases |s|
  {
    match ParseMember(s)
    case None => None
    case Some((m, r1)) =>
      var r2 := SkipWs(r1);
      if r2 == [] then None
      else if r2[0] == '}' then Some(([m], r2[1..]))
      else if r2[0] == ',' then
        match ParseMembers(r2[1..])
        case None => None
        case Some((more, r3)) => Some(([m] + more, r3))
      else None
  }

  /** `JSON.parse(text)` for texts holding `null` or an object of string members. */
  function Parse(text: string): (r: Option<JsonDoc>)
    ensures r.Some? ==> SkipWs(text) != [] && (SkipWs(text)[0] == 'n' <==> r.value.JNull?)
    ensures r.Some? && r.value.JObject? ==> SkipWs(text)[0] == '{'
  {
    var t := SkipWs(text);
    if IsPrefix("null", t) then
      if SkipWs(t[4..]) == [] then Some(JNull) else None
    else if t != [] && t[0] == '{' then
      var u := SkipWs(t[1..]);
      if u != [] && u[0] == '}' then
        if SkipWs(u[1..]) == [] then Some(JObject([])) else None
      else
        match ParseMembers(u)
        case None => None
        case Some((ms, rest)) => if SkipWs(rest) == [] then Some(JObject(ms)) else None
    else None
  }

  /** Member `i` is the last one of `ms` whose key is `key`. */
  predicate LastWithKey(ms: seq<Member>, key: string, i: int) {
    0 <= i < |ms| && ms[i].0 == key && forall j :: i < j < |ms| ==> ms[j].0 != key
  }

  /** `obj[key]` for a parsed object: the value of the last member with that key. */
  function Lookup(ms: seq<Member>, key: string): (r: Option<string>)
    ensures r.Some? <==> exists m :: m in ms && m.0 == key
    ensures r.Some? ==> exists i :: LastWithKey(ms, key, i) && ms[i].1 == r.value
  {
    if ms == [] then None
    else if ms[|ms| - 1].0 == key then Some(ms[|ms| - 1].1)
    else
      assert ms == ms[..|ms| - 1] + [ms[|ms| - 1]];
      Lookup(ms[..|ms| - 1], key)
  }

  // ----- round trip -----

  /** A character that needs no escape is read as itself. */
  lemma PlainCharRead(c: char, t: string)
    requires c >= ' ' && c != '"' && c != '\\'
    requires ParseStringBody(t).Some?
    ensures ParseStringBody([c] + t) ==
            Some(([c] + ParseStringBody(t).value.0, ParseStringBody(t).value.1))
  {
    assert ([c] + t)[1..] == t;
  }

  /** A backslash followed by an escape that reads as `c` is read as `c`. */
  lemma EscapedCharRead(c: char, e: string, t: string)
    requires Unescape(e + t) == Some((c, t))
    requires ParseStringBody(t).Some?
    ensures ParseStringBody(['\\'] + e + t) ==
            Some(([c] + ParseStringBody(t).value.0, ParseStringBody(t).value.1))
  {
    assert (['\\'] + e + t)[1..] == e + t;
  }

  lemma HexDigitValue(d: nat)
    requires d < 16
    ensures HexValue(HexDigit(d)) == Some(d)
  {
  }

  /** The six-character escape of a control character reads back as that character. */
  lemma ControlEscapeRead(c: char, t: string)
    requires c < ' '
    ensures var e := ['u', '0', '0', HexDigit(c as int / 16), HexDigit(c as int % 16)];
            Unescape(e + t) == Some((c, t))
  {
    var hi, lo := c as int / 16, c as int % 16;
    var s := ['u', '0', '0', HexDigit(hi), HexDigit(lo)] + t;
    HexDigitValue(0);
    HexDigitValue(hi);
    HexDigitValue(lo);
    assert s[1] == '0' && s[2] == '0' && s[3] == HexDigit(hi) && s[4] == HexDigit(lo);
    assert 0 * 4096 + 0 * 256 + hi * 16 + lo == c as int;
    assert s[5..] == t;
  }

  /** The second character of a two-character escape reads back as the character. */
  lemma ShortEscapeRead(c: char, t: string)
    requires |EscapeChar(c)| == 2
    ensures Unescape([EscapeChar(c)[1]] + t) == Some((c, t))
  {
    assert ([EscapeChar(c)[1]] + t)[1..] == t;
  }

  /** Reading back a character written as a two-character escape. */
  lemma ShortEscapeRoundTrip(c: char, t: string)
    requires |EscapeChar(c)| == 2
    requires ParseStringBody(t).Some?
    ensures ParseStringBody(EscapeChar(c) + t) ==
            Some(([c] + ParseStringBody(t).value.0, ParseStringBody(t).value.1))
  {
    var e := EscapeChar(c);
    assert e == ['\\', e[1]];
    ShortEscapeRead(c, t);
    EscapedCharRead(c, [e[1]], t);
    assert ['\\'] + [e[1]] + t == e + t;
  }

  /** Reading back a control character written as a `\u00XX` escape. */
  lemma LongEscapeRoundTrip(c: char, t: string)
    requires |EscapeChar(c)| > 2
    requires ParseStringBody(t).Some?
    ensures ParseStringBody(EscapeChar(c) + t) ==
            Some(([c] + ParseStringBody(t).value.0, ParseStringBody(t).value.1))
  {
    var u := ['u', '0', '0', HexDigit(c as int / 16), HexDigit(c as int % 16)];
    assert EscapeChar(c) == ['\\'] + u;
    ControlEscapeRead(c, t);
    EscapedCharRead(c, u, t);
  }

  /** Reading back one escaped character. */
  lemma EscapeCharRoundTrip(c: char, t: string)
    requires ParseStringBody(t).Some?
    ensures ParseStringBody(EscapeChar(c) + t) ==
            Some(([c] + ParseStringBody(t).value.0, ParseStringBody(t).value.1))
  {
    var e := EscapeChar(c);
    if |e| == 1 {
      PlainCharRead(c, t);
    } else if |e| == 2 {
      ShortEscapeRoundTrip(c, t);
    } else {
      LongEscapeRoundTrip(c, t);
    }
  }

  /** Reading back an escaped string up to its closing quote. */
  lemma {:induction false} EscapeRoundTrip(s: string, rest: string)
    ensures ParseStringBody(Escape(s) + ['"'] + rest) == Some((s, rest))
  {
    if s == [] {
      assert Escape(s) + ['"'] + rest == ['"'] + rest;
    } else {
      var t := Escape(s[1..]) + ['"'] + rest;
      EscapeRoundTrip(s[1..], rest);
      EscapeCharRoundTrip(s[0], t);
      assert Escape(s) + ['"'] + rest == EscapeChar(s[0]) + t;
      assert [s[0]] + s[1..] == s;
    }
  }

  /** Reading back a quoted string. */
  lemma QuotedRoundTrip(s: string, rest: string)
    ensures ParseQuoted(Quote(s) + rest) == Some((s, rest))
  {
    var text := Quote(s) + rest;
    assert text == ['"'] + (Escape(s) + ['"'] + rest);
    assert text[1..] == Escape(s) + ['"'] + rest;
    EscapeRoundTrip(s, rest);
  }

  /** Reading back one member. */
  lemma MemberRoundTrip(m: Member, rest: string)
    ensures ParseMember(StringifyMember(m) + rest) == Some((m, rest))
  {
    var afterKey := [':'] + Quote(m.1) + rest;
    assert StringifyMember(m) + rest == Quote(m.0) + afterKey;
    QuotedRoundTrip(m.0, afterKey);
    assert afterKey[1..] == Quote(m.1) + rest;
    QuotedRoundTrip(m.1, rest);
  }

  /** One member followed by the closing brace or by a comma and more members. */
  lemma MembersStep(s: string, m: Member, r1: string)
    requires ParseMember(s) == Some((m, r1))
    requires r1 != [] && (r1[0] == '}' || r1[0] == ',')
    ensures r1[0] == '}' ==> ParseMembers(s) == Some(([m], r1[1..]))
    ensures r1[0] == ',' && ParseMembers(r1[1..]).Some? ==>
              ParseMembers(s) == Some(([m] + ParseMembers(r1[1..]).value.0, ParseMembers(r1[1..]).value.1))
  {
    assert SkipWs(r1) == r1;
  }

  /** Reading back the last member and the closing brace. */
  lemma LastMemberRoundTrip(m: Member, rest: string)
    ensures ParseMembers(StringifyMembers([m]) + ['}'] + rest) == Some(([m], rest))
  {
    var text := StringifyMembers([m]) + ['}'] + rest;
    var after := ['}'] + rest;
    assert text == StringifyMember(m) + after;
    MemberRoundTrip(m, after);
    MembersStep(text, m, after);
    assert after[1..] == rest;
  }

  /** A member, a comma, and text holding further members read back as one list. */
  lemma ConsStep(m: Member, t: string, more: seq<Member>, rest: string)
    requires ParseMembers(t) == Some((more, rest))
    ensures ParseMembers(StringifyMember(m) + ([','] + t)) == Some(([m] + more, rest))
  {
    var after := [','] + t;
    MemberRoundTrip(m, after);
    MembersStep(StringifyMember(m) + after, m, after);
    assert after[1..] == t;
  }

  lemma Regroup(a: string, b: string, r: string)
    ensures a + ([','] + b) + ['}'] + r == a + ([','] + (b + ['}'] + r))
  {
  }

  /** Reading back a member followed by a comma and members read back already. */
  lemma ConsMemberRoundTrip(ms: seq<Member>, rest: string)
    requires |ms| >= 2
    requires ParseMembers(StringifyMembers(ms[1..]) + ['}'] + rest) == Some((ms[1..], rest))
    ensures ParseMembers(StringifyMembers(ms) + ['}'] + rest) == Some((ms, rest))
  {
    var head, tail := StringifyMember(ms[0]), StringifyMembers(ms[1..]);
    var t := tail + ['}'] + rest;
    ConsStep(ms[0], t, ms[1..], rest);
    assert StringifyMembers(ms) == head + ([','] + tail);
    Regroup(head, tail, rest);
    assert [ms[0]] + ms[1..] == ms;
  }

  /** Reading back the members of an object, closing brace included. */
  lemma {:induction false} MembersRoundTrip(ms: seq<Member>, rest: string)
    requires ms != []
    ensures ParseMembers(StringifyMembers(ms) + ['}'] + rest) == Some((ms, rest))
  {
    if |ms| == 1 {
      LastMemberRoundTrip(ms[0], rest);
      assert [ms[0]] == ms;
    } else {
      MembersRoundTrip(ms[1..], rest);
      ConsMemberRoundTrip(ms, rest);
    }
  }

  /** The text of a non-empty member list starts with a quote. */
  lemma MembersStartWithQuote(ms: seq<Member>)
    requires ms != []
    ensures StringifyMembers(ms)[0] == '"'
  {
    assert StringifyMembers(ms) == ['"'] + (Escape(ms[0].0) + ['"'] + [':'] + Quote(ms[0].1)
      + (if |ms| == 1 then [] else [','] + StringifyMembers(ms[1..])));
  }

  /** Reading back a non-empty object. */
  lemma ObjectRoundTrip(ms: seq<Member>)
    requires ms != []
    ensures Parse(Stringify(JObject(ms))) == Some(JObject(ms))
  {
    var text := Stringify(JObject(ms));
    var u := StringifyMembers(ms) + ['}'] + [];
    assert text == ['{'] + u;
    assert SkipWs(text) == text;
    assert !IsPrefix("null", text);
    assert text[1..] == u;
    MembersStartWithQuote(ms);
    assert SkipWs(u) == u;
    MembersRoundTrip(ms, []);
  }

  /** `JSON.parse(JSON.stringify(doc))` gives `doc` back. */
  lemma ParseStringify(doc: JsonDoc)
    ensures Parse(Stringify(doc)) == Some(doc)
  {
    var text := Stringify(doc);
    match doc
    case JNull =>
      assert text[4..] == [];
    case JObject(ms) =>
      if ms == [] {
        assert text[1..] == ['}'];
      } else {
        ObjectRoundTrip(ms);
      }
  }
}
