/**
 * `JSON.stringify` and `JSON.parse` on a list of strings, the form in
 * which the settings row stores the default hashtags.
 */
module Json {
  import opened Wrappers

  // ---------------------------------------------------------------------
  // JSON.stringify(tags)
  // ---------------------------------------------------------------------

  /** Lower-case hexadecimal digit, as JSON.stringify writes in `\u00XX`. */
  function HexDigit(d: nat): (c: char)
    requires d < 16
    ensures HexValue(c) == Some(d)
  {
    if d < 10 then (48 + d) as char else (87 + d) as char
  }

  /** The value of a hexadecimal digit of either case. */
  function HexValue(c: char): (r: Option<nat>)
    ensures r.Some? ==> r.value < 16
  {
    if '0' <= c <= '9' then Some(c as nat - 48)
    else if 'a' <= c <= 'f' then Some(c as nat - 87)
    else if 'A' <= c <= 'F' then Some(c as nat - 55)
    else None
  }

  /** How JSON.stringify writes one character inside a string literal. */
  function EscapeChar(c: char): (e: string)
    ensures e != []
  {
    if c == '"' then "\\\""
    else if c == '\\' then "\\\\"
    else if c == '\U{08}' then "\\b"
    else if c == '\U{0C}' then "\\f"
    else if c == '\n' then "\\n"
    else if c == '\r' then "\\r"
    else if c == '\t' then "\\t"
    else if (c as int) < 0x20 then "\\u00" + [HexDigit(c as nat / 16), HexDigit(c as nat % 16)]
    else [c]
  }

  function Escaped(t: string): string {
    if t == [] then [] else EscapeChar(t[0]) + Escaped(t[1..])
  }

  /** A string literal: the escaped text between double quotes. */
  function Quote(t: string): string {
    "\"" + Escaped(t) + "\""
  }

  /** The literals after the first, each preceded by a comma. */
  function MoreItems(ts: seq<string>): string {
    if ts == [] then [] else "," + Quote(ts[0]) + MoreItems(ts[1..])
  }

  /** `JSON.stringify(tags)`: a bracketed, comma-separated list of string literals, without spaces. */
  function Stringify(tags: seq<string>): (s: string)
    ensures |s| >= 2 && s[0] == '[' && s[|s| - 1] == ']'
  {
    if tags == [] then "[]" else "[" + Quote(tags[0]) + MoreItems(tags[1..]) + "]"
  }

  // ---------------------------------------------------------------------
  // JSON.parse(text), when the text is an array of strings
  // ---------------------------------------------------------------------

  /** The four characters JSON allows between tokens. */
  predicate IsJsonSpace(c: char) {
    c == ' ' || c == '\t' || c == '\n' || c == '\r'
  }

  function SkipSpace(s: string): (r: string)
    ensures |r| <= |s|
    ensures r != [] ==> !IsJsonSpace(r[0])
  {
    if s != [] && IsJsonSpace(s[0]) then SkipSpace(s[1..]) else s
  }

  /** Four hexadecimal digits. */
  function Hex4(s: string): (r: Option<nat>)
    requires |s| >= 4
    ensures r.Some? ==> r.value < 0x10000
  {
    var d0, d1, d2, d3 := HexValue(s[0]), HexValue(s[1]), HexValue(s[2]), HexValue(s[3]);
    if d0.Some? && d1.Some? && d2.Some? && d3.Some? then
      Some(((d0.value * 16 + d1.value) * 16 + d2.value) * 16 + d3.value)
    else None
  }

  predicate IsHighSurrogate(v: nat) { 0xD800 <= v < 0xDC00 }
  predicate IsLowSurrogate(v: nat) { 0xDC00 <= v < 0xE000 }

  /**
   * A `\uXXXX` escape, `s` starting just after the `u`: a character outside
   * the surrogate range, or a high and a low surrogate escape together.
   * A lone surrogate cannot be held in a string here and is refused.
   */
  function UnicodeEscape(s: string): (r: Option<(char, string)>)
    ensures r.Some? ==> |r.value.1| < |s|
  {
    if |s| < 4 then None
    else match Hex4(s)
      case None => None
      case Some(v) =>
        if !IsHighSurrogate(v) && !IsLowSurrogate(v) then Some((v as char, s[4..]))
        else if IsHighSurrogate(v) && |s| >= 10 && s[4] == '\\' && s[5] == 'u' then
          match Hex4(s[6..])
          case Some(w) =>
            if IsLowSurrogate(w) then
              Some(((0x10000 + (v - 0xD800) * 0x400 + (w - 0xDC00)) as char, s[10..]))
            else None
          case None => None
        else None
  }

  /** One escape sequence, `s` starting just after the backslash. */
  function Unescape(s: string): (r: Option<(char, string)>)
    ensures r.Some? ==> |r.value.1| < |s|
  {
    if s == [] then None
    else if s[0] == '"' then Some(('"', s[1..]))
    else if s[0] == '\\' then Some(('\\', s[1..]))
    else if s[0] == '/' then Some(('/', s[1..]))
    else if s[0] == 'b' then Some(('\U{08}', s[1..]))
    else if s[0] == 'f' then Some(('\U{0C}', s[1..]))
    else if s[0] == 'n' then Some(('\n', s[1..]))
    else if s[0] == 'r' then Some(('\r', s[1..]))
    else if s[0] == 't' then Some(('\t', s[1..]))
    else if s[0] == 'u' then UnicodeEscape(s[1..])
    else None
  }

  /**
   * The body of a string literal, `s` starting just after the opening
   * quote: the text and what follows the closing quote. A raw control
   * character or a bad escape is a syntax error.
   */
  function StringBody(s: string): (r: Option<(string, string)>)
    ensures r.Some? ==> |r.value.1| < |s|
    decreases |s|
  {
    if s == [] then None
    else if s[0] == '"' then Some(([], s[1..]))
    else if (s[0] as int) < 0x20 then None
    else if s[0] == '\\' then
      match Unescape(s[1..])
      case None => None
      case Some((c, rest)) =>
        match StringBody(rest)
        case None => None
        case Some((t, after)) => Some(([c] + t, after))
    else
      match StringBody(s[1..])
      case None => None
      case Some((t, after)) => Some(([s[0]] + t, after))
  }

  /**
   * The items of a non-empty array, `s` starting at the first item: string
   * literals separated by commas, up to and including the closing bracket.
   */
  function Items(s: string): (r: Option<(seq<string>, string)>)
    ensures r.Some? ==> |r.value.1| < |s|
    decreases |s|
  {
    if s == [] || s[0] != '"' then None
    else
      match StringBody(s[1..])
      case None => None
      case Some((t, rest)) =>
        var rest' := SkipSpace(rest);
        if rest' == [] then None
        else if rest'[0] == ']' then Some(([t], rest'[1..]))
        else if rest'[0] == ',' then
          match Items(SkipSpace(rest'[1..]))
          case None => None
          case Some((ts, after)) => Some(([t] + ts, after))
        else None
  }

  /**
   * `JSON.parse(text)` when the text is an array of strings; None when it
   * throws and also when it is any other JSON value.
   */
  function ParseStrings(text: string): Option<seq<string>> {
    var s := SkipSpace(text);
    if s == [] || s[0] != '[' then None
    else
      var s' := SkipSpace(s[1..]);
      if s' != [] && s'[0] == ']' then
        if SkipSpace(s'[1..]) == [] then Some([]) else None
      else
        match Items(s')
        case None => None
        case Some((ts, rest)) => if SkipSpace(rest) == [] then Some(ts) else None
  }

  // ---------------------------------------------------------------------
  // JSON.parse(JSON.stringify(tags)) == tags
  // ---------------------------------------------------------------------

  lemma EscapeCharRoundTrip(c: char, rest: string)
    ensures var e := EscapeChar(c);
      && e[0] != '"' && (e[0] as int) >= 0x20
      && (e[0] == '\\' ==> |e| >= 2 && Unescape(e[1..] + rest) == Some((c, rest)))
      && (e[0] != '\\' ==> e == [c])
  {
    var e := EscapeChar(c);
    if c != '"' && c != '\\' && c != '\U{08}' && c != '\U{0C}' && c != '\n' && c != '\r' && c != '\t' && (c as int) < 0x20 {
      var hi, lo := HexDigit(c as nat / 16), HexDigit(c as nat % 16);
      assert e == ['\\', 'u', '0', '0', hi, lo];
      assert e[1..] + rest == ['u', '0', '0', hi, lo] + rest;
      var u := ['0', '0', hi, lo] + rest;
      assert (e[1..] + rest)[1..] == u;
      assert Hex4(u) == Some(c as nat);
      assert u[4..] == rest;
    } else if c == '"' || c == '\\' || c == '\U{08}' || c == '\U{0C}' || c == '\n' || c == '\r' || c == '\t' {
      assert |e| == 2;
      assert (e[1..] + rest)[1..] == rest;
    }
  }

  /** One character of a literal body, written plainly or as an escape. */
  lemma StringBodyStep(s: string, c: char, next: string, t: string, after: string)
    requires s != [] && s[0] != '"' && (s[0] as int) >= 0x20
    requires s[0] == '\\' ==> Unescape(s[1..]) == Some((c, next))
    requires s[0] != '\\' ==> c == s[0] && next == s[1..]
    requires StringBody(next) == Some((t, after))
    ensures StringBody(s) == Some(([c] + t, after))
  {
  }

  lemma {:induction false} StringBodyRoundTrip(t: string, rest: string)
    ensures StringBody(Escaped(t) + "\"" + rest) == Some((t, rest))
  {
    if t == [] {
      assert Escaped(t) + "\"" + rest == ['"'] + rest;
    } else {
      var c := t[0];
      var e := EscapeChar(c);
      var tail := Escaped(t[1..]) + "\"" + rest;
      var s := e + tail;
      assert Escaped(t) + "\"" + rest == s;
      StringBodyRoundTrip(t[1..], rest);
      EscapeCharRoundTrip(c, tail);
      assert s[0] == e[0];
      if e[0] == '\\' {
        assert s[1..] == e[1..] + tail;
      } else {
        assert s[1..] == tail;
      }
      StringBodyStep(s, c, tail, t[1..], rest);
      assert [c] + t[1..] == t;
    }
  }

  /** The last item of an array. */
  lemma ItemsLast(s: string, t: string, rest: string)
    requires s != [] && s[0] == '"' && StringBody(s[1..]) == Some((t, [']'] + rest))
    ensures Items(s) == Some(([t], rest))
  {
    assert SkipSpace([']'] + rest) == [']'] + rest;
    assert ([']'] + rest)[1..] == rest;
  }

  /** An item followed by a comma and further items. */
  lemma ItemsMore(s: string, t: string, next: string, ts: seq<string>, rest: string)
    requires s != [] && s[0] == '"' && StringBody(s[1..]) == Some((t, [','] + next))
    requires next != [] && next[0] == '"' && Items(next) == Some((ts, rest))
    ensures Items(s) == Some(([t] + ts, rest))
  {
    assert SkipSpace([','] + next) == [','] + next;
    assert ([','] + next)[1..] == next;
    assert SkipSpace(next) == next;
  }

  lemma QuoteShape(t: string, after: string)
    ensures var s := Quote(t) + after;
      s != [] && s[0] == '"' && s[1..] == Escaped(t) + "\"" + after
  {
    var s := Quote(t) + after;
    assert s == ['"'] + (Escaped(t) + "\"" + after);
  }

  lemma MoreItemsShape(ts: seq<string>, rest: string)
    requires ts != []
    ensures var next := Quote(ts[0]) + (MoreItems(ts[1..]) + "]" + rest);
      MoreItems(ts) + "]" + rest == [','] + next
  {
  }

  lemma {:induction false} ItemsRoundTrip(t: string, ts: seq<string>, rest: string)
    ensures Items(Quote(t) + (MoreItems(ts) + "]" + rest)) == Some(([t] + ts, rest))
    decreases |ts|
  {
    var after := MoreItems(ts) + "]" + rest;
    var s := Quote(t) + after;
    QuoteShape(t, after);
    StringBodyRoundTrip(t, after);
    if ts == [] {
      assert after == [']'] + rest;
      ItemsLast(s, t, rest);
      assert [t] + ts == [t];
    } else {
      var next := Quote(ts[0]) + (MoreItems(ts[1..]) + "]" + rest);
      MoreItemsShape(ts, rest);
      QuoteShape(ts[0], MoreItems(ts[1..]) + "]" + rest);
      ItemsRoundTrip(ts[0], ts[1..], rest);
      ItemsMore(s, t, next, [ts[0]] + ts[1..], rest);
      assert [ts[0]] + ts[1..] == ts;
    }
  }

  /** What JSON.stringify writes, JSON.parse reads back. */
  lemma ParseStringify(tags: seq<string>)
    ensures ParseStrings(Stringify(tags)) == Some(tags)
  {
    if tags == [] {
      var s := Stringify(tags);
      assert SkipSpace(s) == s;
      assert s[1..] == "]";
      assert SkipSpace(s[1..]) == "]";
    } else {
      ParseStringifyNonEmpty(tags);
    }
  }

  lemma ParseStringifyNonEmpty(tags: seq<string>)
    requires tags != []
    ensures ParseStrings(Stringify(tags)) == Some(tags)
  {
    var inner := Quote(tags[0]) + (MoreItems(tags[1..]) + "]" + []);
    assert Stringify(tags) == "[" + inner;
    assert inner != [] && inner[0] == '"' && Items(inner) == Some((tags, [])) by {
      QuoteShape(tags[0], MoreItems(tags[1..]) + "]" + []);
      ItemsRoundTrip(tags[0], tags[1..], []);
      assert [tags[0]] + tags[1..] == tags;
    }
    ParseBracketed(inner, tags);
  }

  /** A bracket followed by items that end the text parses as those items. */
  lemma ParseBracketed(inner: string, ts: seq<string>)
    requires inner != [] && inner[0] == '"' && Items(inner) == Some((ts, []))
    ensures ParseStrings("[" + inner) == Some(ts)
  {
    var s := "[" + inner;
    assert SkipSpace(s) == s;
    assert s[1..] == inner;
    assert SkipSpace(inner) == inner;
  }
}
