/**
 The duplicate-key scanner that guards protocol frames: what it accepts, as
 functions on the unread text, against JSON trees with arbitrary whitespace.
 */
module StrictJson {
  import opened Common

  const MAX_JSON_DEPTH: nat := 128

  // ---------- string literals ----------

  predicate IsWhitespace(c: char) {
    c == ' ' || c == '\t' || c == '\n' || c == 12 as char || c == '\r'
  }

  function HexDigit(c: char): Option<nat> {
    if '0' <= c <= '9' then Some(c as int - '0' as int)
    else if 'a' <= c <= 'f' then Some(c as int - 'a' as int + 10)
    else if 'A' <= c <= 'F' then Some(c as int - 'A' as int + 10)
    else None
  }

  function Hex4(s: string): Option<nat> {
    if |s| < 4 then None
    else
      match (HexDigit(s[0]), HexDigit(s[1]), HexDigit(s[2]), HexDigit(s[3]))
      case (Some(a), Some(b), Some(c), Some(d)) => Some(((a * 16 + b) * 16 + c) * 16 + d)
      case _ => None
  }

  function SimpleEscape(c: char): Option<nat> {
    match c
    case '"' => Some(34)
    case '\\' => Some(92)
    case '/' => Some(47)
    case 'b' => Some(8)
    case 'f' => Some(12)
    case 'n' => Some(10)
    case 'r' => Some(13)
    case 't' => Some(9)
    case _ => None
  }

  /** The scalar values of a string body up to and including its closing quote, which must end the text. */
  function DecodeBody(s: string): Option<seq<nat>> {
    if s == "" then None
    else if s[0] == '"' then (if |s| == 1 then Some([]) else None)
    else if s[0] as int < 32 then None
    else if s[0] != '\\' then Prefixed(s[0] as int, DecodeBody(s[1..]))
    else if |s| < 2 then None
    else if s[1] != 'u' then
      (match SimpleEscape(s[1]) case None => None case Some(v) => Prefixed(v, DecodeBody(s[2..])))
    else
      match Hex4(s[2..])
      case None => None
      case Some(unit) =>
        if unit < 0xD800 || unit > 0xDFFF then Prefixed(unit, DecodeBody(s[6..]))
        else if unit > 0xDBFF || |s| < 12 || s[6] != '\\' || s[7] != 'u' then None
        else
          match Hex4(s[8..])
          case None => None
          case Some(low) =>
            if 0xDC00 <= low <= 0xDFFF
            then Prefixed(0x10000 + (unit - 0xD800) * 0x400 + (low - 0xDC00), DecodeBody(s[12..])) else None
  }

  function Prefixed(v: nat, rest: Option<seq<nat>>): Option<seq<nat>> {
    if rest.None? then None else Some([v] + rest.value)
  }

  /** The key a quoted literal denotes, with its escapes resolved. */
  function Decode(literal: string): Option<seq<nat>> {
    if literal == "" || literal[0] != '"' then None else DecodeBody(literal[1..])
  }

  // ---------- the scanner on the unread text ----------

  function SkipWhitespace(s: string): (r: string)
    ensures |r| <= |s|
  {
    if s != "" && IsWhitespace(s[0]) then SkipWhitespace(s[1..]) else s
  }

  /** Where the literal that started before `i` ends, past its closing quote. */
  function StringEnd(s: string, i: nat): (r: Option<nat>)
    ensures r.Some? ==> i < r.value <= |s|
    decreases |s| - i
  {
    if i >= |s| then None
    else if s[i] == '\\' then StringEnd(s, i + 2)
    else if s[i] == '"' then Some(i + 1)
    else StringEnd(s, i + 1)
  }

  function ScanString(s: string): (r: Option<(seq<nat>, string)>)
    ensures r.Some? ==> |r.value.1| < |s|
  {
    if s == "" || s[0] != '"' then None
    else
      match StringEnd(s, 1)
      case None => None
      case Some(end) => match Decode(s[..end]) case None => None case Some(key) => Some((key, s[end..]))
  }

  predicate EndsAtom(c: char) {
    IsWhitespace(c) || c == ',' || c == ']' || c == '}'
  }

  function SkipAtom(s: string): (r: string)
    ensures |r| <= |s|
    ensures s != "" && !EndsAtom(s[0]) ==> |r| < |s|
  {
    if s != "" && !EndsAtom(s[0]) then SkipAtom(s[1..]) else s
  }

  predicate StartsWith(s: string, c: char) {
    s != "" && s[0] == c
  }

  /** What is left after one value, or nothing if the scanner refuses. */
  function ScanValue(s: string, depth: nat): (r: Option<string>)
    ensures r.Some? ==> |r.value| < |s|
    decreases |s|, 1
  {
    var t := SkipWhitespace(s);
    if t == "" then None
    else if t[0] == '{' then ScanObject(t, depth)
    else if t[0] == '[' then ScanArray(t, depth)
    else if t[0] == '"' then
      match ScanString(t) case None => None case Some((_, rest)) => Some(rest)
    else if EndsAtom(t[0]) then None
    else Some(SkipAtom(t))
  }

  function ScanObject(s: string, depth: nat): (r: Option<string>)
    requires s != ""
    ensures r.Some? ==> |r.value| < |s|
    decreases |s|, 0
  {
    var u := SkipWhitespace(s[1..]);
    if depth >= MAX_JSON_DEPTH then None
    else if StartsWith(u, '}') then Some(u[1..])
    else ScanMembers(u, depth, {})
  }

  function ScanArray(s: string, depth: nat): (r: Option<string>)
    requires s != ""
    ensures r.Some? ==> |r.value| < |s|
    decreases |s|, 0
  {
    var u := SkipWhitespace(s[1..]);
    if depth >= MAX_JSON_DEPTH then None
    else if StartsWith(u, ']') then Some(u[1..])
    else ScanItems(u, depth)
  }

  /** A key not seen before and its colon. */
  function ScanKey(s: string, keys: set<seq<nat>>): (r: Option<(seq<nat>, string)>)
    ensures r.Some? ==> |r.value.1| < |s|
  {
    match ScanString(SkipWhitespace(s))
    case None => None
    case Some((key, afterKey)) =>
      var colon := SkipWhitespace(afterKey);
      if key in keys || !StartsWith(colon, ':') then None else Some((key, colon[1..]))
  }

  function ScanMembers(s: string, depth: nat, keys: set<seq<nat>>): (r: Option<string>)
    ensures r.Some? ==> |r.value| < |s|
    decreases |s|, 0
  {
    match ScanKey(s, keys)
    case None => None
    case Some((key, afterColon)) =>
      match ScanValue(afterColon, depth + 1)
      case None => None
      case Some(afterValue) =>
        var next := SkipWhitespace(afterValue);
        if StartsWith(next, '}') then Some(next[1..])
        else if StartsWith(next, ',') then ScanMembers(next[1..], depth, keys + {key})
        else None
  }

  function ScanItems(s: string, depth: nat): (r: Option<string>)
    ensures r.Some? ==> |r.value| < |s|
    decreases |s|, 2
  {
    match ScanValue(s, depth + 1)
    case None => None
    case Some(afterValue) =>
      var next := SkipWhitespace(afterValue);
      if StartsWith(next, ']') then Some(next[1..])
      else if StartsWith(next, ',') then ScanItems(next[1..], depth)
      else None
  }

  /** The whole-text decision, up to the parser that runs next. */
  predicate Accepts(source: string) {
    var r := ScanValue(source, 0);
    r.Some? && SkipWhitespace(r.value) == ""
  }

  // ---------- the scanner itself ----------

  class Scanner {
    const source: string
    var offset: nat

    constructor (source: string)
      ensures this.source == source && offset == 0
    {
      this.source, offset := source, 0;
    }

    method Whitespace()
      requires offset <= |source|
      modifies this
      ensures old(offset) <= offset <= |source| && source[offset..] == SkipWhitespace(source[old(offset)..])
    {
      while offset < |source| && IsWhitespace(source[offset])
        invariant old(offset) <= offset <= |source|
        invariant SkipWhitespace(source[offset..]) == SkipWhitespace(source[old(offset)..])
      {
        assert source[offset..][1..] == source[offset + 1..];
        offset := offset + 1;
      }
    }

    method ReadString() returns (r: Option<seq<nat>>)
      requires offset <= |source|
      modifies this
      ensures var scanned := ScanString(source[old(offset)..]);
              match r
              case None => scanned.None?
              case Some(key) =>
                old(offset) < offset <= |source| && scanned == Some((key, source[offset..]))
    {
      var start := offset;
      ghost var text := source[start..];
      if !(offset < |source| && source[offset] == '"') {
        return None;
      }
      offset := offset + 1;
      while offset < |source|
        invariant start < offset
        invariant StringEnd(text, 1) == StringEnd(text, offset - start)
        decreases |source| - offset
      {
        assert text[offset - start] == source[offset];
        if source[offset] == '\\' {
          offset := offset + 2;
        } else if source[offset] == '"' {
          offset := offset + 1;
          assert source[start..offset] == text[..offset - start] && text[offset - start..] == source[offset..];
          return Decode(source[start..offset]);
        } else {
          offset := offset + 1;
        }
      }
      return None;
    }

    predicate At(c: char)
      reads this
    {
      offset < |source| && source[offset] == c
    }

    method ReadAtom()
      requires offset <= |source|
      modifies this
      ensures old(offset) <= offset <= |source| && source[offset..] == SkipAtom(source[old(offset)..])
    {
      while offset < |source| && !EndsAtom(source[offset])
        invariant old(offset) <= offset <= |source|
        invariant SkipAtom(source[offset..]) == SkipAtom(source[old(offset)..])
      {
        assert source[offset..][1..] == source[offset + 1..];
        offset := offset + 1;
      }
    }

    method Advance()
      requires offset < |source|
      modifies this
      ensures offset == old(offset) + 1 && source[offset..] == source[old(offset)..][1..]
    {
      offset := offset + 1;
    }

    method ReadKey(keys: set<seq<nat>>) returns (r: Option<seq<nat>>)
      requires offset <= |source|
      modifies this
      ensures var scanned := ScanKey(source[old(offset)..], keys);
              match r
              case None => scanned.None?
              case Some(key) => old(offset) < offset <= |source| && scanned == Some((key, source[offset..]))
    {
      Whitespace();
      var key := ReadString();
      if key.None? || key.value in keys {
        return None;
      }
      Whitespace();
      if !At(':') {
        return None;
      }
      Advance();
      return key;
    }

    /** The members of an object, from the first key on. */
    method ReadMembers(depth: nat) returns (ok: bool)
      requires offset <= |source|
      modifies this
      ensures var r := ScanMembers(source[old(offset)..], depth, {});
              if ok then old(offset) < offset <= |source| && r == Some(source[offset..]) else r.None?
      decreases |source| - offset, 0
    {
      var keys: set<seq<nat>> := {};
      ghost var start := offset;
      ghost var whole := ScanMembers(source[start..], depth, {});
      while true
        invariant start <= offset <= |source|
        invariant whole == ScanMembers(source[offset..], depth, keys)
        decreases |source| - offset
      {
        var key := ReadKey(keys);
        if key.None? {
          return false;
        }
        ok := ReadValue(depth + 1);
        if !ok {
          return false;
        }
        Whitespace();
        if At('}') {
          Advance();
          return true;
        }
        if !At(',') {
          return false;
        }
        Advance();
        keys := keys + {key.value};
      }
    }

    /** The elements of an array, from the first on. */
    method ReadItems(depth: nat) returns (ok: bool)
      requires offset <= |source|
      modifies this
      ensures var r := ScanItems(source[old(offset)..], depth);
              if ok then old(offset) < offset <= |source| && r == Some(source[offset..]) else r.None?
      decreases |source| - offset, 2
    {
      ghost var start := offset;
      ghost var whole := ScanItems(source[start..], depth);
      while true
        invariant start <= offset <= |source|
        invariant whole == ScanItems(source[offset..], depth)
        decreases |source| - offset
      {
        ok := ReadValue(depth + 1);
        if !ok {
          return false;
        }
        Whitespace();
        if At(']') {
          Advance();
          return true;
        }
        if !At(',') {
          return false;
        }
        Advance();
      }
    }

    method ReadObject(depth: nat) returns (ok: bool)
      requires At('{')
      modifies this
      ensures var r := ScanObject(source[old(offset)..], depth);
              if ok then old(offset) < offset <= |source| && r == Some(source[offset..]) else r.None?
      decreases |source| - offset, 0
    {
      if depth >= MAX_JSON_DEPTH {
        return false;
      }
      Advance();
      Whitespace();
      if At('}') {
        Advance();
        return true;
      }
      ok := ReadMembers(depth);
    }

    method ReadArray(depth: nat) returns (ok: bool)
      requires At('[')
      modifies this
      ensures var r := ScanArray(source[old(offset)..], depth);
              if ok then old(offset) < offset <= |source| && r == Some(source[offset..]) else r.None?
      decreases |source| - offset, 0
    {
      if depth >= MAX_JSON_DEPTH {
        return false;
      }
      Advance();
      Whitespace();
      if At(']') {
        Advance();
        return true;
      }
      ok := ReadItems(depth);
    }

    method ReadValue(depth: nat) returns (ok: bool)
      requires offset <= |source|
      modifies this
      ensures var r := ScanValue(source[old(offset)..], depth);
              if ok then old(offset) < offset <= |source| && r == Some(source[offset..]) else r.None?
      decreases |source| - offset, 1
    {
      Whitespace();
      if offset == |source| {
        return false;
      }
      if At('{') {
        ok := ReadObject(depth);
      } else if At('[') {
        ok := ReadArray(depth);
      } else if At('"') {
        var key := ReadString();
        ok := key.Some?;
      } else {
        var start := offset;
        ReadAtom();
        ok := start != offset;
      }
    }

    method Scan() returns (ok: bool)
      requires offset == 0
      modifies this
      ensures ok <==> Accepts(source)
    {
      assert source[0..] == source;
      ok := ReadValue(0);
      if ok {
        Whitespace();
        ok := offset == |source|;
      }
    }
  }
}
