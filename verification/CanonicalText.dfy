/**
 The compact text of canonical JSON, and the theorem it exists for: two values
 have the same canonical text exactly when they are equal up to key order.
 */
module CanonicalText {
  import opened Common
  import opened CanonicalJson

  // ---------- scalars ----------

  function Digit(d: nat): char
    requires d < 10
  {
    ('0' as int + d) as char
  }

  function Digits(n: nat): string {
    if n < 10 then [Digit(n)] else Digits(n / 10) + [Digit(n % 10)]
  }

  function Decimal(n: int): string {
    if n < 0 then "-" + Digits(-n) else Digits(n)
  }

  function HexDigit(d: nat): char
    requires d < 16
  {
    if d < 10 then ('0' as int + d) as char else ('a' as int + d - 10) as char
  }

  function Escape(c: char): string {
    match c
    case '"' => ['\\', '"']
    case '\\' => ['\\', '\\']
    case '\n' => ['\\', 'n']
    case '\r' => ['\\', 'r']
    case '\t' => ['\\', 't']
    case _ =>
      var code := c as int;
      if code == 8 then ['\\', 'b']
      else if code == 12 then ['\\', 'f']
      else if code < 32 then ['\\', 'u', '0', '0', HexDigit(code / 16), HexDigit(code % 16)]
      else [c]
  }

  /** The escaped characters of `a`, followed by `s`. */
  function Escaped(a: string, s: string): string {
    if a == "" then s else Escape(a[0]) + Escaped(a[1..], s)
  }

  function Quoted(a: string, s: string): string {
    "\"" + Escaped(a, "\"" + s)
  }

  // ---------- values, followed by `s` ----------

  function Text(v: Value, s: string): string {
    match v
    case Null => "null" + s
    case Bool(b) => (if b then "true" else "false") + s
    case Num(Whole(n)) => Decimal(n) + s
    case Num(Fraction(text)) => text + s
    case Str(a) => Quoted(a, s)
    case Arr(items) => "[" + ValuesText(items, "]" + s)
    case Obj(entries) => "{" + EntriesText(entries, "}" + s)
  }

  function ValuesText(items: Values, s: string): string {
    match items
    case NoValues => s
    case Values(head, tail) => Text(head, if tail.NoValues? then s else "," + ValuesText(tail, s))
  }

  function EntriesText(entries: Entries, s: string): string {
    match entries
    case NoEntries => s
    case Entry(key, value, rest) =>
      Quoted(key, ":" + Text(value, if rest.NoEntries? then s else "," + EntriesText(rest, s)))
  }

  /** The canonical text, refused when any number is not a safe integer. */
  function Canonicalize(v: Value): Option<string> {
    if Safe(v) then Some(Text(Canonical(v), "")) else None
  }

  // ---------- decimal numbers are unambiguous ----------

  predicate IsDigit(c: char) {
    '0' <= c <= '9'
  }

  predicate AllDigits(a: string) {
    forall i :: 0 <= i < |a| ==> IsDigit(a[i])
  }

  predicate NoDigitAhead(s: string) {
    s != "" ==> !IsDigit(s[0])
  }

  function ValueOf(a: string): int {
    if a == "" then 0 else ValueOf(a[..|a| - 1]) * 10 + (a[|a| - 1] as int - '0' as int)
  }

  lemma {:induction false} DigitsReadBack(n: nat)
    ensures Digits(n) != "" && AllDigits(Digits(n)) && ValueOf(Digits(n)) == n
  {
    if n < 10 {
      assert Digits(n)[..0] == "";
    } else {
      DigitsReadBack(n / 10);
      assert Digits(n)[..|Digits(n)| - 1] == Digits(n / 10);
    }
  }

  lemma {:induction false} DigitRunIsUnique(a: string, b: string, s: string, t: string)
    requires AllDigits(a) && AllDigits(b) && NoDigitAhead(s) && NoDigitAhead(t) && a + s == b + t
    ensures a == b && s == t
  {
    assert a == "" ==> a + s == s;
    assert b == "" ==> b + t == t;
    assert a != "" ==> (a + s)[0] == a[0];
    assert b != "" ==> (b + t)[0] == b[0];
    if a != "" && b != "" {
      assert (a + s)[1..] == a[1..] + s && (b + t)[1..] == b[1..] + t;
      DigitRunIsUnique(a[1..], b[1..], s, t);
      assert a == [a[0]] + a[1..] && b == [b[0]] + b[1..];
    }
  }

  lemma DigitsAreUnique(m: nat, n: nat, s: string, t: string)
    requires NoDigitAhead(s) && NoDigitAhead(t) && Digits(m) + s == Digits(n) + t
    ensures m == n && s == t
  {
    DigitsReadBack(m);
    DigitsReadBack(n);
    DigitRunIsUnique(Digits(m), Digits(n), s, t);
  }

  lemma Signed(a: string, s: string)
    ensures ("-" + a + s)[0] == '-' && ("-" + a + s)[1..] == a + s
  {
  }

  lemma Unsigned(a: string, s: string)
    requires a != "" && AllDigits(a)
    ensures (a + s)[0] == a[0] && (a + s)[0] != '-'
  {
  }

  lemma SignIsVisible(n: int, s: string)
    ensures Decimal(n) + s != "" && ((Decimal(n) + s)[0] == '-' <==> n < 0)
    ensures n < 0 ==> (Decimal(n) + s)[1..] == Digits(-n) + s
  {
    if n < 0 {
      Signed(Digits(-n), s);
    } else {
      DigitsReadBack(n);
      Unsigned(Digits(n), s);
    }
  }

  lemma DecimalIsUnique(m: int, n: int, s: string, t: string)
    requires NoDigitAhead(s) && NoDigitAhead(t) && Decimal(m) + s == Decimal(n) + t
    ensures m == n && s == t
  {
    SignIsVisible(m, s);
    SignIsVisible(n, t);
    if m < 0 {
      DigitsAreUnique(-m, -n, s, t);
    } else {
      DigitsAreUnique(m, n, s, t);
    }
  }

  // ---------- strings are unambiguous ----------

  lemma EscapeIsUnique(c: char, d: char, s: string, t: string)
    requires Escape(c) + s == Escape(d) + t
    ensures c == d && s == t
  {
    var x, y := Escape(c), Escape(d);
    assert (x + s)[0] == x[0] && (y + t)[0] == y[0];
    if |x| > 1 && |y| > 1 {
      assert (x + s)[1] == x[1] && (y + t)[1] == y[1];
      if |x| == 6 && |y| == 6 {
        assert (x + s)[4] == x[4] && (y + t)[4] == y[4];
        assert (x + s)[5] == x[5] && (y + t)[5] == y[5];
      }
    }
    assert |x| == |y|;
    assert (x + s)[|x|..] == s && (y + t)[|y|..] == t;
  }

  lemma EscapeIsNoQuote(c: char, s: string)
    ensures Escape(c) + s != "" && (Escape(c) + s)[0] != '"'
  {
  }

  lemma {:induction false} EscapedIsUnique(a: string, b: string, s: string, t: string)
    requires Escaped(a, "\"" + s) == Escaped(b, "\"" + t)
    ensures a == b && s == t
  {
    if a == "" && b == "" {
      assert ("\"" + s)[1..] == s && ("\"" + t)[1..] == t;
    } else if a == "" {
      EscapeIsNoQuote(b[0], Escaped(b[1..], "\"" + t));
      assert false;
    } else if b == "" {
      EscapeIsNoQuote(a[0], Escaped(a[1..], "\"" + s));
      assert false;
    } else {
      EscapeIsUnique(a[0], b[0], Escaped(a[1..], "\"" + s), Escaped(b[1..], "\"" + t));
      EscapedIsUnique(a[1..], b[1..], s, t);
      assert a == [a[0]] + a[1..] && b == [b[0]] + b[1..];
    }
  }

  lemma QuotedIsUnique(a: string, b: string, s: string, t: string)
    requires Quoted(a, s) == Quoted(b, t)
    ensures a == b && s == t
  {
    assert Quoted(a, s)[1..] == Escaped(a, "\"" + s) && Quoted(b, t)[1..] == Escaped(b, "\"" + t);
    EscapedIsUnique(a, b, s, t);
  }

  // ---------- whole texts are unambiguous ----------

  /** What may follow a value. */
  predicate Closed(s: string) {
    s != "" ==> s[0] == ',' || s[0] == ']' || s[0] == '}'
  }

  datatype Kind = NullKind | BoolKind | NumKind | StrKind | ArrKind | ObjKind

  function KindOf(v: Value): Kind {
    match v
    case Null => NullKind
    case Bool(_) => BoolKind
    case Num(_) => NumKind
    case Str(_) => StrKind
    case Arr(_) => ArrKind
    case Obj(_) => ObjKind
  }

  function KindAt(c: char): Kind {
    match c
    case 'n' => NullKind
    case 't' => BoolKind
    case 'f' => BoolKind
    case '"' => StrKind
    case '[' => ArrKind
    case '{' => ObjKind
    case _ => NumKind
  }

  /** The first character tells the kind of value. */
  lemma TextHead(v: Value, s: string)
    requires Safe(v)
    ensures Text(v, s) != "" && KindAt(Text(v, s)[0]) == KindOf(v) && Text(v, s)[0] != ']' && Text(v, s)[0] != '}'
  {
    if v.Num? {
      DigitsReadBack(if v.number.n < 0 then -v.number.n else v.number.n);
    }
  }

  lemma ScalarIsUnique(a: Value, b: Value, s: string, t: string)
    requires KindOf(a) == KindOf(b) && !a.Arr? && !a.Obj? && Safe(a) && Safe(b)
    requires Closed(s) && Closed(t) && Text(a, s) == Text(b, t)
    ensures a == b && s == t
  {
    match a
    case Null => assert Text(a, s)[4..] == s && Text(b, t)[4..] == t;
    case Bool(x) =>
      assert Text(a, s)[0] == if x then 't' else 'f';
      assert Text(b, t)[0] == if b.b then 't' else 'f';
      var n := if x then 4 else 5;
      assert Text(a, s)[n..] == s && Text(b, t)[n..] == t;
    case Num(_) => DecimalIsUnique(a.number.n, b.number.n, s, t);
    case Str(_) => QuotedIsUnique(a.s, b.s, s, t);
  }

  lemma {:induction false} TextIsUnique(a: Value, b: Value, s: string, t: string)
    requires Safe(a) && Safe(b) && Closed(s) && Closed(t) && Text(a, s) == Text(b, t)
    ensures a == b && s == t
    decreases a
  {
    TextHead(a, s);
    TextHead(b, t);
    if a.Arr? {
      assert Text(a, s)[1..] == ValuesText(a.items, "]" + s) && Text(b, t)[1..] == ValuesText(b.items, "]" + t);
      ValuesTextIsUnique(a.items, b.items, s, t);
    } else if a.Obj? {
      assert Text(a, s)[1..] == EntriesText(a.entries, "}" + s) && Text(b, t)[1..] == EntriesText(b.entries, "}" + t);
      EntriesTextIsUnique(a.entries, b.entries, s, t);
    } else {
      ScalarIsUnique(a, b, s, t);
    }
  }

  lemma {:induction false} ValuesTextIsUnique(x: Values, y: Values, s: string, t: string)
    requires SafeValues(x) && SafeValues(y) && ValuesText(x, "]" + s) == ValuesText(y, "]" + t)
    ensures x == y && s == t
    decreases x
  {
    assert ("]" + s)[1..] == s && ("]" + t)[1..] == t;
    if x.Values? && y.Values? {
      var xs := if x.tail.NoValues? then "]" + s else "," + ValuesText(x.tail, "]" + s);
      var ys := if y.tail.NoValues? then "]" + t else "," + ValuesText(y.tail, "]" + t);
      TextIsUnique(x.head, y.head, xs, ys);
      assert xs[0] == ys[0];
      assert x.tail.Values? ==> xs[1..] == ValuesText(x.tail, "]" + s) && ys[1..] == ValuesText(y.tail, "]" + t);
      ValuesTextIsUnique(x.tail, y.tail, s, t);
    } else if x.Values? {
      TextHead(x.head, if x.tail.NoValues? then "]" + s else "," + ValuesText(x.tail, "]" + s));
    } else if y.Values? {
      TextHead(y.head, if y.tail.NoValues? then "]" + t else "," + ValuesText(y.tail, "]" + t));
    }
  }

  lemma {:induction false} EntriesTextIsUnique(x: Entries, y: Entries, s: string, t: string)
    requires SafeEntries(x) && SafeEntries(y) && EntriesText(x, "}" + s) == EntriesText(y, "}" + t)
    ensures x == y && s == t
    decreases x
  {
    assert ("}" + s)[1..] == s && ("}" + t)[1..] == t;
    if x.Entry? && y.Entry? {
      var xs := if x.rest.NoEntries? then "}" + s else "," + EntriesText(x.rest, "}" + s);
      var ys := if y.rest.NoEntries? then "}" + t else "," + EntriesText(y.rest, "}" + t);
      QuotedIsUnique(x.key, y.key, ":" + Text(x.value, xs), ":" + Text(y.value, ys));
      assert (":" + Text(x.value, xs))[1..] == Text(x.value, xs) && (":" + Text(y.value, ys))[1..] == Text(y.value, ys);
      TextIsUnique(x.value, y.value, xs, ys);
      assert xs[0] == ys[0];
      assert x.rest.Entry? ==> xs[1..] == EntriesText(x.rest, "}" + s) && ys[1..] == EntriesText(y.rest, "}" + t);
      EntriesTextIsUnique(x.rest, y.rest, s, t);
    }
  }

  // ---------- canonicalization ----------

  lemma {:induction false} SafeInsert(key: string, value: Value, sorted: Entries)
    requires Safe(value) && SafeEntries(sorted)
    ensures SafeEntries(Insert(key, value, sorted))
  {
    if sorted.Entry? {
      SafeInsert(key, value, sorted.rest);
    }
  }

  lemma {:induction false} CanonicalIsSafe(v: Value)
    requires Safe(v)
    ensures Safe(Canonical(v))
    decreases v
  {
    match v
    case Arr(items) => CanonicalValuesSafe(items);
    case Obj(entries) => CanonicalEntriesSafe(entries);
    case _ =>
  }

  lemma {:induction false} CanonicalValuesSafe(items: Values)
    requires SafeValues(items)
    ensures SafeValues(CanonicalValues(items))
    decreases items
  {
    if items.Values? {
      CanonicalIsSafe(items.head);
      CanonicalValuesSafe(items.tail);
    }
  }

  lemma {:induction false} CanonicalEntriesSafe(entries: Entries)
    requires SafeEntries(entries)
    ensures SafeEntries(CanonicalEntries(entries))
    decreases entries
  {
    if entries.Entry? {
      CanonicalIsSafe(entries.value);
      CanonicalEntriesSafe(entries.rest);
      SafeInsert(entries.key, Canonical(entries.value), CanonicalEntries(entries.rest));
    }
  }

  /** Two safe values have the same canonical text exactly when they are equal up to key order at every depth. */
  lemma SameTextExactly(a: Value, b: Value)
    requires Keyed(a) && Keyed(b) && Safe(a) && Safe(b)
    ensures Canonicalize(a) == Canonicalize(b) <==> Same(a, b)
  {
    SameExactly(a, b);
    CanonicalIsSafe(a);
    CanonicalIsSafe(b);
    if Text(Canonical(a), "") == Text(Canonical(b), "") {
      TextIsUnique(Canonical(a), Canonical(b), "", "");
    }
  }

  /** Canonicalizing a canonical value gives the same text again. */
  lemma CanonicalTextIsStable(v: Value)
    requires Safe(v)
    ensures Canonicalize(Canonical(v)) == Canonicalize(v)
  {
    CanonicalIsSafe(v);
    CanonicalIsIdempotent(v);
  }
}
