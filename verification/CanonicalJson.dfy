/**
 Restricted canonical JSON: objects sorted by key, safe integers only, compact
 text. Strings are modelled as their UTF-8 bytes, one character per byte.
 */
module CanonicalJson {
  const MAX_SAFE: int := 9007199254740991

  /**
   Whole numbers fit 64 bits in the source; anything with a fraction, an exponent or a negative zero is
   `Fraction`.
   */
  datatype Number = Whole(n: int) | Fraction(text: string)

  datatype Value = Null | Bool(b: bool) | Num(number: Number) | Str(s: string)
      | Arr(items: Values) | Obj(entries: Entries)

  datatype Values = NoValues | Values(head: Value, tail: Values)

  datatype Entries = NoEntries | Entry(key: string, value: Value, rest: Entries)

  // ---------- key order ----------

  predicate Less(a: string, b: string) {
    b != "" && (a == "" || a[0] < b[0] || (a[0] == b[0] && Less(a[1..], b[1..])))
  }

  lemma {:induction false} LessIsTotal(a: string, b: string)
    ensures a == b || Less(a, b) || Less(b, a)
  {
    if a != "" && b != "" && a[0] == b[0] {
      LessIsTotal(a[1..], b[1..]);
      assert a == [a[0]] + a[1..] && b == [b[0]] + b[1..];
    }
  }

  lemma {:induction false} LessIsStrict(a: string, b: string)
    requires Less(a, b)
    ensures a != b && !Less(b, a)
  {
    if a != "" && a[0] == b[0] {
      LessIsStrict(a[1..], b[1..]);
    }
  }

  lemma {:induction false} LessComposes(a: string, b: string, c: string)
    requires Less(a, b) && Less(b, c)
    ensures Less(a, c)
  {
    if a != "" && a[0] == b[0] == c[0] {
      LessComposes(a[1..], b[1..], c[1..]);
    }
  }

  // ---------- the canonical value ----------

  /** Inserts into an ascending list, replacing an equal key. */
  function Insert(key: string, value: Value, sorted: Entries): Entries {
    match sorted
    case NoEntries => Entry(key, value, NoEntries)
    case Entry(k, v, rest) =>
      if Less(key, k) then Entry(key, value, sorted)
      else if key == k then Entry(key, value, rest)
      else Entry(k, v, Insert(key, value, rest))
  }

  function Canonical(v: Value): Value {
    match v
    case Arr(items) => Arr(CanonicalValues(items))
    case Obj(entries) => Obj(CanonicalEntries(entries))
    case primitive => primitive
  }

  function CanonicalValues(items: Values): Values {
    match items
    case NoValues => NoValues
    case Values(head, tail) => Values(Canonical(head), CanonicalValues(tail))
  }

  /** The ordered map of the entries with canonical values. */
  function CanonicalEntries(entries: Entries): Entries {
    match entries
    case NoEntries => NoEntries
    case Entry(key, value, rest) => Insert(key, Canonical(value), CanonicalEntries(rest))
  }

  predicate SafeNumber(n: Number) {
    n.Whole? && -MAX_SAFE <= n.n <= MAX_SAFE
  }

  /** Every number at every depth is a safe integer. */
  predicate Safe(v: Value) {
    match v
    case Num(number) => SafeNumber(number)
    case Arr(items) => SafeValues(items)
    case Obj(entries) => SafeEntries(entries)
    case _ => true
  }

  predicate SafeValues(items: Values) {
    items.Values? ==> Safe(items.head) && SafeValues(items.tail)
  }

  predicate SafeEntries(entries: Entries) {
    entries.Entry? ==> Safe(entries.value) && SafeEntries(entries.rest)
  }

  // ---------- objects as maps ----------

  predicate Has(entries: Entries, key: string) {
    entries.Entry? && (entries.key == key || Has(entries.rest, key))
  }

  function Get(entries: Entries, key: string): (v: Value)
    requires Has(entries, key)
    ensures Size(v) < EntriesSize(entries)
  {
    if entries.key == key then entries.value else Get(entries.rest, key)
  }

  function Size(v: Value): nat {
    match v
    case Arr(items) => 1 + ValuesSize(items)
    case Obj(entries) => 1 + EntriesSize(entries)
    case _ => 1
  }

  function ValuesSize(items: Values): nat {
    if items.NoValues? then 0 else Size(items.head) + ValuesSize(items.tail) + 1
  }

  function EntriesSize(entries: Entries): nat {
    if entries.NoEntries? then 0 else Size(entries.value) + EntriesSize(entries.rest) + 1
  }

  /** Objects do not repeat keys, as their map type guarantees. */
  predicate Keyed(v: Value) {
    match v
    case Arr(items) => KeyedValues(items)
    case Obj(entries) => KeyedEntries(entries)
    case _ => true
  }

  predicate KeyedValues(items: Values) {
    items.Values? ==> Keyed(items.head) && KeyedValues(items.tail)
  }

  predicate KeyedEntries(entries: Entries) {
    entries.Entry? ==> !Has(entries.rest, entries.key) && Keyed(entries.value) && KeyedEntries(entries.rest)
  }

  /** Equal up to the order of object keys, at every depth. */
  ghost predicate Same(a: Value, b: Value)
    decreases Size(a)
  {
    match (a, b)
    case (Arr(x), Arr(y)) => SameValues(x, y)
    case (Obj(x), Obj(y)) =>
      && (forall k :: Has(x, k) <==> Has(y, k))
      && (forall k :: Has(x, k) && Has(y, k) ==> Same(Get(x, k), Get(y, k)))
    case _ => a == b
  }

  ghost predicate SameValues(x: Values, y: Values)
    decreases ValuesSize(x)
  {
    match (x, y)
    case (Values(a, s), Values(b, t)) => Same(a, b) && SameValues(s, t)
    case _ => x == y
  }

  // ---------- sorted entries ----------

  /** Every key is greater than `key`. */
  predicate Above(key: string, entries: Entries) {
    entries.Entry? ==> Less(key, entries.key) && Above(key, entries.rest)
  }

  predicate Ascending(entries: Entries) {
    entries.Entry? ==> Above(entries.key, entries.rest) && Ascending(entries.rest)
  }

  lemma {:induction false} AboveHasNot(key: string, entries: Entries, k: string)
    requires Above(key, entries) && Has(entries, k)
    ensures Less(key, k) && k != key
  {
    LessIsStrict(key, entries.key);
    if entries.key != k {
      AboveHasNot(key, entries.rest, k);
    }
  }

  lemma {:induction false} AboveComposes(a: string, b: string, entries: Entries)
    requires Less(a, b) && Above(b, entries)
    ensures Above(a, entries)
  {
    if entries.Entry? {
      LessComposes(a, b, entries.key);
      AboveComposes(a, b, entries.rest);
    }
  }

  lemma {:induction false} InsertAbove(low: string, key: string, value: Value, sorted: Entries)
    requires Above(low, sorted) && Less(low, key)
    ensures Above(low, Insert(key, value, sorted))
  {
    if sorted.Entry? && !Less(key, sorted.key) && key != sorted.key {
      InsertAbove(low, key, value, sorted.rest);
    }
  }

  lemma {:induction false} InsertAscends(key: string, value: Value, sorted: Entries)
    requires Ascending(sorted)
    ensures Ascending(Insert(key, value, sorted))
  {
    if sorted.Entry? {
      LessIsTotal(key, sorted.key);
      if Less(key, sorted.key) {
        AboveComposes(key, sorted.key, sorted.rest);
      } else if key != sorted.key {
        InsertAscends(key, value, sorted.rest);
        InsertAbove(sorted.key, key, value, sorted.rest);
      }
    }
  }

  lemma {:induction false} InsertLooksUp(key: string, value: Value, sorted: Entries, k: string)
    requires Ascending(sorted)
    ensures var after := Insert(key, value, sorted);
            && (Has(after, k) <==> k == key || Has(sorted, k))
            && (Has(after, k) ==> Get(after, k) == if k == key then value else Get(sorted, k))
  {
    if sorted.Entry? && !Less(key, sorted.key) && key != sorted.key {
      InsertLooksUp(key, value, sorted.rest, k);
    }
  }

  /** Two ascending lists that look up alike are equal. */
  lemma {:induction false} AscendingIsUnique(x: Entries, y: Entries)
    requires Ascending(x) && Ascending(y)
    requires forall k :: Has(x, k) <==> Has(y, k)
    requires forall k :: Has(x, k) && Has(y, k) ==> Get(x, k) == Get(y, k)
    ensures x == y
  {
    if x.NoEntries? {
      assert y.Entry? ==> Has(y, y.key);
    } else {
      assert Has(x, x.key);
      assert Has(y, y.key);
      HeadsAgree(x, y);
      forall k ensures Has(x.rest, k) <==> Has(y.rest, k) {
        RestHas(x, k);
        RestHas(y, k);
      }
      forall k | Has(x.rest, k) && Has(y.rest, k) ensures Get(x.rest, k) == Get(y.rest, k) {
        RestHas(x, k);
        assert Get(x, k) == Get(y, k);
      }
      AscendingIsUnique(x.rest, y.rest);
    }
  }

  lemma RestHas(x: Entries, k: string)
    requires x.Entry? && Ascending(x)
    ensures Has(x.rest, k) <==> Has(x, k) && k != x.key
  {
    if Has(x.rest, k) {
      AboveHasNot(x.key, x.rest, k);
    }
  }

  lemma HeadsAgree(x: Entries, y: Entries)
    requires x.Entry? && y.Entry? && Ascending(x) && Ascending(y)
    requires Has(x, y.key) && Has(y, x.key)
    ensures x.key == y.key
  {
    if x.key != y.key {
      AboveHasNot(x.key, x.rest, y.key);
      AboveHasNot(y.key, y.rest, x.key);
      LessIsStrict(x.key, y.key);
    }
  }

  // ---------- canonical values are a normal form ----------

  predicate Sorted(v: Value) {
    match v
    case Arr(items) => SortedValues(items)
    case Obj(entries) => Ascending(entries) && SortedEntries(entries)
    case _ => true
  }

  predicate SortedValues(items: Values) {
    items.Values? ==> Sorted(items.head) && SortedValues(items.tail)
  }

  predicate SortedEntries(entries: Entries) {
    entries.Entry? ==> Sorted(entries.value) && SortedEntries(entries.rest)
  }

  lemma {:induction false} CanonicalEntriesAscend(entries: Entries)
    ensures Ascending(CanonicalEntries(entries))
  {
    if entries.Entry? {
      CanonicalEntriesAscend(entries.rest);
      InsertAscends(entries.key, Canonical(entries.value), CanonicalEntries(entries.rest));
    }
  }

  lemma {:induction false} InsertSorted(key: string, value: Value, sorted: Entries)
    requires Sorted(value) && SortedEntries(sorted)
    ensures SortedEntries(Insert(key, value, sorted))
  {
    if sorted.Entry? {
      InsertSorted(key, value, sorted.rest);
    }
  }

  /** Keys of every object in the canonical value are strictly ascending in byte order. */
  lemma {:induction false} CanonicalIsSorted(v: Value)
    ensures Sorted(Canonical(v))
    decreases v
  {
    match v
    case Arr(items) => CanonicalValuesSorted(items);
    case Obj(entries) =>
      CanonicalEntriesAscend(entries);
      CanonicalEntriesSorted(entries);
    case _ =>
  }

  lemma {:induction false} CanonicalValuesSorted(items: Values)
    ensures SortedValues(CanonicalValues(items))
    decreases items
  {
    if items.Values? {
      CanonicalIsSorted(items.head);
      CanonicalValuesSorted(items.tail);
    }
  }

  lemma {:induction false} CanonicalEntriesSorted(entries: Entries)
    ensures SortedEntries(CanonicalEntries(entries))
    decreases entries
  {
    if entries.Entry? {
      CanonicalIsSorted(entries.value);
      CanonicalEntriesSorted(entries.rest);
      InsertSorted(entries.key, Canonical(entries.value), CanonicalEntries(entries.rest));
    }
  }

  lemma InsertInFront(key: string, value: Value, sorted: Entries)
    requires Above(key, sorted)
    ensures Insert(key, value, sorted) == Entry(key, value, sorted)
  {
  }

  lemma {:induction false} SortedIsFixed(v: Value)
    requires Sorted(v)
    ensures Canonical(v) == v
    decreases v
  {
    match v
    case Arr(items) => SortedValuesFixed(items);
    case Obj(entries) => SortedEntriesFixed(entries);
    case _ =>
  }

  lemma {:induction false} SortedValuesFixed(items: Values)
    requires SortedValues(items)
    ensures CanonicalValues(items) == items
    decreases items
  {
    if items.Values? {
      SortedIsFixed(items.head);
      SortedValuesFixed(items.tail);
    }
  }

  lemma {:induction false} SortedEntriesFixed(entries: Entries)
    requires Ascending(entries) && SortedEntries(entries)
    ensures CanonicalEntries(entries) == entries
    decreases entries
  {
    if entries.Entry? {
      SortedIsFixed(entries.value);
      SortedEntriesFixed(entries.rest);
      InsertInFront(entries.key, entries.value, entries.rest);
    }
  }

  lemma CanonicalIsIdempotent(v: Value)
    ensures Canonical(Canonical(v)) == Canonical(v)
  {
    CanonicalIsSorted(v);
    SortedIsFixed(Canonical(v));
  }

  // ---------- equal up to key order means equal canonical values ----------

  lemma {:induction false} CanonicalLooksUp(entries: Entries, k: string)
    requires KeyedEntries(entries)
    ensures Has(CanonicalEntries(entries), k) <==> Has(entries, k)
    ensures Has(entries, k) ==> Get(CanonicalEntries(entries), k) == Canonical(Get(entries, k))
  {
    if entries.Entry? {
      CanonicalLooksUp(entries.rest, k);
      CanonicalEntriesAscend(entries.rest);
      InsertLooksUp(entries.key, Canonical(entries.value), CanonicalEntries(entries.rest), k);
    }
  }

  lemma {:induction false} KeyedGet(entries: Entries, k: string)
    requires KeyedEntries(entries) && Has(entries, k)
    ensures Keyed(Get(entries, k))
  {
    if entries.key != k {
      KeyedGet(entries.rest, k);
    }
  }

  lemma {:induction false} SameExactly(a: Value, b: Value)
    requires Keyed(a) && Keyed(b)
    ensures Same(a, b) <==> Canonical(a) == Canonical(b)
    decreases Size(a)
  {
    match (a, b)
    case (Arr(x), Arr(y)) => SameValuesExactly(x, y);
    case (Obj(x), Obj(y)) => SameObjectsExactly(x, y);
    case _ =>
  }

  lemma {:induction false} SameValuesExactly(x: Values, y: Values)
    requires KeyedValues(x) && KeyedValues(y)
    ensures SameValues(x, y) <==> CanonicalValues(x) == CanonicalValues(y)
    decreases ValuesSize(x)
  {
    if x.Values? && y.Values? {
      SameExactly(x.head, y.head);
      SameValuesExactly(x.tail, y.tail);
    }
  }

  lemma {:induction false} SameObjectsExactly(x: Entries, y: Entries)
    requires KeyedEntries(x) && KeyedEntries(y)
    ensures Same(Obj(x), Obj(y)) <==> CanonicalEntries(x) == CanonicalEntries(y)
    decreases EntriesSize(x)
  {
    var cx, cy := CanonicalEntries(x), CanonicalEntries(y);
    forall k ensures (Has(cx, k) <==> Has(x, k)) && (Has(cy, k) <==> Has(y, k)) {
      CanonicalLooksUp(x, k);
      CanonicalLooksUp(y, k);
    }
    forall k | Has(x, k) && Has(y, k) ensures Same(Get(x, k), Get(y, k)) <==> Get(cx, k) == Get(cy, k) {
      CanonicalLooksUp(x, k);
      CanonicalLooksUp(y, k);
      KeyedGet(x, k);
      KeyedGet(y, k);
      SameExactly(Get(x, k), Get(y, k));
    }
    if Same(Obj(x), Obj(y)) {
      CanonicalEntriesAscend(x);
      CanonicalEntriesAscend(y);
      AscendingIsUnique(cx, cy);
    }
  }
}
