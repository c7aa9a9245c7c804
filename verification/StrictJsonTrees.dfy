/**
 JSON trees with ordered, possibly repeated keys and arbitrary whitespace, and
 the exact set of their renderings that the scanner accepts.
 */
module StrictJsonTrees {
  import opened Common
  import opened StrictJson

  /** Scalars other than strings are kept as their text, as the scanner does not look inside them. */
  datatype Tree =
    | Atom(text: string)
    | Str(literal: string)
    | Arr(pad: string, items: Items)
    | Obj(pad: string, members: Members)

  datatype Items = NoItems | Item(before: string, value: Tree, after: string, rest: Items)

  datatype Members = NoMembers
      | Member(before: string, key: string, gap: string, lead: string, value: Tree, after: string, rest: Members)

  // ---------- rendering, followed by the text `s` ----------

  function Text(t: Tree, s: string): string {
    match t
    case Atom(text) => text + s
    case Str(literal) => literal + s
    case Arr(pad, items) => "[" + (if items.NoItems? then pad + ("]" + s) else ItemsText(items, "]" + s))
    case Obj(pad, members) => "{" + (if members.NoMembers? then pad + ("}" + s) else MembersText(members, "}" + s))
  }

  function ItemsText(items: Items, s: string): string {
    match items
    case NoItems => s
    case Item(before, value, after, rest) =>
      before + Text(value, after + (if rest.NoItems? then s else "," + ItemsText(rest, s)))
  }

  function MembersText(members: Members, s: string): string {
    match members
    case NoMembers => s
    case Member(before, key, gap, lead, value, after, rest) =>
      before + (key + (gap + (":" + (lead + Text(value, after +
        (if rest.NoMembers? then s else "," + MembersText(rest, s)))))))
  }

  // ---------- which trees are JSON-shaped ----------

  predicate Blank(w: string) {
    forall i :: 0 <= i < |w| ==> IsWhitespace(w[i])
  }

  predicate Literal(s: string) {
    |s| >= 2 && s[0] == '"' && StringEnd(s, 1) == Some(|s|) && Decode(s).Some?
  }

  predicate AtomText(s: string) {
    && s != "" && s[0] != '{' && s[0] != '[' && s[0] != '"'
    && forall i :: 0 <= i < |s| ==> !EndsAtom(s[i])
  }

  predicate Shaped(t: Tree) {
    match t
    case Atom(text) => AtomText(text)
    case Str(literal) => Literal(literal)
    case Arr(pad, items) => Blank(pad) && ShapedItems(items)
    case Obj(pad, members) => Blank(pad) && ShapedMembers(members)
  }

  predicate ShapedItems(items: Items) {
    match items
    case NoItems => true
    case Item(before, value, after, rest) => Blank(before) && Shaped(value) && Blank(after) && ShapedItems(rest)
  }

  predicate ShapedMembers(members: Members) {
    match members
    case NoMembers => true
    case Member(before, key, gap, lead, value, after, rest) =>
      && Blank(before) && Literal(key) && Blank(gap) && Blank(lead) && Shaped(value) && Blank(after)
      && ShapedMembers(rest)
  }

  // ---------- which trees are strict ----------

  function Height(t: Tree): nat {
    match t
    case Arr(_, items) => 1 + ItemsHeight(items)
    case Obj(_, members) => 1 + MembersHeight(members)
    case _ => 0
  }

  function ItemsHeight(items: Items): nat {
    match items
    case NoItems => 0
    case Item(_, value, _, rest) => Max(Height(value), ItemsHeight(rest))
  }

  function MembersHeight(members: Members): nat {
    match members
    case NoMembers => 0
    case Member(_, _, _, _, value, _, rest) => Max(Height(value), MembersHeight(rest))
  }

  /** The decoded keys of one object, in order. */
  function Keys(members: Members): seq<Option<seq<nat>>> {
    match members
    case NoMembers => []
    case Member(_, key, _, _, _, _, rest) => [Decode(key)] + Keys(rest)
  }

  predicate Distinct<T(==)>(s: seq<T>) {
    forall i, j :: 0 <= i < j < |s| ==> s[i] != s[j]
  }

  /** No object at any depth repeats a decoded key. */
  predicate NoRepeats(t: Tree) {
    match t
    case Arr(_, items) => NoRepeatsInItems(items)
    case Obj(_, members) => Distinct(Keys(members)) && NoRepeatsInMembers(members)
    case _ => true
  }

  predicate NoRepeatsInItems(items: Items) {
    match items
    case NoItems => true
    case Item(_, value, _, rest) => NoRepeats(value) && NoRepeatsInItems(rest)
  }

  predicate NoRepeatsInMembers(members: Members) {
    match members
    case NoMembers => true
    case Member(_, _, _, _, value, _, rest) => NoRepeats(value) && NoRepeatsInMembers(rest)
  }

  // ---------- the scanner's own view of a tree ----------

  predicate Good(t: Tree, depth: nat) {
    match t
    case Arr(_, items) => depth < MAX_JSON_DEPTH && GoodItems(items, depth + 1)
    case Obj(_, members) => depth < MAX_JSON_DEPTH && GoodMembers(members, depth + 1, {})
    case _ => true
  }

  predicate GoodItems(items: Items, depth: nat) {
    match items
    case NoItems => true
    case Item(_, value, _, rest) => Good(value, depth) && GoodItems(rest, depth)
  }

  predicate GoodMembers(members: Members, depth: nat, seen: set<seq<nat>>) {
    match members
    case NoMembers => true
    case Member(_, key, _, _, value, _, rest) =>
      && Decode(key).Some? && Decode(key).value !in seen && Good(value, depth)
      && GoodMembers(rest, depth, seen + {Decode(key).value})
  }

  // ---------- lexical facts ----------

  lemma {:induction false} SkipBlank(w: string, s: string)
    requires Blank(w)
    ensures SkipWhitespace(w + s) == SkipWhitespace(s)
  {
    if w == "" {
      assert w + s == s;
    } else {
      assert (w + s)[1..] == w[1..] + s;
      SkipBlank(w[1..], s);
    }
  }

  lemma {:induction false} SkipTwice(s: string)
    ensures SkipWhitespace(SkipWhitespace(s)) == SkipWhitespace(s)
  {
    if s != "" && IsWhitespace(s[0]) {
      SkipTwice(s[1..]);
    }
  }

  predicate Delimited(s: string) {
    s != "" ==> EndsAtom(s[0])
  }

  lemma {:induction false} SkipAtomText(a: string, s: string)
    requires (forall i :: 0 <= i < |a| ==> !EndsAtom(a[i])) && Delimited(s)
    ensures SkipAtom(a + s) == s
  {
    if a == "" {
      assert a + s == s;
    } else {
      assert (a + s)[1..] == a[1..] + s;
      SkipAtomText(a[1..], s);
    }
  }

  lemma {:induction false} StringEndIsLocal(a: string, s: string, i: nat)
    requires StringEnd(a, i).Some?
    ensures StringEnd(a + s, i) == StringEnd(a, i)
    decreases |a| - i
  {
    assert (a + s)[i] == a[i];
    if a[i] == '\\' {
      StringEndIsLocal(a, s, i + 2);
    } else if a[i] != '"' {
      StringEndIsLocal(a, s, i + 1);
    }
  }

  lemma ScanLiteral(literal: string, s: string)
    requires Literal(literal)
    ensures ScanString(literal + s) == Some((Decode(literal).value, s))
  {
    StringEndIsLocal(literal, s, 1);
    assert (literal + s)[..|literal|] == literal && (literal + s)[|literal|..] == s;
  }

  lemma DelimitedAfter(after: string, s: string)
    requires Blank(after) && Delimited(s)
    ensures Delimited(after + s)
  {
  }

  // ---------- the scanner on a rendering ----------

  /** The first character of a rendered value says what it is. */
  lemma TextHead(t: Tree, s: string)
    requires Shaped(t)
    ensures Text(t, s) != "" && !EndsAtom(Text(t, s)[0]) && SkipWhitespace(Text(t, s)) == Text(t, s)
  {
  }

  lemma {:induction false} ValueExact(t: Tree, w: string, s: string, depth: nat)
    requires Shaped(t) && Blank(w) && Delimited(s)
    ensures ScanValue(w + Text(t, s), depth) == if Good(t, depth) then Some(s) else None
    decreases t
  {
    SkipBlank(w, Text(t, s));
    TextHead(t, s);
    match t
    case Atom(text) =>
      SkipAtomText(text, s);
    case Str(literal) =>
      ScanLiteral(literal, s);
    case Arr(pad, items) =>
      ArrayExact(pad, items, s, depth);
    case Obj(pad, members) =>
      ObjectExact(pad, members, s, depth);
  }

  lemma {:induction false} ArrayExact(pad: string, items: Items, s: string, depth: nat)
    requires Blank(pad) && ShapedItems(items)
    ensures ScanArray(Text(Arr(pad, items), s), depth) == if Good(Arr(pad, items), depth) then Some(s) else None
    decreases items, 1
  {
    var text := Text(Arr(pad, items), s);
    if items.NoItems? {
      assert text[1..] == pad + ("]" + s);
      SkipBlank(pad, "]" + s);
      assert ("]" + s)[1..] == s;
    } else {
      assert text[1..] == ItemsText(items, "]" + s);
      ItemsExact(items, s, depth);
      ItemsSkip(items, "]" + s, depth);
    }
  }

  /** Skipping blanks before the first item changes nothing, and what follows is not the closing bracket. */
  lemma ItemsSkip(items: Items, s: string, depth: nat)
    requires ShapedItems(items) && items.Item?
    ensures ScanItems(SkipWhitespace(ItemsText(items, s)), depth) == ScanItems(ItemsText(items, s), depth)
    ensures !StartsWith(SkipWhitespace(ItemsText(items, s)), ']')
  {
    var tail := items.after + (if items.rest.NoItems? then s else "," + ItemsText(items.rest, s));
    SkipBlank(items.before, Text(items.value, tail));
    TextHead(items.value, tail);
    SkipTwice(ItemsText(items, s));
  }

  lemma {:induction false} ItemsExact(items: Items, s: string, depth: nat)
    requires ShapedItems(items) && items.Item?
    ensures ScanItems(ItemsText(items, "]" + s), depth) == if GoodItems(items, depth + 1) then Some(s) else None
    decreases items, 0
  {
    var Item(before, value, after, rest) := items;
    var close := "]" + s;
    var tail := if rest.NoItems? then close else "," + ItemsText(rest, close);
    DelimitedAfter(after, tail);
    ValueExact(value, before, after + tail, depth + 1);
    SkipBlank(after, tail);
    assert close[1..] == s;
    if rest.Item? {
      assert tail[1..] == ItemsText(rest, close);
      ItemsExact(rest, s, depth);
    }
  }

  lemma {:induction false} ObjectExact(pad: string, members: Members, s: string, depth: nat)
    requires Blank(pad) && ShapedMembers(members)
    ensures ScanObject(Text(Obj(pad, members), s), depth) == if Good(Obj(pad, members), depth) then Some(s) else None
    decreases members, 1
  {
    var text := Text(Obj(pad, members), s);
    if members.NoMembers? {
      assert text[1..] == pad + ("}" + s);
      SkipBlank(pad, "}" + s);
      assert ("}" + s)[1..] == s;
    } else {
      assert text[1..] == MembersText(members, "}" + s);
      MembersExact(members, s, depth, {});
      MembersSkip(members, "}" + s, depth);
    }
  }

  lemma MembersSkip(members: Members, s: string, depth: nat)
    requires ShapedMembers(members) && members.Member?
    ensures ScanMembers(SkipWhitespace(MembersText(members, s)), depth, {})
            == ScanMembers(MembersText(members, s), depth, {})
    ensures !StartsWith(SkipWhitespace(MembersText(members, s)), '}')
  {
    var text := MembersText(members, s);
    SkipBlank(members.before, text[|members.before|..]);
    assert text == members.before + text[|members.before|..];
    SkipTwice(text);
  }

  lemma KeyExact(before: string, key: string, gap: string, s: string, keys: set<seq<nat>>)
    requires Blank(before) && Literal(key) && Blank(gap)
    ensures ScanKey(before + (key + (gap + (":" + s))), keys) ==
            if Decode(key).value in keys then None else Some((Decode(key).value, s))
  {
    SkipBlank(before, key + (gap + (":" + s)));
    ScanLiteral(key, gap + (":" + s));
    SkipBlank(gap, ":" + s);
    assert (":" + s)[1..] == s;
  }

  lemma {:induction false} MembersExact(members: Members, s: string, depth: nat, keys: set<seq<nat>>)
    requires ShapedMembers(members) && members.Member?
    ensures ScanMembers(MembersText(members, "}" + s), depth, keys)
            == if GoodMembers(members, depth + 1, keys) then Some(s) else None
    decreases members, 0
  {
    var Member(before, key, gap, lead, value, after, rest) := members;
    var close := "}" + s;
    var tail := if rest.NoMembers? then close else "," + MembersText(rest, close);
    KeyExact(before, key, gap, lead + Text(value, after + tail), keys);
    DelimitedAfter(after, tail);
    ValueExact(value, lead, after + tail, depth + 1);
    SkipBlank(after, tail);
    assert close[1..] == s;
    if rest.Member? {
      assert tail[1..] == MembersText(rest, close);
      MembersExact(rest, s, depth, keys + {Decode(key).value});
    }
  }

  // ---------- the scanner's view is the declarative one ----------

  lemma {:induction false} GoodExact(t: Tree, depth: nat)
    requires Shaped(t) && depth <= MAX_JSON_DEPTH
    ensures Good(t, depth) <==> NoRepeats(t) && depth + Height(t) <= MAX_JSON_DEPTH
    decreases t
  {
    if depth < MAX_JSON_DEPTH {
      match t
      case Arr(_, items) => GoodItemsExact(items, depth + 1);
      case Obj(_, members) => GoodMembersExact(members, depth + 1, {});
      case _ =>
    }
  }

  lemma {:induction false} GoodItemsExact(items: Items, depth: nat)
    requires ShapedItems(items) && depth <= MAX_JSON_DEPTH
    ensures GoodItems(items, depth) <==> NoRepeatsInItems(items) && depth + ItemsHeight(items) <= MAX_JSON_DEPTH
    decreases items
  {
    if items.Item? {
      GoodExact(items.value, depth);
      GoodItemsExact(items.rest, depth);
    }
  }

  /** None of the keys was seen before. */
  predicate Fresh(keys: seq<Option<seq<nat>>>, seen: set<seq<nat>>) {
    forall i :: 0 <= i < |keys| ==> keys[i].Some? ==> keys[i].value !in seen
  }

  lemma FreshStep(key: seq<nat>, rest: seq<Option<seq<nat>>>, seen: set<seq<nat>>)
    ensures Distinct([Some(key)] + rest) && Fresh([Some(key)] + rest, seen) <==>
            key !in seen && Distinct(rest) && Fresh(rest, seen + {key})
  {
    var all := [Some(key)] + rest;
    assert forall i :: 0 <= i < |rest| ==> all[i + 1] == rest[i];
    if Distinct(all) && Fresh(all, seen) {
      assert all[0] == Some(key);
      forall i, j | 0 <= i < j < |rest| ensures rest[i] != rest[j] {
        assert all[i + 1] != all[j + 1];
      }
      forall i | 0 <= i < |rest| && rest[i].Some? ensures rest[i].value !in seen + {key} {
        assert all[0] != all[i + 1];
      }
    }
    if key !in seen && Distinct(rest) && Fresh(rest, seen + {key}) {
      forall i, j | 0 <= i < j < |all| ensures all[i] != all[j] {
        assert all[j] == rest[j - 1];
        assert i > 0 ==> all[i] == rest[i - 1];
      }
      forall i | 0 <= i < |all| && all[i].Some? ensures all[i].value !in seen {
        assert i > 0 ==> all[i] == rest[i - 1];
      }
    }
  }

  lemma {:induction false} GoodMembersExact(members: Members, depth: nat, seen: set<seq<nat>>)
    requires ShapedMembers(members) && depth <= MAX_JSON_DEPTH
    ensures GoodMembers(members, depth, seen) <==>
            && Distinct(Keys(members)) && Fresh(Keys(members), seen)
            && NoRepeatsInMembers(members) && depth + MembersHeight(members) <= MAX_JSON_DEPTH
    decreases members
  {
    if members.Member? {
      var key := Decode(members.key).value;
      GoodExact(members.value, depth);
      GoodMembersExact(members.rest, depth, seen + {key});
      FreshStep(key, Keys(members.rest), seen);
    }
  }

  /**
   The rendering of a tree, with any whitespace anywhere, is accepted exactly
   when no object repeats a decoded key and containers nest at most 128 deep.
   */
  lemma AcceptsExactlyStrictTrees(t: Tree, lead: string, trail: string)
    requires Shaped(t) && Blank(lead) && Blank(trail)
    ensures Accepts(lead + Text(t, trail)) <==> NoRepeats(t) && Height(t) <= MAX_JSON_DEPTH
  {
    ValueExact(t, lead, trail, 0);
    GoodExact(t, 0);
    SkipBlank(trail, "");
    assert trail + "" == trail;
  }

  // ---------- every accepted text is such a rendering ----------

  lemma {:induction false} BlankPrefix(s: string) returns (w: string)
    ensures Blank(w) && s == w + SkipWhitespace(s)
  {
    if s != "" && IsWhitespace(s[0]) {
      var v := BlankPrefix(s[1..]);
      w := [s[0]] + v;
    } else {
      w := "";
    }
  }

  lemma {:induction false} AtomPrefix(s: string) returns (a: string)
    ensures (forall i :: 0 <= i < |a| ==> !EndsAtom(a[i])) && s == a + SkipAtom(s)
  {
    if s != "" && !EndsAtom(s[0]) {
      var b := AtomPrefix(s[1..]);
      a := [s[0]] + b;
    } else {
      a := "";
    }
  }

  lemma {:induction false} StringEndOfPrefix(s: string, i: nat)
    requires StringEnd(s, i).Some?
    ensures StringEnd(s[..StringEnd(s, i).value], i) == StringEnd(s, i)
    decreases |s| - i
  {
    if s[i] == '\\' {
      StringEndOfPrefix(s, i + 2);
    } else if s[i] != '"' {
      StringEndOfPrefix(s, i + 1);
    }
  }

  lemma LiteralPrefix(s: string) returns (literal: string)
    requires ScanString(s).Some?
    ensures Literal(literal) && s == literal + ScanString(s).value.1 && Decode(literal) == Some(ScanString(s).value.0)
  {
    StringEndOfPrefix(s, 1);
    literal := s[..StringEnd(s, 1).value];
  }

  lemma {:induction false} ValueTree(s: string, depth: nat) returns (w: string, t: Tree)
    requires ScanValue(s, depth).Some?
    ensures Blank(w) && Shaped(t) && Good(t, depth) && s == w + Text(t, ScanValue(s, depth).value)
    decreases |s|, 1
  {
    w := BlankPrefix(s);
    var u := SkipWhitespace(s);
    if u[0] == '{' {
      t := ObjectTree(u, depth);
    } else if u[0] == '[' {
      t := ArrayTree(u, depth);
    } else if u[0] == '"' {
      var literal := LiteralPrefix(u);
      t := Str(literal);
    } else {
      var a := AtomPrefix(u);
      t := Atom(a);
      assert a != "" && a[0] == u[0];
    }
  }

  lemma PadItems(items: Items, pad: string, s: string, depth: nat)
    requires items.Item? && ShapedItems(items) && Blank(pad)
    ensures var first := items.(before := pad + items.before);
            && ItemsText(first, s) == pad + ItemsText(items, s)
            && ShapedItems(first) && GoodItems(first, depth) == GoodItems(items, depth)
  {
  }

  lemma PadMembers(members: Members, pad: string, s: string, depth: nat, seen: set<seq<nat>>)
    requires members.Member? && ShapedMembers(members) && Blank(pad)
    ensures var first := members.(before := pad + members.before);
            && MembersText(first, s) == pad + MembersText(members, s)
            && ShapedMembers(first) && GoodMembers(first, depth, seen) == GoodMembers(members, depth, seen)
  {
  }

  lemma {:induction false} ArrayTree(s: string, depth: nat) returns (t: Tree)
    requires StartsWith(s, '[') && ScanArray(s, depth).Some?
    ensures Shaped(t) && Good(t, depth) && s == Text(t, ScanArray(s, depth).value)
    decreases |s|, 0
  {
    var pad := BlankPrefix(s[1..]);
    var u := SkipWhitespace(s[1..]);
    if StartsWith(u, ']') {
      t := Arr(pad, NoItems);
      assert u == "]" + u[1..];
    } else {
      var items := ItemsTree(u, depth);
      PadItems(items, pad, "]" + ScanArray(s, depth).value, depth + 1);
      t := Arr("", items.(before := pad + items.before));
    }
    assert s == "[" + s[1..];
  }

  lemma {:induction false} ItemsTree(s: string, depth: nat) returns (items: Items)
    requires ScanItems(s, depth).Some?
    ensures items.Item? && ShapedItems(items) && GoodItems(items, depth + 1)
    ensures s == ItemsText(items, "]" + ScanItems(s, depth).value)
    decreases |s|, 2
  {
    var before, value := ValueTree(s, depth + 1);
    var afterValue := ScanValue(s, depth + 1).value;
    var after := BlankPrefix(afterValue);
    var next := SkipWhitespace(afterValue);
    var rest := NoItems;
    if StartsWith(next, ']') {
      assert next == "]" + next[1..];
    } else {
      assert next == "," + next[1..];
      rest := ItemsTree(next[1..], depth);
    }
    items := Item(before, value, after, rest);
  }

  lemma {:induction false} ObjectTree(s: string, depth: nat) returns (t: Tree)
    requires StartsWith(s, '{') && ScanObject(s, depth).Some?
    ensures Shaped(t) && Good(t, depth) && s == Text(t, ScanObject(s, depth).value)
    decreases |s|, 0
  {
    var pad := BlankPrefix(s[1..]);
    var u := SkipWhitespace(s[1..]);
    if StartsWith(u, '}') {
      t := Obj(pad, NoMembers);
      assert u == "}" + u[1..];
    } else {
      var members := MembersTree(u, depth, {});
      PadMembers(members, pad, "}" + ScanObject(s, depth).value, depth + 1, {});
      t := Obj("", members.(before := pad + members.before));
    }
    assert s == "{" + s[1..];
  }

  lemma KeyText(s: string, keys: set<seq<nat>>) returns (before: string, key: string, gap: string)
    requires ScanKey(s, keys).Some?
    ensures Blank(before) && Literal(key) && Blank(gap)
    ensures Decode(key) == Some(ScanKey(s, keys).value.0) && ScanKey(s, keys).value.0 !in keys
    ensures s == before + (key + (gap + (":" + ScanKey(s, keys).value.1)))
  {
    before := BlankPrefix(s);
    key := LiteralPrefix(SkipWhitespace(s));
    var afterKey := ScanString(SkipWhitespace(s)).value.1;
    gap := BlankPrefix(afterKey);
    var colon := SkipWhitespace(afterKey);
    assert colon == ":" + colon[1..];
  }

  lemma {:induction false} MembersTree(s: string, depth: nat, keys: set<seq<nat>>) returns (members: Members)
    requires ScanMembers(s, depth, keys).Some?
    ensures members.Member? && ShapedMembers(members) && GoodMembers(members, depth + 1, keys)
    ensures s == MembersText(members, "}" + ScanMembers(s, depth, keys).value)
    decreases |s|, 0
  {
    var before, key, gap := KeyText(s, keys);
    var afterColon := ScanKey(s, keys).value.1;
    var lead, value := ValueTree(afterColon, depth + 1);
    var afterValue := ScanValue(afterColon, depth + 1).value;
    var after := BlankPrefix(afterValue);
    var next := SkipWhitespace(afterValue);
    var rest := NoMembers;
    if StartsWith(next, '}') {
      assert next == "}" + next[1..];
    } else {
      assert next == "," + next[1..];
      rest := MembersTree(next[1..], depth, keys + {Decode(key).value});
    }
    members := Member(before, key, gap, lead, value, after, rest);
  }

  /** The scanner accepts nothing else: every accepted text is the rendering of a strict tree. */
  lemma AcceptedTextIsStrictTree(source: string) returns (lead: string, t: Tree, trail: string)
    requires Accepts(source)
    ensures Blank(lead) && Shaped(t) && Blank(trail) && source == lead + Text(t, trail)
    ensures NoRepeats(t) && Height(t) <= MAX_JSON_DEPTH
  {
    lead, t := ValueTree(source, 0);
    trail := ScanValue(source, 0).value;
    var w := BlankPrefix(trail);
    assert trail == w;
    GoodExact(t, 0);
  }
}
