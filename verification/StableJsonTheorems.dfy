// stableJson is a canonical form: two accepted values print alike exactly when they are equal up to the order of
// object properties. The proof reads the printed text back, token by token.
module StableJsonTheorems {
  import opened Prelude
  import opened Base58
  import opened StableJson

  // ---- strings ----

  lemma HexUnitInjective(a: nat, b: nat)
    requires a < 16 && b < 16 && HexUnit(a) == HexUnit(b)
    ensures a == b
  {
  }

  lemma Hex4Injective(a: Unit, b: Unit)
    requires Hex4(a) == Hex4(b)
    ensures a == b
  {
    assert Hex4(a)[0] == Hex4(b)[0] && Hex4(a)[1] == Hex4(b)[1] && Hex4(a)[2] == Hex4(b)[2] && Hex4(a)[3] == Hex4(b)[3];
    HexUnitInjective(a / 4096, b / 4096);
    HexUnitInjective(a / 256 % 16, b / 256 % 16);
    HexUnitInjective(a / 16 % 16, b / 16 % 16);
    HexUnitInjective(a % 16, b % 16);
    Digits16(a);
    Digits16(b);
  }

  lemma Digits16(a: Unit)
    ensures a == a / 4096 * 4096 + a / 256 % 16 * 256 + a / 16 % 16 * 16 + a % 16
  {
    var x, y, z := a / 16, a / 256, a / 4096;
    assert y == x / 16 && z == y / 16;
  }

  lemma EscapeLeads(u: Unit)
    ensures Escape(u) != [] && Escape(u)[0] != QUOTE
    ensures |Escape(u)| == 1 ==> Escape(u) == [u] && u != BACKSLASH && !High(u) && !Low(u)
    ensures |Escape(u)| == 2 ==> Escape(u)[0] == BACKSLASH && Short(u) == Some(Escape(u)[1]) && Escape(u)[1] != 117
    ensures |Escape(u)| == 6 ==> Escape(u) == [BACKSLASH, 117] + Hex4(u)
    ensures |Escape(u)| in {1, 2, 6}
  {
  }

  // Escapes can be told apart from their beginnings.
  lemma EscapeUnique(a: Unit, b: Unit, r: Text, s: Text)
    requires Escape(a) + r == Escape(b) + s
    ensures a == b && r == s
  {
    EscapeLeads(a);
    EscapeLeads(b);
    var t := Escape(a) + r;
    assert t[0] == Escape(a)[0] == Escape(b)[0];
    if |Escape(a)| == 2 || |Escape(a)| == 6 { assert t[1] == Escape(a)[1]; }
    if |Escape(b)| == 2 || |Escape(b)| == 6 { assert t[1] == Escape(b)[1]; }
    assert |Escape(a)| == |Escape(b)|;
    assert t[..|Escape(a)|] == Escape(a) && t[..|Escape(b)|] == Escape(b);
    assert t[|Escape(a)|..] == r && t[|Escape(b)|..] == s;
    if |Escape(a)| == 6 {
      assert Escape(a)[2..] == Hex4(a) && Escape(b)[2..] == Hex4(b);
      Hex4Injective(a, b);
    }
  }

  predicate Pair(s: Text) { |s| >= 2 && High(s[0]) && Low(s[1]) }

  // A string up to and including its closing quote, and what follows.
  function Closed(a: Text, r: Text): Text { Escaped(a) + [QUOTE] + r }

  lemma ClosedStep(a: Text, r: Text)
    requires a != []
    ensures if Pair(a) then Closed(a, r) == [a[0], a[1]] + Closed(a[2..], r) else Closed(a, r) == Escape(a[0]) + Closed(a[1..], r)
  {
    hide Escape;
    if Pair(a) {
      assert Escaped(a) == [a[0], a[1]] + Escaped(a[2..]);
    } else {
      assert Escaped(a) == Escape(a[0]) + Escaped(a[1..]);
    }
  }

  // The next unit says whether the string ends here, continues with a surrogate pair, or with one unit.
  lemma FirstUnit(a: Text, r: Text)
    ensures Closed(a, r) != [] && (a == [] <==> Closed(a, r)[0] == QUOTE) && (Pair(a) <==> High(Closed(a, r)[0]))
    ensures a == [] ==> Closed(a, r)[1..] == r
  {
    if a != [] && !Pair(a) { EscapeLeads(a[0]); assert Escaped(a)[0] == Escape(a[0])[0]; }
  }

  lemma {:induction false} EscapedUnique(a: Text, b: Text, r: Text, s: Text)
    requires Closed(a, r) == Closed(b, s)
    ensures a == b && r == s
    decreases |a|
  {
    hide Closed, Escape, High, Low;
    FirstUnit(a, r);
    FirstUnit(b, s);
    if a != [] {
      ClosedStep(a, r);
      ClosedStep(b, s);
      if Pair(a) {
        TwoUnits(a[0], a[1], Closed(a[2..], r), b[0], b[1], Closed(b[2..], s));
        EscapedUnique(a[2..], b[2..], r, s);
        assert a == [a[0], a[1]] + a[2..] && b == [b[0], b[1]] + b[2..];
      } else {
        EscapeUnique(a[0], b[0], Closed(a[1..], r), Closed(b[1..], s));
        EscapedUnique(a[1..], b[1..], r, s);
        assert a == [a[0]] + a[1..] && b == [b[0]] + b[1..];
      }
    }
  }

  lemma TwoUnits(a0: Unit, a1: Unit, x: Text, b0: Unit, b1: Unit, y: Text)
    requires [a0, a1] + x == [b0, b1] + y
    ensures a0 == b0 && a1 == b1 && x == y
  {
    var t := [a0, a1] + x;
    assert t[0] == a0 && t[1] == a1 && t[0] == b0 && t[1] == b1 && t[2..] == x && t[2..] == y;
  }

  lemma QuoteUnique(a: Text, b: Text, r: Text, s: Text)
    requires Quote(a) + r == Quote(b) + s
    ensures a == b && r == s
  {
    assert (Quote(a) + r)[1..] == Closed(a, r);
    assert (Quote(b) + s)[1..] == Closed(b, s);
    EscapedUnique(a, b, r, s);
  }

  // ---- numbers ----

  // What may follow a value: nothing, a comma or a closing bracket.
  predicate Delimited(r: Text) { r == [] || r[0] in {COMMA, 93, 125} }

  lemma Overhang(a: Text, b: Text, r: Text, s: Text)
    requires a + r == b + s
    ensures |a| < |b| ==> r != [] && r[0] == b[|a|]
  {
    if |a| < |b| { assert (a + r)[|a|] == (b + s)[|a|]; }
  }

  lemma DigitsUnique(m: nat, n: nat, r: Text, s: Text)
    requires Digits(m) + r == Digits(n) + s && Delimited(r) && Delimited(s)
    ensures m == n && r == s
  {
    var a, b, t := Digits(m), Digits(n), Digits(m) + r;
    Overhang(a, b, r, s);
    Overhang(b, a, s, r);
    assert t[..|a|] == a && t[..|b|] == b && t[|a|..] == r && t[|b|..] == s;
    DigitsInjective(m, n);
  }

  lemma DigitsInjective(m: nat, n: nat)
    requires Digits(m) == Digits(n)
    ensures m == n
  {
    DigitsBack(m);
    DigitsBack(n);
  }

  lemma DigitsBack(n: nat)
    ensures Val(seq(|Digits(n)|, i requires 0 <= i < |Digits(n)| => Digits(n)[i] - 48), 10) == n
  {
    var ds := seq(|Digits(n)|, i requires 0 <= i < |Digits(n)| => Digits(n)[i] - 48);
    if n == 0 {
      assert ds == [0];
      assert [0][..0] == [];
    } else {
      assert ds == DigitsOf(n, 10);
      ValOfDigits(n, 10);
    }
  }

  lemma DecimalUnique(m: int, n: int, r: Text, s: Text)
    requires Decimal(m) + r == Decimal(n) + s && Delimited(r) && Delimited(s)
    ensures m == n && r == s
  {
    SignOf(m, r);
    SignOf(n, s);
    hide Digits, Decimal;
    if m < 0 { DigitsUnique(0 - m, 0 - n, r, s); } else { DigitsUnique(m, n, r, s); }
  }

  lemma SignOf(n: int, r: Text)
    ensures (Decimal(n) + r)[0] == 45 <==> n < 0
    ensures if n < 0 then (Decimal(n) + r)[1..] == Digits(0 - n) + r else Decimal(n) == Digits(n)
  {
  }

  // ---- sorted keys ----

  lemma {:induction false} BeforeTotal(a: Text, b: Text)
    ensures !(Before(a, b) && Before(b, a)) && !Before(a, a)
    ensures Before(a, b) || Before(b, a) || a == b
    decreases |a|
  {
    if a != [] {
      BeforeTotal(a[1..], if b == [] then [] else b[1..]);
      if b != [] && a[0] == b[0] && a[1..] == b[1..] { assert a == [a[0]] + a[1..] && b == [b[0]] + b[1..]; }
    }
  }

  lemma {:induction false} BeforeTransitive(a: Text, b: Text, c: Text)
    requires Before(a, b) && Before(b, c)
    ensures Before(a, c)
    decreases |a|
  {
    if a != [] && a[0] == b[0] == c[0] { BeforeTransitive(a[1..], b[1..], c[1..]); }
  }

  predicate Ascending(keys: seq<Text>) { forall i, j :: 0 <= i < j < |keys| ==> Before(keys[i], keys[j]) }

  lemma {:induction false} InsertAscends(k: Text, keys: seq<Text>)
    requires Ascending(keys) && k !in keys
    ensures Ascending(Insert(k, keys)) && (forall x :: x in Insert(k, keys) <==> x == k || x in keys)
    ensures |Insert(k, keys)| == |keys| + 1
    decreases |keys|
  {
    if keys != [] {
      BeforeTotal(k, keys[0]);
      if Before(k, keys[0]) {
        forall j | 0 < j < |keys| ensures Before(k, keys[j]) { BeforeTransitive(k, keys[0], keys[j]); }
      } else {
        var rest := Insert(k, keys[1..]);
        InsertAscends(k, keys[1..]);
        assert keys == [keys[0]] + keys[1..];
        forall j | 0 <= j < |rest| ensures Before(keys[0], rest[j]) {
          assert rest[j] in rest;
          if rest[j] != k { var i :| 0 <= i < |keys[1..]| && keys[1..][i] == rest[j]; assert Before(keys[0], keys[i + 1]); }
        }
      }
    }
  }

  lemma {:induction false} SortAscends(keys: seq<Text>)
    requires forall i, j :: 0 <= i < j < |keys| ==> keys[i] != keys[j]
    ensures Ascending(Sort(keys)) && (forall x :: x in Sort(keys) <==> x in keys) && |Sort(keys)| == |keys|
    decreases |keys|
  {
    if keys != [] {
      SortAscends(keys[1..]);
      assert keys == [keys[0]] + keys[1..];
      assert keys[0] !in keys[1..];
      InsertAscends(keys[0], Sort(keys[1..]));
    }
  }

  // Sorting forgets the order the properties had.
  lemma {:induction false} AscendingUnique(a: seq<Text>, b: seq<Text>)
    requires Ascending(a) && Ascending(b) && forall x :: x in a <==> x in b
    ensures a == b
    decreases |a|
  {
    if a == [] {
      HeadIn(b);
    } else {
      assert a[0] in b && b != [] && b[0] in a;
      HeadIsLeast(a, b[0]);
      HeadIsLeast(b, a[0]);
      BeforeTotal(a[0], b[0]);
      assert a == [a[0]] + a[1..] && b == [b[0]] + b[1..];
      HeadOnce(a);
      HeadOnce(b);
      forall x ensures x in a[1..] <==> x in b[1..] { assert x in a <==> x in b; }
      AscendingUnique(a[1..], b[1..]);
    }
  }

  lemma HeadIn(b: seq<Text>)
    ensures b != [] ==> b[0] in b
  {
  }

  lemma HeadIsLeast(a: seq<Text>, x: Text)
    requires Ascending(a) && x in a
    ensures a[0] == x || Before(a[0], x)
  {
  }

  lemma HeadOnce(a: seq<Text>)
    requires Ascending(a) && a != []
    ensures a[0] !in a[1..]
  {
    BeforeTotal(a[0], a[0]);
    forall i | 0 <= i < |a[1..]| ensures a[1..][i] != a[0] { assert Before(a[0], a[i + 1]); }
  }

  // ---- values ----

  predicate Good(v: Json) { WellFormed(v) && Accepted(v) }

  predicate Kind(v: Json, first: Unit) {
    match v
    case JNull => first == 110
    case JBool(b) => first == if b then 116 else 102
    case JNumber(_) => first == 45 || IsDigit(first)
    case JString(_) => first == QUOTE
    case JArray(_) => first == 91
    case JObject(_) => first == 123
    case _ => false
  }

  // The first unit of a value tells what it is, and never closes a bracket.
  lemma FirstOf(v: Json)
    requires Good(v)
    ensures Render(v) != [] && Kind(v, Render(v)[0]) && Render(v)[0] !in {93, 125, COMMA}
  {
    if v.JNumber? { assert Decimal(v.n)[0] == 45 || IsDigit(Decimal(v.n)[0]); }
  }

  // Reading a value back: what was printed determines the value and where it ends.
  lemma {:induction false} Reads(v: Json, w: Json, r: Text, s: Text)
    requires Good(v) && Good(w) && Delimited(r) && Delimited(s) && Render(v) + r == Render(w) + s
    ensures Same(v, w) && r == s
    decreases v, 0
  {
    FirstOf(v);
    FirstOf(w);
    assert (Render(v) + r)[0] == Render(v)[0] == Render(w)[0];
    match v
    case JNumber(n) =>
      hide Decimal, WellFormed, Accepted, Same;
      DecimalUnique(n, w.n, r, s);
      Scalar(v, w);
    case JString(x) =>
      hide Quote, WellFormed, Accepted, Same;
      QuoteUnique(x, w.s, r, s);
      Scalar(v, w);
    case JArray(items) => ReadsArray(v, w, r, s);
    case JObject(fields) => ReadsObject(v, w, r, s);
    case JNull => Cut(Render(v), r, s);
    case JBool(_) => Cut(Render(v), r, s);
    case _ =>
  }

  lemma Cut(x: Text, r: Text, s: Text)
    requires x + r == x + s
    ensures r == s
  {
    assert (x + r)[|x|..] == r && (x + s)[|x|..] == s;
  }

  lemma Scalar(v: Json, w: Json)
    requires v == w && !v.JArray? && !v.JObject?
    ensures Same(v, w)
  {
  }

  lemma {:induction false} ReadsArray(v: Json, w: Json, r: Text, s: Text)
    requires v.JArray? && w.JArray? && Good(v) && Good(w) && Delimited(r) && Delimited(s) && Render(v) + r == Render(w) + s
    ensures Same(v, w) && r == s
    decreases v.items, 2
  {
    hide Items;
    assert (Render(v) + r)[1..] == Items(v.items) + [93] + r && (Render(w) + s)[1..] == Items(w.items) + [93] + s;
    ReadsItems(v.items, w.items, r, s);
  }

  lemma {:induction false} ReadsObject(v: Json, w: Json, r: Text, s: Text)
    requires v.JObject? && w.JObject? && Good(v) && Good(w) && Delimited(r) && Delimited(s) && Render(v) + r == Render(w) + s
    ensures Same(v, w) && r == s
    decreases v.fields, |Sort(KeysOf(v.fields))| + 2
  {
    var keys, others := Sort(KeysOf(v.fields)), Sort(KeysOf(w.fields));
    ObjectText(v.fields, r);
    ObjectText(w.fields, s);
    GoodObject(v);
    GoodObject(w);
    hide Entries, Render, WellFormed, Accepted, Same, Sort, KeysOf;
    KeysKnown(v.fields);
    KeysKnown(w.fields);
    ReadsEntries(v.fields, keys, w.fields, others, r, s);
    SameFields(v.fields, w.fields);
  }

  lemma ObjectText(fields: seq<Field>, r: Text)
    ensures (Render(JObject(fields)) + r)[1..] == Entries(fields, Sort(KeysOf(fields))) + [125] + r
  {
    hide Entries, Sort;
  }

  lemma GoodObject(v: Json)
    requires v.JObject? && Good(v)
    ensures DistinctKeys(v.fields) && GoodFields(v.fields)
  {
  }

  lemma {:induction false} ReadsItems(a: seq<Json>, b: seq<Json>, r: Text, s: Text)
    requires (forall i :: 0 <= i < |a| ==> Good(a[i])) && (forall i :: 0 <= i < |b| ==> Good(b[i]))
    requires Items(a) + [93] + r == Items(b) + [93] + s
    ensures |a| == |b| && (forall i :: 0 <= i < |a| ==> Same(a[i], b[i])) && r == s
    decreases a, 0
  {
    var t := Items(a) + [93] + r;
    ItemsFirst(a, r);
    ItemsFirst(b, s);
    ItemsSplit(a, r);
    ItemsSplit(b, s);
    if a == [] {
      assert b == [];
      assert t[1..] == r && t[1..] == s;
    } else {
      assert b != [];
      var x := if |a| == 1 then [93] + r else [COMMA] + (Items(a[1..]) + [93] + r);
      var y := if |b| == 1 then [93] + s else [COMMA] + (Items(b[1..]) + [93] + s);
      Reads(a[0], b[0], x, y);
      if |a| == 1 {
        assert x[1..] == r && y[1..] == s;
      } else {
        assert x[1..] == Items(a[1..]) + [93] + r && y[1..] == Items(b[1..]) + [93] + s;
        ReadsItems(a[1..], b[1..], r, s);
        assert forall i :: 1 <= i < |a| ==> a[i] == a[1..][i - 1] && b[i] == b[1..][i - 1];
      }
    }
  }

  lemma ItemsSplit(a: seq<Json>, r: Text)
    ensures a == [] ==> Items(a) + [93] + r == [93] + r
    ensures |a| == 1 ==> Items(a) + [93] + r == Render(a[0]) + ([93] + r)
    ensures |a| > 1 ==> Items(a) + [93] + r == Render(a[0]) + ([COMMA] + (Items(a[1..]) + [93] + r))
  {
    hide Render;
    if |a| > 1 { Regroup(Render(a[0]), [COMMA], Items(a[1..]), [93], r); }
  }

  lemma ItemsFirst(a: seq<Json>, r: Text)
    requires forall i :: 0 <= i < |a| ==> Good(a[i])
    ensures Items(a) + [93] + r != [] && (a == [] <==> (Items(a) + [93] + r)[0] == 93)
  {
    if a != [] { FirstOf(a[0]); }
    ItemsSplit(a, r);
    hide Items, Render, Good;
  }

  lemma Regroup(a: Text, b: Text, c: Text, d: Text, r: Text)
    ensures a + b + c + d + r == a + (b + (c + d + r))
  {
  }

  // ---- objects ----

  lemma KeysKnown(fields: seq<Field>)
    requires DistinctKeys(fields)
    ensures Ascending(Sort(KeysOf(fields))) && forall x :: x in Sort(KeysOf(fields)) <==> Find(fields, x) < |fields|
  {
    SortAscends(KeysOf(fields));
    forall x ensures x in KeysOf(fields) <==> Find(fields, x) < |fields| {
      if x in KeysOf(fields) { var i :| 0 <= i < |fields| && KeysOf(fields)[i] == x; assert fields[i].key == x; }
    }
  }

  predicate GoodFields(fields: seq<Field>) { forall i :: 0 <= i < |fields| ==> Good(fields[i].value) }

  ghost predicate SameUnder(a: seq<Field>, b: seq<Field>, key: Text) {
    && Find(a, key) < |a| && Find(b, key) < |b| && Same(a[Find(a, key)].value, b[Find(b, key)].value)
  }

  lemma {:induction false} ReadsEntries(a: seq<Field>, keys: seq<Text>, b: seq<Field>, others: seq<Text>, r: Text, s: Text)
    requires GoodFields(a) && GoodFields(b)
    requires (forall x :: x in keys ==> Find(a, x) < |a|) && (forall x :: x in others ==> Find(b, x) < |b|)
    requires Entries(a, keys) + [125] + r == Entries(b, others) + [125] + s
    ensures keys == others && (forall x :: x in keys ==> SameUnder(a, b, x)) && r == s
    decreases a, |keys| + 1
  {
    hide Entry, Entries, Same, Find;
    var t := Entries(a, keys) + [125] + r;
    EntriesSplit(a, keys, r);
    EntriesSplit(b, others, s);
    if keys == [] {
      assert others == [];
      assert t[1..] == r && t[1..] == s;
    } else {
      assert others != [];
      var x := if |keys| == 1 then [125] + r else [COMMA] + (Entries(a, keys[1..]) + [125] + r);
      var y := if |others| == 1 then [125] + s else [COMMA] + (Entries(b, others[1..]) + [125] + s);
      assert keys[0] in keys && others[0] in others;
      ReadsEntry(a, keys[0], b, others[0], x, y);
      assert keys == [keys[0]] + keys[1..] && others == [others[0]] + others[1..];
      if |keys| == 1 {
        assert x[1..] == r && y[1..] == s;
      } else {
        assert x[1..] == Entries(a, keys[1..]) + [125] + r && y[1..] == Entries(b, others[1..]) + [125] + s;
        ReadsEntries(a, keys[1..], b, others[1..], r, s);
      }
    }
  }

  lemma {:induction false} ReadsEntry(a: seq<Field>, key: Text, b: seq<Field>, other: Text, x: Text, y: Text)
    requires GoodFields(a) && GoodFields(b) && Find(a, key) < |a| && Find(b, other) < |b| && Delimited(x) && Delimited(y)
    requires Entry(a, key) + x == Entry(b, other) + y
    ensures key == other && SameUnder(a, b, key) && x == y
    decreases a, 0
  {
    var v, w := a[Find(a, key)].value, b[Find(b, other)].value;
    EntryText(a, key, x);
    EntryText(b, other, y);
    hide Entry, Quote, Render, Find;
    QuoteUnique(key, other, [COLON] + (Render(v) + x), [COLON] + (Render(w) + y));
    assert ([COLON] + (Render(v) + x))[1..] == Render(v) + x && ([COLON] + (Render(w) + y))[1..] == Render(w) + y;
    Reads(v, w, x, y);
  }

  lemma EntryText(a: seq<Field>, key: Text, x: Text)
    requires Find(a, key) < |a|
    ensures Entry(a, key) + x == Quote(key) + ([COLON] + (Render(a[Find(a, key)].value) + x))
  {
    hide Quote, Render, Find;
    var value := Render(a[Find(a, key)].value);
    assert Entry(a, key) == Quote(key) + [COLON] + value;
    hide Entry;
    assert Entry(a, key) + x == Quote(key) + ([COLON] + (value + x));
  }

  lemma EntriesSplit(a: seq<Field>, keys: seq<Text>, r: Text)
    ensures keys == [] ==> Entries(a, keys) + [125] + r == [125] + r
    ensures |keys| == 1 ==> Entries(a, keys) + [125] + r == Entry(a, keys[0]) + ([125] + r)
    ensures |keys| > 1 ==> Entries(a, keys) + [125] + r == Entry(a, keys[0]) + ([COMMA] + (Entries(a, keys[1..]) + [125] + r))
    ensures keys == [] <==> (Entries(a, keys) + [125] + r)[0] == 125
  {
    if keys != [] { assert Entry(a, keys[0])[0] == QUOTE; }
    hide Entry;
    if |keys| > 1 { Regroup(Entry(a, keys[0]), [COMMA], Entries(a, keys[1..]), [125], r); }
  }

  lemma SameFields(a: seq<Field>, b: seq<Field>)
    requires DistinctKeys(a) && DistinctKeys(b)
    requires Sort(KeysOf(a)) == Sort(KeysOf(b)) && forall x :: x in Sort(KeysOf(a)) ==> SameUnder(a, b, x)
    ensures Same(JObject(a), JObject(b))
  {
    KeysKnown(a);
    KeysKnown(b);
    forall i | 0 <= i < |a| ensures Find(b, a[i].key) < |b| && Same(a[i].value, b[Find(b, a[i].key)].value) {
      FindAt(a, i);
      assert SameUnder(a, b, a[i].key);
    }
    forall j | 0 <= j < |b| ensures Find(a, b[j].key) < |a| { FindAt(b, j); }
  }

  lemma FindAt(fields: seq<Field>, i: nat)
    requires DistinctKeys(fields) && i < |fields|
    ensures Find(fields, fields[i].key) == i
  {
    var j := Find(fields, fields[i].key);
    assert j < |fields| && fields[j].key == fields[i].key;
  }

  // ---- and back ----

  lemma {:induction false} SameRenders(v: Json, w: Json)
    requires Good(v) && Good(w) && Same(v, w)
    ensures Render(v) == Render(w)
    decreases v, 0
  {
    match v
    case JArray(items) => SameItems(items, w.items);
    case JObject(fields) =>
      KeysKnown(fields);
      KeysKnown(w.fields);
      forall x ensures x in Sort(KeysOf(fields)) <==> x in Sort(KeysOf(w.fields)) { SameKeys(fields, w.fields, x); }
      AscendingUnique(Sort(KeysOf(fields)), Sort(KeysOf(w.fields)));
      SameEntries(fields, w.fields, Sort(KeysOf(fields)));
    case _ =>
  }

  lemma SameKeys(a: seq<Field>, b: seq<Field>, x: Text)
    requires Same(JObject(a), JObject(b))
    ensures Find(a, x) < |a| <==> Find(b, x) < |b|
    ensures Find(a, x) < |a| ==> Same(a[Find(a, x)].value, b[Find(b, x)].value)
  {
    var i, j := Find(a, x), Find(b, x);
    if i < |a| { assert a[i].key == x; }
    if j < |b| { assert b[j].key == x; }
  }

  lemma {:induction false} SameItems(a: seq<Json>, b: seq<Json>)
    requires |a| == |b| && forall i :: 0 <= i < |a| ==> Good(a[i]) && Good(b[i]) && Same(a[i], b[i])
    ensures Items(a) == Items(b)
    decreases a, 0
  {
    if a != [] {
      SameRenders(a[0], b[0]);
      SameItems(a[1..], b[1..]);
    }
  }

  lemma {:induction false} SameEntries(a: seq<Field>, b: seq<Field>, keys: seq<Text>)
    requires GoodFields(a) && GoodFields(b) && Same(JObject(a), JObject(b))
    ensures Entries(a, keys) == Entries(b, keys)
    decreases a, |keys| + 1
  {
    if keys != [] {
      SameKeys(a, b, keys[0]);
      var i, j := Find(a, keys[0]), Find(b, keys[0]);
      if i < |a| { SameRenders(a[i].value, b[j].value); }
      SameEntries(a, b, keys[1..]);
    }
  }

  // Equal digest inputs mean the same transaction, and property order never matters.
  lemma CanonicalForm(v: Json, w: Json)
    requires Good(v) && Good(w)
    ensures Render(v) == Render(w) <==> Same(v, w)
  {
    if Render(v) == Render(w) {
      assert Render(v) + [] == Render(v) && Render(w) + [] == Render(w);
      Reads(v, w, [], []);
    }
    if Same(v, w) { SameRenders(v, w); }
  }

  // stableJson throws for nothing but a non-finite number or a value that is not JSON, anywhere inside.
  lemma {:induction false} FaultIffNotAccepted(v: Json)
    requires WellFormed(v)
    ensures Fault(v).None? <==> Accepted(v)
    decreases v, 0
  {
    match v
    case JArray(items) => ItemFaults(items);
    case JObject(fields) =>
      KeysKnown(fields);
      FieldFaults(fields, Sort(KeysOf(fields)));
      forall i | 0 <= i < |fields| ensures Find(fields, fields[i].key) == i { FindAt(fields, i); }
      forall i | 0 <= i < |fields| ensures fields[i].key in Sort(KeysOf(fields)) {}
      assert (forall x :: x in Sort(KeysOf(fields)) ==> Accepted(fields[Find(fields, x)].value)) ==> Accepted(v);
    case _ =>
  }

  lemma {:induction false} ItemFaults(items: seq<Json>)
    requires forall i :: 0 <= i < |items| ==> WellFormed(items[i])
    ensures ItemFault(items).None? <==> forall i :: 0 <= i < |items| ==> Accepted(items[i])
    decreases items, 0
  {
    if items != [] {
      FaultIffNotAccepted(items[0]);
      ItemFaults(items[1..]);
      assert forall i :: 1 <= i < |items| ==> items[i] == items[1..][i - 1];
    }
  }

  lemma {:induction false} FieldFaults(fields: seq<Field>, keys: seq<Text>)
    requires (forall i :: 0 <= i < |fields| ==> WellFormed(fields[i].value)) && forall x :: x in keys ==> Find(fields, x) < |fields|
    ensures FieldFault(fields, keys).None? <==> forall x :: x in keys ==> Accepted(fields[Find(fields, x)].value)
    decreases fields, |keys|
  {
    if keys != [] {
      var i := Find(fields, keys[0]);
      assert keys[0] in keys;
      FaultIffNotAccepted(fields[i].value);
      assert keys == [keys[0]] + keys[1..];
      FieldFaults(fields, keys[1..]);
    }
  }

  // The two together: on well-formed values, stableJson gives one text exactly to the values it accepts that are equal
  // up to property order.
  lemma StableJsonIsCanonical(v: Json, w: Json)
    requires WellFormed(v) && WellFormed(w)
    ensures StableJson.StableJson(v).Ok? <==> Accepted(v)
    ensures Accepted(v) && Accepted(w) ==> (StableJson.StableJson(v) == StableJson.StableJson(w) <==> Same(v, w))
  {
    FaultIffNotAccepted(v);
    FaultIffNotAccepted(w);
    if Accepted(v) && Accepted(w) { CanonicalForm(v, w); }
  }

  // ---- the texts are JSON ----

  function HexValue(u: Unit): Option<nat> {
    if 48 <= u <= 57 then Some(u - 48) else if 97 <= u <= 102 then Some(u - 87) else if 65 <= u <= 70 then Some(u - 55) else None
  }

  // What a JSON reader makes of the inside of a string (section 7 of RFC 8259).
  function Unescaped(t: Text): Option<Text>
    decreases |t|
  {
    if t == [] then Some([])
    else if t[0] < 32 || t[0] == 34 then None
    else if t[0] != 92 then Then(t[0], Unescaped(t[1..]))
    else if |t| < 2 then None
    else if t[1] in {34, 92, 47} then Then(t[1], Unescaped(t[2..]))
    else if t[1] == 98 then Then(8, Unescaped(t[2..]))
    else if t[1] == 102 then Then(12, Unescaped(t[2..]))
    else if t[1] == 110 then Then(10, Unescaped(t[2..]))
    else if t[1] == 114 then Then(13, Unescaped(t[2..]))
    else if t[1] == 116 then Then(9, Unescaped(t[2..]))
    else if t[1] != 117 || |t| < 6 then None
    else if HexValue(t[2]).None? || HexValue(t[3]).None? || HexValue(t[4]).None? || HexValue(t[5]).None? then None
    else
      Then(HexValue(t[2]).value * 4096 + HexValue(t[3]).value * 256 + HexValue(t[4]).value * 16 + HexValue(t[5]).value,
           Unescaped(t[6..]))
  }

  function Then(u: Unit, rest: Option<Text>): Option<Text> { if rest.None? then None else Some([u] + rest.value) }

  lemma EscapeReads(u: Unit, rest: Text)
    ensures Unescaped(Escape(u) + rest) == Then(u, Unescaped(rest))
  {
    var t := Escape(u) + rest;
    if Short(u).Some? {
      assert t[2..] == rest;
    } else if u < 32 || High(u) || Low(u) {
      assert t == [BACKSLASH, 117] + Hex4(u) + rest;
      LongReads(u, rest);
    } else {
      assert t[1..] == rest;
    }
  }

  lemma LongReads(u: Unit, rest: Text)
    ensures Unescaped([BACKSLASH, 117] + Hex4(u) + rest) == Then(u, Unescaped(rest))
  {
    Hex4Reads(u);
    var t, h := [BACKSLASH, 117] + Hex4(u) + rest, Hex4(u);
    assert |h| == 4;
    hide Hex4, HexValue;
    assert t[6..] == rest && t[0] == 92 && t[1] == 117;
    assert t[2] == h[0] && t[3] == h[1] && t[4] == h[2] && t[5] == h[3];
  }

  lemma Hex4Reads(u: Unit)
    ensures var h := Hex4(u);
      && HexValue(h[0]) == Some(u / 4096) && HexValue(h[1]) == Some(u / 256 % 16)
      && HexValue(h[2]) == Some(u / 16 % 16) && HexValue(h[3]) == Some(u % 16)
    ensures u / 4096 * 4096 + u / 256 % 16 * 256 + u / 16 % 16 * 16 + u % 16 == u
  {
    Digits16(u);
    hide HexValue, HexUnit;
    HexUnitReads(u / 4096);
    HexUnitReads(u / 256 % 16);
    HexUnitReads(u / 16 % 16);
    HexUnitReads(u % 16);
  }

  lemma HexUnitReads(d: nat)
    requires d < 16
    ensures HexValue(HexUnit(d)) == Some(d)
  {
  }


  // A JSON reader gets back every string that was quoted.
  lemma {:induction false} QuotesReadBack(s: Text)
    ensures Quote(s) == [34] + Escaped(s) + [34] && Unescaped(Escaped(s)) == Some(s)
    decreases |s|
  {
    hide Unescaped, Escape, Escaped, Pair;
    EscapedIs(s);
    if s == [] {
      NothingToRead();
    } else if Pair(s) {
      PairIsPlain(s);
      QuotesReadBack(s[2..]);
      PlainReads(s[1], Escaped(s[2..]));
      PlainReads(s[0], [s[1]] + Escaped(s[2..]));
      assert Escaped(s) == [s[0]] + ([s[1]] + Escaped(s[2..]));
      assert s == [s[0]] + ([s[1]] + s[2..]);
    } else {
      QuotesReadBack(s[1..]);
      EscapeReads(s[0], Escaped(s[1..]));
      assert s == [s[0]] + s[1..];
    }
  }

  lemma EscapedIs(s: Text)
    ensures Escaped(s) ==
      if s == [] then [] else if Pair(s) then [s[0], s[1]] + Escaped(s[2..]) else Escape(s[0]) + Escaped(s[1..])
  {
    hide Escape;
  }

  lemma PairIsPlain(s: Text)
    requires Pair(s)
    ensures |s| >= 2 && s[0] > 92 && s[1] > 92
  {
  }

  lemma NothingToRead()
    ensures Unescaped([]) == Some([])
  {
  }

  lemma PlainReads(u: Unit, rest: Text)
    requires u > 92
    ensures Unescaped([u] + rest) == Then(u, Unescaped(rest))
  {
    assert ([u] + rest)[1..] == rest;
  }

  function DigitValues(t: Text): seq<nat>
    requires forall i :: 0 <= i < |t| ==> IsDigit(t[i])
  {
    seq(|t|, i requires 0 <= i < |t| => assert IsDigit(t[i]); t[i] - 48)
  }

  // Integers are printed in decimal, without leading zeros, a minus sign in front of negative ones.
  lemma DecimalReadsBack(n: int)
    ensures n < 0 ==> Decimal(n) == [45] + Digits(0 - n)
    ensures n >= 0 ==> Decimal(n) == Digits(n)
    ensures var ds := DigitValues(Digits(if n < 0 then 0 - n else n));
      && Horner(ds, 10, 0) == (if n < 0 then 0 - n else n)
      && (ds[0] == 0 ==> n == 0 && |ds| == 1)
  {
    var m: nat := if n < 0 then 0 - n else n;
    var ds := DigitValues(Digits(m));
    HornerIsVal(ds, 10);
    if m == 0 {
      assert ds == [0];
      assert Val([0], 10) == Val([0][..0], 10) * 10 + 0;
    } else {
      assert ds == DigitsOf(m, 10);
      ValOfDigits(m, 10);
    }
  }
}
