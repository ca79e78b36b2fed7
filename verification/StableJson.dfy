// The canonical JSON the signers digest: stableJson of src/adapters/signer/postgres-tron-delegation-signer.ts (the same
// function is in src/adapters/signer/postgres-tron-reclaim-signer.ts). Texts are sequences of UTF-16 code units.
module StableJson {
  import opened Prelude
  import opened Base58

  type Unit = n: nat | n < 0x10000
  type Text = seq<Unit>

  // Numbers are integers that print in decimal; JOther is anything that is no JSON value.
  datatype Json =
    | JNull
    | JBool(b: bool)
    | JNumber(n: int)
    | JString(s: Text)
    | JArray(items: seq<Json>)
    | JObject(fields: seq<Field>)
    | JNonFinite
    | JOther

  // One property, in the order the object has them.
  datatype Field = Field(key: Text, value: Json)

  datatype JsonError = NonFiniteNumber | NonJsonValue

  // ---- JSON.stringify of strings and integers ----

  const QUOTE: Unit := 34
  const COMMA: Unit := 44
  const COLON: Unit := 58
  const BACKSLASH: Unit := 92

  predicate High(u: Unit) { 0xD800 <= u < 0xDC00 }
  predicate Low(u: Unit) { 0xDC00 <= u < 0xE000 }

  function HexUnit(d: nat): Unit requires d < 16 { if d < 10 then 48 + d else 87 + d }

  function Hex4(u: Unit): Text {
    [HexUnit(u / 4096), HexUnit(u / 256 % 16), HexUnit(u / 16 % 16), HexUnit(u % 16)]
  }

  // The letter of a two-character escape.
  function Short(u: Unit): Option<Unit> {
    if u == 8 then Some(98) else if u == 9 then Some(116) else if u == 10 then Some(110)
    else if u == 12 then Some(102) else if u == 13 then Some(114)
    else if u == QUOTE then Some(QUOTE) else if u == BACKSLASH then Some(BACKSLASH)
    else None
  }

  // One code unit that is not half of a surrogate pair.
  function Escape(u: Unit): Text {
    if Short(u).Some? then [BACKSLASH, Short(u).value]
    else if u < 32 || High(u) || Low(u) then [BACKSLASH, 117] + Hex4(u)
    else [u]
  }

  function Escaped(s: Text): Text {
    if s == [] then []
    else if |s| >= 2 && High(s[0]) && Low(s[1]) then [s[0], s[1]] + Escaped(s[2..])
    else Escape(s[0]) + Escaped(s[1..])
  }

  function Quote(s: Text): Text { [QUOTE] + Escaped(s) + [QUOTE] }

  function Digits(n: nat): (t: Text)
    ensures t != [] && forall i :: 0 <= i < |t| ==> IsDigit(t[i])
  {
    var ds := DigitsOf(n, 10);
    if n == 0 then [48] else seq(|ds|, i requires 0 <= i < |ds| => 48 + ds[i])
  }

  predicate IsDigit(u: Unit) { 48 <= u < 58 }

  function Decimal(n: int): Text { if n < 0 then [45] + Digits(0 - n) else Digits(n) }

  // ---- sort ----

  // Comparison by code units, as Array.prototype.sort does.
  predicate Before(a: Text, b: Text) {
    if b == [] then false
    else if a == [] then true
    else if a[0] != b[0] then a[0] < b[0]
    else Before(a[1..], b[1..])
  }

  function Insert(k: Text, keys: seq<Text>): seq<Text> {
    if keys == [] || Before(k, keys[0]) then [k] + keys else [keys[0]] + Insert(k, keys[1..])
  }

  function Sort(keys: seq<Text>): seq<Text> {
    if keys == [] then [] else Insert(keys[0], Sort(keys[1..]))
  }

  // ---- stableJson ----

  function KeysOf(fields: seq<Field>): (keys: seq<Text>)
    ensures |keys| == |fields| && forall i :: 0 <= i < |keys| ==> keys[i] == fields[i].key
  {
    seq(|fields|, i requires 0 <= i < |fields| => fields[i].key)
  }

  // The position of a property, or the number of properties.
  function Find(fields: seq<Field>, key: Text): (i: nat)
    ensures i <= |fields| && (i < |fields| ==> fields[i].key == key)
    ensures i == |fields| <==> forall j :: 0 <= j < |fields| ==> fields[j].key != key
  {
    if fields == [] || fields[0].key == key then 0
    else
      assert forall j :: 0 < j < |fields| ==> fields[j] == fields[1..][j - 1];
      1 + Find(fields[1..], key)
  }

  function Render(v: Json): Text
    decreases v, 0
  {
    match v
    case JNull => [110, 117, 108, 108]
    case JBool(b) => if b then [116, 114, 117, 101] else [102, 97, 108, 115, 101]
    case JNumber(n) => Decimal(n)
    case JString(s) => Quote(s)
    case JArray(items) => [91] + Items(items) + [93]
    case JObject(fields) => [123] + Entries(fields, Sort(KeysOf(fields))) + [125]
    case _ => []
  }

  // The elements, separated by commas.
  function Items(items: seq<Json>): Text
    decreases items, 0
  {
    if items == [] then []
    else if |items| == 1 then Render(items[0])
    else Render(items[0]) + [COMMA] + Items(items[1..])
  }

  function Entry(fields: seq<Field>, key: Text): Text
    decreases fields, 0
  {
    var i := Find(fields, key);
    Quote(key) + [COLON] + if i < |fields| then Render(fields[i].value) else []
  }

  function Entries(fields: seq<Field>, keys: seq<Text>): Text
    decreases fields, |keys| + 1
  {
    if keys == [] then []
    else if |keys| == 1 then Entry(fields, keys[0])
    else Entry(fields, keys[0]) + [COMMA] + Entries(fields, keys[1..])
  }

  // The first thing stableJson throws for.
  function Fault(v: Json): Option<JsonError>
    decreases v, 0
  {
    match v
    case JNonFinite => Some(NonFiniteNumber)
    case JOther => Some(NonJsonValue)
    case JArray(items) => ItemFault(items)
    case JObject(fields) => FieldFault(fields, Sort(KeysOf(fields)))
    case _ => None
  }

  function ItemFault(items: seq<Json>): Option<JsonError>
    decreases items, 0
  {
    if items == [] then None else if Fault(items[0]).Some? then Fault(items[0]) else ItemFault(items[1..])
  }

  function FieldFault(fields: seq<Field>, keys: seq<Text>): Option<JsonError>
    decreases fields, |keys|
  {
    if keys == [] then None
    else
      var i := Find(fields, keys[0]);
      if i < |fields| && Fault(fields[i].value).Some? then Fault(fields[i].value) else FieldFault(fields, keys[1..])
  }

  function StableJson(v: Json): Result<Text, JsonError> {
    if Fault(v).Some? then Err(Fault(v).value) else Ok(Render(v))
  }

  // ---- values ----

  const TEN_TO_21: int := 1_000_000_000_000_000_000_000

  predicate DistinctKeys(fields: seq<Field>) {
    forall i, j :: 0 <= i < j < |fields| ==> fields[i].key != fields[j].key
  }

  // What a JavaScript value always is, with integers in the range that prints without an exponent.
  predicate WellFormed(v: Json)
    decreases v
  {
    match v
    case JNumber(n) => 0 - TEN_TO_21 < n < TEN_TO_21
    case JArray(items) => forall i :: 0 <= i < |items| ==> WellFormed(items[i])
    case JObject(fields) => DistinctKeys(fields) && forall i :: 0 <= i < |fields| ==> WellFormed(fields[i].value)
    case _ => true
  }

  predicate Accepted(v: Json)
    decreases v
  {
    match v
    case JNonFinite => false
    case JOther => false
    case JArray(items) => forall i :: 0 <= i < |items| ==> Accepted(items[i])
    case JObject(fields) => forall i :: 0 <= i < |fields| ==> Accepted(fields[i].value)
    case _ => true
  }

  // Equal up to the order of object properties.
  predicate Same(v: Json, w: Json)
    decreases v
  {
    match v
    case JArray(items) =>
      w.JArray? && |items| == |w.items| && forall i :: 0 <= i < |items| ==> Same(items[i], w.items[i])
    case JObject(fields) =>
      && w.JObject?
      && (forall i :: 0 <= i < |fields| ==>
            Find(w.fields, fields[i].key) < |w.fields| && Same(fields[i].value, w.fields[Find(w.fields, fields[i].key)].value))
      && (forall j :: 0 <= j < |w.fields| ==> Find(fields, w.fields[j].key) < |fields|)
    case _ => v == w
  }
}
