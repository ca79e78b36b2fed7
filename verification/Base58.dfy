// Base58 and Base58Check as src/adapters/tron/node-tron-address-codec.ts implements them
// (draft-msporny-base58, sections 3 and 4). Texts are sequences of code units; the checksum, twice SHA-256, is a
// parameter that yields four bytes.
module Base58 {
  import opened Prelude

  type Byte = n: nat | n < 256

  // ---- positional numbers ----

  predicate Below(ds: seq<nat>, base: nat) { forall i :: 0 <= i < |ds| ==> ds[i] < base }

  function Val(ds: seq<nat>, base: nat): nat {
    if ds == [] then 0 else Val(ds[..|ds| - 1], base) * base + ds[|ds| - 1]
  }

  // The digits of v without leading zeros; none for zero.
  function DigitsOf(v: nat, base: nat): (ds: seq<nat>)
    requires base > 1
    ensures Below(ds, base) && (ds != [] ==> ds[0] != 0) && (ds == [] <==> v == 0)
    decreases v
  {
    if v == 0 then [] else (DivMod(v, base); DigitsOf(v / base, base) + [v % base])
  }

  lemma DivMod(v: nat, base: nat)
    requires base > 1
    ensures (v / base) * base + v % base == v && 0 <= v / base && 0 <= v % base < base
    ensures v > 0 ==> v / base < v
  {
    var q := v / base;
    assert v == base * q + v % base;
    if q >= 1 { TimesTwo(q, base); }
  }

  lemma TimesTwo(q: nat, base: nat)
    requires base > 1
    ensures base * q >= 2 * q && base * q == q * base
  {
  }

  function Zeros(n: nat): (ds: seq<nat>)
    ensures |ds| == n && forall i :: 0 <= i < n ==> ds[i] == 0
  {
    seq(n, _ => 0)
  }

  function Lead(ds: seq<nat>): (n: nat)
    ensures n <= |ds| && (forall i :: 0 <= i < n ==> ds[i] == 0) && (n < |ds| ==> ds[n] != 0)
  {
    if ds == [] || ds[0] != 0 then 0 else 1 + Lead(ds[1..])
  }

  // The same number in another base, with one zero digit for each leading zero digit.
  function Convert(ds: seq<nat>, base: nat, to: nat): seq<nat>
    requires to > 1
  {
    Zeros(Lead(ds)) + DigitsOf(Val(ds, base), to)
  }

  lemma ValOfLast(init: seq<nat>, last: nat, base: nat)
    ensures Val(init + [last], base) == Val(init, base) * base + last
  {
    assert (init + [last])[..|init|] == init;
  }

  lemma {:induction false} ValOfDigits(v: nat, base: nat)
    requires base > 1
    ensures Val(DigitsOf(v, base), base) == v
    decreases v
  {
    if v > 0 {
      hide Val;
      DivMod(v, base);
      var init, last := DigitsOf(v / base, base), v % base;
      ValOfDigits(v / base, base);
      ValOfLast(init, last, base);
    }
  }

  lemma {:induction false} DigitsOfVal(ds: seq<nat>, base: nat)
    requires base > 1 && Below(ds, base) && (ds != [] ==> ds[0] != 0)
    ensures DigitsOf(Val(ds, base), base) == ds
    decreases |ds|
  {
    if ds != [] {
      var init, last := ds[..|ds| - 1], ds[|ds| - 1];
      DigitsOfVal(init, base);
      var v := Val(init, base);
      QuotientAndRest(v, last, base);
      if init == [] { assert v == 0; } else { assert DigitsOf(v, base) != []; MulPositive(v, base); }
      assert v * base + last > 0;
      assert ds == init + [last];
    }
  }

  lemma MulPositive(a: nat, b: nat)
    requires a > 0 && b > 0
    ensures a * b > 0
  {
  }

  lemma QuotientAndRest(q: nat, r: nat, base: nat)
    requires r < base
    ensures (q * base + r) / base == q && (q * base + r) % base == r
  {
    var n := q * base + r;
    SmallMultiple(q - n / base, base, n % base - r);
  }

  lemma SmallMultiple(x: int, base: int, d: int)
    requires x * base == d && 0 - base < d < base
    ensures x == 0
  {
    if x > 0 { AtLeast(x, base); } else if x < 0 { AtLeast(0 - x, base); Opposite(x, base); }
  }

  lemma AtLeast(x: int, base: int)
    requires x >= 1 && base >= 0
    ensures x * base >= base
  {
  }

  lemma Opposite(x: int, base: int)
    ensures (0 - x) * base == 0 - x * base
  {
  }

  lemma {:induction false} ZerosWeighNothing(n: nat, ds: seq<nat>, base: nat)
    ensures Val(Zeros(n) + ds, base) == Val(ds, base)
    decreases n + |ds|
  {
    var all := Zeros(n) + ds;
    if ds != [] {
      assert all[..|all| - 1] == Zeros(n) + ds[..|ds| - 1];
      ZerosWeighNothing(n, ds[..|ds| - 1], base);
    } else if n > 0 {
      assert all[..n - 1] == Zeros(n - 1) + [];
      ZerosWeighNothing(n - 1, [], base);
    }
  }

  lemma {:induction false} LeadOf(n: nat, ds: seq<nat>)
    requires ds != [] ==> ds[0] != 0
    ensures Lead(Zeros(n) + ds) == n
  {
    var all := Zeros(n) + ds;
    assert n < |all| ==> all[n] == ds[0];
    assert forall i :: 0 <= i < n ==> all[i] == 0;
  }

  // Changing base there and back loses nothing, leading zeros included.
  lemma ConvertBack(ds: seq<nat>, base: nat, to: nat)
    requires base > 1 && to > 1 && Below(ds, base)
    ensures Below(Convert(ds, base, to), to)
    ensures Convert(Convert(ds, base, to), to, base) == ds
  {
    hide DigitsOf, Val, Lead;
    var n, v := Lead(ds), Val(ds, base);
    LeadOf(n, DigitsOf(v, to));
    ZerosWeighNothing(n, DigitsOf(v, to), to);
    ValOfDigits(v, to);
    SplitLead(ds, base);
  }

  lemma SplitLead(ds: seq<nat>, base: nat)
    requires base > 1 && Below(ds, base)
    ensures Zeros(Lead(ds)) + DigitsOf(Val(ds, base), base) == ds
  {
    hide DigitsOf, Val, Lead;
    var n := Lead(ds);
    assert ds == Zeros(n) + ds[n..];
    ZerosWeighNothing(n, ds[n..], base);
    DigitsOfVal(ds[n..], base);
  }

  // ---- the alphabet ----

  const DIGITS := "123456789"
  const UPPER := "ABCDEFGH" + "JKLMN" + "PQRSTUVWXYZ"
  const LOWER := "abcdefghijk" + "mnopqrstuvwxyz"
  const ALPHABET := DIGITS + UPPER + LOWER

  lemma LetterAt(d: nat)
    requires d < 58
    ensures |ALPHABET| == 58
    ensures ALPHABET[d] as int ==
      if d < 9 then '1' as int + d
      else if d < 17 then 'A' as int + d - 9
      else if d < 22 then 'J' as int + d - 17
      else if d < 33 then 'P' as int + d - 22
      else if d < 44 then 'a' as int + d - 33
      else 'm' as int + d - 44
  {
    if d < 9 { assert ALPHABET[d] == DIGITS[d]; }
    else if d < 33 { assert ALPHABET[d] == UPPER[d - 9]; }
    else { assert ALPHABET[d] == LOWER[d - 33]; }
  }

  lemma AlphabetAscends(i: nat, j: nat)
    requires i < j < 58
    ensures |ALPHABET| == 58 && ALPHABET[i] < ALPHABET[j]
  {
    LetterAt(i);
    LetterAt(j);
  }

  // BASE58_INDEX.get
  function IndexFrom(c: char, i: nat): (r: Option<nat>)
    ensures r.Some? ==> i <= r.value < 58 && ALPHABET[r.value] == c
    ensures r.None? ==> forall j :: i <= j < 58 ==> ALPHABET[j] != c
    decreases 58 - i
  {
    if i >= 58 then None else if ALPHABET[i] == c then Some(i) else IndexFrom(c, i + 1)
  }

  function Index(c: char): Option<nat> { IndexFrom(c, 0) }

  lemma IndexOfLetter(d: nat)
    requires d < 58
    ensures Index(ALPHABET[d]) == Some(d)
  {
    var r := Index(ALPHABET[d]);
    if r.Some? && r.value < d { AlphabetAscends(r.value, d); } else if r.Some? && r.value > d { AlphabetAscends(d, r.value); }
  }

  function Text(ds: seq<nat>): string
    requires Below(ds, 58)
  {
    seq(|ds|, i requires 0 <= i < |ds| => ALPHABET[ds[i]])
  }

  predicate InAlphabet(s: string) { forall i :: 0 <= i < |s| ==> Index(s[i]).Some? }

  function Indices(s: string): (ds: seq<nat>)
    requires InAlphabet(s)
    ensures |ds| == |s| && Below(ds, 58)
  {
    seq(|s|, i requires 0 <= i < |s| => Index(s[i]).value)
  }

  lemma IndicesOfText(ds: seq<nat>)
    requires Below(ds, 58)
    ensures InAlphabet(Text(ds)) && Indices(Text(ds)) == ds
  {
    forall i | 0 <= i < |ds| ensures Index(Text(ds)[i]) == Some(ds[i]) { IndexOfLetter(ds[i]); }
  }

  lemma TextOfIndices(s: string)
    requires InAlphabet(s)
    ensures Text(Indices(s)) == s
  {
  }

  // ---- base58Encode and base58Decode ----

  function Encoded(bytes: seq<Byte>): string {
    var ds := Convert(bytes, 256, 58);
    Text(ds)
  }

  function Decoded(s: string): Option<seq<Byte>> {
    if s == [] || !InAlphabet(s) then None
    else
      var ds := Convert(Indices(s), 58, 256);
      Some(ds)
  }

  method Encode(bytes: seq<Byte>) returns (text: string)
    ensures text == Encoded(bytes)
  {
    hide DigitsOf, Val, Lead, Text;
    var value: nat := 0;
    ValNone(256);
    assert bytes[..0] == [];
    for i := 0 to |bytes|
      invariant value == Val(bytes[..i], 256)
    {
      ValMore(bytes, i, 256);
      value := value * 256 + bytes[i];
    }
    assert bytes[..|bytes|] == bytes;
    var encoded := EncodeNumber(value);
    var leadingZeroes := CountZeroes(bytes);
    TextOfZeros(leadingZeroes, DigitsOf(value, 58));
    text := seq(leadingZeroes, _ => '1') + encoded;
  }

  lemma ValNone(base: nat)
    ensures Val([], base) == 0
  {
  }

  lemma ValMore(ds: seq<nat>, i: nat, base: nat)
    requires i < |ds|
    ensures Val(ds[..i + 1], base) == Val(ds[..i], base) * base + ds[i]
  {
    assert ds[..i + 1] == ds[..i] + [ds[i]];
    ValOfLast(ds[..i], ds[i], base);
  }

  // The first while loop of base58Encode.
  method EncodeNumber(number: nat) returns (encoded: string)
    ensures encoded == Text(DigitsOf(number, 58))
  {
    var value := number;
    ghost var low: seq<nat> := [];
    encoded := "";
    while value > 0
      invariant Below(low, 58) && encoded == Text(low)
      invariant DigitsOf(number, 58) == DigitsOf(value, 58) + low
      decreases value
    {
      var remainder := value % 58;
      OneDigit(value, 58, low);
      low := [remainder] + low;
      encoded := [ALPHABET[remainder]] + encoded;
      DivMod(value, 58);
      value := value / 58;
    }
    assert DigitsOf(number, 58) == low;
  }

  lemma OneDigit(value: nat, base: nat, low: seq<nat>)
    requires base > 1 && value > 0
    ensures DigitsOf(value, base) + low == DigitsOf(value / base, base) + ([value % base] + low)
  {
  }

  method CountZeroes(ds: seq<nat>) returns (leadingZeroes: nat)
    ensures leadingZeroes == Lead(ds)
  {
    leadingZeroes := 0;
    while leadingZeroes < |ds| && ds[leadingZeroes] == 0
      invariant leadingZeroes <= |ds| && forall i :: 0 <= i < leadingZeroes ==> ds[i] == 0
    {
      leadingZeroes := leadingZeroes + 1;
    }
    LeadIs(ds, leadingZeroes);
  }

  lemma TextOfZeros(n: nat, ds: seq<nat>)
    requires Below(ds, 58)
    ensures Text(Zeros(n) + ds) == seq(n, _ => '1') + Text(ds)
  {
    LetterAt(0);
  }

  lemma LeadIs(ds: seq<nat>, n: nat)
    requires n <= |ds| && (forall i :: 0 <= i < n ==> ds[i] == 0) && (n < |ds| ==> ds[n] != 0)
    ensures Lead(ds) == n
  {
    assert ds == Zeros(n) + ds[n..];
    LeadOf(n, ds[n..]);
  }

  method Decode(value: string) returns (r: Option<seq<Byte>>)
    ensures r == Decoded(value)
  {
    if |value| == 0 { return None; }
    var numeric := ReadNumber(value);
    if numeric.None? { return None; }
    var decoded := DecodeNumber(numeric.value);
    var leadingZeroes := CountOnes(value);
    return Some(Zeros(leadingZeroes) + Reverse(decoded));
  }

  method ReadNumber(value: string) returns (r: Option<nat>)
    ensures r == if InAlphabet(value) then Some(Val(Indices(value), 58)) else None
  {
    var numeric: nat := 0;
    assert value[..0] == [] && Indices("") == [];
    for i := 0 to |value|
      invariant forall j :: 0 <= j < i ==> Index(value[j]).Some?
      invariant numeric == Val(Indices(value[..i]), 58)
    {
      var index := Index(value[i]);
      if index.None? { return None; }
      assert Indices(value[..i + 1]) == Indices(value[..i]) + [index.value];
      ValOfLast(Indices(value[..i]), index.value, 58);
      numeric := numeric * 58 + index.value;
    }
    assert value[..|value|] == value;
    r := Some(numeric);
  }

  // The second while loop of base58Decode; the bytes come out lowest first.
  method DecodeNumber(number: nat) returns (decoded: seq<Byte>)
    ensures Reverse(decoded) == DigitsOf(number, 256)
  {
    var numeric := number;
    decoded := [];
    while numeric > 0
      invariant DigitsOf(number, 256) == DigitsOf(numeric, 256) + Reverse(decoded)
      decreases numeric
    {
      var low: Byte := numeric % 256;
      assert Reverse(decoded + [low]) == [low] + Reverse(decoded);
      OneDigit(numeric, 256, Reverse(decoded));
      decoded := decoded + [low];
      DivMod(numeric, 256);
      numeric := numeric / 256;
    }
    assert Reverse(decoded) == DigitsOf(number, 256);
  }

  method CountOnes(value: string) returns (leadingZeroes: nat)
    requires InAlphabet(value)
    ensures leadingZeroes == Lead(Indices(value))
  {
    leadingZeroes := 0;
    while leadingZeroes < |value| && value[leadingZeroes] == '1'
      invariant leadingZeroes <= |value| && forall i :: 0 <= i < leadingZeroes ==> value[i] == '1'
    {
      leadingZeroes := leadingZeroes + 1;
    }
    OnesAreZeros(value, leadingZeroes);
    LeadIs(Indices(value), leadingZeroes);
  }

  function Reverse(s: seq<Byte>): (r: seq<Byte>)
    ensures |r| == |s|
  {
    seq(|s|, i requires 0 <= i < |s| => s[|s| - 1 - i])
  }

  lemma OnesAreZeros(s: string, n: nat)
    requires InAlphabet(s) && n <= |s| && (forall i :: 0 <= i < n ==> s[i] == '1') && (n < |s| ==> s[n] != '1')
    ensures forall i :: 0 <= i < n ==> Indices(s)[i] == 0
    ensures n < |s| ==> Indices(s)[n] != 0
  {
    LetterAt(0);
    IndexOfLetter(0);
  }

  // Section 4 undoes section 3 on every byte string that is not empty.
  lemma DecodeEncode(bytes: seq<Byte>)
    ensures Decoded(Encoded(bytes)) == if bytes == [] then None else Some(bytes)
  {
    ConvertBack(bytes, 256, 58);
    var ds := Convert(bytes, 256, 58);
    IndicesOfText(ds);
    assert Convert([], 58, 256) == [];
  }

  // Section 3 undoes section 4 on every text it accepts.
  lemma EncodeDecode(s: string)
    requires Decoded(s).Some?
    ensures Decoded(s).value != [] && Encoded(Decoded(s).value) == s
  {
    ConvertBack(Indices(s), 58, 256);
    TextOfIndices(s);
    assert Convert([], 256, 58) == [];
  }

  // ---- addresses ----

  ghost predicate FourBytes(sum: seq<Byte> -> seq<Byte>) { forall p :: |sum(p)| == 4 }

  function EncodedPayload(payload: seq<Byte>, sum: seq<Byte> -> seq<Byte>): string { Encoded(payload + sum(payload)) }

  // validateBase58Check
  function Validated(value: string, sum: seq<Byte> -> seq<Byte>): Option<string> {
    var decoded := Decoded(value);
    if decoded.None? || |decoded.value| != 25 then None
    else
      var payload, supplied := decoded.value[..21], decoded.value[21..];
      if payload[0] != 0x41 || supplied != sum(payload) then None
      else if EncodedPayload(payload, sum) == value then Some(EncodedPayload(payload, sum)) else None
  }

  function HexDigit(c: char): Option<nat> {
    if '0' <= c <= '9' then Some(c as int - '0' as int)
    else if 'a' <= c <= 'f' then Some(c as int - 'a' as int + 10)
    else if 'A' <= c <= 'F' then Some(c as int - 'A' as int + 10)
    else None
  }

  // HEX41_PATTERN
  predicate Hex41(s: string) {
    |s| == 42 && s[..2] == "41" && forall i :: 0 <= i < 42 ==> HexDigit(s[i]).Some?
  }

  predicate Hex(s: string) { forall i :: 0 <= i < |s| ==> HexDigit(s[i]).Some? }

  function HexBytes(s: string): (bytes: seq<Byte>)
    requires Hex(s)
    ensures |bytes| == |s| / 2
  {
    seq(|s| / 2, i requires 0 <= i < |s| / 2 => HexDigit(s[2 * i]).value * 16 + HexDigit(s[2 * i + 1]).value)
  }

  datatype Encoding = Base58Check(value: string) | Hex41Text(value: string)

  // toBase58Check
  function ToBase58Check(address: Encoding, sum: seq<Byte> -> seq<Byte>): Option<string> {
    match address
    case Base58Check(value) => Validated(value, sum)
    case Hex41Text(value) =>
      if !Hex41(value) then None
      else
        var payload := HexBytes(value);
        if |payload| != 21 || payload[0] != 0x41 then None else Some(EncodedPayload(payload, sum))
  }

  // The canonical text of an accepted address is the text itself, so its last test rejects nothing.
  lemma CanonicalTestNeverRejects(value: string, sum: seq<Byte> -> seq<Byte>)
    requires FourBytes(sum)
    ensures Validated(value, sum) ==
      if Decoded(value).Some? && |Decoded(value).value| == 25 && Decoded(value).value[0] == 0x41 &&
         Decoded(value).value[21..] == sum(Decoded(value).value[..21])
      then Some(value) else None
  {
    if Decoded(value).Some? && |Decoded(value).value| == 25 {
      EncodeDecode(value);
      var bytes := Decoded(value).value;
      assert bytes[..21] + bytes[21..] == bytes;
    }
  }

  // Different payloads have different texts.
  lemma PayloadsAreDistinguished(p: seq<Byte>, q: seq<Byte>, sum: seq<Byte> -> seq<Byte>)
    requires FourBytes(sum)
    ensures EncodedPayload(p, sum) == EncodedPayload(q, sum) <==> p == q
  {
    DecodeEncode(p + sum(p));
    DecodeEncode(q + sum(q));
    if p + sum(p) == q + sum(q) {
      assert |p| == |q|;
      assert (p + sum(p))[..|p|] == p && (q + sum(q))[..|q|] == q;
    }
  }

  // The result is a text the codec accepts and leaves alone.
  lemma ToBase58CheckIsIdempotent(address: Encoding, sum: seq<Byte> -> seq<Byte>)
    requires FourBytes(sum) && ToBase58Check(address, sum).Some?
    ensures ToBase58Check(Base58Check(ToBase58Check(address, sum).value), sum) == ToBase58Check(address, sum)
  {
    if address.Base58Check? {
      CanonicalTestNeverRejects(address.value, sum);
    } else {
      var payload := HexBytes(address.value);
      DecodeEncode(payload + sum(payload));
      CanonicalTestNeverRejects(EncodedPayload(payload, sum), sum);
      assert (payload + sum(payload))[..21] == payload && (payload + sum(payload))[21..] == sum(payload);
    }
  }

  function Lower(c: char): char { if 'A' <= c <= 'Z' then (c as int + 32) as char else c }

  lemma SameDigit(a: char, b: char)
    requires HexDigit(a).Some? && HexDigit(b).Some?
    ensures HexDigit(a) == HexDigit(b) <==> Lower(a) == Lower(b)
  {
  }

  // Every hexadecimal address is accepted, and two of them get one text exactly when they are equal up to case.
  lemma HexAddresses(a: string, b: string, sum: seq<Byte> -> seq<Byte>)
    requires FourBytes(sum) && Hex41(a) && Hex41(b)
    ensures ToBase58Check(Hex41Text(a), sum).Some?
    ensures ToBase58Check(Hex41Text(a), sum) == ToBase58Check(Hex41Text(b), sum)
      <==> forall i :: 0 <= i < 42 ==> Lower(a[i]) == Lower(b[i])
  {
    FirstByte(a);
    FirstByte(b);
    PayloadsAreDistinguished(HexBytes(a), HexBytes(b), sum);
    HexBytesUpToCase(a, b);
  }

  lemma HexBytesUpToCase(a: string, b: string)
    requires Hex(a) && Hex(b) && |a| == |b| && |a| % 2 == 0
    ensures HexBytes(a) == HexBytes(b) <==> forall i :: 0 <= i < |a| ==> Lower(a[i]) == Lower(b[i])
  {
    if HexBytes(a) == HexBytes(b) {
      forall i | 0 <= i < |a| ensures Lower(a[i]) == Lower(b[i]) {
        BytePair(a, b, i / 2);
        assert HexBytes(a)[i / 2] == HexBytes(b)[i / 2];
        assert i == 2 * (i / 2) || i == 2 * (i / 2) + 1;
      }
    }
    if forall i :: 0 <= i < |a| ==> Lower(a[i]) == Lower(b[i]) {
      forall k | 0 <= k < |a| / 2 ensures HexBytes(a)[k] == HexBytes(b)[k] { BytePair(a, b, k); }
    }
  }

  lemma BytePair(a: string, b: string, k: nat)
    requires Hex(a) && Hex(b) && |a| == |b| && k < |a| / 2
    ensures HexBytes(a)[k] == HexBytes(b)[k] <==> Lower(a[2 * k]) == Lower(b[2 * k]) && Lower(a[2 * k + 1]) == Lower(b[2 * k + 1])
  {
    SameDigit(a[2 * k], b[2 * k]);
    SameDigit(a[2 * k + 1], b[2 * k + 1]);
    DigitBounds(a[2 * k + 1]);
    DigitBounds(b[2 * k + 1]);
    hide HexDigit, Lower;
    ByteAt(a, k);
    ByteAt(b, k);
    hide HexBytes;
  }

  lemma ByteAt(a: string, k: nat)
    requires Hex(a) && k < |a| / 2
    ensures HexBytes(a)[k] == HexDigit(a[2 * k]).value * 16 + HexDigit(a[2 * k + 1]).value
  {
    hide HexDigit;
  }

  lemma DigitBounds(c: char)
    requires HexDigit(c).Some?
    ensures HexDigit(c).value < 16
  {
  }

  lemma FirstByte(s: string)
    requires Hex41(s)
    ensures |HexBytes(s)| == 21 && HexBytes(s)[0] == 0x41
  {
    assert s[0] == s[..2][0] && s[1] == s[..2][1];
  }

  // ---- what the texts say ----

  // The number some digits write, read from the left.
  function Horner(ds: seq<nat>, base: nat, read: nat): nat
    decreases |ds|
  {
    if ds == [] then read else Horner(ds[1..], base, read * base + ds[0])
  }

  lemma {:induction false} HornerMore(ds: seq<nat>, d: nat, base: nat, read: nat)
    ensures Horner(ds + [d], base, read) == Horner(ds, base, read) * base + d
    decreases |ds|
  {
    if ds == [] {
      assert [d][1..] == [];
      assert Horner([d], base, read) == Horner([], base, read * base + d);
    } else {
      assert (ds + [d])[1..] == ds[1..] + [d];
      HornerMore(ds[1..], d, base, read * base + ds[0]);
    }
  }

  lemma {:induction false} HornerIsVal(ds: seq<nat>, base: nat)
    ensures Horner(ds, base, 0) == Val(ds, base)
    decreases |ds|
  {
    if ds != [] {
      var init := ds[..|ds| - 1];
      assert ds == init + [ds[|ds| - 1]];
      HornerIsVal(init, base);
      HornerMore(init, ds[|ds| - 1], base, 0);
    }
  }

  // The value of a letter, range by range: digits without 0, capitals without I and O, small letters without l.
  function Weight(c: char): nat {
    if '1' <= c <= '9' then c as int - '1' as int
    else if 'A' <= c <= 'H' then c as int - 'A' as int + 9
    else if 'J' <= c <= 'N' then c as int - 'J' as int + 17
    else if 'P' <= c <= 'Z' then c as int - 'P' as int + 22
    else if 'a' <= c <= 'k' then c as int - 'a' as int + 33
    else if 'm' <= c <= 'z' then c as int - 'm' as int + 44
    else 0
  }

  function Weights(s: string): (ds: seq<nat>) { seq(|s|, i requires 0 <= i < |s| => Weight(s[i])) }

  lemma WeightsOfText(ds: seq<nat>)
    requires Below(ds, 58)
    ensures Weights(Text(ds)) == ds
  {
    forall i | 0 <= i < |ds| ensures Weights(Text(ds))[i] == ds[i] { LetterAt(ds[i]); }
  }

  // The text writes, in base 58 and big-endian, the number the bytes write in base 256, after one 1 for each leading zero
  // byte and no other leading 1.
  lemma EncodingIsTheNumber(bytes: seq<Byte>)
    ensures Horner(Weights(Encoded(bytes)), 58, 0) == Horner(bytes, 256, 0)
    ensures Lead(Weights(Encoded(bytes))) == Lead(bytes)
  {
    hide Val, DigitsOf, Text, Weights;
    var n, digits := Lead(bytes), DigitsOf(Val(bytes, 256), 58);
    ConvertBelow(bytes);
    var ds := Convert(bytes, 256, 58);
    WeightsOfText(ds);
    HornerIsVal(ds, 58);
    HornerIsVal(bytes, 256);
    ValOfDigits(Val(bytes, 256), 58);
    ZerosWeighNothing(n, digits, 58);
    LeadOf(n, digits);
  }

  lemma ConvertBelow(bytes: seq<Byte>)
    ensures Below(Convert(bytes, 256, 58), 58)
  {
    ConvertBack(bytes, 256, 58);
  }

  const HEX := "0123456789abcdef"

  // Bytes as lower-case hexadecimal, two digits each.
  function Printed(bytes: seq<Byte>): string {
    if bytes == [] then "" else [HEX[bytes[0] / 16], HEX[bytes[0] % 16]] + Printed(bytes[1..])
  }

  function Lowered(s: string): string { seq(|s|, i requires 0 <= i < |s| => Lower(s[i])) }

  lemma HexDigitIs(c: char)
    ensures HexDigit(c).Some? <==> Lower(c) in HEX
    ensures HexDigit(c).Some? ==> HexDigit(c).value < 16 && HEX[HexDigit(c).value] == Lower(c)
  {
    var l := Lower(c);
    if HexDigit(c).Some? {
      HexLetter(HexDigit(c).value);
    } else if l in HEX {
      var d :| 0 <= d < |HEX| && HEX[d] == l;
      HexLetter(d);
    }
  }

  lemma HexLetter(d: nat)
    requires d < 16
    ensures |HEX| == 16 && HEX[d] as int == if d < 10 then '0' as int + d else 'a' as int + d - 10
  {
  }

  lemma SplitByte(a: nat, b: nat)
    requires a < 16 && b < 16
    ensures (a * 16 + b) / 16 == a && (a * 16 + b) % 16 == b
  {
  }

  lemma FirstPair(s: string)
    requires Hex(s) && |s| >= 2 && |s| % 2 == 0
    ensures |HexBytes(s)| > 0 && HexBytes(s)[0] < 256 && HEX[HexBytes(s)[0] / 16] == Lower(s[0]) && HEX[HexBytes(s)[0] % 16] == Lower(s[1])
  {
    hide HexBytes, Lower, HexDigit;
    assert HexDigit(s[0]).Some? && HexDigit(s[1]).Some?;
    HexDigitIs(s[0]);
    HexDigitIs(s[1]);
    ByteAt(s, 0);
    SplitByte(HexDigit(s[0]).value, HexDigit(s[1]).value);
  }

  lemma RestOfBytes(s: string)
    requires Hex(s) && |s| >= 2
    ensures HexBytes(s[2..]) == HexBytes(s)[1..]
  {
    hide HexDigit;
  }

  lemma RestIsHex(s: string)
    requires Hex(s) && |s| >= 2
    ensures Hex(s[2..])
  {
    hide HexDigit;
  }

  // Printing the bytes of a hexadecimal text gives the text back in lower case.
  lemma {:induction false} HexIsPrinted(s: string)
    requires Hex(s) && |s| % 2 == 0
    ensures Printed(HexBytes(s)) == Lowered(s)
    decreases |s|
  {
    hide Hex, HexBytes, Lower;
    if s != [] {
      RestIsHex(s);
      RestOfBytes(s);
      HexIsPrinted(s[2..]);
      FirstPair(s);
      assert Lowered(s) == [Lower(s[0]), Lower(s[1])] + Lowered(s[2..]);
    } else {
      assert |HexBytes(s)| == 0;
    }
  }

  // What toBase58Check makes of a hexadecimal address decodes to the 21 bytes the address writes and their checksum.
  lemma HexAddressMeans(a: string, sum: seq<Byte> -> seq<Byte>)
    requires FourBytes(sum) && Hex41(a)
    ensures var text := ToBase58Check(Hex41Text(a), sum);
      && text.Some? && Decoded(text.value).Some? && |Decoded(text.value).value| == 25
      && Printed(Decoded(text.value).value[..21]) == Lowered(a)
      && Decoded(text.value).value[21..] == sum(Decoded(text.value).value[..21])
  {
    hide HexBytes, Printed, Encoded, Decoded, HexDigit;
    HexAddresses(a, a, sum);
    FirstByte(a);
    HexIsPrinted(a);
    var payload := HexBytes(a);
    DecodeEncode(payload + sum(payload));
    assert (payload + sum(payload))[..21] == payload && (payload + sum(payload))[21..] == sum(payload);
  }
}
