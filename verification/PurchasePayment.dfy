// Payment terms of a purchase order: src/core/payments/purchase-order-payment.ts.
module PurchasePayment {
  import opened Prelude

  // A Date, which may be invalid.
  datatype Time = Instant(ms: int) | NotATime

  datatype Asset = TRX | USDT

  datatype Snapshot = Snapshot(
    packageCode: string,
    count: int,
    price: int,
    offset: int,
    asset: Asset,
    toAddress: string,
    token: Option<string>,
    confirmations: int,
    quoted: int,
    expiresAt: Option<Time>)

  datatype Expectation = Expectation(asset: Asset, token: Option<string>, toAddress: string, amount: int, confirmations: int)

  datatype Invalid = InvalidPackage | InvalidQuote | ContractMismatch | InvalidOffset | AmountMismatch

  // White space and line terminators of String.prototype.trim.
  predicate IsSpace(c: char) {
    var n := c as int;
    || 9 <= n <= 13 || n == 32 || n == 0xA0 || n == 0x1680 || 0x2000 <= n <= 0x200A
    || n == 0x2028 || n == 0x2029 || n == 0x202F || n == 0x205F || n == 0x3000 || n == 0xFEFF
  }

  function TrimStart(s: string): (t: string)
    ensures t == [] <==> forall c :: c in s ==> IsSpace(c)
    ensures t != [] ==> !IsSpace(t[0])
  {
    if s != [] && IsSpace(s[0]) then TrimStart(s[1..]) else s
  }

  function TrimEnd(s: string): (t: string)
    ensures t <= s
    ensures t == [] <==> forall c :: c in s ==> IsSpace(c)
  {
    if s != [] && IsSpace(s[|s| - 1]) then TrimEnd(s[..|s| - 1]) else s
  }

  function Trim(s: string): string { TrimEnd(TrimStart(s)) }

  predicate NonEmpty(s: string) { |Trim(s)| > 0 }

  // validatePersistedSnapshot
  function Validate(s: Snapshot): Option<Invalid> {
    if !NonEmpty(s.packageCode) || s.count <= 0 || s.price <= 0 then Some(InvalidPackage)
    else if s.offset < 0 then Some(InvalidOffset)
    else if !NonEmpty(s.toAddress) || s.quoted <= 0 || s.confirmations <= 0 || s.expiresAt == Some(NotATime) then
      Some(InvalidQuote)
    else if s.asset == TRX then
      if s.token.Some? then Some(ContractMismatch) else if s.offset != 0 then Some(InvalidOffset) else None
    else if s.token.None? || !NonEmpty(s.token.value) then Some(ContractMismatch)
    else if s.quoted != s.price + s.offset then Some(AmountMismatch)
    else None
  }

  // paymentExpectationFromOrderSnapshot
  function Expected(s: Snapshot): Option<Expectation> {
    if Validate(s).Some? then None
    else Some(Expectation(s.asset, s.token, s.toAddress, s.quoted, s.confirmations))
  }

  // withUsdtPaymentAttributionOffset
  function WithOffset(s: Snapshot, offset: int): Option<Snapshot> {
    if s.asset != USDT || offset < 0 then None
    else
      var attributed := s.(offset := offset, quoted := s.price + offset);
      if Validate(attributed).None? then Some(attributed) else None
  }

  datatype Quote = Quote(
    asset: Asset, toAddress: string, token: Option<string>, amount: int, confirmations: int, expiresAt: Option<Time>)

  datatype Contract = Ready(snapshot: Snapshot, expectation: Expectation) | Refused(reason: Invalid)

  // buildPurchaseOrderPaymentContract
  function BuildContract(packageCode: string, count: int, price: int, quote: Quote, offset: int): Contract {
    var code := Trim(packageCode);
    if code == [] || count <= 0 || price <= 0 then Refused(InvalidPackage)
    else
      var to := Trim(quote.toAddress);
      if offset < 0 then Refused(InvalidOffset)
      else if to == [] || quote.amount <= 0 || quote.confirmations <= 0 || quote.expiresAt == Some(NotATime) then
        Refused(InvalidQuote)
      else if quote.asset == TRX then
        if offset != 0 then Refused(InvalidOffset)
        else if quote.token.Some? then Refused(ContractMismatch)
        else Finish(Snapshot(code, count, price, 0, TRX, to, None, quote.confirmations, quote.amount, quote.expiresAt))
      else if quote.token.None? || Trim(quote.token.value) == [] then Refused(ContractMismatch)
      else if quote.amount != price then Refused(AmountMismatch)
      else Finish(Snapshot(code, count, price, offset, USDT, to, Some(Trim(quote.token.value)), quote.confirmations,
                           quote.amount + offset, quote.expiresAt))
  }

  function Finish(s: Snapshot): Contract {
    var expectation := Expected(s);
    if expectation.None? then Refused(InvalidQuote) else Ready(s, expectation.value)
  }

  // The snapshot of an order holds the package and the quote it was made for, texts trimmed.
  predicate Carries(s: Snapshot, packageCode: string, count: int, price: int, quote: Quote, offset: int) {
    && s.packageCode == Trim(packageCode) && s.count == count && s.price == price && s.offset == offset
    && s.asset == quote.asset && s.toAddress == Trim(quote.toAddress)
    && s.token == (if quote.token.Some? then Some(Trim(quote.token.value)) else None)
    && s.confirmations == quote.confirmations && s.quoted == quote.amount + offset && s.expiresAt == quote.expiresAt
  }

  // And its payment is later matched against just that.
  predicate Asks(e: Expectation, quote: Quote, offset: int) {
    && e.asset == quote.asset && e.toAddress == Trim(quote.toAddress)
    && e.token == (if quote.token.Some? then Some(Trim(quote.token.value)) else None)
    && e.amount == quote.amount + offset && e.confirmations == quote.confirmations
  }

  lemma TrimmedStaysNonEmpty(s: string)
    requires NonEmpty(s)
    ensures NonEmpty(Trim(s))
  {
    var t := Trim(s);
    assert TrimStart(s) != [];
    assert t[0] == TrimStart(s)[0] && !IsSpace(t[0]);
    assert t[0] in t;
    assert TrimStart(t) == t;
  }

  // What trimming takes away is white space at either end, all of it, and nothing else.
  lemma TrimIs(s: string) returns (before: string, after: string)
    ensures s == before + Trim(s) + after && (forall c :: c in before + after ==> IsSpace(c))
    ensures Trim(s) != [] ==> !IsSpace(Trim(s)[0]) && !IsSpace(Trim(s)[|Trim(s)| - 1])
  {
    before := StartIs(s);
    after := EndIs(TrimStart(s));
    if Trim(s) != [] {
      assert Trim(s)[0] == TrimStart(s)[0];
      EndKept(TrimStart(s));
    }
  }

  lemma StartIs(s: string) returns (before: string)
    ensures s == before + TrimStart(s) && forall c :: c in before ==> IsSpace(c)
  {
    if s != [] && IsSpace(s[0]) {
      before := StartIs(s[1..]);
      before := [s[0]] + before;
    } else {
      before := [];
    }
  }

  lemma EndIs(s: string) returns (after: string)
    ensures s == TrimEnd(s) + after && forall c :: c in after ==> IsSpace(c)
  {
    if s != [] && IsSpace(s[|s| - 1]) {
      after := EndIs(s[..|s| - 1]);
      after := after + [s[|s| - 1]];
    } else {
      after := [];
    }
  }

  lemma EndKept(s: string)
    ensures TrimEnd(s) != [] ==> !IsSpace(TrimEnd(s)[|TrimEnd(s)| - 1])
  {
  }

  // A contract is refused only for what its own checks say: the snapshot it builds always validates, so a quote
  // that passes them yields exactly the payment it will later be matched against.
  lemma ContractIsSound(packageCode: string, count: int, price: int, quote: Quote, offset: int)
    ensures var c := BuildContract(packageCode, count, price, quote, offset);
      c.Ready? <==>
        && NonEmpty(packageCode) && count > 0 && price > 0 && offset >= 0
        && NonEmpty(quote.toAddress) && quote.amount > 0 && quote.confirmations > 0 && quote.expiresAt != Some(NotATime)
        && (quote.asset == TRX ==> offset == 0 && quote.token.None?)
        && (quote.asset == USDT ==> quote.token.Some? && NonEmpty(quote.token.value) && quote.amount == price)
    ensures var c := BuildContract(packageCode, count, price, quote, offset);
      c.Ready? ==> Validate(c.snapshot).None? && Expected(c.snapshot) == Some(c.expectation)
                   && c.expectation.amount == quote.amount + offset
    ensures var c := BuildContract(packageCode, count, price, quote, offset);
      c.Ready? ==> Carries(c.snapshot, packageCode, count, price, quote, offset) && Asks(c.expectation, quote, offset)
  {
    if NonEmpty(packageCode) { TrimmedStaysNonEmpty(packageCode); }
    if NonEmpty(quote.toAddress) { TrimmedStaysNonEmpty(quote.toAddress); }
    if quote.token.Some? && NonEmpty(quote.token.value) { TrimmedStaysNonEmpty(quote.token.value); }
  }

  // Attribution fails for no valid USDT snapshot, changes the expected amount alone, and never the price.
  lemma AttributionIsTotal(s: Snapshot, offset: int)
    requires Validate(s).None? && s.asset == USDT
    ensures WithOffset(s, offset).Some? <==> offset >= 0
    ensures offset >= 0 ==> Expected(WithOffset(s, offset).value) == Some(Expected(s).value.(amount := s.price + offset))
    ensures offset >= 0 ==> WithOffset(WithOffset(s, offset).value, s.offset) == Some(s)
  {
  }

  predicate PackageFits(packageCode: string, count: int, price: int) { NonEmpty(packageCode) && count > 0 && price > 0 }

  predicate QuoteFits(quote: Quote) {
    NonEmpty(quote.toAddress) && quote.amount > 0 && quote.confirmations > 0 && quote.expiresAt != Some(NotATime)
  }

  predicate TokenFits(quote: Quote) {
    if quote.asset == TRX then quote.token.None? else quote.token.Some? && NonEmpty(quote.token.value)
  }

  // Each reason for a refusal, exactly when it is given.
  lemma RefusalsAreExact(packageCode: string, count: int, price: int, quote: Quote, offset: int)
    ensures var c := BuildContract(packageCode, count, price, quote, offset);
      && (c == Refused(InvalidPackage) <==> !PackageFits(packageCode, count, price))
      && (c == Refused(InvalidOffset) <==>
            PackageFits(packageCode, count, price) && (offset < 0 || (QuoteFits(quote) && quote.asset == TRX && offset > 0)))
      && (c == Refused(InvalidQuote) <==> PackageFits(packageCode, count, price) && offset >= 0 && !QuoteFits(quote))
      && (c == Refused(ContractMismatch) <==>
            && PackageFits(packageCode, count, price) && offset >= 0 && QuoteFits(quote) && !TokenFits(quote)
            && (quote.asset == TRX ==> offset == 0))
      && (c == Refused(AmountMismatch) <==>
            && PackageFits(packageCode, count, price) && offset >= 0 && QuoteFits(quote) && TokenFits(quote)
            && quote.asset == USDT && quote.amount != price)
  {
    ContractIsSound(packageCode, count, price, quote, offset);
    hide IsSpace, TrimStart, TrimEnd;
  }

  // A persisted snapshot validates exactly when it could be what an order was placed with.
  lemma ValidMeans(s: Snapshot)
    ensures Validate(s).None? <==>
      && PackageFits(s.packageCode, s.count, s.price) && s.offset >= 0
      && NonEmpty(s.toAddress) && s.quoted > 0 && s.confirmations > 0 && s.expiresAt != Some(NotATime)
      && (s.asset == TRX ==> s.token.None? && s.offset == 0)
      && (s.asset == USDT ==> s.token.Some? && NonEmpty(s.token.value) && s.quoted == s.price + s.offset)
  {
    hide NonEmpty;
  }
}
