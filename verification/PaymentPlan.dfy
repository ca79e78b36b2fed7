// What one payment observation means for an order: src/core/payments/payment-observation.ts,
// src/core/payments/payment-evidence-lifecycle.ts and the purchase table of src/core/orders/state-machine.ts.
module PaymentPlan {
  import opened Prelude
  import opened PurchasePayment

  datatype PurchaseState = PCreated | PWaiting | PDetected | PConfirming | PPaid | PCredited | PExpired | PFailed

  datatype TxStatus = TDetected | TConfirming | TConfirmed | TRejected

  datatype Source = Fullnode | Indexer | SolidifiedNode | SolidifiedIndex

  datatype Execution = ExecutionUnknown | ExecutionSuccess | ExecutionFailed

  type Txid = string

  datatype Observed = Observed(
    asset: Asset,
    txid: Txid,
    token: Option<string>,
    eventIndex: Option<int>,
    fromAddress: string,
    toAddress: string,
    amount: int,
    confirmations: int,
    solidified: bool,
    source: Source,
    execution: Execution,
    blockNumber: Option<int>,
    blockTimestamp: Option<Time>)

  datatype Evaluation =
    | EInvalid | EMismatch
    | ENotSolidified | ENotAuthoritative | EExecutionUnknown | EFewConfirmations
    | ERejected
    | EConfirmed

  predicate Transitions(from: PurchaseState, to: PurchaseState) {
    match from
    case PCreated => to == PWaiting
    case PWaiting => to in {PDetected, PExpired}
    case PDetected => to in {PConfirming, PFailed}
    case PConfirming => to in {PPaid, PFailed}
    case PPaid => to == PCredited
    case _ => false
  }

  predicate ValidExpectation(e: Expectation) {
    && NonEmpty(e.toAddress) && e.amount > 0 && e.confirmations > 0
    && if e.asset == TRX then e.token.None? else e.token.Some? && NonEmpty(e.token.value)
  }

  predicate ValidObservation(o: Observed) {
    && NonEmpty(o.txid) && NonEmpty(o.fromAddress) && NonEmpty(o.toAddress) && o.amount > 0 && o.confirmations >= 0
    && if o.asset == TRX then o.token.None? && o.eventIndex.None?
       else o.token.Some? && NonEmpty(o.token.value) && o.eventIndex.Some? && o.eventIndex.value >= 0
  }

  predicate Matches(e: Expectation, o: Observed) {
    o.asset == e.asset && o.token == e.token && o.toAddress == e.toAddress && o.amount == e.amount
  }

  // evaluatePaymentObservation
  function Evaluate(e: Expectation, o: Observed): Evaluation {
    if !ValidExpectation(e) || !ValidObservation(o) then EInvalid
    else if !Matches(e, o) then EMismatch
    else if !o.solidified then ENotSolidified
    else if o.source != SolidifiedNode && o.source != SolidifiedIndex then ENotAuthoritative
    else if o.execution == ExecutionFailed then ERejected
    else if o.execution == ExecutionUnknown then EExecutionUnknown
    else if o.confirmations < e.confirmations then EFewConfirmations
    else EConfirmed
  }

  // targetForEvaluation
  function Target(e: Evaluation): Option<TxStatus> {
    match e
    case EInvalid => None
    case EMismatch => None
    case ENotSolidified => Some(TDetected)
    case ENotAuthoritative => Some(TDetected)
    case EExecutionUnknown => Some(TConfirming)
    case EFewConfirmations => Some(TConfirming)
    case ERejected => Some(TRejected)
    case EConfirmed => Some(TConfirmed)
  }

  // mergeTransactionStatus; None is a conflict.
  function MergeStatus(current: Option<TxStatus>, requested: TxStatus): Option<TxStatus> {
    if current.None? || current == Some(requested) then Some(requested)
    else if current == Some(TDetected) then Some(requested)
    else if current == Some(TConfirming) then Some(if requested == TDetected then TConfirming else requested)
    else if current == Some(TConfirmed) then if requested == TRejected then None else Some(TConfirmed)
    else if requested == TConfirmed then None
    else Some(TRejected)
  }

  const HAPPY_PATH: seq<PurchaseState> := [PWaiting, PDetected, PConfirming, PPaid]

  predicate Open(s: PurchaseState) { s in {PWaiting, PDetected, PConfirming} }

  function PathIndex(s: PurchaseState): int {
    match s
    case PWaiting => 0
    case PDetected => 1
    case PConfirming => 2
    case PPaid => 3
    case _ => -1
  }

  predicate LegalPath(from: PurchaseState, steps: seq<PurchaseState>)
    decreases |steps|
  {
    steps != [] ==> Transitions(from, steps[0]) && LegalPath(steps[0], steps[1..])
  }

  function EndOf(from: PurchaseState, steps: seq<PurchaseState>): PurchaseState {
    if steps == [] then from else steps[|steps| - 1]
  }

  // happyPathTransitions, as a function of where the order is and where it should be.
  function HappyPath(current: PurchaseState, target: PurchaseState): Option<seq<PurchaseState>> {
    var at, goal := PathIndex(current), PathIndex(target);
    if at < 0 || goal < 0 then None
    else if goal <= at then Some([])
    else
      var steps := HAPPY_PATH[at + 1..goal + 1];
      if LegalPath(current, steps) then Some(steps) else None
  }

  method HappyPathTransitions(current: PurchaseState, target: PurchaseState) returns (r: Option<seq<PurchaseState>>)
    ensures r == HappyPath(current, target)
  {
    var currentIndex, targetIndex := PathIndex(current), PathIndex(target);
    if currentIndex < 0 || targetIndex < 0 { return None; }
    if targetIndex <= currentIndex { return Some([]); }
    var steps := HAPPY_PATH[currentIndex + 1..targetIndex + 1];
    var from := current;
    for i := 0 to |steps|
      invariant from == if i == 0 then current else steps[i - 1]
      invariant LegalPath(current, steps) <==> LegalPath(from, steps[i..])
    {
      assert steps[i..][1..] == steps[i + 1..];
      if !Transitions(from, steps[i]) { return None; }
      from := steps[i];
    }
    return Some(steps);
  }

  // rejectedTransitions
  function RejectedPath(current: PurchaseState): Option<seq<PurchaseState>> {
    if current == PWaiting then
      if Transitions(PWaiting, PDetected) && Transitions(PDetected, PFailed) then Some([PDetected, PFailed]) else None
    else if Transitions(current, PFailed) then Some([PFailed])
    else None
  }

  datatype Plan =
    | Ignore(mismatch: bool)
    | PlanNoop
    | PlanInvalidState
    | PlanTransactionConflict
    | PlanOrderConflict
    | ApplyPlan(status: TxStatus, steps: seq<PurchaseState>)

  function OrderTarget(s: TxStatus): PurchaseState {
    match s
    case TDetected => PDetected
    case TConfirming => PConfirming
    case TConfirmed => PPaid
    case TRejected => PFailed
  }

  // planPaymentEvidenceLifecycle
  function PlanFor(evaluation: Evaluation, state: PurchaseState, current: Option<TxStatus>): Plan {
    if evaluation == EInvalid then Ignore(false)
    else if evaluation == EMismatch then Ignore(true)
    else
      var target := Target(evaluation);
      if target.None? then Ignore(false)
      else
        var merged := MergeStatus(current, target.value);
        if merged.None? then PlanTransactionConflict
        else if state == PCreated then PlanInvalidState
        else if !Open(state) then TerminalPlan(state, merged.value)
        else
          var steps := if merged.value == TRejected then RejectedPath(state) else HappyPath(state, OrderTarget(merged.value));
          if steps.None? then PlanInvalidState else ApplyPlan(merged.value, steps.value)
  }

  // terminalOrderPlan
  function TerminalPlan(state: PurchaseState, status: TxStatus): Plan {
    if state == PExpired then PlanNoop
    else if state in {PPaid, PCredited} && status == TRejected then PlanOrderConflict
    else if state == PFailed && status == TConfirmed then PlanOrderConflict
    else PlanNoop
  }

  // ---- the join ----

  // How far payment evidence has come: the order's status and a row's status on one scale.
  function Level(s: PurchaseState): nat {
    match s
    case PDetected => 1
    case PConfirming => 2
    case PPaid => 3
    case PCredited => 3
    case PFailed => 3
    case _ => 0
  }

  function RowLevel(s: TxStatus): nat {
    match s
    case TDetected => 1
    case TConfirming => 2
    case _ => 3
  }

  // A row's status only rises, and a verdict is never replaced by the other one.
  lemma MergeIsJoin(current: Option<TxStatus>, requested: TxStatus)
    ensures MergeStatus(current, requested).None? <==>
      current.Some? && RowLevel(current.value) == 3 && RowLevel(requested) == 3 && current.value != requested
    ensures MergeStatus(current, requested).Some? && current.Some? ==>
      RowLevel(MergeStatus(current, requested).value) == Max(RowLevel(current.value), RowLevel(requested))
    ensures current.Some? && RowLevel(current.value) == 3 && MergeStatus(current, requested).Some? ==>
      MergeStatus(current, requested) == current
  {
  }

  // Every plan to apply is for an open order, follows the state machine, and leaves the order at the join of where it
  // was and what the row now says; an open order is never refused.
  lemma PlanIsLegal(evaluation: Evaluation, state: PurchaseState, current: Option<TxStatus>)
    requires Open(state)
    ensures var plan := PlanFor(evaluation, state, current);
      && !plan.PlanInvalidState? && !plan.PlanNoop? && !plan.PlanOrderConflict?
      && (plan.ApplyPlan? ==>
            && LegalPath(state, plan.steps)
            && Level(EndOf(state, plan.steps)) == Max(Level(state), RowLevel(plan.status))
            && (EndOf(state, plan.steps) == PPaid <==> plan.status == TConfirmed)
            && (EndOf(state, plan.steps) == PFailed <==> plan.status == TRejected)
            && EndOf(state, plan.steps) in {PDetected, PConfirming, PPaid, PFailed})
  {
    hide LegalPath, HappyPath, RejectedPath, EndOf;
    var target := Target(evaluation);
    if target.Some? && MergeStatus(current, target.value).Some? {
      var merged := MergeStatus(current, target.value).value;
      if merged == TRejected { RejectedPathLegal(state); } else { HappyPathLegal(state, OrderTarget(merged)); }
    }
  }

  lemma HappyPathLegal(state: PurchaseState, target: PurchaseState)
    requires Open(state) && target in {PDetected, PConfirming, PPaid}
    ensures HappyPath(state, target).Some?
      && LegalPath(state, HappyPath(state, target).value)
      && EndOf(state, HappyPath(state, target).value) == if PathIndex(target) <= PathIndex(state) then state else target
  {
    assert HAPPY_PATH[1..2] == [PDetected] && HAPPY_PATH[1..3] == [PDetected, PConfirming];
    assert HAPPY_PATH[1..4] == [PDetected, PConfirming, PPaid];
    assert HAPPY_PATH[2..3] == [PConfirming] && HAPPY_PATH[2..4] == [PConfirming, PPaid] && HAPPY_PATH[3..4] == [PPaid];
    assert LegalPath(PPaid, []) && LegalPath(PConfirming, []) && LegalPath(PDetected, []);
    assert [PConfirming, PPaid][1..] == [PPaid] && [PPaid][1..] == [];
    assert [PDetected, PConfirming, PPaid][1..] == [PConfirming, PPaid];
    assert [PDetected, PConfirming][1..] == [PConfirming] && [PConfirming][1..] == [] && [PDetected][1..] == [];
    assert LegalPath(PConfirming, [PPaid]);
    assert LegalPath(PDetected, [PConfirming, PPaid]) && LegalPath(PDetected, [PConfirming]);
  }

  lemma RejectedPathLegal(state: PurchaseState)
    requires Open(state)
    ensures RejectedPath(state).Some? && LegalPath(state, RejectedPath(state).value) && EndOf(state, RejectedPath(state).value) == PFailed
  {
    if state != PWaiting { assert RejectedPath(state).Some?; }
    assert [PDetected, PFailed][1..] == [PFailed] && [PFailed][1..] == [];
    assert LegalPath(PFailed, []);
    assert LegalPath(PDetected, [PFailed]);
  }

  // Evidence that leaves the verdict open.
  predicate NoVerdict(e: Evaluation) { e in {ENotSolidified, ENotAuthoritative, EExecutionUnknown, EFewConfirmations} }

  // A finished order is never changed by evidence. Evidence against the order's outcome, from this observation or from
  // what its row already says, is reported as a conflict; evidence against the row's own verdict as one with the row.
  lemma TerminalOrdersStay(evaluation: Evaluation, state: PurchaseState, current: Option<TxStatus>)
    requires !Open(state)
    ensures var plan := PlanFor(evaluation, state, current);
      && !plan.ApplyPlan?
      && (plan.PlanOrderConflict? <==>
            || (state in {PPaid, PCredited} && evaluation == ERejected && current != Some(TConfirmed))
            || (state in {PPaid, PCredited} && NoVerdict(evaluation) && current == Some(TRejected))
            || (state == PFailed && evaluation == EConfirmed && current != Some(TRejected))
            || (state == PFailed && NoVerdict(evaluation) && current == Some(TConfirmed)))
      && (plan.PlanTransactionConflict? <==>
            (evaluation == ERejected && current == Some(TConfirmed)) || (evaluation == EConfirmed && current == Some(TRejected)))
  {
    hide HappyPath, RejectedPath;
    assert current.None? || current.value.TDetected? || current.value.TConfirming? || current.value.TConfirmed? || current.value.TRejected?;
    match evaluation
    case EInvalid =>
    case EMismatch =>
    case ERejected =>
    case EConfirmed =>
    case _ => assert NoVerdict(evaluation);
  }
}
