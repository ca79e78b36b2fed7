// When things happened to an attempt, and that its row says so: over every run, the acceptance time is that of the step that
// first recorded an accepted broadcast, and the finality time that of the step that first recorded the completion.
module DelegationTimes {
  import opened Prelude
  import opened Chain
  import opened EnergyOrders
  import opened Attempts
  import opened DelegationProtocol
  import opened DelegationSafety
  import opened DelegationTheorems
  import opened DelegationHistory
  import DelegationRelease
  import DelegationStuck
  import DelegationAmount

  datatype Milestone = Acceptance | Finality

  predicate Steps(w: World, e: Event, ref: (Id, nat)) {
    && (e.Step? || e.Unacknowledged?) && !e.input.Fail?
    && At(w, ref) && e.pid in w.procs && w.procs[e.pid].order == ref.0
  }

  // The event is a step that records, on this attempt, that a node took its transaction, or that the chain finally has it;
  // a recording its status refuses is none.
  predicate Records(w: World, e: Event, ref: (Id, nat), milestone: Milestone) {
    && Steps(w, e, ref)
    && RecordedBy(RowAt(w, ref), w.procs[e.pid].pc, ref.1, milestone)
  }

  predicate RecordedBy(row: Attempt, pc: Pc, k: nat, milestone: Milestone) {
    match milestone
    case Acceptance =>
      && pc.RecordBroadcast? && pc.k == k && pc.accepted
      && row.status in (if pc.known == Processing then {Signed, Accepted, Processing, Unknown} else {Signed, Accepted, Unknown})
    case Finality =>
      && pc.RecordSeen? && pc.k == k && pc.seen == SeenCompleted
      && row.binding.Some? && row.status in {Accepted, Processing, Unknown, Completed}
  }

  function Stamp(row: Attempt, milestone: Milestone): Option<nat> {
    match milestone
    case Acceptance => row.acceptedAt
    case Finality => row.finalizedAt
  }

  // The rows of b have the times of those of a; further rows have none.
  predicate SameTimes(a: Order, b: Order) {
    && |a.attempts| <= |b.attempts|
    && forall k, m :: 0 <= k < |b.attempts| ==>
         Stamp(b.attempts[k], m) == if k < |a.attempts| then Stamp(a.attempts[k], m) else None
  }

  lemma SameCreate(ord: Order, pc: Pc)
    requires PartOf(pc) == Create
    ensures SameTimes(ord, CreateStep(ord, pc).order)
  {
  }

  lemma SameStart(owner: Address, wall: nat, ord: Order, pc: Pc, input: Input)
    requires PartOf(pc) == StartAttempt && InRange(ord, pc)
    ensures SameTimes(ord, StartStep(owner, wall, ord, pc, input).order)
  {
    hide DelegationAmount.RequiredDelegationSun;
  }

  lemma SameService(ord: Order, pc: Pc)
    requires PartOf(pc) == Service
    ensures SameTimes(ord, ServiceStep(ord, pc).order)
  {
    hide ApplyReport;
  }

  lemma SameClaim(ord: Order, k: nat, tx: Tx, caller: Caller)
    requires k < |ord.attempts|
    ensures SameTimes(ord, ClaimStep(ord, k, tx, caller).order)
  {
  }

  lemma SameRecovery(ord: Order, pc: Pc)
    requires PartOf(pc) == Recovery && InRange(ord, pc)
    ensures SameTimes(ord, RecoveryStep(ord, pc).order)
  {
  }

  // The times after a step: a recording stamps the wall time where there was none, and nothing else changes.
  predicate Stamped(a: Order, b: Order, pc: Pc, wall: nat) {
    && |a.attempts| <= |b.attempts|
    && forall k: nat, m :: k < |b.attempts| ==> Stamp(b.attempts[k], m) == StampAfter(a, pc, wall, k, m)
  }

  function StampAfter(a: Order, pc: Pc, wall: nat, k: nat, m: Milestone): Option<nat> {
    if k >= |a.attempts| then None
    else if Stamp(a.attempts[k], m).Some? then Stamp(a.attempts[k], m)
    else if RecordedBy(a.attempts[k], pc, k, m) then Some(wall)
    else None
  }

  lemma StampedReconcile(c: Chain, wall: nat, ord: Order, pc: Pc, input: Input)
    requires PartOf(pc) == ReconcileAttempt && InRange(ord, pc)
    ensures Stamped(ord, ReconcileStep(c, wall, ord, pc, input).order, pc, wall)
  {
    hide EligibleFrom;
  }

  lemma SameIsStamped(a: Order, b: Order, pc: Pc, wall: nat)
    requires SameTimes(a, b) && PartOf(pc) != ReconcileAttempt
    ensures Stamped(a, b, pc, wall)
  {
  }

  lemma StampedStep(owner: Address, c: Chain, wall: nat, ord: Order, pc: Pc, input: Input)
    requires InRange(ord, pc) && !input.Fail?
    ensures Stamped(ord, Perform(owner, c, wall, ord, pc, input).order, pc, wall)
  {
    hide Stamped, SameTimes, StartStep, ReconcileStep, CreateStep, RecoveryStep, ClaimStep, ServiceStep;
    var b := Perform(owner, c, wall, ord, pc, input).order;
    match PartOf(pc)
    case ReconcileAttempt => StampedReconcile(c, wall, ord, pc, input);
    case Create => SameCreate(ord, pc); SameIsStamped(ord, b, pc, wall);
    case StartAttempt => SameStart(owner, wall, ord, pc, input); SameIsStamped(ord, b, pc, wall);
    case Service => SameService(ord, pc); SameIsStamped(ord, b, pc, wall);
    case Claiming => SameClaim(ord, pc.k, pc.tx, pc.caller); SameIsStamped(ord, b, pc, wall);
    case Recovery => SameRecovery(ord, pc); SameIsStamped(ord, b, pc, wall);
  }

  // ---- one event ----

  lemma RowAfter(w: World, e: Event, ref: (Id, nat), m: Milestone)
    requires WorldOk(w) && At(Handle(w, e), ref)
    ensures Stamp(RowAt(Handle(w, e), ref), m) ==
      if !At(w, ref) then None
      else if Stamp(RowAt(w, ref), m).Some? then Stamp(RowAt(w, ref), m)
      else if Records(w, e, ref, m) then Some(w.wall)
      else None
  {
    hide WorldOk, Handle, Perform, SignCommit, Stamped, RecordedBy, Stamp, OrderOk, PcOk;
    var o := ref.0;
    if o !in w.orders {
      if (e.Step? || e.Unacknowledged?) && e.pid in w.procs { OrderHere(w, e.pid); }
      NewOrder(w, e, o);
    } else if (e.Step? || e.Unacknowledged?) && e.pid in w.procs && w.procs[e.pid].order == o {
      DelegationRelease.SteppedProc(w, e, e.pid);
      DelegationStuck.SteppedOrders(w, e, e.pid);
      var pc := w.procs[e.pid].pc;
      if e.input.Fail? {
        FailedStep(w, e.pid);
      } else {
        StampedStep(w.owner, w.chain, w.wall, w.orders[o], pc, e.input);
        StampedRow(w.orders[o], Handle(w, e).orders[o], pc, w.wall, ref.1, m);
      }
    } else {
      if e.SignerCommit? { SignedTimes(w, e.request, o); }
      OrderElsewhere(w, e, o);
    }
  }

  lemma FailedStep(w: World, p: Pid)
    requires p in w.procs && w.procs[p].order in w.orders && InRange(w.orders[w.procs[p].order], w.procs[p].pc)
    ensures Perform(w.owner, w.chain, w.wall, w.orders[w.procs[p].order], w.procs[p].pc, Fail).order == w.orders[w.procs[p].order]
  {
  }

  lemma StampedRow(a: Order, b: Order, pc: Pc, wall: nat, k: nat, m: Milestone)
    requires Stamped(a, b, pc, wall) && k < |b.attempts|
    ensures Stamp(b.attempts[k], m) == StampAfter(a, pc, wall, k, m)
  {
  }

  lemma SignedTimes(w: World, r: SignRequest, o: Id)
    requires o in w.orders
    ensures o in SignCommit(w, r).orders && |SignCommit(w, r).orders[o].attempts| == |w.orders[o].attempts|
    ensures forall k, m :: 0 <= k < |w.orders[o].attempts| ==>
      Stamp(SignCommit(w, r).orders[o].attempts[k], m) == Stamp(w.orders[o].attempts[k], m)
  {
  }

  // ---- over every run ----

  // The wall time of the first recording in a run.
  ghost function First(owner: Address, events: seq<Event>, ref: (Id, nat), m: Milestone): Option<nat>
    decreases |events|
  {
    if events == [] then None
    else
      var before, e := events[..|events| - 1], events[|events| - 1];
      var w := Run(Initial(owner), before);
      var earlier := First(owner, before, ref, m);
      if earlier.Some? then earlier else if Records(w, e, ref, m) then Some(w.wall) else None
  }

  // Event number i is the first of the run to record it, at wall time t.
  ghost predicate FirstAt(owner: Address, events: seq<Event>, ref: (Id, nat), m: Milestone, i: nat, t: nat) {
    && i < |events| && Records(Before(owner, events, i), events[i], ref, m) && Before(owner, events, i).wall == t
    && forall j: nat :: j < i ==> !Records(Before(owner, events, j), events[j], ref, m)
  }

  lemma {:induction false} FirstIs(owner: Address, events: seq<Event>, ref: (Id, nat), m: Milestone)
    ensures First(owner, events, ref, m).None? ==>
      forall i: nat :: i < |events| ==> !Records(Before(owner, events, i), events[i], ref, m)
    ensures First(owner, events, ref, m).Some? ==> exists i :: FirstAt(owner, events, ref, m, i, First(owner, events, ref, m).value)
    decreases |events|
  {
    hide Records, Run, Initial;
    if events != [] {
      var before, e := events[..|events| - 1], events[|events| - 1];
      assert events == before + [e];
      FirstIs(owner, before, ref, m);
      forall i: nat | i <= |before| ensures Before(owner, events, i) == Before(owner, before, i) { BeforeSame(owner, before, e, i); }
      assert before[..|before|] == before;
      if First(owner, before, ref, m).Some? {
        var i :| FirstAt(owner, before, ref, m, i, First(owner, before, ref, m).value);
        assert FirstAt(owner, events, ref, m, i, First(owner, before, ref, m).value);
      } else if Records(Before(owner, events, |before|), e, ref, m) {
        assert FirstAt(owner, events, ref, m, |before|, Before(owner, events, |before|).wall);
      }
    }
  }

  lemma {:induction false} StampIsFirst(owner: Address, events: seq<Event>, ref: (Id, nat), m: Milestone)
    ensures var w := Run(Initial(owner), events);
      First(owner, events, ref, m) == if At(w, ref) then Stamp(RowAt(w, ref), m) else None
    decreases |events|
  {
    hide Handle, WorldOk, Records, Stamp;
    if events != [] {
      var before, e := events[..|events| - 1], events[|events| - 1];
      assert events == before + [e];
      StampIsFirst(owner, before, ref, m);
      hide Run, Initial;
      var w := Run(Initial(owner), before);
      RunThen(Initial(owner), before, e);
      Reachable(owner, before);
      if At(w, ref) { RowsStay(w, e, ref); }
      RecordsAt(w, e, ref, m);
      if At(Handle(w, e), ref) { RowAfter(w, e, ref, m); }
    }
  }

  lemma RowsStay(w: World, e: Event, ref: (Id, nat))
    requires WorldOk(w) && At(w, ref)
    ensures At(Handle(w, e), ref)
  {
    HandleOk(w, e);
    hide WorldOk, Handle;
    assert OrderEvolves(w.orders[ref.0], Handle(w, e).orders[ref.0]);
  }

  lemma RecordsAt(w: World, e: Event, ref: (Id, nat), m: Milestone)
    ensures Records(w, e, ref, m) ==> At(w, ref)
  {
  }

  // An attempt row carries a time exactly when a step of the run recorded it, and then the wall time of the first.
  lemma TimesAreOfRecordings(owner: Address, events: seq<Event>, ref: (Id, nat), m: Milestone, t: nat)
    requires At(Run(Initial(owner), events), ref)
    ensures Stamp(RowAt(Run(Initial(owner), events), ref), m) == Some(t) <==> exists i :: FirstAt(owner, events, ref, m, i, t)
  {
    hide Run, Records, Stamp;
    StampIsFirst(owner, events, ref, m);
    FirstIs(owner, events, ref, m);
    forall i, s, j, u | FirstAt(owner, events, ref, m, i, s) && FirstAt(owner, events, ref, m, j, u) ensures s == u {
      assert i == j;
    }
  }

  // The time a completed attempt may be taken back: an hour after its broadcast was first recorded as accepted, or after
  // its completion was first recorded if that never was, and not before that completion.
  lemma EligibilityIs(owner: Address, events: seq<Event>, ref: (Id, nat)) returns (i: nat, finality: nat)
    requires var w := Run(Initial(owner), events); At(w, ref) && RowAt(w, ref).status == Completed
    ensures FirstAt(owner, events, ref, Finality, i, finality)
    ensures var row := RowAt(Run(Initial(owner), events), ref); row.eligibleAt.Some?
    ensures var at := RowAt(Run(Initial(owner), events), ref).eligibleAt.value;
      && (forall j: nat, t: nat :: FirstAt(owner, events, ref, Acceptance, j, t) ==>
            at == if t + 3_600_000 < finality then finality else t + 3_600_000)
      && ((forall j: nat, t: nat :: !FirstAt(owner, events, ref, Acceptance, j, t)) ==> at == finality + 3_600_000)
  {
    hide Run, Records, WorldOk;
    var w := Run(Initial(owner), events);
    Reachable(owner, events);
    CompletedTimes(w, ref);
    var row := RowAt(w, ref);
    finality := row.finalizedAt.value;
    TimesAreOfRecordings(owner, events, ref, Finality, finality);
    i :| FirstAt(owner, events, ref, Finality, i, finality);
    if row.acceptedAt.Some? { TimesAreOfRecordings(owner, events, ref, Acceptance, row.acceptedAt.value); }
    forall j: nat, t: nat | FirstAt(owner, events, ref, Acceptance, j, t) ensures row.acceptedAt == Some(t) {
      TimesAreOfRecordings(owner, events, ref, Acceptance, t);
    }
  }

  lemma CompletedTimes(w: World, ref: (Id, nat))
    requires WorldOk(w) && At(w, ref) && RowAt(w, ref).status == Completed
    ensures var row := RowAt(w, ref);
      && row.finalizedAt.Some? && row.eligibleAt.Some?
      && var from := if row.acceptedAt.Some? then row.acceptedAt.value else row.finalizedAt.value;
         row.eligibleAt.value == if from + 3_600_000 < row.finalizedAt.value then row.finalizedAt.value else from + 3_600_000
  {
    hide SignaturesOk, SentOk, PcOk;
    assert OrderOk(w.owner, w.chain, w.orders[ref.0]);
    RowKnown(w.owner, w.chain, w.orders[ref.0], ref.1);
    hide OrderOk;
  }
}
