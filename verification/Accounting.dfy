// The accounting system as a state machine: every database transaction over the tables as one event, payment
// observations as two, with the history of delivery reports kept beside the tables.
module Accounting {
  import opened Prelude
  import opened Chain
  import opened EnergyOrders
  import opened PurchasePayment
  import opened PaymentPlan
  import opened Tables
  import opened PaymentLifecycle
  import opened EnergyUsage

  // An applyObservation between its plan and its insert; it holds the lock of the order's row.
  datatype Pending = Pending(observed: Observed, state: PurchaseState, evaluation: Evaluation, plan: Plan)

  datatype World = World(t: Tables, pending: map<Id, Pending>, reported: map<Id, seq<DeliveryStatus>>)

  datatype Event =
    | Onboard(user: User)
    | SetBlocked(user: User, blocked: bool)
    | SetOption(option: string, value: EnergyOption)
    | DisableOption(option: string)
    | Place(purchase: Id, user: User, terms: Snapshot)
    | Begin(purchase: Id, observed: Observed, now: nat)
    | Finish(purchase: Id, now: nat)
    | Abort(purchase: Id)
    | Expire(purchase: Id, at: int)
    | Credit(purchase: Id)
    | ReserveUnits(input: ReserveInput, id: Id)
    | Dispatch(id: Id, provider: string)
    | Claim(id: Id, tx: Tx)
    | Deliver(id: Id, provider: string, providerOrderId: Option<Tx>, report: DeliveryStatus)

  function AddUser(t: Tables, user: User): Tables {
    t.(blocked := if user in t.blocked then t.blocked else t.blocked[user := false],
       balances := if user in t.balances then t.balances else t.balances[user := Balance(0, 0)])
  }

  // The journal writes the claimed transaction over the delivery's provider order id, unless another delivery has it.
  function ClaimProviderOrder(t: Tables, id: Id, tx: Tx): Tables {
    if id !in t.energy || t.energy[id].delivery.None? then t
    else
      var row := t.energy[id].delivery.value;
      if IndexRefuses(t, id, row, row.delivery.(providerOrderId := Some(tx))) then t
      else t.(energy := t.energy[id := t.energy[id].(
           delivery := Some(row.(delivery := row.delivery.(providerOrderId := Some(tx)))))])
  }

  // createOrGet puts an order in waiting_payment in the transaction that inserts it; see AmountAllocator.
  predicate Placeable(t: Tables, purchase: Id, user: User, terms: Snapshot) {
    purchase !in t.purchases && user in t.blocked && Validate(terms).None? && terms.count <= INT4_MAX
  }

  function Reports(w: World, id: Id): seq<DeliveryStatus> { if id in w.reported then w.reported[id] else [] }

  ghost function Handle(w: World, e: Event): World {
    match e
    case Onboard(user) => w.(t := AddUser(w.t, user))
    case SetBlocked(user, blocked) => if user in w.t.blocked then w.(t := w.t.(blocked := w.t.blocked[user := blocked])) else w
    case SetOption(option, value) =>
      if 0 < value.cost <= INT4_MAX then w.(t := w.t.(options := w.t.options[option := value])) else w
    case DisableOption(option) => w.(t := w.t.(options := w.t.options - {option}))
    case Place(purchase, user, terms) =>
      if Placeable(w.t, purchase, user, terms)
      then w.(t := w.t.(purchases := w.t.purchases[purchase := Purchase(user, PWaiting, terms)])) else w
    case Begin(purchase, observed, now) => if purchase in w.pending then w else Observing(w, purchase, observed, now)
    case Finish(purchase, now) => if purchase in w.pending then Inserted(w, purchase, now) else w
    case Abort(purchase) => w.(pending := w.pending - {purchase})
    case Expire(purchase, at) => if purchase in w.pending then w else w.(t := ExpireWaiting(w.t, purchase, at).0)
    case Credit(purchase) => if purchase in w.pending then w else w.(t := CreditPaidOrder(w.t, purchase).0)
    case ReserveUnits(input, id) => w.(t := Reserve(w.t, input, id).0)
    case Dispatch(id, provider) => w.(t := StartDispatch(w.t, id, provider).0)
    case Claim(id, tx) => w.(t := ClaimProviderOrder(w.t, id, tx))
    case Deliver(id, provider, providerOrderId, report) =>
      if report == DPending then w
      else
        var applied := ApplyDelivery(w.t, id, provider, providerOrderId, report);
        if applied.Err? then w else w.(t := applied.value, reported := w.reported[id := Reports(w, id) + [report]])
  }

  function Observing(w: World, purchase: Id, observed: Observed, now: nat): World {
    match BeginObservation(w.t, purchase, observed, now)
    case Ended(after, _) => w.(t := after)
    case Inserting(plan) =>
      if purchase in w.t.purchases && Expected(w.t.purchases[purchase].terms).Some? then
        var row := w.t.purchases[purchase];
        w.(pending := w.pending[purchase := Pending(observed, row.state, Evaluate(Expected(row.terms).value, observed), plan)])
      else w
  }

  function Inserted(w: World, purchase: Id, now: nat): World
    requires purchase in w.pending
  {
    var p := w.pending[purchase];
    if purchase in w.t.purchases && p.plan.ApplyPlan? then
      World(FinishObservation(w.t, purchase, p.observed, p.state, p.evaluation, p.plan, now).0, w.pending - {purchase}, w.reported)
    else w.(pending := w.pending - {purchase})
  }

  ghost function Run(w: World, events: seq<Event>): World
    decreases |events|
  {
    if events == [] then w else Run(Handle(w, events[0]), events[1..])
  }

  const INITIAL := World(EMPTY, map[], map[])
}
