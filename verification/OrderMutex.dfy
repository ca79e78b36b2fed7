// EnergyUsageService.withOrderOperation (src/application/energy/energy-usage-service.ts): one operation body at a time
// per order. JavaScript runs what lies between two awaits without interruption, so a step is what happens from one await
// to the next; promises are numbered in the order they are made.
module OrderMutex {
  import opened Prelude

  type Id = nat
  type Pid = nat
  type Promise = nat

  datatype Call = Waiting(order: Id, promise: Promise) | Running(order: Id, promise: Promise)

  datatype State = State(active: map<Id, Promise>, resolved: set<Promise>, made: nat, calls: map<Pid, Call>)

  datatype Event =
    | Enter(pid: Pid, order: Id)
    | Wake(pid: Pid)
    | Finish(pid: Pid)

  const INITIAL := State(map[], {}, 0, map[])

  // The check of activeOrders, on entry and again after every await.
  function Check(s: State, pid: Pid, order: Id): State {
    if order in s.active then s.(calls := s.calls[pid := Waiting(order, s.active[order])])
    else s.(active := s.active[order := s.made], made := s.made + 1, calls := s.calls[pid := Running(order, s.made)])
  }

  function Step(s: State, e: Event): State {
    match e
    case Enter(pid, order) => if pid in s.calls then s else Check(s, pid, order)
    case Wake(pid) =>
      if pid in s.calls && s.calls[pid].Waiting? && s.calls[pid].promise in s.resolved then Check(s, pid, s.calls[pid].order) else s
    case Finish(pid) =>
      if pid in s.calls && s.calls[pid].Running? then
        State(s.active - {s.calls[pid].order}, s.resolved + {s.calls[pid].promise}, s.made, s.calls - {pid})
      else s
  }

  function Run(s: State, events: seq<Event>): State
    decreases |events|
  {
    if events == [] then s else Run(Step(s, events[0]), events[1..])
  }

  predicate Body(s: State, pid: Pid, order: Id) { pid in s.calls && s.calls[pid].Running? && s.calls[pid].order == order }

  ghost predicate Ok(s: State) {
    && (forall p, q, o :: Body(s, p, o) && Body(s, q, o) ==> p == q)
    && (forall o :: o in s.active ==> s.active[o] < s.made && exists p :: Body(s, p, o))
    && (forall p, o :: Body(s, p, o) ==> o in s.active && s.active[o] == s.calls[p].promise)
    && (forall r :: r in s.resolved ==> r < s.made)
    && (forall o :: o in s.active ==> s.active[o] !in s.resolved)
    && (forall o, q :: o in s.active && q in s.active && o != q ==> s.active[o] != s.active[q])
    && (forall p :: p in s.calls && s.calls[p].Waiting? ==> Awaited(s, s.calls[p]))
  }

  // What a waiter waits for has happened, or is promised by the body that runs on its order now.
  predicate Awaited(s: State, c: Call) {
    c.promise in s.resolved || (c.order in s.active && s.active[c.order] == c.promise)
  }

  lemma CheckOk(s: State, pid: Pid, order: Id)
    requires Ok(s) && (pid in s.calls ==> s.calls[pid].Waiting?)
    ensures Ok(Check(s, pid, order))
  {
    var v := Check(s, pid, order);
    forall o | o in v.active ensures v.active[o] < v.made && exists p :: Body(v, p, o) {
      if o in s.active {
        var p :| Body(s, p, o);
        assert Body(v, p, o);
      } else {
        assert Body(v, pid, o);
      }
    }
    forall p, o | Body(v, p, o) ensures o in v.active && v.active[o] == v.calls[p].promise {
      if p != pid { assert Body(s, p, o); }
    }
    forall p, q, o | Body(v, p, o) && Body(v, q, o) ensures p == q {
      if p != pid { assert Body(s, p, o); }
      if q != pid { assert Body(s, q, o); }
    }
    forall p | p in v.calls && v.calls[p].Waiting? ensures Awaited(v, v.calls[p]) {
      if p != pid { assert Awaited(s, s.calls[p]); }
    }
  }

  lemma FinishOk(s: State, pid: Pid)
    requires Ok(s) && pid in s.calls && s.calls[pid].Running?
    ensures Ok(Step(s, Finish(pid)))
  {
    var v, order := Step(s, Finish(pid)), s.calls[pid].order;
    assert Body(s, pid, order);
    forall o | o in v.active ensures v.active[o] < v.made && exists p :: Body(v, p, o) {
      var p :| Body(s, p, o);
      assert Body(v, p, o);
    }
    forall p, o | Body(v, p, o) ensures Body(s, p, o) && o != order { assert p != pid && Body(s, p, o); }
    forall p | p in v.calls && v.calls[p].Waiting? ensures Awaited(v, v.calls[p]) { assert Awaited(s, s.calls[p]); }
  }

  lemma {:induction false} RunOk(s: State, events: seq<Event>)
    requires Ok(s)
    ensures Ok(Run(s, events))
    decreases |events|
  {
    if events != [] {
      match events[0] {
        case Enter(pid, order) => if pid !in s.calls { CheckOk(s, pid, order); }
        case Wake(pid) => if pid in s.calls && s.calls[pid].Waiting? { CheckOk(s, pid, s.calls[pid].order); }
        case Finish(pid) => if pid in s.calls && s.calls[pid].Running? { FinishOk(s, pid); }
      }
      RunOk(Step(s, events[0]), events[1..]);
    }
  }

  lemma Reachable(events: seq<Event>)
    ensures Ok(Run(INITIAL, events))
  {
    RunOk(INITIAL, events);
  }

  // Whatever the interleaving and however many wait: at most one body runs per order, and the map holds an order's id
  // exactly while one does.
  lemma OneBodyPerOrder(events: seq<Event>, o: Id)
    ensures var s := Run(INITIAL, events);
      && (forall p, q :: Body(s, p, o) && Body(s, q, o) ==> p == q)
      && (o in s.active <==> exists p :: Body(s, p, o))
  {
    Reachable(events);
  }

  // No wake-up is lost: a call that waits can go on, or the body it waits for still runs and wakes it when it finishes.
  lemma NoLostWakeUp(events: seq<Event>, pid: Pid) returns (body: Pid)
    requires pid in Run(INITIAL, events).calls && Run(INITIAL, events).calls[pid].Waiting?
    ensures var s := Run(INITIAL, events); var c := s.calls[pid];
      c.promise in s.resolved ||
      (Body(s, body, c.order) && s.calls[body].promise == c.promise && c.promise in Step(s, Finish(body)).resolved)
  {
    Reachable(events);
    var s := Run(INITIAL, events);
    var c := s.calls[pid];
    body := 0;
    assert Awaited(s, c);
    if c.promise !in s.resolved { body :| Body(s, body, c.order); }
  }

  // When nothing runs on an order, the first of its waiters to go on runs next.
  lemma FreeOrderIsTaken(events: seq<Event>, pid: Pid)
    requires var s := Run(INITIAL, events); pid in s.calls && s.calls[pid].Waiting? && s.calls[pid].order !in s.active
    ensures var s := Run(INITIAL, events); Body(Step(s, Wake(pid)), pid, s.calls[pid].order)
  {
    Reachable(events);
    assert Awaited(Run(INITIAL, events), Run(INITIAL, events).calls[pid]);
  }

  // A body starts only while none runs on its order, and ends only by finishing: the rule DelegationSerial.HandleSerial
  // puts on the operations of the delegation protocol.
  lemma StartsOnlyWhenFree(events: seq<Event>, e: Event, p: Pid, o: Id)
    ensures var s := Run(INITIAL, events); var v := Step(s, e);
      && (Body(v, p, o) && !Body(s, p, o) ==> forall q :: !Body(s, q, o))
      && (Body(s, p, o) && !Body(v, p, o) ==> e == Finish(p))
  {
    Reachable(events);
  }
}
