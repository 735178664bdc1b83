/**
 The dispatcher and the workers of cmed (daemon/daemon/serve/handler.cpp, daemon/daemon/serve/workers.cpp,
 daemon/shared/protocol/shared_area.hpp): requesters raise a domain's bit and then knock, the dispatcher takes
 the bits it can hand out and sleeps on the doorbell when there is nothing to do.

 One event is one access to a shared word; the snapshots are taken in one step, which 64 domains in one word
 make them. The futex wait is an atomic compare-then-sleep. Bits are picked in any order.
 */
module Dispatcher {

  /** One call of `ring`. */
  datatype Ringer =
    | Quiet
    | Raised(domain: nat)     // the bit is up, about to bump the doorbell
    | Waking                  // about to wake the dispatcher

  /** What one pass has done with the bits it took. */
  datatype Pass = Pass(
    seen: nat,                // the doorbell read before the bits
    skipped: set<nat>,        // left up because a worker holds the domain
    taken: set<nat>,
    left: set<nat>,           // taken, not yet decided
    handed: set<nat>,         // accepted by a worker
    back: set<nat>)           // refused and raised again

  datatype Phase =
    | Reading                                     // about to read the doorbell
    | Marking(seen: nat)                          // about to snapshot the domains in flight
    | Taking(seen: nat, held: set<nat>)           // about to snapshot the pending bits
    | Dropping(pass: Pass)                        // about to take the chosen bits down
    | Picking(pass: Pass)                         // about to pick the next one
    | Claiming(pass: Pass, domain: nat)           // about to claim it in flight
    | Seating(pass: Pass, domain: nat)            // about to take an idle seat
    | Storing(pass: Pass, domain: nat, seat: nat) // about to store it in that worker's slot
    | Unclaiming(pass: Pass, domain: nat)         // no seat: about to give the claim back
    | Returning(pass: Pass, domain: nat)          // about to raise the bit again
    | Comparing(seen: nat)                        // nothing to do: about to compare and sleep
    | Asleep(seen: nat)

  datatype Worker =
    | Looking                 // about to exchange its slot
    | Offering                // found nothing, about to raise its seat
    | Resting
    | Serving(domain: nat)    // serves the domain, then drops the in-flight claim

  datatype State = State(
    pending: set<nat>,
    doorbell: nat,
    inFlight: set<nat>,
    idle: set<nat>,
    slots: map<nat, nat>,     // the domain in each worker's slot; absent is no domain
    workers: map<nat, Worker>,
    ringers: map<nat, Ringer>,
    dispatcher: Phase)
  {
    function WorkerAt(w: nat): Worker {
      if w in workers then workers[w] else Looking
    }

    function RingerAt(r: nat): Ringer {
      if r in ringers then ringers[r] else Quiet
    }
  }

  function Init(): State {
    State({}, 0, {}, {}, map[], map[], map[], Reading)
  }

  datatype Event =
    | Ring(ringer: nat, domain: nat)   // raises the bit
    | Knock(ringer: nat)               // the bump, then the wake
    | Dispatch                         // the dispatcher's next access that leaves no choice
    | Pick(domain: nat)
    | Seat(seat: nat)
    | NoSeat
    | WakeUp                           // the sleep times out
    | Work(worker: nat)                // the worker's next access

  function NextDispatch(s: State): State {
    match s.dispatcher
    case Reading => s.(dispatcher := Marking(s.doorbell))
    case Marking(seen) => s.(dispatcher := Taking(seen, s.inFlight))
    case Taking(seen, held) =>
      var taking := s.pending - held;
      s.(dispatcher := Dropping(Pass(seen, s.pending * held, taking, taking, {}, {})))
    case Dropping(pass) => s.(pending := s.pending - pass.taken, dispatcher := Picking(pass))
    case Picking(pass) =>
      if pass.left != {} then s
      else if pass.handed != {} || pass.skipped != {} || pass.back != {} then s.(dispatcher := Reading)
      else s.(dispatcher := Comparing(pass.seen))
    case Claiming(pass, d) =>
      if d in s.inFlight then s.(dispatcher := Returning(pass, d))
      else s.(inFlight := s.inFlight + {d}, dispatcher := Seating(pass, d))
    case Seating(_, _) => s
    case Storing(pass, d, seat) => s.(slots := s.slots[seat := d], dispatcher := Picking(pass.(handed := pass.handed + {d})))
    case Unclaiming(pass, d) => s.(inFlight := s.inFlight - {d}, dispatcher := Returning(pass, d))
    case Returning(pass, d) => s.(pending := s.pending + {d}, dispatcher := Picking(pass.(back := pass.back + {d})))
    case Comparing(seen) => s.(dispatcher := if s.doorbell == seen then Asleep(seen) else Reading)
    case Asleep(_) => s
  }

  function NextWorker(s: State, w: nat): State {
    match s.WorkerAt(w)
    case Looking =>
      if w in s.slots then s.(slots := s.slots - {w}, workers := s.workers[w := Serving(s.slots[w])])
      else s.(workers := s.workers[w := Offering])
    case Offering => s.(idle := s.idle + {w}, workers := s.workers[w := Resting])
    case Resting => s.(workers := s.workers[w := Looking])
    case Serving(d) => s.(inFlight := s.inFlight - {d}, workers := s.workers[w := Looking])
  }

  function Next(s: State, e: Event): State {
    match e
    case Ring(r, d) =>
      if s.RingerAt(r) == Quiet then s.(pending := s.pending + {d}, ringers := s.ringers[r := Raised(d)]) else s
    case Knock(r) =>
      (match s.RingerAt(r)
       case Quiet => s
       case Raised(_) => s.(doorbell := s.doorbell + 1, ringers := s.ringers[r := Waking])
       case Waking => s.(ringers := s.ringers[r := Quiet], dispatcher := if s.dispatcher.Asleep? then Reading else s.dispatcher))
    case Dispatch => NextDispatch(s)
    case Pick(d) =>
      if s.dispatcher.Picking? && d in s.dispatcher.pass.left then
        var pass := s.dispatcher.pass;
        s.(dispatcher := Claiming(pass.(left := pass.left - {d}), d))
      else s
    case Seat(seat) =>
      if s.dispatcher.Seating? && seat in s.idle
      then s.(idle := s.idle - {seat}, dispatcher := Storing(s.dispatcher.pass, s.dispatcher.domain, seat)) else s
    case NoSeat =>
      if s.dispatcher.Seating? && s.idle == {}
      then s.(dispatcher := Unclaiming(s.dispatcher.pass, s.dispatcher.domain)) else s
    case WakeUp => if s.dispatcher.Asleep? then s.(dispatcher := Reading) else s
    case Work(w) => NextWorker(s, w)
  }

  function Run(s: State, events: seq<Event>): State
    decreases |events|
  {
    if events == [] then s else Run(Next(s, events[0]), events[1..])
  }

  // ---------- no lost wakeup ----------

  /** Somebody has raised `d` and not yet bumped the doorbell. */
  ghost predicate Due(s: State, d: nat) {
    exists r: nat :: s.RingerAt(r) == Raised(d)
  }

  /** Somebody has bumped the doorbell and not yet woken the dispatcher. */
  ghost predicate WakeDue(s: State) {
    exists r: nat :: s.RingerAt(r) == Waking
  }

  /** Every bit up is one the pass will come back for, or one whose knock moves the doorbell past `seen`. */
  ghost predicate Covered(s: State, seen: nat, known: set<nat>) {
    seen <= s.doorbell && (s.doorbell == seen ==> forall d | d in s.pending :: d in known || Due(s, d))
  }

  ghost predicate PassOk(s: State, pass: Pass, dropped: bool, current: set<nat>) {
    && Covered(s, pass.seen, pass.skipped + pass.back + if dropped then {} else pass.taken)
    && pass.skipped !! pass.taken && pass.skipped <= s.pending
    && pass.taken == pass.left + pass.handed + pass.back + current
    && pass.left !! pass.handed && (pass.left + pass.handed) !! pass.back && current !! (pass.left + pass.handed + pass.back)
    && pass.back <= s.pending
    && (!dropped ==> pass.taken <= s.pending && pass.left == pass.taken)
  }

  ghost predicate PhaseOk(s: State) {
    match s.dispatcher
    case Reading => true
    case Marking(seen) => seen <= s.doorbell
    case Taking(seen, _) => seen <= s.doorbell
    case Dropping(pass) => PassOk(s, pass, false, {})
    case Picking(pass) => PassOk(s, pass, true, {})
    case Claiming(pass, d) => PassOk(s, pass, true, {d})
    case Seating(pass, d) => PassOk(s, pass, true, {d})
    case Storing(pass, d, _) => PassOk(s, pass, true, {d})
    case Unclaiming(pass, d) => PassOk(s, pass, true, {d})
    case Returning(pass, d) => PassOk(s, pass, true, {d})
    case Comparing(seen) => Covered(s, seen, {})
    case Asleep(seen) => Covered(s, seen, {}) && (s.doorbell == seen || WakeDue(s))
  }

  lemma DueStays(s: State, e: Event, d: nat)
    requires Due(s, d)
    ensures Due(Next(s, e), d) || Next(s, e).doorbell > s.doorbell
  {
    var r: nat :| s.RingerAt(r) == Raised(d);
    var s' := Next(s, e);
    assert s'.RingerAt(r) == Raised(d) || s'.doorbell > s.doorbell;
  }

  lemma WakeDueStays(s: State, e: Event)
    requires WakeDue(s)
    ensures WakeDue(Next(s, e)) || (e.Knock? && s.RingerAt(e.ringer) == Waking)
  {
    var r: nat :| s.RingerAt(r) == Waking;
    var s' := Next(s, e);
    assert s'.RingerAt(r) == Waking || e == Knock(r);
  }

  lemma CoveredAfter(s: State, e: Event, seen: nat, known: set<nat>, known': set<nat>)
    requires Covered(s, seen, known)
    requires forall d | d in Next(s, e).pending && d in known :: d in known'
    requires forall d | d in Next(s, e).pending && d !in s.pending :: d in known' || (e.Ring? && e.domain == d)
    ensures Covered(Next(s, e), seen, known')
  {
    var s' := Next(s, e);
    if s'.doorbell == seen {
      forall d | d in s'.pending
        ensures d in known' || Due(s', d)
      {
        if d in s.pending {
          if d !in known {
            DueStays(s, e, d);
          }
        } else if d !in known' {
          assert s'.RingerAt(e.ringer) == Raised(d);
        }
      }
    }
  }

  /** What a ringer or a worker does leaves the pass as it is. */
  lemma PassAfter(s: State, e: Event, pass: Pass, dropped: bool, current: set<nat>)
    requires PassOk(s, pass, dropped, current) && (e.Ring? || e.Knock? || e.Work?)
    ensures PassOk(Next(s, e), pass, dropped, current)
  {
    CoveredAfter(s, e, pass.seen, pass.skipped + pass.back + (if dropped then {} else pass.taken),
                 pass.skipped + pass.back + if dropped then {} else pass.taken);
  }

  lemma OutsideInv(s: State, e: Event)
    requires PhaseOk(s) && (e.Ring? || e.Knock? || e.Work?)
    ensures PhaseOk(Next(s, e))
  {
    match s.dispatcher
    case Reading =>
    case Marking(_) =>
    case Taking(_, _) =>
    case Dropping(pass) => PassAfter(s, e, pass, false, {});
    case Picking(pass) => PassAfter(s, e, pass, true, {});
    case Claiming(pass, d) => PassAfter(s, e, pass, true, {d});
    case Seating(pass, d) => PassAfter(s, e, pass, true, {d});
    case Storing(pass, d, _) => PassAfter(s, e, pass, true, {d});
    case Unclaiming(pass, d) => PassAfter(s, e, pass, true, {d});
    case Returning(pass, d) => PassAfter(s, e, pass, true, {d});
    case Comparing(seen) => CoveredAfter(s, e, seen, {}, {});
    case Asleep(seen) => AsleepAfter(s, e, seen);
  }

  lemma AsleepAfter(s: State, e: Event, seen: nat)
    requires s.dispatcher == Asleep(seen) && PhaseOk(s) && (e.Ring? || e.Knock? || e.Work?)
    ensures PhaseOk(Next(s, e))
  {
    CoveredAfter(s, e, seen, {}, {});
    if s.doorbell != seen {
      WakeDueStays(s, e);
    } else if Next(s, e).doorbell != seen {
      assert Next(s, e).RingerAt(e.ringer) == Waking;
    }
  }

  /** The snapshot: every bit up is taken or skipped. */
  lemma SnapshotInv(s: State, seen: nat, held: set<nat>)
    requires s.dispatcher == Taking(seen, held) && PhaseOk(s)
    ensures PhaseOk(Next(s, Dispatch))
  {
    var pass := Next(s, Dispatch).dispatcher.pass;
    assert forall d | d in s.pending :: d in pass.skipped + pass.back + pass.taken;
  }

  lemma DropInv(s: State, pass: Pass)
    requires s.dispatcher == Dropping(pass) && PhaseOk(s)
    ensures PhaseOk(Next(s, Dispatch))
  {
    CoveredAfter(s, Dispatch, pass.seen, pass.skipped + pass.back + pass.taken, pass.skipped + pass.back);
    assert pass.skipped + pass.back + {} == pass.skipped + pass.back;
  }

  lemma ReturnInv(s: State, pass: Pass, d: nat)
    requires s.dispatcher == Returning(pass, d) && PhaseOk(s)
    ensures PhaseOk(Next(s, Dispatch))
  {
    var pass' := pass.(back := pass.back + {d});
    CoveredAfter(s, Dispatch, pass.seen, pass.skipped + pass.back + {}, pass'.skipped + pass'.back + {});
    assert pass'.taken == pass'.left + pass'.handed + pass'.back + {};
  }

  lemma StoreInv(s: State, pass: Pass, d: nat, seat: nat)
    requires s.dispatcher == Storing(pass, d, seat) && PhaseOk(s)
    ensures PhaseOk(Next(s, Dispatch))
  {
    CoveredAfter(s, Dispatch, pass.seen, pass.skipped + pass.back + {}, pass.skipped + pass.back + {});
    var pass' := pass.(handed := pass.handed + {d});
    assert pass'.taken == pass'.left + pass'.handed + pass'.back + {};
  }

  lemma PickInv(s: State, pass: Pass, d: nat)
    requires s.dispatcher == Picking(pass) && PhaseOk(s) && d in pass.left
    ensures PhaseOk(Next(s, Pick(d)))
  {
    CoveredAfter(s, Pick(d), pass.seen, pass.skipped + pass.back + {}, pass.skipped + pass.back + {});
    var pass' := pass.(left := pass.left - {d});
    assert pass'.taken == pass'.left + pass'.handed + pass'.back + {d};
  }

  /** Steps that keep the pass as it is and touch no pending bit. */
  lemma SamePass(s: State, e: Event, pass: Pass, current: set<nat>)
    requires PassOk(s, pass, true, current) && Next(s, e).pending == s.pending && !e.Ring?
    ensures PassOk(Next(s, e), pass, true, current)
  {
    CoveredAfter(s, e, pass.seen, pass.skipped + pass.back + {}, pass.skipped + pass.back + {});
  }

  lemma DispatchInv(s: State)
    requires PhaseOk(s)
    ensures PhaseOk(Next(s, Dispatch))
  {
    match s.dispatcher
    case Reading =>
    case Marking(_) =>
    case Taking(seen, held) => SnapshotInv(s, seen, held);
    case Dropping(pass) => DropInv(s, pass);
    case Picking(pass) =>
      CoveredAfter(s, Dispatch, pass.seen, pass.skipped + pass.back + {}, pass.skipped + pass.back + {});
      assert pass.skipped == {} && pass.back == {} ==> pass.skipped + pass.back + {} == {};
      SamePass(s, Dispatch, pass, {});
    case Claiming(pass, d) => SamePass(s, Dispatch, pass, {d});
    case Seating(pass, d) => SamePass(s, Dispatch, pass, {d});
    case Storing(pass, d, seat) => StoreInv(s, pass, d, seat);
    case Unclaiming(pass, d) => SamePass(s, Dispatch, pass, {d});
    case Returning(pass, d) => ReturnInv(s, pass, d);
    case Comparing(seen) => CoveredAfter(s, Dispatch, seen, {}, {});
    case Asleep(_) =>
  }

  lemma ChoiceInv(s: State, e: Event)
    requires PhaseOk(s) && (e.Pick? || e.Seat? || e.NoSeat? || e.WakeUp?)
    ensures PhaseOk(Next(s, e))
  {
    if s.dispatcher.Picking? && e.Pick? && e.domain in s.dispatcher.pass.left {
      PickInv(s, s.dispatcher.pass, e.domain);
    } else if s.dispatcher.Seating? {
      SamePass(s, e, s.dispatcher.pass, {s.dispatcher.domain});
    }
  }

  lemma NextPhaseOk(s: State, e: Event)
    requires PhaseOk(s)
    ensures PhaseOk(Next(s, e))
  {
    if e.Ring? || e.Knock? || e.Work? {
      OutsideInv(s, e);
    } else if e.Dispatch? {
      DispatchInv(s);
    } else {
      ChoiceInv(s, e);
    }
  }

  // ---------- no double service ----------

  /** A domain the dispatcher has claimed in flight and not yet placed. */
  predicate InHand(s: State, d: nat) {
    (s.dispatcher.Seating? || s.dispatcher.Storing? || s.dispatcher.Unclaiming?) && s.dispatcher.domain == d
  }

  predicate InSlot(s: State, w: nat, d: nat) {
    w in s.slots && s.slots[w] == d
  }

  /** Whoever has a domain has its in-flight claim, and has it alone. */
  ghost predicate ClaimsOk(s: State) {
    && (forall d: nat | InHand(s, d) :: d in s.inFlight)
    && (forall w: nat, d: nat | InSlot(s, w, d) :: d in s.inFlight && !InHand(s, d))
    && (forall w: nat | s.WorkerAt(w).Serving? :: s.WorkerAt(w).domain in s.inFlight && !InHand(s, s.WorkerAt(w).domain))
    && (forall w: nat, v: nat, d: nat | InSlot(s, w, d) && InSlot(s, v, d) :: w == v)
    && (forall w: nat, v: nat | s.WorkerAt(v).Serving? :: !InSlot(s, w, s.WorkerAt(v).domain))
    && (forall w: nat, v: nat | s.WorkerAt(w).Serving? && s.WorkerAt(w) == s.WorkerAt(v) :: w == v)
  }

  lemma WorkClaims(s: State, w: nat)
    requires ClaimsOk(s)
    ensures ClaimsOk(Next(s, Work(w)))
  {
    var s' := Next(s, Work(w));
    assert forall v: nat | v != w :: s'.WorkerAt(v) == s.WorkerAt(v);
    assert forall v: nat, d: nat :: InSlot(s', v, d) ==> InSlot(s, v, d);
    assert forall d: nat :: InHand(s', d) == InHand(s, d);
    if s.WorkerAt(w) == Looking && w in s.slots {
      assert InSlot(s, w, s.slots[w]);
      assert forall d: nat :: !InSlot(s', w, d);
    }
  }

  lemma StoreClaims(s: State)
    requires ClaimsOk(s) && s.dispatcher.Storing?
    ensures ClaimsOk(Next(s, Dispatch))
  {
    var s' := Next(s, Dispatch);
    assert InHand(s, s.dispatcher.domain);
    assert forall v: nat :: s'.WorkerAt(v) == s.WorkerAt(v);
    assert forall v: nat, d: nat | InSlot(s', v, d) :: InSlot(s, v, d) || (v == s.dispatcher.seat && d == s.dispatcher.domain);
  }

  /** The claim is taken only while the bit stands down, and given back by the hand that has it. */
  lemma FlightClaims(s: State)
    requires ClaimsOk(s) && (s.dispatcher.Claiming? || s.dispatcher.Unclaiming?)
    ensures ClaimsOk(Next(s, Dispatch))
  {
    var s' := Next(s, Dispatch);
    assert s.dispatcher.Unclaiming? ==> InHand(s, s.dispatcher.domain);
    assert forall v: nat :: s'.WorkerAt(v) == s.WorkerAt(v);
    assert forall v: nat, d: nat :: InSlot(s', v, d) == InSlot(s, v, d);
  }

  lemma OtherClaims(s: State, e: Event)
    requires ClaimsOk(s) && !e.Work?
    ensures ClaimsOk(Next(s, e))
  {
    var s' := Next(s, e);
    if e.Dispatch? && s.dispatcher.Storing? {
      StoreClaims(s);
    } else if e.Dispatch? && (s.dispatcher.Claiming? || s.dispatcher.Unclaiming?) {
      FlightClaims(s);
    } else {
      assert s'.slots == s.slots && s'.workers == s.workers && s'.inFlight == s.inFlight;
      SameClaims(s, s');
    }
  }

  lemma SameClaims(s: State, s': State)
    requires ClaimsOk(s) && s'.slots == s.slots && s'.workers == s.workers && s'.inFlight == s.inFlight
    requires forall d: nat :: InHand(s', d) ==> InHand(s, d)
    ensures ClaimsOk(s')
  {
    assert forall v: nat :: s'.WorkerAt(v) == s.WorkerAt(v);
    assert forall v: nat, d: nat :: InSlot(s', v, d) == InSlot(s, v, d);
  }

  ghost predicate Inv(s: State) {
    PhaseOk(s) && ClaimsOk(s)
  }

  lemma {:induction false} RunInv(s: State, events: seq<Event>)
    requires Inv(s)
    ensures Inv(Run(s, events))
    decreases |events|
  {
    if events != [] {
      NextPhaseOk(s, events[0]);
      if events[0].Work? {
        WorkClaims(s, events[0].worker);
      } else {
        OtherClaims(s, events[0]);
      }
      RunInv(Next(s, events[0]), events[1..]);
    }
  }

  // ---------- main theorems ----------

  /**
   When the dispatcher is in its idle sleep, every bit up belongs to a requester that has not knocked yet; once
   somebody has moved the doorbell, the wake is still to come.
   */
  lemma NoLostWakeup(events: seq<Event>, d: nat)
    requires var s := Run(Init(), events); s.dispatcher.Asleep? && d in s.pending
    ensures var s := Run(Init(), events); if s.doorbell == s.dispatcher.seen then Due(s, d) else WakeDue(s)
  {
    RunInv(Init(), events);
  }

  /** When a pass has decided every bit it took, each was accepted by a worker or is up again. */
  lemma TakenBitsAreHandedOrBack(events: seq<Event>, d: nat)
    requires var s := Run(Init(), events); s.dispatcher.Picking? && s.dispatcher.pass.left == {} && d in s.dispatcher.pass.taken
    ensures var s := Run(Init(), events); d in s.dispatcher.pass.handed || d in s.pending
  {
    RunInv(Init(), events);
  }

  /** No two workers ever serve one domain, and a domain being served is in nobody's slot. */
  lemma OneWorkerPerDomain(events: seq<Event>, w: nat, v: nat)
    requires var s := Run(Init(), events); s.WorkerAt(w).Serving?
    ensures var s := Run(Init(), events); w != v ==> s.WorkerAt(v) != s.WorkerAt(w)
    ensures var s := Run(Init(), events); !InSlot(s, v, s.WorkerAt(w).domain) && s.WorkerAt(w).domain in s.inFlight
  {
    RunInv(Init(), events);
  }

  // ---------- what is rung is served ----------

  /** A ring that has run its course: the bit is up, the doorbell has moved, and the dispatcher is awake. */
  lemma RingWakes(s: State, r: nat, d: nat)
    requires s.RingerAt(r) == Quiet
    ensures var s' := Next(Next(Next(s, Ring(r, d)), Knock(r)), Knock(r));
            s' == s.(pending := s.pending + {d}, doorbell := s.doorbell + 1, ringers := s.ringers[r := Quiet],
                     dispatcher := if s.dispatcher.Asleep? then Reading else s.dispatcher)
  {
    assert s.ringers[r := Raised(d)][r := Waking][r := Quiet] == s.ringers[r := Quiet];
  }

  /** `n` accesses of one worker. */
  function Works(s: State, w: nat, n: nat): State
    decreases n
  {
    if n == 0 then s else Works(Next(s, Work(w)), w, n - 1)
  }

  /** A worker that finishes a domain lets go of its claim, and of nothing else. */
  lemma ServedIsDone(s: State, w: nat, d: nat)
    requires s.WorkerAt(w) == Serving(d)
    ensures Next(s, Work(w)) == s.(inFlight := s.inFlight - {d}, workers := s.workers[w := Looking])
  {
  }

  /** What lies in a worker's slot it serves within its next three accesses, once done with what it is at. */
  lemma HandedIsServed(s: State, w: nat) returns (n: nat)
    requires w in s.slots
    ensures 1 <= n <= 3 && Works(s, w, n).WorkerAt(w) == Serving(s.slots[w]) && w !in Works(s, w, n).slots
    ensures Works(s, w, n).pending == s.pending && Works(s, w, n).dispatcher == s.dispatcher
  {
    n := match s.WorkerAt(w) case Looking => 1 case Offering => 3 case Resting => 2 case Serving(_) => 2;
    assert Works(s, w, n) == Works(Next(s, Work(w)), w, n - 1);
    if n > 1 {
      assert Works(s, w, n) == Works(Next(Next(s, Work(w)), Work(w)), w, n - 2);
    }
    if n > 2 {
      assert Works(s, w, n) == Works(Next(Next(Next(s, Work(w)), Work(w)), Work(w)), w, n - 3);
    }
  }
}
