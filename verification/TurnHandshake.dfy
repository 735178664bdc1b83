/**
 The cmed turn of one domain (daemon/daemon/domain/manager.cpp, daemon/shared/protocol/shared_area.hpp,
 daemon/client/session.cpp, daemon/client/guard.cpp): requesters and the daemon share a request word, a
 robust mutex and the turn stamp. The daemon may hand its region guard back only when nobody is inside.

 One event is one access to a shared word, or the end of a section, a timeout or a death. Any number of
 requesters take part. The stamp is kept as "zero or not": a stamp that is not zero may read as valid or as
 expired, so every clock is covered.
 */
module TurnHandshake {

  datatype RequestState = Idle | LockRequested | Granting | LockHeld | Error

  /** One requester inside `tryLockOnce` or its guard. */
  datatype Requester =
    | Away
    | Claiming    // holds the mutex, about to store LockHeld
    | Checking    // about to read the stamp
    | Unclaiming  // no valid turn: about to store Idle
    | Asking      // about to store LockRequested
    | Waiting     // about to read the answer
    | Inside      // in its section
    | Leaving     // about to store Idle
    | Unlocking   // about to release the mutex
    | Dead

  /** The robust mutex of the request line. */
  datatype Mutex = Free | Held(requester: nat) | Abandoned | ByDaemon | ByRemover

  /** The daemon thread that holds the local domain, or none. */
  datatype Daemon =
    | Resting
    | Serving      // about to read the request word
    | Publishing   // read LockRequested, about to store Granting
    | TurnCheck    // about to ask whether the turn is held
    | Acquiring    // asking the region for the domain
    | Recording    // region guard taken, about to record the turn
    | Stamping     // about to store the stamp
    | Answering    // about to store LockHeld
    | Refusing     // about to store Error
    | Considering  // read Idle, about to weigh the waiters and the run
    | Revoking     // about to zero the stamp
    | DropCheck    // about to read the request word
    | Dropping     // about to release the region guard
    | Sweeping     // about to try the mutex of an expired turn
    | Reclaiming   // took an abandoned mutex, about to store Idle
    | Reclaimed    // took the mutex, about to release it

  /** The delete of the domain, which takes the request mutex before the local domain. */
  datatype Remover =
    | Gone
    | Trying       // took the mutex, about to read the request word
    | Quiet        // found it idle, about to lock the local domain
    | Emptying     // about to release the region guard
    | Emptied      // about to zero the stamp
    | Finishing    // about to release the mutex

  datatype State = State(
    request: RequestState,
    mutex: Mutex,
    stamped: bool,       // the stamp is not zero
    turn: bool,          // the daemon holds the region guard
    daemon: Daemon,
    remover: Remover,
    requesters: map<nat, Requester>)
  {
    function At(r: nat): Requester {
      if r in requesters then requesters[r] else Away
    }

    /** Whether the local domain's own mutex is free. */
    predicate LocalFree() {
      daemon == Resting && remover != Emptying && remover != Emptied
    }
  }

  function Init(): State {
    State(Idle, Free, false, false, Resting, Gone, map[])
  }

  datatype Event =
    | Lock(requester: nat)                 // takes the mutex
    | Access(requester: nat)               // its next access
    | ReadStamp(requester: nat, valid: bool)
    | NotServed(requester: nat)            // the name is gone or no daemon serves
    | Timeout(requester: nat)
    | EndSection(requester: nat)
    | Die(requester: nat)
    | Serve                                // a worker takes the local domain for this doorbell bit
    | Sweep                                // the maintainer takes it for an expired turn
    | DaemonAccess                         // the next access of the thread that holds it
    | RegionRefuses                        // the region acquire fails
    | KeepTurn                             // waiters are queued and the run is not over
    | RemoveTry                            // the delete tries the mutex
    | RemoveAccess                         // its next access
    | RemoveBusy                           // it finds waiters queued

  function SetAt(s: State, r: nat, phase: Requester): State {
    s.(requesters := s.requesters[r := phase])
  }

  function NextAccess(s: State, r: nat): State {
    match s.At(r)
    case Claiming => SetAt(s.(request := LockHeld), r, Checking)
    case Unclaiming => SetAt(s.(request := Idle), r, Asking)
    case Asking => SetAt(s.(request := LockRequested), r, Waiting)
    case Waiting =>
      if s.request == LockHeld then SetAt(s, r, Inside)
      else if s.request == Error then SetAt(s, r, Leaving)
      else s
    case Leaving => SetAt(s.(request := Idle), r, Unlocking)
    case Unlocking => SetAt(s.(mutex := Free), r, Away)
    case _ => s
  }

  function NextDaemon(s: State): State {
    match s.daemon
    case Resting => s
    case Serving =>
      s.(daemon := if s.request == LockRequested then Publishing else if s.request == Idle then Considering else Resting)
    case Publishing => s.(request := Granting, daemon := TurnCheck)
    case TurnCheck => s.(daemon := if s.turn then Answering else Acquiring)
    case Acquiring => s.(daemon := Recording)
    case Recording => s.(turn := true, daemon := Stamping)
    case Stamping => s.(stamped := true, daemon := Answering)
    case Answering => s.(request := LockHeld, daemon := Resting)
    case Refusing => s.(request := Error, daemon := Resting)
    case Considering => s.(daemon := if s.turn then Revoking else Resting)
    case Revoking => s.(stamped := false, daemon := DropCheck)
    case DropCheck => s.(daemon := if s.request == LockHeld then Resting else Dropping)
    case Dropping => s.(turn := false, daemon := Resting)
    case Sweeping =>
      if s.mutex == Abandoned then s.(mutex := ByDaemon, daemon := Reclaiming)
      else if s.mutex == Free then s.(mutex := ByDaemon, daemon := Reclaimed)
      else s.(daemon := Revoking)
    case Reclaiming => s.(request := Idle, daemon := Reclaimed)
    case Reclaimed => s.(mutex := Free, daemon := Revoking)
  }

  function NextRemover(s: State): State {
    match s.remover
    case Gone => s
    case Trying => s.(remover := if s.request == Idle then Quiet else Finishing)
    case Quiet => if s.LocalFree() then s.(remover := Emptying) else s
    case Emptying => s.(turn := false, remover := Emptied)
    case Emptied => s.(stamped := false, remover := Finishing)
    case Finishing => s.(mutex := Free, remover := Gone)
  }

  function Next(s: State, e: Event): State {
    match e
    case Lock(r) =>
      if s.At(r) == Away && (s.mutex == Free || s.mutex == Abandoned) then SetAt(s.(mutex := Held(r)), r, Claiming) else s
    case Access(r) => NextAccess(s, r)
    case ReadStamp(r, valid) =>
      if s.At(r) == Checking then SetAt(s, r, if s.stamped && valid then Inside else Unclaiming) else s
    case NotServed(r) => if s.At(r) == Claiming || s.At(r) == Asking then SetAt(s, r, Unlocking) else s
    case Timeout(r) => if s.At(r) == Waiting then SetAt(s, r, Leaving) else s
    case EndSection(r) => if s.At(r) == Inside then SetAt(s, r, Leaving) else s
    case Die(r) =>
      if s.At(r) == Dead then s else
      SetAt(if s.mutex == Held(r) then s.(mutex := Abandoned) else s, r, Dead)
    case Serve => if s.LocalFree() then s.(daemon := Serving) else s
    case Sweep => if s.LocalFree() && s.turn then s.(daemon := Sweeping) else s
    case DaemonAccess => NextDaemon(s)
    case RegionRefuses => if s.daemon == Acquiring then s.(daemon := Refusing) else s
    case KeepTurn => if s.daemon == Considering then s.(daemon := Resting) else s
    case RemoveTry =>
      if s.remover == Gone && (s.mutex == Free || s.mutex == Abandoned) then s.(mutex := ByRemover, remover := Trying) else s
    case RemoveAccess => NextRemover(s)
    case RemoveBusy => if s.remover == Trying then s.(remover := Finishing) else s
  }

  function Run(s: State, events: seq<Event>): State
    decreases |events|
  {
    if events == [] then s else Run(Next(s, events[0]), events[1..])
  }

  // ---------- the invariant ----------

  /** Whoever is between taking and releasing the mutex holds it. */
  ghost predicate MutexOk(s: State) {
    && (forall r: nat :: s.mutex == Held(r) <==> s.At(r) != Away && s.At(r) != Dead)
    && (s.mutex == ByDaemon <==> s.daemon == Reclaiming || s.daemon == Reclaimed)
    && (s.mutex == ByRemover <==> s.remover != Gone)
  }

  /** The request word shows a section, or the granting thread will make it show one before it lets go. */
  predicate Shown(s: State) {
    s.request == LockHeld || (s.request == Granting && (s.daemon == TurnCheck || s.daemon == Stamping || s.daemon == Answering))
  }

  ghost predicate DaemonOk(s: State) {
    && (s.daemon == Acquiring || s.daemon == Recording || s.daemon == Refusing ==> !s.turn)
    && (s.daemon == Stamping || s.daemon == Answering ==> s.turn)
    && (s.daemon == Revoking || s.daemon == DropCheck || s.daemon == Dropping ==> s.turn)
    && (s.daemon == Sweeping || s.daemon == Reclaiming || s.daemon == Reclaimed ==> s.turn)
    && (s.daemon == DropCheck || s.daemon == Dropping || s.daemon == Stamping ==> !s.stamped)
    && (s.remover == Emptying || s.remover == Emptied ==> s.daemon == Resting)
    && (s.stamped ==> s.turn || s.remover == Emptied)
  }

  ghost predicate RequesterOk(s: State, r: nat) {
    match s.At(r)
    case Inside => s.turn && Shown(s) && s.daemon != Dropping
    case Checking =>
      && (s.stamped ==> Shown(s))
      && (s.daemon == TurnCheck || s.daemon == Acquiring || s.daemon == Recording || s.daemon == Stamping ==>
            s.request == LockHeld || s.request == Granting)
    case Waiting => s.request == LockHeld ==> s.turn && s.daemon != Dropping
    case _ => true
  }

  ghost predicate Inv(s: State) {
    MutexOk(s) && DaemonOk(s) && forall r: nat :: RequesterOk(s, r)
  }

  /** At most one requester is between taking and releasing the mutex, and none while the delete holds it. */
  lemma OneActive(s: State, r: nat, q: nat)
    requires MutexOk(s) && s.At(r) != Away && s.At(r) != Dead
    ensures s.mutex == Held(r) && s.remover == Gone && s.daemon != Reclaiming && s.daemon != Reclaimed
    ensures q != r ==> s.At(q) == Away || s.At(q) == Dead
  {
    assert s.mutex == Held(r);
  }

  predicate OfRequester(e: Event, r: nat) {
    match e
    case Lock(q) => q == r
    case Access(q) => q == r
    case ReadStamp(q, _) => q == r
    case NotServed(q) => q == r
    case Timeout(q) => q == r
    case EndSection(q) => q == r
    case Die(q) => q == r
    case _ => false
  }

  /** What a requester's own event does to its own clause and to the daemon's. */
  lemma RequesterMoves(s: State, e: Event, r: nat)
    requires MutexOk(s) && DaemonOk(s) && RequesterOk(s, r) && OfRequester(e, r)
    ensures DaemonOk(Next(s, e)) && RequesterOk(Next(s, e), r)
  {
    if s.At(r) != Away && s.At(r) != Dead {
      OneActive(s, r, r);
    }
  }

  lemma RequesterKeepsMutex(s: State, e: Event, r: nat)
    requires MutexOk(s) && OfRequester(e, r)
    ensures MutexOk(Next(s, e))
  {
    var s' := Next(s, e);
    assert forall q: nat | q != r :: s'.At(q) == s.At(q);
    forall q: nat
      ensures s'.mutex == Held(q) <==> s'.At(q) != Away && s'.At(q) != Dead
    {
      assert s.mutex == Held(q) <==> s.At(q) != Away && s.At(q) != Dead;
    }
  }

  lemma RequesterInv(s: State, e: Event, r: nat)
    requires Inv(s) && OfRequester(e, r)
    ensures Inv(Next(s, e))
  {
    var s' := Next(s, e);
    assert RequesterOk(s, r);
    RequesterMoves(s, e, r);
    RequesterKeepsMutex(s, e, r);
    forall q: nat
      ensures RequesterOk(s', q)
    {
      assert RequesterOk(s, q);
      if q != r && s'.At(q) != Away && s'.At(q) != Dead {
        OneActive(s, q, r);
      }
    }
  }

  predicate OfDaemon(e: Event) {
    e.Serve? || e.Sweep? || e.DaemonAccess? || e.RegionRefuses? || e.KeepTurn?
  }

  /** What one daemon access does to one requester's clause. */
  lemma DaemonSpares(s: State, e: Event, r: nat)
    requires DaemonOk(s) && RequesterOk(s, r) && OfDaemon(e)
    requires s.At(r) == Checking || s.At(r) == Waiting || s.At(r) == Inside ==>
               s.remover == Gone && s.daemon != Reclaiming && s.daemon != Reclaimed
    ensures RequesterOk(Next(s, e), r)
  {
    assert Next(s, e).At(r) == s.At(r);
    match s.At(r)
    case Inside =>
    case Checking =>
    case Waiting =>
    case _ =>
  }

  lemma DaemonKeepsMutex(s: State, e: Event)
    requires MutexOk(s) && DaemonOk(s) && OfDaemon(e)
    ensures MutexOk(Next(s, e))
  {
    var s' := Next(s, e);
    forall r: nat
      ensures s'.mutex == Held(r) <==> s'.At(r) != Away && s'.At(r) != Dead
    {
      assert s.mutex == Held(r) <==> s.At(r) != Away && s.At(r) != Dead;
    }
  }

  lemma DaemonInv(s: State, e: Event)
    requires Inv(s) && OfDaemon(e)
    ensures Inv(Next(s, e))
  {
    forall r: nat
      ensures RequesterOk(Next(s, e), r)
    {
      assert RequesterOk(s, r);
      if s.At(r) != Away && s.At(r) != Dead {
        OneActive(s, r, r);
      }
      DaemonSpares(s, e, r);
    }
    DaemonKeepsMutex(s, e);
  }

  lemma RemoverInv(s: State, e: Event)
    requires Inv(s) && (e.RemoveTry? || e.RemoveAccess? || e.RemoveBusy?)
    ensures Inv(Next(s, e))
  {
    var s' := Next(s, e);
    forall r: nat
      ensures RequesterOk(s', r)
      ensures s'.mutex == Held(r) <==> s'.At(r) != Away && s'.At(r) != Dead
    {
      assert RequesterOk(s, r);
      assert s.mutex == Held(r) <==> s.At(r) != Away && s.At(r) != Dead;
      if s.At(r) != Away && s.At(r) != Dead {
        OneActive(s, r, r);
      }
    }
  }

  lemma NextInv(s: State, e: Event)
    requires Inv(s)
    ensures Inv(Next(s, e))
  {
    match e
    case Lock(r) => RequesterInv(s, e, r);
    case Access(r) => RequesterInv(s, e, r);
    case ReadStamp(r, _) => RequesterInv(s, e, r);
    case NotServed(r) => RequesterInv(s, e, r);
    case Timeout(r) => RequesterInv(s, e, r);
    case EndSection(r) => RequesterInv(s, e, r);
    case Die(r) => RequesterInv(s, e, r);
    case RemoveTry => RemoverInv(s, e);
    case RemoveAccess => RemoverInv(s, e);
    case RemoveBusy => RemoverInv(s, e);
    case _ => DaemonInv(s, e);
  }

  lemma {:induction false} RunInv(s: State, events: seq<Event>)
    requires Inv(s)
    ensures Inv(Run(s, events))
    decreases |events|
  {
    if events != [] {
      NextInv(s, events[0]);
      RunInv(Next(s, events[0]), events[1..]);
    }
  }

  // ---------- main theorems ----------

  /** A live requester inside a section always rides a turn the daemon holds. */
  lemma InsideRidesTheTurn(events: seq<Event>, r: nat)
    requires Run(Init(), events).At(r) == Inside
    ensures Run(Init(), events).turn
  {
    RunInv(Init(), events);
    assert RequesterOk(Run(Init(), events), r);
  }

  /** The event that gives the region guard back finds no live requester inside. */
  lemma NoReleaseUnderASection(events: seq<Event>, e: Event, r: nat)
    requires Run(Init(), events).turn && !Next(Run(Init(), events), e).turn
    ensures Run(Init(), events).At(r) != Inside && Next(Run(Init(), events), e).At(r) != Inside
  {
    RunInv(Init(), events);
    var s := Run(Init(), events);
    assert RequesterOk(s, r);
    if s.At(r) == Inside {
      OneActive(s, r, r);
    }
    NextInv(s, e);
    assert RequesterOk(Next(s, e), r);
  }

  /** Local requesters exclude each other. */
  lemma SectionsAreExclusive(events: seq<Event>, r: nat, q: nat)
    requires r != q && Run(Init(), events).At(r) == Inside
    ensures Run(Init(), events).At(q) != Inside
  {
    RunInv(Init(), events);
    OneActive(Run(Init(), events), r, q);
  }

  // ---------- a grant nobody is left to use ----------

  /** The word says LockHeld, no death is there to be found, and the daemon is in no state that could change that. */
  predicate Standing(s: State) {
    && s.turn && s.request == LockHeld && s.mutex != Abandoned
    && (s.daemon == Resting || s.daemon == Serving || s.daemon == Sweeping ||
        s.daemon == Reclaimed || s.daemon == Revoking || s.daemon == DropCheck)
  }

  lemma {:induction false} RunThen(s: State, events: seq<Event>, e: Event)
    ensures Run(s, events + [e]) == Next(Run(s, events), e)
    decreases |events|
  {
    if events == [] {
      assert events + [e] == [e];
      assert Run(Next(s, e), [e][1..]) == Next(s, e);
    } else {
      assert (events + [e])[1..] == events[1..] + [e];
      RunThen(Next(s, events[0]), events[1..], e);
    }
  }

  /** A first request, up to the daemon publishing that it is at work. */
  lemma RequestIsTaken() returns (events: seq<Event>)
    ensures Run(Init(), events) == State(Granting, Held(0), false, false, TurnCheck, Gone, map[0 := Waiting])
  {
    var script := [Lock(0), Access(0), ReadStamp(0, true), Access(0), Access(0), Serve, DaemonAccess, DaemonAccess];
    events := [];
    var s := Init();
    for i := 0 to |script|
      invariant Run(Init(), events) == s
      invariant i == 0 ==> s == Init()
      invariant i == 1 ==> s == State(Idle, Held(0), false, false, Resting, Gone, map[0 := Claiming])
      invariant i == 2 ==> s == State(LockHeld, Held(0), false, false, Resting, Gone, map[0 := Checking])
      invariant i == 3 ==> s == State(LockHeld, Held(0), false, false, Resting, Gone, map[0 := Unclaiming])
      invariant i == 4 ==> s == State(Idle, Held(0), false, false, Resting, Gone, map[0 := Asking])
      invariant i == 5 ==> s == State(LockRequested, Held(0), false, false, Resting, Gone, map[0 := Waiting])
      invariant i == 6 ==> s == State(LockRequested, Held(0), false, false, Serving, Gone, map[0 := Waiting])
      invariant i == 7 ==> s == State(LockRequested, Held(0), false, false, Publishing, Gone, map[0 := Waiting])
      invariant i == 8 ==> s == State(Granting, Held(0), false, false, TurnCheck, Gone, map[0 := Waiting])
    {
      RunThen(Init(), events, script[i]);
      events, s := events + [script[i]], Next(s, script[i]);
    }
  }

  lemma TurnIsTaken() returns (events: seq<Event>)
    ensures Run(Init(), events) == State(Granting, Held(0), true, true, Answering, Gone, map[0 := Waiting])
  {
    events := RequestIsTaken();
    var s := Run(Init(), events);
    for i := 0 to 4
      invariant Run(Init(), events) == s
      invariant i == 0 ==> s == State(Granting, Held(0), false, false, TurnCheck, Gone, map[0 := Waiting])
      invariant i == 1 ==> s == State(Granting, Held(0), false, false, Acquiring, Gone, map[0 := Waiting])
      invariant i == 2 ==> s == State(Granting, Held(0), false, false, Recording, Gone, map[0 := Waiting])
      invariant i == 3 ==> s == State(Granting, Held(0), false, true, Stamping, Gone, map[0 := Waiting])
      invariant i == 4 ==> s == State(Granting, Held(0), true, true, Answering, Gone, map[0 := Waiting])
    {
      RunThen(Init(), events, DaemonAccess);
      events, s := events + [DaemonAccess], Next(s, DaemonAccess);
    }
  }

  /** The hand-back is not promised: a requester that times out while it is being granted leaves the word at LockHeld. */
  lemma GrantOutlivesItsRequester() returns (events: seq<Event>)
    ensures Standing(Run(Init(), events)) && Run(Init(), events).mutex == Free
    ensures forall r: nat :: Run(Init(), events).At(r) == Away
  {
    events := TurnIsTaken();
    var script := [Timeout(0), Access(0), Access(0), DaemonAccess];
    var s := Run(Init(), events);
    for i := 0 to |script|
      invariant Run(Init(), events) == s
      invariant i == 0 ==> s == State(Granting, Held(0), true, true, Answering, Gone, map[0 := Waiting])
      invariant i == 1 ==> s == State(Granting, Held(0), true, true, Answering, Gone, map[0 := Leaving])
      invariant i == 2 ==> s == State(Idle, Held(0), true, true, Answering, Gone, map[0 := Unlocking])
      invariant i == 3 ==> s == State(Idle, Free, true, true, Answering, Gone, map[0 := Away])
      invariant i == 4 ==> s == State(LockHeld, Free, true, true, Resting, Gone, map[0 := Away])
    {
      RunThen(Init(), events, script[i]);
      events, s := events + [script[i]], Next(s, script[i]);
    }
  }

  predicate ByDaemonAlone(events: seq<Event>) {
    forall i | 0 <= i < |events| :: OfDaemon(events[i])
  }

  /** The daemon alone never gives such a turn back, whatever it wakes for. */
  lemma {:induction false} DaemonAloneKeepsIt(s: State, events: seq<Event>)
    requires Standing(s) && ByDaemonAlone(events)
    ensures Standing(Run(s, events))
    decreases |events|
  {
    if events != [] {
      DaemonAloneKeepsIt(Next(s, events[0]), events[1..]);
    }
  }

  /** How many accesses a sweep still has before it. */
  function Remaining(d: Daemon): nat {
    match d
    case Sweeping => 6
    case Reclaiming => 5
    case Reclaimed => 4
    case Revoking => 3
    case DropCheck => 2
    case Dropping => 1
    case _ => 0
  }

  /** A sweep that finds no LockHeld, or clears one whose holder died, ends with the turn given back. */
  lemma {:induction false} SweepFinishes(s: State) returns (events: seq<Event>)
    requires s.turn && Remaining(s.daemon) > 0
    requires s.request != LockHeld || (s.daemon == Sweeping && s.mutex == Abandoned) || s.daemon == Reclaiming || s.daemon == Dropping
    ensures ByDaemonAlone(events) && !Run(s, events).turn
    decreases Remaining(s.daemon)
  {
    var s' := Next(s, DaemonAccess);
    var rest: seq<Event> := [];
    if s.daemon != Dropping {
      rest := SweepFinishes(s');
    }
    events := [DaemonAccess] + rest;
    assert events[1..] == rest;
  }

  /**
   When the daemon, left to itself, can give a turn back: exactly when the request word does not say LockHeld or the
   holder of the request mutex died. A live section keeps the turn, and so does a grant its requester no longer waits for.
   */
  lemma HandBackExactly(s: State)
    requires s.turn && s.LocalFree()
    ensures (exists events :: ByDaemonAlone(events) && !Run(s, events).turn) <==> s.request != LockHeld || s.mutex == Abandoned
  {
    if s.request != LockHeld || s.mutex == Abandoned {
      var rest := SweepFinishes(Next(s, Sweep));
      var events := [Sweep] + rest;
      assert events[1..] == rest;
      assert ByDaemonAlone(events) && !Run(s, events).turn;
    } else {
      forall events | ByDaemonAlone(events)
        ensures Run(s, events).turn
      {
        DaemonAloneKeepsIt(s, events);
      }
    }
  }

  /** A requester that dies leaves the word as it stood and its mutex abandoned, and the next requester can take that. */
  lemma DeathAbandonsTheMutex(s: State, r: nat, q: nat)
    requires Inv(s) && s.At(r) != Away && s.At(r) != Dead && s.At(q) == Away && q != r
    ensures var dead := Next(s, Die(r));
            && dead == SetAt(s.(mutex := Abandoned), r, Dead)
            && Next(dead, Lock(q)) == SetAt(dead.(mutex := Held(q)), q, Claiming)
  {
    OneActive(s, r, q);
  }
}
