/**
 `tryLockOnce`, `CmedGuard::release`, `serveLock`, `grant`, `dropTurn`, `dropExpiredTurns` and the turn part of
 `remove` as the statements the source runs (daemon/client/session.cpp, daemon/client/guard.cpp,
 daemon/daemon/domain/manager.cpp), on words that everybody else may write between any two of their accesses.

 `Model` is a state of the `TurnHandshake` machine; `others(h)` is what the rest of the node does once this actor has
 made the accesses `h`. What a method leaves is its own accesses woven with `others` and no more.
 */
module RequestSlot {
  import opened Histories
  import opened TurnHandshake

  type Interference = History<Event> -> seq<Event>

  datatype Outcome = Guarded | Refused | Unavailable | UnknownName

  predicate OfRemover(e: Event) {
    e.RemoveTry? || e.RemoveAccess? || e.RemoveBusy?
  }

  /** What the rest of the node cannot do for a requester. */
  ghost predicate SparesRequester(others: Interference, self: nat) {
    forall h: History<Event>, e: Event | e in others(h) :: !OfRequester(e, self)
  }

  ghost predicate SparesDaemon(others: Interference) {
    forall h: History<Event>, e: Event | e in others(h) :: !OfDaemon(e)
  }

  ghost predicate SparesRemover(others: Interference) {
    forall h: History<Event>, e: Event | e in others(h) :: !OfRemover(e)
  }

  ghost predicate Silent(others: Interference) {
    forall h: History<Event> :: others(h) == []
  }

  function Weave(s: State, own: History<Event>, others: Interference): State {
    match own
    case Start => s
    case Then(past, e) => Next(Run(Weave(s, past, others), others(past)), e)
  }

  /** What the access after `past` finds. */
  function Found(s: State, past: History<Event>, others: Interference): State {
    Run(Weave(s, past, others), others(past))
  }

  lemma {:induction false} WeaveInv(s: State, own: History<Event>, others: Interference)
    requires Inv(s)
    ensures Inv(Weave(s, own, others)) && Inv(Found(s, own, others))
    decreases own
  {
    hide Next, Run, Inv;
    if own.Then? {
      WeaveInv(s, own.past, others);
      NextInv(Found(s, own.past, others), own.event);
    }
    RunInv(Weave(s, own, others), others(own));
  }

  // ---------- each actor's place moves by its own events only, and the turn only under the local domain ----------

  lemma PlacesKeep(s: State, e: Event, self: nat)
    ensures !OfRequester(e, self) ==> Next(s, e).At(self) == s.At(self)
    ensures !OfDaemon(e) ==> Next(s, e).daemon == s.daemon
    ensures !OfRemover(e) ==> Next(s, e).remover == s.remover
  {
  }

  lemma DaemonKeeps(s: State, e: Event)
    requires !OfDaemon(e) && Inv(s)
    ensures s.daemon != Resting ==> Next(s, e).turn == s.turn && Next(s, e).stamped == s.stamped
  {
  }

  lemma RemoverKeeps(s: State, e: Event)
    requires !OfRemover(e) && Inv(s)
    ensures s.remover == Emptying || s.remover == Emptied ==> Next(s, e).turn == s.turn && Next(s, e).stamped == s.stamped
  {
  }

  lemma {:induction false} RunSparesRequester(s: State, events: seq<Event>, self: nat)
    requires forall e | e in events :: !OfRequester(e, self)
    ensures Run(s, events).At(self) == s.At(self)
    decreases |events|
  {
    if events != [] {
      PlacesKeep(s, events[0], self);
      RunSparesRequester(Next(s, events[0]), events[1..], self);
    }
  }

  lemma {:induction false} RunSparesDaemon(s: State, events: seq<Event>)
    requires Inv(s) && s.daemon != Resting && forall e | e in events :: !OfDaemon(e)
    ensures Run(s, events).daemon == s.daemon && Run(s, events).turn == s.turn && Run(s, events).stamped == s.stamped
    decreases |events|
  {
    if events != [] {
      hide Next, Inv;
      PlacesKeep(s, events[0], 0);
      DaemonKeeps(s, events[0]);
      NextInv(s, events[0]);
      RunSparesDaemon(Next(s, events[0]), events[1..]);
    }
  }

  lemma {:induction false} RunKeepsRemover(s: State, events: seq<Event>)
    requires forall e | e in events :: !OfRemover(e)
    ensures Run(s, events).remover == s.remover
    decreases |events|
  {
    if events != [] {
      PlacesKeep(s, events[0], 0);
      RunKeepsRemover(Next(s, events[0]), events[1..]);
    }
  }

  lemma FoundKeepsRemover(s: State, past: History<Event>, others: Interference)
    requires SparesRemover(others)
    ensures Found(s, past, others).remover == Weave(s, past, others).remover
  {
    hide Run, Next, Weave;
    RunKeepsRemover(Weave(s, past, others), others(past));
  }

  lemma {:induction false} RunSparesRemover(s: State, events: seq<Event>)
    requires Inv(s) && (s.remover == Emptying || s.remover == Emptied) && forall e | e in events :: !OfRemover(e)
    ensures Run(s, events).remover == s.remover && Run(s, events).turn == s.turn && Run(s, events).stamped == s.stamped
    decreases |events|
  {
    if events != [] {
      hide Next, Inv;
      PlacesKeep(s, events[0], 0);
      RemoverKeeps(s, events[0]);
      NextInv(s, events[0]);
      RunSparesRemover(Next(s, events[0]), events[1..]);
    }
  }

  // ---------- what a try comes to ----------

  predicate Takeable(m: Mutex) {
    m == Free || m == Abandoned
  }

  predicate Answered(r: RequestState) {
    r == LockHeld || r == Error
  }

  /** The request word as the requester's `k`-th look after `past` finds it. */
  function Look(s: State, past: History<Event>, others: Interference, self: nat, k: nat): RequestState {
    Found(s, Times(past, Access(self), k), others).request
  }

  /** The first look that finds an answer decides, of at most `patience`. */
  ghost predicate Awaited(s: State, past: History<Event>, others: Interference, self: nat, patience: nat, looks: nat, outcome: Outcome) {
    && looks <= patience && (forall j: nat | j < looks :: !Answered(Look(s, past, others, self, j)))
    && if looks == patience then outcome == Unavailable
       else match Look(s, past, others, self, looks)
            case LockHeld => outcome == Guarded
            case Error => outcome == Refused
            case _ => false
  }

  /** The claim stored, the stamp read, the claim taken back, and the request made. */
  function AskSteps(locked: History<Event>, self: nat, ahead: bool): History<Event> {
    Then(Then(Then(Then(locked, Access(self)), ReadStamp(self, ahead)), Access(self)), Access(self))
  }

  /** What a requester that has the mutex answers. */
  ghost predicate Decided(s: State, locked: History<Event>, others: Interference, self: nat, named: bool, ahead: bool,
                          serving: bool, patience: nat, looks: nat, outcome: Outcome)
  {
    if !named then outcome == UnknownName
    else if ahead && Found(s, Then(locked, Access(self)), others).stamped then outcome == Guarded
    else if !serving then outcome == Unavailable
    else Awaited(s, AskSteps(locked, self, ahead), others, self, patience, looks, outcome)
  }

  /** The requester is gone, and the words are as a requester leaves them. */
  function Left(s: State, self: nat, request: RequestState): State {
    SetAt(s.(mutex := Free, request := request), self, Away)
  }

  /** An undisturbed try. */
  ghost predicate Tried(s: State, s': State, self: nat, named: bool, ahead: bool, got: bool, outcome: Outcome) {
    if !got then outcome == Unavailable && s' == s
    else if !named then outcome == UnknownName && s' == Left(s, self, s.request)
    else if s.stamped && ahead then outcome == Guarded && s' == SetAt(s.(mutex := Held(self), request := LockHeld), self, Inside)
    else outcome == Unavailable && s' == Left(s, self, Idle)
  }

  /** What an undisturbed pass over a domain at rest leaves. */
  function Served(s: State, reached: bool, keep: bool): State {
    match s.request
    case LockRequested =>
      var has := s.turn || reached;
      s.(request := if has then LockHeld else Error, turn := has, stamped := if s.turn then s.stamped else reached)
    case Idle => if keep then s else s.(turn := false, stamped := false)
    case _ => s
  }

  /** What an undisturbed sweep of an expired turn leaves: an abandoned claim is no claim. */
  function Swept(s: State): State {
    var request := if s.mutex == Abandoned then Idle else s.request;
    s.(request := request, mutex := if s.mutex == Abandoned then Free else s.mutex, stamped := false, turn := request == LockHeld)
  }

  class Slot {
    var request: RequestState
    var mutex: Mutex
    var stamped: bool
    var turn: bool
    var daemon: Daemon
    var remover: Remover
    var requesters: map<nat, Requester>

    function Model(): State
      reads this
    {
      State(request, mutex, stamped, turn, daemon, remover, requesters)
    }

    constructor ()
      ensures Model() == Init() && Inv(Model())
    {
      request, mutex, stamped, turn, daemon, remover, requesters := Idle, Free, false, false, Resting, Gone, map[];
    }

    /** The rest of the node runs until this actor's next access. */
    method Others(others: Interference, past: History<Event>, ghost start: State)
      requires Model() == Weave(start, past, others)
      modifies this
      ensures Model() == Found(start, past, others) && (Silent(others) ==> Model() == old(Model()))
    {
      hide Next, Weave;
      var s := Model();
      for i := 0 to |others(past)|
        invariant Run(s, others(past)[i..]) == Run(old(Model()), others(past))
      {
        assert others(past)[i..][1..] == others(past)[i + 1..];
        s := Next(s, others(past)[i]);
      }
      assert others(past)[|others(past)|..] == [];
      request, mutex, stamped, turn := s.request, s.mutex, s.stamped, s.turn;
      daemon, remover, requesters := s.daemon, s.remover, s.requesters;
    }

    // ---------- the requester ----------

    /** In the middle of a call that found `start` and has made the accesses `past`. */
    ghost predicate Going(start: State, past: History<Event>, others: Interference, self: nat)
      reads this
    {
      Model() == Weave(start, past, others) && SparesRequester(others, self)
    }

    method Beside(others: Interference, past: History<Event>, ghost start: State, ghost self: nat)
      requires Going(start, past, others, self)
      modifies this
      ensures Model() == Found(start, past, others) && (Silent(others) ==> Model() == old(Model()))
      ensures Model().At(self) == old(Model()).At(self)
    {
      hide Next, Run, Weave;
      RunSparesRequester(Model(), others(past), self);
      Others(others, past, start);
    }

    /** One access of a requester: its place moves to `place`, the words to what it stores. */
    method Put(e: Event, self: nat, place: Requester, request': RequestState, mutex': Mutex, others: Interference,
               past: History<Event>, ghost start: State)
      requires Model() == Found(start, past, others)
      requires Next(Model(), e) == SetAt(Model().(request := request', mutex := mutex'), self, place)
      modifies this
      ensures Model() == Weave(start, Then(past, e), others)
      ensures Model() == SetAt(old(Model()).(request := request', mutex := mutex'), self, place)
    {
      hide Next, Run;
      request, mutex, requesters := request', mutex', requesters[self := place];
    }

    /** Waits for the request mutex, for at most `patience` looks. */
    method LockForRequest(self: nat, patience: nat, others: Interference)
      returns (held: bool, tries: nat, h: History<Event>)
      requires Model().At(self) == Away && SparesRequester(others, self)
      modifies this
      ensures Going(old(Model()), h, others, self) && Model().At(self) == if held then Claiming else Away
      ensures tries <= patience && (held <==> tries < patience)
      ensures h == Times(Start, Lock(self), if held then tries + 1 else tries)
      ensures forall j: nat | j < tries :: !Takeable(Found(old(Model()), Times(Start, Lock(self), j), others).mutex)
      ensures held ==> Takeable(Found(old(Model()), Times(Start, Lock(self), tries), others).mutex)
      ensures Silent(others) ==>
                && (held <==> patience > 0 && Takeable(old(mutex)))
                && Model() == if held then SetAt(old(Model()).(mutex := Held(self)), self, Claiming) else old(Model())
    {
      hide Run, Weave, Found, Next;
      held, tries, h := false, 0, Start;
      NothingYet(others);
      while tries < patience && !held
        invariant tries <= patience && (held ==> tries < patience)
        invariant Going(old(Model()), h, others, self) && Model().At(self) == if held then Claiming else Away
        invariant h == Times(Start, Lock(self), if held then tries + 1 else tries)
        invariant forall j: nat | j < tries :: !Takeable(Found(old(Model()), Times(Start, Lock(self), j), others).mutex)
        invariant held ==> Takeable(Found(old(Model()), Times(Start, Lock(self), tries), others).mutex)
        invariant Silent(others) ==>
                    && (held ==> Takeable(old(mutex))) && (!held && tries > 0 ==> !Takeable(old(mutex)))
                    && Model() == if held then SetAt(old(Model()).(mutex := Held(self)), self, Claiming) else old(Model())
        decreases !held, patience - tries
      {
        held, h := TryMutexOnce(self, others, h, old(Model()));
        if !held {
          tries := tries + 1;
        }
      }
    }

    lemma NothingYet(others: Interference)
      ensures Weave(Model(), Start, others) == Model()
    {
    }

    method TryMutexOnce(self: nat, others: Interference, past: History<Event>, ghost start: State)
      returns (held: bool, h: History<Event>)
      requires Going(start, past, others, self) && Model().At(self) == Away
      modifies this
      ensures Going(start, h, others, self) && h == Then(past, Lock(self)) && Model().At(self) == if held then Claiming else Away
      ensures held <==> Takeable(Found(start, past, others).mutex)
      ensures Silent(others) ==>
                && (held <==> Takeable(old(mutex)))
                && Model() == if held then SetAt(old(Model()).(mutex := Held(self)), self, Claiming) else old(Model())
    {
      hide Run;
      Beside(others, past, start, self);
      held := Takeable(mutex);
      if held {
        Put(Lock(self), self, Claiming, request, Held(self), others, past, start);
      }
      h := Then(past, Lock(self));
    }

    /** The claim goes down before the turn behind it is read. `ahead`: whether a stamp that is set lies ahead of the clock. */
    method ClaimTurn(self: nat, ahead: bool, others: Interference, past: History<Event>, ghost start: State)
      returns (entered: bool, h: History<Event>)
      requires Going(start, past, others, self) && Model().At(self) == Claiming
      modifies this
      ensures Going(start, h, others, self) && Model().At(self) == if entered then Inside else Unclaiming
      ensures h == Then(Then(past, Access(self)), ReadStamp(self, ahead))
      ensures entered <==> ahead && Found(start, Then(past, Access(self)), others).stamped
      ensures Silent(others) ==>
                && (entered <==> old(stamped) && ahead)
                && Model() == SetAt(old(Model()).(request := LockHeld), self, if entered then Inside else Unclaiming)
    {
      hide Run, Weave, Found;
      Beside(others, past, start, self);
      Put(Access(self), self, Checking, LockHeld, mutex, others, past, start);
      h := Then(past, Access(self));
      Beside(others, h, start, self);
      entered := stamped && ahead;
      Put(ReadStamp(self, ahead), self, if entered then Inside else Unclaiming, request, mutex, others, h, start);
      h := Then(h, ReadStamp(self, ahead));
    }

    /** Takes the claim back and asks the daemon, unless none serves. */
    method Ask(self: nat, serving: bool, others: Interference, past: History<Event>, ghost start: State)
      returns (h: History<Event>)
      requires Going(start, past, others, self) && Model().At(self) == Unclaiming
      modifies this
      ensures Going(start, h, others, self) && Model().At(self) == if serving then Waiting else Unlocking
      ensures h == Then(Then(past, Access(self)), if serving then Access(self) else NotServed(self))
      ensures serving ==> request == LockRequested
      ensures Silent(others) ==>
                Model() == if serving then SetAt(old(Model()).(request := LockRequested), self, Waiting)
                           else SetAt(old(Model()).(request := Idle), self, Unlocking)
    {
      hide Run, Weave, Found;
      Beside(others, past, start, self);
      Put(Access(self), self, Asking, Idle, mutex, others, past, start);
      h := Then(past, Access(self));
      Beside(others, h, start, self);
      if serving {
        Put(Access(self), self, Waiting, LockRequested, mutex, others, h, start);
      } else {
        Put(NotServed(self), self, Unlocking, request, mutex, others, h, start);
      }
      h := Then(h, if serving then Access(self) else NotServed(self));
    }

    /** One look at the word. */
    method LookAtAnswer(self: nat, others: Interference, past: History<Event>, ghost start: State)
      returns (seen: RequestState)
      requires Going(start, past, others, self) && Model().At(self) == Waiting
      modifies this
      ensures Going(start, Then(past, Access(self)), others, self) && seen == Found(start, past, others).request
      ensures Model().At(self) == match seen case LockHeld => Inside case Error => Leaving case _ => Waiting
      ensures Silent(others) ==>
                seen == old(request) && Model() == if Answered(seen) then SetAt(old(Model()), self, Model().At(self)) else old(Model())
    {
      hide Run, Weave, Found;
      Beside(others, past, start, self);
      seen := request;
      ghost var s := Model();
      assert s.requesters[self := Waiting] == s.requesters;
      Put(Access(self), self, match seen case LockHeld => Inside case Error => Leaving case _ => Waiting, request, mutex, others, past, start);
    }

    /** Reads the word until it is an answer or `patience` looks have passed. */
    method AwaitAnswer(self: nat, patience: nat, others: Interference, past: History<Event>, ghost start: State)
      returns (outcome: Outcome, looks: nat, h: History<Event>)
      requires Going(start, past, others, self) && Model().At(self) == Waiting
      modifies this
      ensures Going(start, h, others, self) && Model().At(self) == if outcome == Guarded then Inside else Leaving
      ensures Awaited(start, past, others, self, patience, looks, outcome)
      ensures h == if looks == patience then Then(Times(past, Access(self), looks), Timeout(self)) else Times(past, Access(self), looks + 1)
      ensures Silent(others) && !Answered(old(request)) ==> outcome == Unavailable && Model() == SetAt(old(Model()), self, Leaving)
    {
      hide Run, Weave, Found, Next;
      looks, h := 0, past;
      while looks < patience
        invariant looks <= patience && h == Times(past, Access(self), looks)
        invariant Going(start, h, others, self) && Model().At(self) == Waiting
        invariant forall j: nat | j < looks :: !Answered(Look(start, past, others, self, j))
        invariant Silent(others) && !Answered(old(request)) ==> Model() == old(Model())
      {
        var seen := LookAtAnswer(self, others, h, start);
        h := Then(h, Access(self));
        if Answered(seen) {
          assert h == Times(past, Access(self), looks + 1);
          return if seen == LockHeld then Guarded else Refused, looks, h;
        }
        looks := looks + 1;
      }
      GiveUp(self, others, h, start);
      return Unavailable, looks, Then(h, Timeout(self));
    }

    method GiveUp(self: nat, others: Interference, past: History<Event>, ghost start: State)
      requires Going(start, past, others, self) && Model().At(self) == Waiting
      modifies this
      ensures Going(start, Then(past, Timeout(self)), others, self) && Model().At(self) == Leaving
      ensures Silent(others) ==> Model() == SetAt(old(Model()), self, Leaving)
    {
      hide Run, Weave, Found;
      Beside(others, past, start, self);
      Put(Timeout(self), self, Leaving, request, mutex, others, past, start);
    }

    /** The end of every guard: Idle first, then the mutex, and a ring unless a local requester was queued. */
    method Release(self: nat, queued: bool, others: Interference, past: History<Event>, ghost start: State)
      returns (rings: bool, h: History<Event>)
      requires Going(start, past, others, self) && (Model().At(self) == Inside || Model().At(self) == Leaving)
      modifies this
      ensures Going(start, h, others, self) && Model().At(self) == Away && mutex == Free
      ensures h == Then(Then(if old(Model()).At(self) == Inside then Then(past, EndSection(self)) else past, Access(self)), Access(self))
      ensures rings <==> !queued
      ensures Silent(others) ==> Model() == Left(old(Model()), self, Idle)
    {
      hide Run, Weave, Found;
      h := past;
      if Model().At(self) == Inside {
        Beside(others, h, start, self);
        Put(EndSection(self), self, Leaving, request, mutex, others, h, start);
        h := Then(h, EndSection(self));
      }
      Beside(others, h, start, self);
      Put(Access(self), self, Unlocking, Idle, mutex, others, h, start);
      h := Then(h, Access(self));
      var nobodyQueued := !queued;
      h := Unlock(self, others, h, start);
      return nobodyQueued, h;
    }

    method Unlock(self: nat, others: Interference, past: History<Event>, ghost start: State) returns (h: History<Event>)
      requires Going(start, past, others, self) && Model().At(self) == Unlocking
      modifies this
      ensures Going(start, h, others, self) && h == Then(past, Access(self)) && Model().At(self) == Away && mutex == Free
      ensures Silent(others) ==> Model() == SetAt(old(Model()).(mutex := Free), self, Away)
    {
      hide Run, Weave, Found;
      Beside(others, past, start, self);
      Put(Access(self), self, Away, request, Free, others, past, start);
      h := Then(past, Access(self));
    }

    /**
     A requester leaves with a guard only while the daemon holds the turn, and otherwise leaves nothing behind. What it
     answers is settled by what its accesses find: the mutex within `patience` tries, the name, a stamp ahead of the
     clock, whether anybody serves, and the first answer within `patience` looks.
     */
    method TryLockOnce(self: nat, named: bool, ahead: bool, serving: bool, queued: bool, patience: nat, others: Interference)
      returns (outcome: Outcome, tries: nat, looks: nat, h: History<Event>)
      requires Inv(Model()) && Model().At(self) == Away && SparesRequester(others, self)
      modifies this
      ensures Inv(Model()) && Model() == Weave(old(Model()), h, others)
      ensures outcome == Guarded ==> Model().At(self) == Inside && turn && daemon != Dropping && mutex == Held(self)
      ensures outcome != Guarded ==> Model().At(self) == Away
      ensures tries <= patience
      ensures forall j: nat | j < tries :: !Takeable(Found(old(Model()), Times(Start, Lock(self), j), others).mutex)
      ensures tries == patience ==> outcome == Unavailable
      ensures tries < patience ==>
                && Takeable(Found(old(Model()), Times(Start, Lock(self), tries), others).mutex)
                && Decided(old(Model()), Times(Start, Lock(self), tries + 1), others, self, named, ahead, serving, patience, looks, outcome)
      ensures Silent(others) ==>
                Tried(old(Model()), Model(), self, named, ahead, patience > 0 && Takeable(old(mutex)), outcome)
    {
      hide Run, Weave, Found, Next, Inv;
      ghost var s := Model();
      looks := 0;
      var held;
      held, tries, h := LockForRequest(self, patience, others);
      if !held {
        outcome := Unavailable;
      } else if !named {
        outcome := UnknownName;
        h := LeaveUnnamed(self, others, h, s);
      } else {
        outcome, looks, h := TryUnderMutex(self, ahead, serving, queued, patience, others, h, s);
      }
      WeaveInv(s, h, others);
      if outcome == Guarded {
        InsideFacts(self);
      }
    }

    method LeaveUnnamed(self: nat, others: Interference, past: History<Event>, ghost start: State)
      returns (h: History<Event>)
      requires Going(start, past, others, self) && Model().At(self) == Claiming
      modifies this
      ensures Going(start, h, others, self) && Model().At(self) == Away
      ensures Silent(others) ==> Model() == SetAt(old(Model()).(mutex := Free), self, Away)
    {
      hide Run, Weave, Found;
      Beside(others, past, start, self);
      Put(NotServed(self), self, Unlocking, request, mutex, others, past, start);
      h := Unlock(self, others, Then(past, NotServed(self)), start);
    }

    /** From the mutex on, with the name still in its place. */
    method TryUnderMutex(self: nat, ahead: bool, serving: bool, queued: bool, patience: nat, others: Interference,
                         past: History<Event>, ghost start: State)
      returns (outcome: Outcome, looks: nat, h: History<Event>)
      requires Going(start, past, others, self) && Model().At(self) == Claiming
      modifies this
      ensures Going(start, h, others, self) && Model().At(self) == if outcome == Guarded then Inside else Away
      ensures Decided(start, past, others, self, true, ahead, serving, patience, looks, outcome)
      ensures Silent(others) ==>
                && outcome == (if old(stamped) && ahead then Guarded else Unavailable)
                && Model() == if outcome == Guarded then SetAt(old(Model()).(request := LockHeld), self, Inside)
                              else Left(old(Model()), self, Idle)
    {
      hide Run, Weave, Found, Next;
      ghost var s := Model();
      looks := 0;
      var entered;
      entered, h := ClaimTurn(self, ahead, others, past, start);
      if entered {
        return Guarded, looks, h;
      }
      h := Ask(self, serving, others, h, start);
      if serving {
        outcome, looks, h := AwaitAndJudge(self, queued, patience, others, h, start);
      } else {
        outcome := Unavailable;
        h := Unlock(self, others, h, start);
      }
    }

    /** A guard stands before the answer is judged, so that every way out but success releases it. */
    method AwaitAndJudge(self: nat, queued: bool, patience: nat, others: Interference, past: History<Event>, ghost start: State)
      returns (outcome: Outcome, looks: nat, h: History<Event>)
      requires Going(start, past, others, self) && Model().At(self) == Waiting && request == LockRequested
      modifies this
      ensures Going(start, h, others, self) && Model().At(self) == if outcome == Guarded then Inside else Away
      ensures Awaited(start, past, others, self, patience, looks, outcome)
      ensures Silent(others) ==> outcome == Unavailable && Model() == Left(SetAt(old(Model()), self, Leaving), self, Idle)
    {
      hide Run, Weave, Found, Next;
      outcome, looks, h := AwaitAnswer(self, patience, others, past, start);
      if outcome != Guarded {
        var _, after := Release(self, queued, others, h, start);
        h := after;
      }
    }

    lemma InsideFacts(self: nat)
      requires Inv(Model()) && Model().At(self) == Inside
      ensures turn && daemon != Dropping && mutex == Held(self)
    {
      assert RequesterOk(Model(), self);
      OneActive(Model(), self, self);
    }

    /** A guard goes: its section is over. */
    method EndGuard(self: nat, queued: bool, others: Interference) returns (rings: bool, h: History<Event>)
      requires Inv(Model()) && Model().At(self) == Inside && SparesRequester(others, self)
      modifies this
      ensures Inv(Model()) && Model() == Weave(old(Model()), h, others) && Model().At(self) == Away && mutex == Free
      ensures h == Then(Then(Then(Start, EndSection(self)), Access(self)), Access(self)) && (rings <==> !queued)
      ensures Silent(others) ==> Model() == Left(old(Model()), self, Idle)
    {
      hide Run, Next, Inv, Found;
      rings, h := Release(self, queued, others, Start, Model());
      WeaveInv(old(Model()), h, others);
    }

    // ---------- the daemon ----------

    /** In the middle of a pass of the thread that holds the local domain. */
    ghost predicate Passing(start: State, past: History<Event>, others: Interference)
      reads this
    {
      Inv(start) && Model() == Weave(start, past, others) && SparesDaemon(others)
    }

    /** What runs between two accesses of that thread. */
    method Meanwhile(others: Interference, past: History<Event>, ghost start: State)
      requires Passing(start, past, others) && daemon != Resting
      modifies this
      ensures Model() == Found(start, past, others) && Inv(Model()) && (Silent(others) ==> Model() == old(Model()))
      ensures daemon == old(daemon) && turn == old(turn) && stamped == old(stamped)
    {
      hide Next, Run, Weave, Inv;
      WeaveInv(start, past, others);
      RunSparesDaemon(Model(), others(past));
      Others(others, past, start);
    }

    /** One access of that thread. */
    method Set(e: Event, daemon': Daemon, request': RequestState, mutex': Mutex, stamped': bool, turn': bool, others: Interference,
               past: History<Event>, ghost start: State)
      returns (h: History<Event>)
      requires Model() == Found(start, past, others) && Inv(start) && SparesDaemon(others)
      requires Next(Model(), e) == Model().(daemon := daemon', request := request', mutex := mutex', stamped := stamped', turn := turn')
      modifies this
      ensures h == Then(past, e) && Passing(start, h, others)
      ensures Model() == old(Model()).(daemon := daemon', request := request', mutex := mutex', stamped := stamped', turn := turn')
    {
      hide Next, Run, Inv;
      daemon, request, mutex, stamped, turn := daemon', request', mutex', stamped', turn';
      h := Then(past, e);
    }

    /** One worker's pass over this domain. `reached`: whether the region answers; `keep`: waiters are queued and the run is not over. */
    method ServeLock(reached: bool, keep: bool, others: Interference) returns (seen: RequestState, h: History<Event>)
      requires Inv(Model()) && SparesDaemon(others) && Found(Model(), Start, others).LocalFree()
      modifies this
      ensures Inv(Model()) && Model() == Weave(old(Model()), h, others) && daemon == Resting
      ensures seen == Found(old(Model()), Then(Start, Serve), others).request
      ensures var found := Found(old(Model()), Start, others);
              && (seen == LockRequested ==>
                    && (turn <==> found.turn || reached) && request == (if turn then LockHeld else Error)
                    && stamped == if found.turn then found.stamped else reached)
              && (seen == Idle && !keep ==> !stamped && (turn ==> found.turn && request == LockHeld))
              && (seen != LockRequested && (seen != Idle || keep) ==> turn == found.turn && stamped == found.stamped)
      ensures Silent(others) ==> Model() == Served(old(Model()), reached, keep)
    {
      hide Run, Weave, Found, Inv;
      ghost var s := Model();
      Others0(others);
      h := Set(Serve, Serving, request, mutex, stamped, turn, others, Start, s);
      Meanwhile(others, h, s);
      seen := request;
      h := Set(DaemonAccess, if seen == LockRequested then Publishing else if seen == Idle then Considering else Resting,
               request, mutex, stamped, turn, others, h, s);
      if seen == LockRequested {
        h := Grant(reached, others, h, s);
      } else if seen == Idle {
        h := DropTurnIfIdle(keep, others, h, s);
      }
      WeaveInv(s, h, others);
    }

    /** Until the local domain is locked. */
    method Others0(others: Interference)
      requires Inv(Model())
      modifies this
      ensures Model() == Found(old(Model()), Start, others) && Inv(Model()) && (Silent(others) ==> Model() == old(Model()))
    {
      hide Run, Next, Inv;
      WeaveInv(Model(), Start, others);
      Others(others, Start, Model());
    }

    /** Answers LockHeld with the turn held, stamping a turn just taken, or Error with no turn held. */
    method Grant(reached: bool, others: Interference, past: History<Event>, ghost start: State) returns (h: History<Event>)
      requires Passing(start, past, others) && daemon == Publishing
      modifies this
      ensures Passing(start, h, others) && daemon == Resting
      ensures request == if turn then LockHeld else Error
      ensures turn <==> old(turn) || reached
      ensures stamped == if old(turn) then old(stamped) else reached
      ensures Silent(others) ==> Model() == old(Model()).(daemon := Resting, request := request, turn := turn, stamped := stamped)
    {
      hide Run, Weave, Found, Inv;
      Meanwhile(others, past, start);
      h := Set(DaemonAccess, TurnCheck, Granting, mutex, stamped, turn, others, past, start);
      h := FindTurn(reached, others, h, start);
      Meanwhile(others, h, start);
      h := Set(DaemonAccess, Resting, if daemon == Answering then LockHeld else Error, mutex, stamped, turn, others, h, start);
    }

    /** The turn held already, or one taken now. */
    method FindTurn(reached: bool, others: Interference, past: History<Event>, ghost start: State)
      returns (h: History<Event>)
      requires Passing(start, past, others) && daemon == TurnCheck
      modifies this
      ensures Passing(start, h, others) && daemon == (if turn then Answering else Refusing)
      ensures turn <==> old(turn) || reached
      ensures stamped == if old(turn) then old(stamped) else reached
      ensures Silent(others) ==> Model() == old(Model()).(daemon := daemon, turn := turn, stamped := stamped)
    {
      hide Run, Weave, Found;
      Meanwhile(others, past, start);
      assert turn || !stamped by { assert DaemonOk(Model()); }
      h := Set(DaemonAccess, if turn then Answering else Acquiring, request, mutex, stamped, turn, others, past, start);
      if !turn {
        h := TakeTurn(reached, others, h, start);
      }
    }

    /** Asks the region; the turn is recorded before it is stamped. */
    method TakeTurn(reached: bool, others: Interference, past: History<Event>, ghost start: State)
      returns (h: History<Event>)
      requires Passing(start, past, others) && daemon == Acquiring && !turn && !stamped
      modifies this
      ensures Passing(start, h, others) && turn == stamped == reached
      ensures daemon == if reached then Answering else Refusing
      ensures Silent(others) ==> Model() == old(Model()).(daemon := daemon, turn := reached, stamped := reached)
    {
      hide Run, Weave, Found, Inv;
      Meanwhile(others, past, start);
      h := Set(if reached then DaemonAccess else RegionRefuses, if reached then Recording else Refusing,
               request, mutex, stamped, turn, others, past, start);
      if reached {
        h := RecordTurn(others, h, start);
        h := HoldTurnUntil(others, h, start);
      }
    }

    method RecordTurn(others: Interference, past: History<Event>, ghost start: State) returns (h: History<Event>)
      requires Passing(start, past, others) && daemon == Recording
      modifies this
      ensures Passing(start, h, others) && daemon == Stamping && turn && stamped == old(stamped)
      ensures Silent(others) ==> Model() == old(Model()).(daemon := Stamping, turn := true)
    {
      hide Run, Weave, Found, Inv;
      Meanwhile(others, past, start);
      h := Set(DaemonAccess, Stamping, request, mutex, stamped, true, others, past, start);
    }

    method HoldTurnUntil(others: Interference, past: History<Event>, ghost start: State) returns (h: History<Event>)
      requires Passing(start, past, others) && daemon == Stamping
      modifies this
      ensures Passing(start, h, others) && daemon == Answering && stamped && turn == old(turn)
      ensures Silent(others) ==> Model() == old(Model()).(daemon := Answering, stamped := true)
    {
      hide Run, Weave, Found, Inv;
      Meanwhile(others, past, start);
      h := Set(DaemonAccess, Answering, request, mutex, true, turn, others, past, start);
    }

    method DropTurnIfIdle(keep: bool, others: Interference, past: History<Event>, ghost start: State)
      returns (h: History<Event>)
      requires Passing(start, past, others) && daemon == Considering
      modifies this
      ensures Passing(start, h, others) && daemon == Resting
      ensures keep ==> turn == old(turn) && stamped == old(stamped)
      ensures !keep ==> !stamped && (turn ==> old(turn) && request == LockHeld)
      ensures Silent(others) ==>
                Model() == if keep then old(Model()).(daemon := Resting)
                           else old(Model()).(daemon := Resting, stamped := false, turn := old(turn) && old(request) == LockHeld)
    {
      hide Run, Weave, Found;
      Meanwhile(others, past, start);
      assert turn || !stamped by { assert DaemonOk(Model()); }
      h := Set(if keep then KeepTurn else DaemonAccess, if !keep && turn then Revoking else Resting,
               request, mutex, stamped, turn, others, past, start);
      if !keep && turn {
        var dropped;
        dropped, h := DropTurn(others, h, start);
      }
    }

    /** The hand-back: no requester is inside when it happens, and the stamp is zero either way. */
    method DropTurn(others: Interference, past: History<Event>, ghost start: State)
      returns (dropped: bool, h: History<Event>)
      requires Passing(start, past, others) && daemon == Revoking && turn
      modifies this
      ensures Passing(start, h, others) && daemon == Resting && !stamped
      ensures dropped <==> !turn
      ensures dropped ==> forall r: nat :: Model().At(r) != Inside
      ensures dropped <==> Found(start, Then(past, DaemonAccess), others).request != LockHeld
      ensures !dropped ==> request == LockHeld
      ensures Silent(others) ==>
                Model() == old(Model()).(daemon := Resting, stamped := false, turn := old(request) == LockHeld)
    {
      hide Run, Weave, Found, Inv;
      Meanwhile(others, past, start);
      h := Set(DaemonAccess, DropCheck, request, mutex, false, turn, others, past, start);
      Meanwhile(others, h, start);
      dropped := request != LockHeld;
      h := Set(DaemonAccess, if dropped then Dropping else Resting, request, mutex, stamped, turn, others, h, start);
      if dropped {
        h := ReleaseTurn(others, h, start);
      }
    }

    method ReleaseTurn(others: Interference, past: History<Event>, ghost start: State) returns (h: History<Event>)
      requires Passing(start, past, others) && daemon == Dropping
      modifies this
      ensures Passing(start, h, others) && daemon == Resting && !turn && stamped == old(stamped)
      ensures forall r: nat :: Model().At(r) != Inside
      ensures Silent(others) ==> Model() == old(Model()).(daemon := Resting, turn := false)
    {
      hide Run, Weave, Found, Inv;
      Meanwhile(others, past, start);
      ghost var s := Model();
      NobodyInside(s);
      h := Set(DaemonAccess, Resting, request, mutex, stamped, false, others, past, start);
      assert forall r: nat :: Model().At(r) == s.At(r);
    }

    lemma NobodyInside(s: State)
      requires Inv(s) && s.daemon == Dropping
      ensures forall r: nat :: s.At(r) != Inside
    {
      forall r: nat
        ensures s.At(r) != Inside
      {
        assert RequesterOk(s, r);
      }
    }

    /** An expired turn: a mutex whose holder died is cleared out of the way first. */
    method DropExpired(others: Interference) returns (dropped: bool, h: History<Event>)
      requires Inv(Model()) && SparesDaemon(others)
      requires var found := Found(Model(), Start, others); found.LocalFree() && found.turn
      modifies this
      ensures Inv(Model()) && Model() == Weave(old(Model()), h, others) && daemon == Resting && !stamped
      ensures dropped <==> !turn
      ensures dropped ==> forall r: nat :: Model().At(r) != Inside
      ensures !dropped ==> request == LockHeld
      ensures Silent(others) ==> Model() == Swept(old(Model()))
    {
      hide Run, Weave, Found, Inv;
      ghost var s := Model();
      Others0(others);
      h := Set(Sweep, Sweeping, request, mutex, stamped, turn, others, Start, s);
      h := ReclaimAbandoned(others, h, s);
      dropped, h := DropTurn(others, h, s);
      WeaveInv(s, h, others);
    }

    /** Tries the mutex; a holder that died leaves it abandoned, and its claim is taken back. */
    method ReclaimAbandoned(others: Interference, past: History<Event>, ghost start: State) returns (h: History<Event>)
      requires Passing(start, past, others) && daemon == Sweeping
      modifies this
      ensures Passing(start, h, others) && daemon == Revoking && turn == old(turn)
      ensures Silent(others) ==>
                var died := old(mutex) == Abandoned;
                Model() == old(Model()).(daemon := Revoking, request := if died then Idle else old(request),
                                         mutex := if died then Free else old(mutex))
    {
      hide Run, Weave, Found, Inv;
      Meanwhile(others, past, start);
      var tried := match mutex case Abandoned => Reclaiming case Free => Reclaimed case _ => Revoking;
      h := Set(DaemonAccess, tried, request, if tried == Revoking then mutex else ByDaemon, stamped, turn, others, past, start);
      if daemon == Reclaiming {
        Meanwhile(others, h, start);
        h := Set(DaemonAccess, Reclaimed, Idle, mutex, stamped, turn, others, h, start);
      }
      if daemon == Reclaimed {
        Meanwhile(others, h, start);
        h := Set(DaemonAccess, Revoking, request, Free, stamped, turn, others, h, start);
      }
    }

    // ---------- the delete ----------

    ghost predicate Removing(start: State, past: History<Event>, others: Interference)
      reads this
    {
      Inv(start) && Model() == Weave(start, past, others) && SparesRemover(others) && (remover == Emptying || remover == Emptied)
    }

    /** What runs while the delete holds the request mutex and the local domain. */
    method MeanwhileRemoving(others: Interference, past: History<Event>, ghost start: State)
      requires Removing(start, past, others)
      modifies this
      ensures Model() == Found(start, past, others) && (Silent(others) ==> Model() == old(Model()))
      ensures remover == old(remover) && turn == old(turn) && stamped == old(stamped)
    {
      hide Next, Run, Weave, Inv;
      WeaveInv(start, past, others);
      RunSparesRemover(Model(), others(past));
      Others(others, past, start);
    }

    /** One access of the delete that leaves turn and stamp alone. */
    method SetRemover(e: Event, remover': Remover, mutex': Mutex, others: Interference, past: History<Event>, ghost start: State)
      returns (h: History<Event>)
      requires Model() == Found(start, past, others) && Next(Model(), e) == Model().(remover := remover', mutex := mutex')
      modifies this
      ensures h == Then(past, e) && Model() == Weave(start, h, others)
      ensures Model() == old(Model()).(remover := remover', mutex := mutex')
    {
      hide Next, Run;
      remover, mutex := remover', mutex';
      h := Then(past, e);
    }

    /**
     `tryLockIfIdle`: the mutex is kept exactly if it could be taken, the word under it is idle and nobody is queued;
     otherwise it is free again. `busy`: whether requesters are queued.
     */
    method TryLockIfIdle(busy: bool, others: Interference) returns (quiet: bool, h: History<Event>)
      requires Inv(Model()) && remover == Gone && SparesRemover(others)
      modifies this
      ensures Inv(Model()) && Model() == Weave(old(Model()), h, others)
      ensures remover == if quiet then Quiet else Gone
      ensures quiet <==> Takeable(Found(old(Model()), Start, others).mutex) && !busy
                         && Found(old(Model()), Then(Start, RemoveTry), others).request == Idle
      ensures Silent(others) ==>
                && (quiet <==> Takeable(old(mutex)) && !busy && old(request) == Idle)
                && Model() == (if quiet then old(Model()).(remover := Quiet, mutex := ByRemover)
                               else if Takeable(old(mutex)) then old(Model()).(mutex := Free) else old(Model()))
    {
      hide Run, Weave, Found, Inv;
      ghost var s := Model();
      NothingYet(others);
      FoundKeepsRemover(s, Start, others);
      Others0(others);
      var held := Takeable(mutex);
      h := SetRemover(RemoveTry, if held then Trying else Gone, if held then ByRemover else mutex, others, Start, s);
      quiet := false;
      if held {
        quiet, h := JudgeIdle(busy, others, h, s);
      }
      WeaveInv(s, h, others);
    }

    method JudgeIdle(busy: bool, others: Interference, past: History<Event>, ghost start: State)
      returns (quiet: bool, h: History<Event>)
      requires Model() == Weave(start, past, others) && remover == Trying && SparesRemover(others)
      modifies this
      ensures Model() == Weave(start, h, others) && remover == if quiet then Quiet else Gone
      ensures quiet <==> !busy && Found(start, past, others).request == Idle
      ensures Silent(others) ==>
                && (quiet <==> !busy && old(request) == Idle)
                && Model() == if quiet then old(Model()).(remover := Quiet) else old(Model()).(remover := Gone, mutex := Free)
    {
      hide Run, Weave, Found;
      FoundKeepsRemover(start, past, others);
      Others(others, past, start);
      quiet := !busy && request == Idle;
      h := SetRemover(if busy then RemoveBusy else RemoveAccess, if quiet then Quiet else Finishing, mutex, others, past, start);
      if !quiet {
        h := FinishRemove(others, h, start);
      }
    }

    /** The delete lets the mutex go. */
    method FinishRemove(others: Interference, past: History<Event>, ghost start: State) returns (h: History<Event>)
      requires Model() == Weave(start, past, others) && remover == Finishing && SparesRemover(others)
      modifies this
      ensures h == Then(past, RemoveAccess) && Model() == Weave(start, h, others) && remover == Gone && mutex == Free
      ensures Silent(others) ==> Model() == old(Model()).(remover := Gone, mutex := Free)
    {
      hide Run, Weave, Found;
      FoundKeepsRemover(start, past, others);
      Others(others, past, start);
      h := SetRemover(RemoveAccess, Gone, Free, others, past, start);
    }

    /** Under the request mutex and with the local domain locked, the turn goes back and its stamp with it. */
    method ReturnTurn(others: Interference) returns (h: History<Event>)
      requires Inv(Model()) && SparesRemover(others)
      requires var found := Found(Model(), Start, others); found.remover == Quiet && found.LocalFree()
      modifies this
      ensures Inv(Model()) && Model() == Weave(old(Model()), h, others) && remover == Finishing && !turn && !stamped
      ensures Silent(others) ==> Model() == old(Model()).(remover := Finishing, turn := false, stamped := false)
    {
      hide Run, Inv;
      ghost var s := Model();
      Others0(others);
      remover := Emptying;
      h := Then(Start, RemoveAccess);
      MeanwhileRemoving(others, h, s);
      turn, remover := false, Emptied;
      h := Then(h, RemoveAccess);
      h := EmptyStamp(others, h, s);
      WeaveInv(s, h, others);
    }

    method EmptyStamp(others: Interference, past: History<Event>, ghost start: State) returns (h: History<Event>)
      requires Removing(start, past, others) && remover == Emptied
      modifies this
      ensures h == Then(past, RemoveAccess) && Model() == Weave(start, h, others) && remover == Finishing && !stamped
      ensures turn == old(turn)
      ensures Silent(others) ==> Model() == old(Model()).(remover := Finishing, stamped := false)
    {
      hide Run, Inv;
      MeanwhileRemoving(others, past, start);
      stamped, remover := false, Finishing;
      h := Then(past, RemoveAccess);
    }
  }
}
