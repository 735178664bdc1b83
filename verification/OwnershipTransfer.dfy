/**
 `pinOwnership`, `holdAndCheckResident`, `waitForOwnership`, `transferOwnershipGuarded`, the Request policy's `lock`
 and the seizure loop body as the statements the source runs (src/core/algo/ownership_transfer.cpp,
 src/core/runtime/local_domain_view.cpp, src/core/policy/successor_request.cpp, src/core/algo/recovery.cpp), with
 every other thread of every peer running between any two of their accesses.

 `Model` is a state of the `Ownership` machine; `others(h)` is what the rest of the system does once this thread has
 made the accesses `h`. What a method leaves is its own accesses woven with `others` and no more.
 */
module OwnershipTransfer {
  import opened Basics
  import opened Histories
  import opened Ownership
  import opened OwnershipSafety

  type Interference = History<Event> -> seq<Event>

  /** The events a worker of a peer that stays alive can meet. */
  predicate SparesWorker(e: Event, p: nat, w: nat) {
    !Moves(e, p, w) && e != Die(p)
  }

  /** The events the thread that holds a peer's transfer latch can meet. */
  predicate SparesTransfer(e: Event, p: nat) {
    e != Carry(p) && e != Die(p)
  }

  /** The events the authority of a seizure can meet. */
  predicate SparesSeizure(e: Event, a: nat) {
    e.peer != a && !e.Press? && !e.Seize?
  }

  ghost predicate WorkerAlone(others: Interference, p: nat, w: nat) {
    forall h: History<Event>, e: Event | e in others(h) :: SparesWorker(e, p, w)
  }

  ghost predicate TransferAlone(others: Interference, p: nat) {
    forall h: History<Event>, e: Event | e in others(h) :: SparesTransfer(e, p)
  }

  ghost predicate SeizureAlone(others: Interference, a: nat) {
    forall h: History<Event>, e: Event | e in others(h) :: SparesSeizure(e, a)
  }

  ghost predicate Silent(others: Interference) {
    forall h: History<Event> :: others(h) == []
  }

  function Weave(s: State, own: History<Event>, others: Interference): State {
    match own
    case Start => s
    case Then(past, e) => Next(Run(Weave(s, past, others), others(past)), e)
  }

  /** What the access after `past` finds. */
  function Found(s: State, past: History<Event>, others: Interference): State {
    Run(Weave(s, past, others), others(past))
  }

  /** How many accesses worker `w` has made since its pin. */
  function Steps(h: History<Event>, p: nat, w: nat): nat {
    if h.Start? then 0 else Steps(h.past, p, w) + if h.event == Step(p, w) then 1 else 0
  }

  lemma {:induction false} WeaveInv(s: State, own: History<Event>, others: Interference)
    requires Inv(s)
    ensures Inv(Weave(s, own, others)) && Inv(Found(s, own, others))
    decreases own
  {
    hide Next, Run, Inv;
    if own.Then? {
      WeaveInv(s, own.past, others);
      NextInv(Found(s, own.past, others), own.event);
    }
    RunInv(Weave(s, own, others), others(own));
  }

  lemma LifeUntouched(s: State, e: Event, p: nat)
    requires e != Die(p)
    ensures Next(s, e).Alive(p) == s.Alive(p)
  {
    if e.peer != p {
      PeerUntouched(s, e, p);
    }
  }

  lemma TransferUntouched(s: State, e: Event, p: nat)
    requires SparesTransfer(e, p) && s.At(p).pin == Transferring
    ensures Next(s, e).At(p).transfer == s.At(p).transfer && Next(s, e).At(p).pin == Transferring
  {
    if e.peer != p {
      PeerUntouched(s, e, p);
    } else if e.Step? {
      WorkerLeavesTransfer(s, p, e.worker);
    }
  }

  lemma WorkerLeavesTransfer(s: State, p: nat, w: nat)
    ensures Next(s, Step(p, w)).At(p).transfer == s.At(p).transfer && Next(s, Step(p, w)).At(p).pin == s.At(p).pin
  {
  }

  lemma HistoryGrows(s: State, e: Event)
    ensures s.history <= Next(s, e).history && Next(s, e).groupSize == s.groupSize
  {
  }

  lemma {:induction false} RunSize(s: State, events: seq<Event>)
    ensures Run(s, events).groupSize == s.groupSize && s.history <= Run(s, events).history
    decreases |events|
  {
    if events != [] {
      HistoryGrows(s, events[0]);
      RunSize(Next(s, events[0]), events[1..]);
    }
  }

  lemma {:induction false} RunSparesWorker(s: State, events: seq<Event>, p: nat, w: nat)
    requires forall e | e in events :: SparesWorker(e, p, w)
    ensures Run(s, events).At(p).At(w) == s.At(p).At(w) && Run(s, events).Alive(p) == s.Alive(p)
    decreases |events|
  {
    if events != [] {
      assert SparesWorker(events[0], p, w);
      WorkerUntouched(s, events[0], p, w);
      LifeUntouched(s, events[0], p);
      RunSparesWorker(Next(s, events[0]), events[1..], p, w);
    }
  }

  lemma {:induction false} RunSparesTransfer(s: State, events: seq<Event>, p: nat)
    requires s.At(p).pin == Transferring && forall e | e in events :: SparesTransfer(e, p)
    ensures Run(s, events).At(p).pin == Transferring && Run(s, events).At(p).transfer == s.At(p).transfer
    ensures Run(s, events).Alive(p) == s.Alive(p)
    decreases |events|
  {
    if events != [] {
      TransferUntouched(s, events[0], p);
      LifeUntouched(s, events[0], p);
      RunSparesTransfer(Next(s, events[0]), events[1..], p);
    }
  }

  lemma SeizureUntouched(s: State, e: Event, a: nat)
    requires SparesSeizure(e, a) && s.seizure != NoSeizure && s.seizure.authority == a
    ensures Next(s, e).seizure == s.seizure
  {
  }

  lemma {:induction false} RunSparesSeizure(s: State, events: seq<Event>, a: nat)
    requires s.seizure != NoSeizure && s.seizure.authority == a && forall e | e in events :: SparesSeizure(e, a)
    ensures Run(s, events).seizure == s.seizure && Run(s, events).Alive(a) == s.Alive(a)
    decreases |events|
  {
    if events != [] {
      SeizureUntouched(s, events[0], a);
      LifeUntouched(s, events[0], a);
      RunSparesSeizure(Next(s, events[0]), events[1..], a);
    }
  }

  lemma {:induction false} RunLife(s: State, events: seq<Event>, p: nat)
    requires forall e | e in events :: SparesTransfer(e, p)
    ensures Run(s, events).Alive(p) == s.Alive(p)
    decreases |events|
  {
    if events != [] {
      assert SparesTransfer(events[0], p);
      LifeUntouched(s, events[0], p);
      RunLife(Next(s, events[0]), events[1..], p);
    }
  }

  lemma {:induction false} RunSparesNoSeizure(s: State, events: seq<Event>, a: nat)
    requires s.seizure == NoSeizure && forall e | e in events :: SparesSeizure(e, a)
    ensures Run(s, events).seizure == NoSeizure && Run(s, events).Alive(a) == s.Alive(a)
    decreases |events|
  {
    if events != [] {
      assert SparesSeizure(events[0], a);
      LifeUntouched(s, events[0], a);
      RunSparesNoSeizure(Next(s, events[0]), events[1..], a);
    }
  }

  // ---------- what an undisturbed call comes to ----------

  /** The group shadow shows a grant this peer has not adopted. */
  predicate Edge(s: State, p: nat) {
    s.Shadow(p).holder == p && s.Shadow(p).epoch > s.At(p).baseline
  }

  /** The truth names `p`, and `p` believes it or a poll of the shadow would tell it. */
  predicate Arrives(s: State, p: nat, polls: bool) {
    s.truth.holder == p && (s.At(p).belief || (polls && Edge(s, p)))
  }

  /** The grant of the truth taken in. */
  function Adopted(s: State, p: nat, w: nat): Local {
    WithWorker(s.At(p), w, Using).(belief := true, baseline := Larger(s.truth.epoch, s.At(p).baseline))
  }

  /** What a wait that starts in `s` leaves of `p`: a belief the truth bears out stays, any other goes. */
  function Waited(s: State, p: nat, w: nat, arrived: bool): State {
    With(s, p, if !arrived then WithWorker(s.At(p), w, Waiting).(belief := false)
               else if s.At(p).belief then WithWorker(s.At(p), w, Using)
               else Adopted(s, p, w))
  }

  /** What a lock that got its pin leaves: in use with a pin more, or away with the pins as they were. */
  function Locked(s: State, p: nat, w: nat, arrived: bool): State
    requires s.At(p).pin.Count?
  {
    var l := Waited(s, p, w, arrived).At(p);
    With(s, p, if arrived then l.(pin := Count(l.pin.pins + 1)) else WithWorker(l, w, Away))
  }

  /** What a transfer leaves: the record one epoch up in the new holder's shadow and in the truth, and the belief gone. */
  function Granted(s: State, p: nat, to: nat): State {
    var r := Record(to, s.truth.epoch + 1);
    With(StoreTruth(StoreShadow(s, r), r), p, s.At(p).(belief := false))
  }

  /** What a seizure leaves: the jump stored in the authority's shadow and in the truth, and adopted. */
  function TakenOver(s: State, a: nat): State {
    var r := Seized(a, s.truth);
    With(StoreTruth(StoreShadow(s, r), r), a, s.At(a).(belief := true, baseline := Larger(r.epoch, s.At(a).baseline)))
  }

  lemma WithTwice(s: State, p: nat, l: Local, l': Local)
    ensures With(With(s, p, l), p, l') == With(s, p, l') && With(s, p, l).At(p) == l
  {
    assert s.locals[p := l][p := l'] == s.locals[p := l'];
  }

  lemma WorkerTwice(l: Local, w: nat, a: Worker, b: Worker)
    ensures WithWorker(WithWorker(l, w, a), w, b) == WithWorker(l, w, b)
  {
    assert l.workers[w := a][w := b] == l.workers[w := b];
  }

  lemma WorkerSame(s: State, p: nat, w: nat)
    requires s.At(p).At(w) != Away
    ensures With(s, p, WithWorker(s.At(p), w, s.At(p).At(w))) == s && WithWorker(s.At(p), w, s.At(p).At(w)) == s.At(p)
  {
    assert s.At(p).workers[w := s.At(p).At(w)] == s.At(p).workers;
    assert s.locals[p := s.At(p)] == s.locals;
  }

  /** A wait starts over at the belief, which changes nothing but the worker's place. */
  lemma WaitedAfresh(s: State, p: nat, w: nat, arrived: bool)
    ensures var s1 := With(s, p, WithWorker(s.At(p), w, Pinned));
            Waited(s1, p, w, arrived) == Waited(s, p, w, arrived) && (Edge(s1, p) <==> Edge(s, p)) && s1.At(p).belief == s.At(p).belief
  {
    WithTwice(s, p, WithWorker(s.At(p), w, Pinned), Waited(s, p, w, arrived).At(p));
    WorkerTwice(s.At(p), w, Pinned, Using);
    WorkerTwice(s.At(p), w, Pinned, Waiting);
  }

  lemma PolledAfterwards(s: State, p: nat, w: nat)
    ensures var s1 := Waited(s, p, w, false);
            With(s1, p, Adopted(s1, p, w)) == With(s, p, Adopted(s, p, w)) && (Edge(s1, p) <==> Edge(s, p))
  {
    WithTwice(s, p, WithWorker(s.At(p), w, Waiting).(belief := false), Adopted(s, p, w));
    WorkerTwice(s.At(p), w, Waiting, Using);
  }

  /** A second wait decides as the first one would have with its polls. */
  lemma WaitedAgain(s: State, p: nat, w: nat, polls: bool, arrived: bool)
    requires !Arrives(s, p, false) && (arrived ==> s.truth.holder == p)
    ensures var s1 := Waited(s, p, w, false);
            (Arrives(s1, p, polls) <==> Arrives(s, p, polls)) && Waited(s1, p, w, arrived) == Waited(s, p, w, arrived)
  {
    WithTwice(s, p, WithWorker(s.At(p), w, Waiting).(belief := false), Waited(s, p, w, arrived).At(p));
    WorkerTwice(s.At(p), w, Waiting, Using);
    WorkerTwice(s.At(p), w, Waiting, Waiting);
  }

  lemma WaitKeeps(s: State, p: nat, w: nat, arrived: bool)
    ensures Waited(s, p, w, arrived).truth == s.truth && Waited(s, p, w, arrived).At(p).pin == s.At(p).pin
  {
  }

  /** A wait that failed, then the pin given back. */
  lemma WaitedInVain(s: State, p: nat, w: nat, pin: Pin)
    ensures var s1 := Waited(s, p, w, false);
            var s2 := With(s1, p, WithWorker(s1.At(p), w, GivingUp));
            && With(s2, p, WithWorker(s2.At(p), w, Away).(pin := pin)) == With(s, p, WithWorker(s1.At(p), w, Away).(pin := pin))
  {
    var s1 := Waited(s, p, w, false);
    var s2 := With(s1, p, WithWorker(s1.At(p), w, GivingUp));
    WithTwice(s, p, s1.At(p), s2.At(p));
    WithTwice(s, p, s2.At(p), WithWorker(s2.At(p), w, Away).(pin := pin));
    WorkerTwice(s1.At(p), w, GivingUp, Away);
  }

  /** The pin before everything else. */
  lemma PinnedFirst(s: State, p: nat, w: nat, arrived: bool)
    requires s.Alive(p) && s.At(p).pin.Count? && s.At(p).At(w) == Away
    ensures var s1 := Next(s, Event.Pin(p, w));
            && s1.At(p).belief == s.At(p).belief && s1.truth == s.truth && (Edge(s1, p) <==> Edge(s, p))
            && s1.At(p).pin == Count(s.At(p).pin.pins + 1)
            && (arrived ==> Waited(s1, p, w, true) == Locked(s, p, w, true))
            && (!arrived ==> With(s1, p, WithWorker(Waited(s1, p, w, false).At(p), w, Away).(pin := s.At(p).pin)) == Locked(s, p, w, false))
  {
    var s1 := Next(s, Event.Pin(p, w));
    var l := s.At(p);
    WorkerTwice(l, w, Pinned, Using);
    WorkerTwice(l, w, Pinned, Waiting);
    WithTwice(s, p, s1.At(p), if arrived then Waited(s1, p, w, true).At(p) else WithWorker(Waited(s1, p, w, false).At(p), w, Away).(pin := l.pin));
  }

  /** The record published and the latch still closed. */
  function Published(s: State, p: nat, to: nat): State {
    var r := Record(to, s.truth.epoch + 1);
    With(StoreTruth(StoreShadow(s, r), r), p, s.At(p).(belief := false, transfer := Ending))
  }

  lemma GrantedSteps(s: State, p: nat, to: nat, published: bool)
    requires s.At(p).pin == Count(0) && s.At(p).transfer == Idle
    ensures var s1 := With(s, p, s.At(p).(pin := Transferring, transfer := Checking(to)));
            var s2 := if published then Published(s1, p, to) else With(s1, p, s1.At(p).(transfer := Ending));
            With(s2, p, s2.At(p).(transfer := Idle, pin := Count(0))) == if published then Granted(s, p, to) else With(s, p, s.At(p))
  {
    var l := s.At(p);
    var s1 := With(s, p, l.(pin := Transferring, transfer := Checking(to)));
    var s2 := if published then Published(s1, p, to) else With(s1, p, s1.At(p).(transfer := Ending));
    WithTwice(s, p, s1.At(p), s2.At(p));
    WithTwice(s, p, s2.At(p), s2.At(p).(transfer := Idle, pin := Count(0)));
  }

  lemma SeizedSteps(s: State, a: nat)
    requires s.Alive(a) && s.seizure == NoSeizure
    ensures Next(Next(Next(s.(seizure := Read(a, s.truth)), Press(a)), Press(a)), Press(a)) == TakenOver(s, a)
  {
  }

  class Domain {
    const groupSize: Positive
    var truth: Record
    var shadows: map<nat, Record>
    var locals: map<nat, Local>
    var seizure: Seizure
    var history: seq<Record>
    var orphans: set<Record>

    function Model(): State
      reads this
    {
      State(groupSize, truth, shadows, locals, seizure, history, orphans)
    }

    constructor (groupSize: Positive, created: Record, leftover: map<nat, Record>)
      ensures Model() == Init(groupSize, created, leftover) && Inv(Model())
    {
      this.groupSize := groupSize;
      truth, shadows, locals := created, leftover[created.holder / groupSize := created], map[];
      seizure, history, orphans := NoSeizure, [created], {};
      new;
      InitInv(groupSize, created, leftover);
    }

    /** The rest of the system runs until this thread's next access. */
    method Others(others: Interference, past: History<Event>, ghost start: State)
      requires Model() == Weave(start, past, others)
      modifies this
      ensures Model() == Found(start, past, others) && old(history) <= history
      ensures Silent(others) ==> Model() == old(Model())
    {
      hide Next, Weave;
      RunSize(Model(), others(past));
      var s := Model();
      for i := 0 to |others(past)|
        invariant Run(s, others(past)[i..]) == Run(old(Model()), others(past))
      {
        assert others(past)[i..][1..] == others(past)[i + 1..];
        s := Next(s, others(past)[i]);
      }
      assert others(past)[|others(past)|..] == [];
      truth, shadows, locals, seizure, history, orphans := s.truth, s.shadows, s.locals, s.seizure, s.history, s.orphans;
    }

    /** This thread's access `e`, when it moves nothing but the local view of its peer. */
    method SetLocal(e: Event, l: Local, others: Interference, past: History<Event>, ghost start: State)
      returns (h: History<Event>)
      requires Model() == Found(start, past, others) && Next(Model(), e) == With(Model(), e.peer, l)
      modifies this`locals
      ensures h == Then(past, e) && Model() == Weave(start, h, others)
      ensures Model() == With(old(Model()), e.peer, l) && Model().At(e.peer) == l
    {
      hide Next, Run;
      locals := locals[e.peer := l];
      h := Then(past, e);
    }

    // ---------- a worker ----------

    /** In the middle of a call of worker `w` that found `start` and has made the accesses `past`. */
    ghost predicate Going(start: State, past: History<Event>, others: Interference, p: nat, w: nat)
      reads this
    {
      Model() == Weave(start, past, others) && WorkerAlone(others, p, w) && Model().Alive(p)
    }

    method BesideWorker(others: Interference, past: History<Event>, ghost start: State, ghost p: nat, ghost w: nat)
      requires Going(start, past, others, p, w)
      modifies this
      ensures Model() == Found(start, past, others) && (Silent(others) ==> Model() == old(Model()))
      ensures Model().At(p).At(w) == old(Model()).At(p).At(w) && Model().Alive(p)
    {
      hide Next, Run, Weave;
      RunSparesWorker(Model(), others(past), p, w);
      Others(others, past, start);
    }

    /** Pins the domain: never while a transfer holds the word. False once `patience` tries met the latch. */
    method PinOwnership(p: nat, w: nat, patience: nat, others: Interference) returns (pinned: bool, h: History<Event>)
      requires Model().Alive(p) && Model().At(p).At(w) == Away && WorkerAlone(others, p, w)
      modifies this
      ensures Going(old(Model()), h, others, p, w) && Model().At(p).At(w) == if pinned then Pinned else Away
      ensures !pinned ==> h == Times(Start, Event.Pin(p, w), patience)
      ensures Silent(others) ==>
                && (pinned <==> patience > 0 && old(Model()).At(p).pin.Count?)
                && Model() == if pinned then Next(old(Model()), Event.Pin(p, w)) else old(Model())
    {
      hide Run, Weave;
      pinned, h := false, Start;
      NothingYet(others);
      var i := 0;
      while i < patience && !pinned
        invariant i <= patience && Going(old(Model()), h, others, p, w)
        invariant Model().At(p).At(w) == if pinned then Pinned else Away
        invariant !pinned ==> h == Times(Start, Event.Pin(p, w), i)
        invariant Silent(others) ==>
                    && (pinned <==> i > 0 && old(Model()).At(p).pin.Count?)
                    && Model() == if pinned then Next(old(Model()), Event.Pin(p, w)) else old(Model())
      {
        pinned, h := TryPin(p, w, others, h, old(Model()));
        i := i + 1;
      }
    }

    lemma NothingYet(others: Interference)
      ensures Weave(Model(), Start, others) == Model()
    {
    }

    method TryPin(p: nat, w: nat, others: Interference, past: History<Event>, ghost start: State)
      returns (pinned: bool, h: History<Event>)
      requires Going(start, past, others, p, w) && Model().At(p).At(w) == Away
      modifies this
      ensures Going(start, h, others, p, w) && h == Then(past, Event.Pin(p, w))
      ensures Model().At(p).At(w) == if pinned then Pinned else Away
      ensures pinned <==> Found(start, past, others).At(p).pin.Count?
      ensures Silent(others) ==> Model() == if pinned then Next(old(Model()), Event.Pin(p, w)) else old(Model())
      ensures Silent(others) ==> (pinned <==> old(Model()).At(p).pin.Count?)
    {
      hide Run;
      BesideWorker(others, past, start, p, w);
      var l := Model().At(p);
      pinned := l.pin.Count?;
      if pinned {
        h := SetLocal(Event.Pin(p, w), WithWorker(l, w, Pinned).(pin := Count(l.pin.pins + 1)), others, past, start);
      } else {
        h := Then(past, Event.Pin(p, w));
      }
    }

    /** Gives the pin back: the word is a count here, and above zero. */
    method UnpinOwnership(p: nat, w: nat, others: Interference, past: History<Event>, ghost start: State)
      returns (h: History<Event>)
      requires Inv(start) && Going(start, past, others, p, w)
      requires (Model().At(p).At(w) == Using || Model().At(p).At(w) == GivingUp)
      modifies this
      ensures Going(start, h, others, p, w) && h == Then(past, Unpin(p, w)) && Model().At(p).At(w) == Away
      ensures var word := Found(start, past, others).At(p).pin;
              word.Count? && word.pins > 0 && Model().At(p).pin == Count(word.pins - 1)
      ensures Silent(others) ==>
                var l := old(Model()).At(p);
                l.pin.Count? && l.pin.pins > 0 && Model() == With(old(Model()), p, WithWorker(l, w, Away).(pin := Count(l.pin.pins - 1)))
    {
      hide Run, Inv;
      BesideWorker(others, past, start, p, w);
      var l := Model().At(p);
      WeaveInv(start, past, others);
      Pins(Model(), p, w);
      h := SetLocal(Unpin(p, w), WithWorker(l, w, Away).(pin := Count(l.pin.pins - 1)), others, past, start);
    }

    lemma Pins(s: State, p: nat, w: nat)
      requires Inv(s) && s.Alive(p) && s.At(p).At(w) != Away
      ensures s.At(p).pin.Count? && s.At(p).pin.pins > 0
    {
      assert LocalOk(s, p);
      assert w in s.At(p).Inside();
    }

    /** The belief, confirmed against the truth; a belief the truth disproves is dropped. */
    method CheckResident(p: nat, w: nat, others: Interference, past: History<Event>, ghost start: State)
      returns (resident: bool, h: History<Event>)
      requires Going(start, past, others, p, w) && Model().At(p).At(w) == Pinned
      modifies this
      ensures Going(start, h, others, p, w) && Model().At(p).At(w) == if resident then Using else Waiting
      ensures resident <==> Found(start, past, others).At(p).belief && Found(start, Then(past, Step(p, w)), others).truth.holder == p
      ensures Steps(past, p, w) <= Steps(h, p, w)
      ensures Silent(others) ==> (resident <==> Arrives(old(Model()), p, false)) && Model() == Waited(old(Model()), p, w, resident)
    {
      hide Run, Weave, Found;
      BesideWorker(others, past, start, p, w);
      var l := Model().At(p);
      WithTwice(Model(), p, WithWorker(l, w, Resident), Waited(Model(), p, w, truth.holder == p).At(p));
      WorkerTwice(l, w, Resident, Using);
      WorkerTwice(l, w, Resident, Waiting);
      h := SetLocal(Step(p, w), WithWorker(l, w, if l.belief then Resident else Waiting), others, past, start);
      resident := false;
      if l.belief {
        resident, h := ConfirmResident(p, w, others, h, start);
      }
    }

    method ConfirmResident(p: nat, w: nat, others: Interference, past: History<Event>, ghost start: State)
      returns (resident: bool, h: History<Event>)
      requires Going(start, past, others, p, w) && Model().At(p).At(w) == Resident
      modifies this
      ensures Going(start, h, others, p, w) && Model().At(p).At(w) == if resident then Using else Waiting
      ensures resident <==> Found(start, past, others).truth.holder == p
      ensures Steps(past, p, w) <= Steps(h, p, w)
      ensures Silent(others) ==>
                var l := old(Model()).At(p);
                && (resident <==> old(truth).holder == p)
                && Model() == With(old(Model()), p, if resident then WithWorker(l, w, Using) else WithWorker(l, w, Waiting).(belief := false))
    {
      hide Run, Weave, Found;
      BesideWorker(others, past, start, p, w);
      var l := Model().At(p);
      resident := truth.holder == p;
      WorkerTwice(l, w, Disproved, Waiting);
      h := SetLocal(Step(p, w), WithWorker(l, w, if resident then Using else Disproved), others, past, start);
      if !resident {
        h := DropBelief(p, w, others, h, start);
      }
    }

    method DropBelief(p: nat, w: nat, others: Interference, past: History<Event>, ghost start: State)
      returns (h: History<Event>)
      requires Going(start, past, others, p, w) && Model().At(p).At(w) == Disproved
      modifies this
      ensures Going(start, h, others, p, w) && h == Then(past, Step(p, w))
      ensures Model().At(p).At(w) == Waiting && !Model().At(p).belief
      ensures Silent(others) ==> Model() == With(old(Model()), p, WithWorker(old(Model()).At(p), w, Waiting).(belief := false))
    {
      hide Run, Weave, Found;
      BesideWorker(others, past, start, p, w);
      h := SetLocal(Step(p, w), WithWorker(Model().At(p), w, Waiting).(belief := false), others, past, start);
    }

    /** One look at the group shadow, and at the truth when the shadow shows a new edge. */
    method PollOnce(p: nat, w: nat, others: Interference, past: History<Event>, ghost start: State)
      returns (arrived: bool, h: History<Event>)
      requires Going(start, past, others, p, w) && Model().At(p).At(w) == Waiting
      modifies this
      ensures Going(start, h, others, p, w) && Model().At(p).At(w) == if arrived then Using else Waiting
      ensures Steps(h, p, w) > Steps(past, p, w)
      ensures arrived <==> Edge(Found(start, past, others), p) && Found(start, Then(past, Step(p, w)), others).truth.holder == p
      ensures Silent(others) ==>
                && (arrived <==> Edge(old(Model()), p) && old(truth).holder == p)
                && Model() == if arrived then With(old(Model()), p, Adopted(old(Model()), p, w)) else old(Model())
    {
      hide Run, Weave, Found;
      BesideWorker(others, past, start, p, w);
      ghost var s := Model();
      var shadow := Model().Shadow(p);
      if shadow.holder != p || shadow.epoch <= Model().At(p).baseline {
        WorkerSame(s, p, w);
        h := SetLocal(Step(p, w), Model().At(p), others, past, start);
        return false, h;
      }
      h := SetLocal(Step(p, w), WithWorker(Model().At(p), w, Confirming), others, past, start);
      arrived, h := Confirm(p, w, others, h, start);
      if Silent(others) {
        WithTwice(s, p, WithWorker(s.At(p), w, Confirming), if arrived then Adopted(s, p, w) else s.At(p));
        WorkerTwice(s.At(p), w, Confirming, Using);
        WorkerTwice(s.At(p), w, Confirming, Waiting);
        WorkerSame(s, p, w);
      }
    }

    method Confirm(p: nat, w: nat, others: Interference, past: History<Event>, ghost start: State)
      returns (arrived: bool, h: History<Event>)
      requires Going(start, past, others, p, w) && Model().At(p).At(w) == Confirming
      modifies this
      ensures Going(start, h, others, p, w) && Model().At(p).At(w) == if arrived then Using else Waiting
      ensures Steps(h, p, w) > Steps(past, p, w)
      ensures arrived <==> Found(start, past, others).truth.holder == p
      ensures Silent(others) ==>
                && (arrived <==> old(truth).holder == p)
                && Model() == With(old(Model()), p, if arrived then Adopted(old(Model()), p, w) else WithWorker(old(Model()).At(p), w, Waiting))
    {
      hide Run, Weave, Found;
      BesideWorker(others, past, start, p, w);
      ghost var s := Model();
      var l := Model().At(p);
      arrived := truth.holder == p;
      h := SetLocal(Step(p, w), WithWorker(l, w, if arrived then Adopting(truth.epoch) else Waiting), others, past, start);
      if arrived {
        h := AdoptOwnership(p, w, others, h, start);
        WithTwice(s, p, WithWorker(l, w, Adopting(s.truth.epoch)), Adopted(s, p, w));
        WorkerTwice(l, w, Adopting(s.truth.epoch), Using);
      }
    }

    method AdoptOwnership(p: nat, w: nat, others: Interference, past: History<Event>, ghost start: State)
      returns (h: History<Event>)
      requires Going(start, past, others, p, w) && Model().At(p).At(w).Adopting?
      modifies this
      ensures Going(start, h, others, p, w) && h == Then(past, Step(p, w))
      ensures Model().At(p).At(w) == Using && Model().At(p).belief
      ensures Model().At(p).baseline == Larger(old(Model()).At(p).At(w).epoch, Found(start, past, others).At(p).baseline)
      ensures Silent(others) ==>
                var l := old(Model()).At(p);
                Model() == With(old(Model()), p, WithWorker(l, w, Using).(belief := true, baseline := Larger(l.At(w).epoch, l.baseline)))
    {
      hide Run, Weave, Found;
      BesideWorker(others, past, start, p, w);
      var l := Model().At(p);
      h := SetLocal(Step(p, w), WithWorker(l, w, Using).(belief := true, baseline := Larger(l.At(w).epoch, l.baseline)), others, past, start);
    }

    /** The wait: the belief is looked at once more, then the shadow is polled for at most `budget` turns. */
    method WaitForOwnership(p: nat, w: nat, budget: nat, others: Interference, past: History<Event>, ghost start: State)
      returns (arrived: bool, h: History<Event>)
      requires Going(start, past, others, p, w) && Model().At(p).At(w) == Waiting
      modifies this
      ensures Going(start, h, others, p, w) && Model().At(p).At(w) == if arrived then Using else Waiting
      ensures !arrived ==> Steps(h, p, w) >= Steps(past, p, w) + budget
      ensures Silent(others) ==>
                && (arrived <==> Arrives(old(Model()), p, budget > 0))
                && Model() == Waited(old(Model()), p, w, arrived)
    {
      hide Run, Weave, Found, Next;
      ghost var s := Model();
      h := StartOver(p, w, others, past, start);
      arrived, h := CheckResident(p, w, others, h, start);
      WaitedAfresh(s, p, w, arrived);
      if !arrived {
        PolledAfterwards(s, p, w);
        arrived, h := PollFor(p, w, budget, others, h, start);
      }
    }

    method StartOver(p: nat, w: nat, others: Interference, past: History<Event>, ghost start: State)
      returns (h: History<Event>)
      requires Going(start, past, others, p, w) && Model().At(p).At(w) == Waiting
      modifies this
      ensures Going(start, h, others, p, w) && h == Then(past, Again(p, w)) && Model().At(p).At(w) == Pinned
      ensures Silent(others) ==> Model() == With(old(Model()), p, WithWorker(old(Model()).At(p), w, Pinned))
    {
      hide Run, Weave, Found;
      BesideWorker(others, past, start, p, w);
      h := SetLocal(Again(p, w), WithWorker(Model().At(p), w, Pinned), others, past, start);
    }

    method PollFor(p: nat, w: nat, budget: nat, others: Interference, past: History<Event>, ghost start: State)
      returns (arrived: bool, h: History<Event>)
      requires Going(start, past, others, p, w) && Model().At(p).At(w) == Waiting
      modifies this
      ensures Going(start, h, others, p, w) && Model().At(p).At(w) == if arrived then Using else Waiting
      ensures !arrived ==> Steps(h, p, w) >= Steps(past, p, w) + budget
      ensures Silent(others) ==>
                && (arrived <==> budget > 0 && Edge(old(Model()), p) && old(truth).holder == p)
                && Model() == if arrived then With(old(Model()), p, Adopted(old(Model()), p, w)) else old(Model())
    {
      hide Run, Weave, Found, Next;
      arrived, h := false, past;
      var turn := 0;
      while turn < budget && !arrived
        invariant turn <= budget && Going(start, h, others, p, w)
        invariant Model().At(p).At(w) == if arrived then Using else Waiting
        invariant !arrived ==> Steps(h, p, w) >= Steps(past, p, w) + turn
        invariant Silent(others) ==>
                    && (arrived <==> turn > 0 && Edge(old(Model()), p) && old(truth).holder == p)
                    && Model() == if arrived then With(old(Model()), p, Adopted(old(Model()), p, w)) else old(Model())
      {
        arrived, h := PollOnce(p, w, others, h, start);
        turn := turn + 1;
      }
    }

    /** From the pin on: the resident check, the wait, the settling wait, and the pin given back when none succeeds. */
    method Obtain(p: nat, w: nat, budget: nat, settle: nat, others: Interference, past: History<Event>, ghost start: State)
      returns (arrived: bool, h: History<Event>)
      requires Inv(start) && Going(start, past, others, p, w) && Model().At(p).At(w) == Pinned
      modifies this
      ensures Going(start, h, others, p, w) && Model().At(p).At(w) == if arrived then Using else Away
      ensures !arrived ==> Steps(h, p, w) >= Steps(past, p, w) + budget + settle
      ensures Silent(others) ==>
                && (arrived <==> Arrives(old(Model()), p, budget + settle > 0))
                && (arrived ==> Model() == Waited(old(Model()), p, w, true))
                && (!arrived ==>
                      && old(Model()).At(p).pin.Count? && old(Model()).At(p).pin.pins > 0
                      && Model() == With(old(Model()), p, WithWorker(Waited(old(Model()), p, w, false).At(p), w, Away).(
                                                            pin := Count(old(Model()).At(p).pin.pins - 1))))
    {
      hide Run, Weave, Found, Next, Inv, With, WithWorker, Waited, Edge, WorkerAlone;
      ghost var s := Model();
      arrived, h := CheckResident(p, w, others, past, start);
      WaitKeeps(s, p, w, false);
      if !arrived {
        arrived, h := WaitTwice(p, w, budget, settle, others, h, start);
        if Silent(others) {
          WaitedAgain(s, p, w, budget + settle > 0, arrived);
        }
      }
      if !arrived {
        h := GiveUp(p, w, others, h, start);
        if Silent(others) {
          WaitedInVain(s, p, w, Count(s.At(p).pin.pins - 1));
        }
      }
    }

    /** The wait for the caller's budget, and the settling wait for a grant already on its way. */
    method WaitTwice(p: nat, w: nat, budget: nat, settle: nat, others: Interference, past: History<Event>, ghost start: State)
      returns (arrived: bool, h: History<Event>)
      requires Going(start, past, others, p, w) && Model().At(p).At(w) == Waiting
      modifies this
      ensures Going(start, h, others, p, w) && Model().At(p).At(w) == if arrived then Using else Waiting
      ensures !arrived ==> Steps(h, p, w) >= Steps(past, p, w) + budget + settle
      ensures Silent(others) ==>
                (arrived <==> Arrives(old(Model()), p, budget + settle > 0)) && Model() == Waited(old(Model()), p, w, arrived)
    {
      hide Run, Weave, Found, Next;
      ghost var s := Model();
      arrived, h := WaitForOwnership(p, w, budget, others, past, start);
      if !arrived {
        arrived, h := WaitForOwnership(p, w, settle, others, h, start);
        if Silent(others) {
          WaitedAgain(s, p, w, settle > 0, arrived);
        }
      }
    }

    method GiveUp(p: nat, w: nat, others: Interference, past: History<Event>, ghost start: State)
      returns (h: History<Event>)
      requires Inv(start) && Going(start, past, others, p, w) && Model().At(p).At(w) == Waiting
      modifies this
      ensures Going(start, h, others, p, w) && h == Then(Then(past, Expire(p, w)), Unpin(p, w))
      ensures Model().At(p).At(w) == Away
      ensures Silent(others) ==>
                var word := old(Model()).At(p).pin;
                var s := With(old(Model()), p, WithWorker(old(Model()).At(p), w, GivingUp));
                word.Count? && word.pins > 0 && Model() == With(s, p, WithWorker(s.At(p), w, Away).(pin := Count(word.pins - 1)))
    {
      hide Run, Weave, Found, Inv;
      BesideWorker(others, past, start, p, w);
      h := SetLocal(Expire(p, w), WithWorker(Model().At(p), w, GivingUp), others, past, start);
      h := UnpinOwnership(p, w, others, h, start);
    }

    /**
     The Request policy: arriving means the truth names this peer alone; not arriving leaves no pin behind. Undisturbed,
     it arrives exactly when the latch is open, the truth names this peer, and it believes so or its polls find the grant.
     */
    method RequestLock(p: nat, w: nat, patience: nat, budget: nat, settle: nat, others: Interference)
      returns (arrived: bool, h: History<Event>)
      requires Inv(Model()) && Model().Alive(p) && Model().At(p).At(w) == Away && WorkerAlone(others, p, w)
      modifies this
      ensures Inv(Model()) && Going(old(Model()), h, others, p, w) && Model().At(p).At(w) == if arrived then Using else Away
      ensures arrived ==> truth.holder == p && forall q: nat, v: nat :: q != p && Model().Alive(q) ==> !Model().At(q).Uses(v)
      ensures !arrived ==> h == Times(Start, Event.Pin(p, w), patience) || Steps(h, p, w) >= budget + settle
      ensures Silent(others) ==>
                var s := old(Model());
                var pinned := patience > 0 && s.At(p).pin.Count?;
                && (arrived <==> pinned && Arrives(s, p, budget + settle > 0))
                && Model() == if pinned then Locked(s, p, w, arrived) else s
    {
      hide Run, Weave, Found, Next, Inv;
      ghost var s := Model();
      arrived, h := PinOwnership(p, w, patience, others);
      if arrived {
        arrived, h := Obtain(p, w, budget, settle, others, h, s);
        if Silent(others) {
          PinnedFirst(s, p, w, arrived);
        }
      }
      WeaveInv(s, h, others);
      if arrived {
        UsedByOne(p, w);
      }
    }

    lemma UsedByOne(p: nat, w: nat)
      requires Inv(Model()) && Model().Alive(p) && Model().At(p).At(w) == Using
      ensures truth.holder == p && forall q: nat, v: nat :: q != p && Model().Alive(q) ==> !Model().At(q).Uses(v)
    {
      assert LocalOk(Model(), p) && Model().At(p).Uses(w);
      forall q: nat, v: nat | q != p && Model().Alive(q)
        ensures !Model().At(q).Uses(v)
      {
        assert LocalOk(Model(), q);
      }
    }

    // ---------- the guarded transfer ----------

    /** In the middle of a transfer of `p` that holds the latch. */
    ghost predicate Carrying(start: State, past: History<Event>, others: Interference, p: nat)
      reads this
    {
      Model() == Weave(start, past, others) && TransferAlone(others, p) && Model().Alive(p) && Model().At(p).pin == Transferring
    }

    method BesideTransfer(others: Interference, past: History<Event>, ghost start: State, ghost p: nat)
      requires Carrying(start, past, others, p)
      modifies this
      ensures Model() == Found(start, past, others) && (Silent(others) ==> Model() == old(Model())) && old(history) <= history
      ensures Model().Alive(p) && Model().At(p).pin == Transferring && Model().At(p).transfer == old(Model()).At(p).transfer
    {
      hide Next, Run, Weave;
      RunSparesTransfer(Model(), others(past), p);
      Others(others, past, start);
    }

    /** Takes the latch exactly when no worker holds a pin and no other transfer is in flight. */
    method TryBeginOwnershipTransfer(p: nat, to: nat, others: Interference) returns (begun: bool, h: History<Event>)
      requires Inv(Model()) && Model().Alive(p) && to != p && TransferAlone(others, p)
      modifies this
      ensures h == Then(Start, Begin(p, to)) && Model() == Weave(old(Model()), h, others) && Model().Alive(p)
      ensures old(history) <= history
      ensures var l := Found(old(Model()), Start, others).At(p); begun <==> l.Inside() == {} && l.transfer == Idle
      ensures begun ==> Carrying(old(Model()), h, others, p) && Model().At(p).transfer == Checking(to)
      ensures Silent(others) ==>
                var l := old(Model()).At(p);
                && (begun <==> l.pin == Count(0)) && (begun ==> l.transfer == Idle)
                && Model() == if begun then With(old(Model()), p, l.(pin := Transferring, transfer := Checking(to))) else old(Model())
    {
      hide Run, Inv;
      ghost var s := Model();
      RunLife(s, others(Start), p);
      Others(others, Start, s);
      WeaveInv(s, Start, others);
      var l := Model().At(p);
      LatchIsFree(Model(), p);
      begun := l.pin == Count(0);
      if begun {
        h := SetLocal(Begin(p, to), l.(pin := Transferring, transfer := Checking(to)), others, Start, s);
      } else {
        h := Then(Start, Begin(p, to));
      }
    }

    /** One step of the transfer that moves nothing but the local view. */
    method SetTransfer(p: nat, l: Local, others: Interference, past: History<Event>, ghost start: State)
      returns (h: History<Event>)
      requires Model() == Found(start, past, others) && Next(Model(), Carry(p)) == With(Model(), p, l)
      requires TransferAlone(others, p) && l.alive && l.pin == Transferring
      modifies this`locals
      ensures h == Then(past, Carry(p)) && Carrying(start, h, others, p) && Model() == With(old(Model()), p, l)
    {
      hide Next, Run, Weave, Found;
      h := SetLocal(Carry(p), l, others, past, start);
    }

    /** The shadow of the new holder's group first, the truth second. */
    method PublishDomainRecord(p: nat, to: nat, base: nat, others: Interference, past: History<Event>, ghost start: State)
      returns (h: History<Event>)
      requires Carrying(start, past, others, p) && Model().At(p).transfer == Shadowing(to, base)
      modifies this
      ensures Carrying(start, h, others, p) && Model().At(p).transfer == Ending
      ensures truth == Record(to, base + 1) && old(history) < history && history[|history| - 1] == truth
      ensures Silent(others) ==>
                var r := Record(to, base + 1);
                Model() == With(StoreTruth(StoreShadow(old(Model()), r), r), p, old(Model()).At(p).(transfer := Ending))
    {
      hide Run;
      BesideTransfer(others, past, start, p);
      ghost var s := Model();
      var l := Model().At(p);
      shadows := shadows[Model().Group(to) := Record(to, base + 1)];
      locals := locals[p := l.(transfer := Truthing(to, base))];
      h := Then(past, Carry(p));
      assert Model() == Next(s, Carry(p));
      h := PublishTruth(p, to, base, others, h, start);
    }

    method PublishTruth(p: nat, to: nat, base: nat, others: Interference, past: History<Event>, ghost start: State)
      returns (h: History<Event>)
      requires Carrying(start, past, others, p) && Model().At(p).transfer == Truthing(to, base)
      modifies this
      ensures Carrying(start, h, others, p) && h == Then(past, Carry(p)) && Model().At(p).transfer == Ending
      ensures truth == Record(to, base + 1) && old(history) < history && history[|history| - 1] == truth
      ensures Silent(others) ==>
                Model() == With(StoreTruth(old(Model()), Record(to, base + 1)), p, old(Model()).At(p).(transfer := Ending))
    {
      hide Run;
      BesideTransfer(others, past, start, p);
      truth := Record(to, base + 1);
      history := history + [truth];
      locals := locals[p := Model().At(p).(transfer := Ending)];
      h := Then(past, Carry(p));
    }

    method EndOwnershipTransfer(p: nat, others: Interference, past: History<Event>, ghost start: State)
      returns (h: History<Event>)
      requires Carrying(start, past, others, p) && Model().At(p).transfer == Ending
      modifies this
      ensures Model() == Weave(start, h, others) && Model().Alive(p) && old(history) <= history
      ensures h == Then(past, Carry(p)) && Model().At(p).transfer == Idle && Model().At(p).pin == Count(0)
      ensures Silent(others) ==> Model() == With(old(Model()), p, old(Model()).At(p).(transfer := Idle, pin := Count(0)))
    {
      hide Run, Weave, Found;
      BesideTransfer(others, past, start, p);
      h := SetLocal(Carry(p), Model().At(p).(transfer := Idle, pin := Count(0)), others, past, start);
    }

    /**
     Publishes `to` as the holder exactly when the truth names this peer under the latch, and opens the latch again.
     Undisturbed, that is one epoch up in the new holder's shadow and in the truth, or nothing at all.
     */
    method TransferOwnershipGuarded(p: nat, to: nat, others: Interference)
      returns (begun: bool, published: bool, h: History<Event>)
      requires Inv(Model()) && Model().Alive(p) && to != p && TransferAlone(others, p)
      modifies this
      ensures Inv(Model()) && Model().Alive(p) && Model() == Weave(old(Model()), h, others) && old(history) <= history
      ensures var l := Found(old(Model()), Start, others).At(p); begun <==> l.Inside() == {} && l.transfer == Idle
      ensures published <==> begun && Found(old(Model()), Then(Start, Begin(p, to)), others).truth.holder == p
      ensures begun ==> Model().At(p).transfer == Idle && Model().At(p).pin == Count(0)
      ensures published ==> exists r :: r in history[|old(history)|..] && r.holder == to
      ensures Silent(others) ==>
                && (published <==> begun && old(truth).holder == p)
                && Model() == if published then Granted(old(Model()), p, to)
                              else if begun then With(old(Model()), p, old(Model()).At(p)) else old(Model())
    {
      hide Run, Weave, Found, Next, Inv;
      ghost var s := Model();
      begun, h := TryBeginOwnershipTransfer(p, to, others);
      published := false;
      if begun {
        published, h := CarryOut(p, to, others, h, s);
        assert published ==> truth in history[|old(history)|..];
        h := EndOwnershipTransfer(p, others, h, s);
        if Silent(others) {
          GrantedSteps(s, p, to, published);
        }
      }
      WeaveInv(s, h, others);
    }

    method CarryOut(p: nat, to: nat, others: Interference, past: History<Event>, ghost start: State)
      returns (published: bool, h: History<Event>)
      requires Carrying(start, past, others, p) && Model().At(p).transfer == Checking(to)
      modifies this
      ensures Carrying(start, h, others, p) && Model().At(p).transfer == Ending && old(history) <= history
      ensures published <==> Found(start, past, others).truth.holder == p
      ensures published ==> truth.holder == to && old(history) < history && history[|history| - 1] == truth
      ensures Silent(others) ==>
                && (published <==> old(truth).holder == p)
                && Model() == if published then Published(old(Model()), p, to) else With(old(Model()), p, old(Model()).At(p).(transfer := Ending))
    {
      hide Run, Weave, Found;
      BesideTransfer(others, past, start, p);
      published := truth.holder == p;
      var l := Model().At(p);
      if !published {
        h := SetTransfer(p, l.(transfer := Ending), others, past, start);
        return;
      }
      var base := truth.epoch;
      h := SetTransfer(p, l.(transfer := Losing(to, base)), others, past, start);
      h := LoseAndPublish(p, to, base, others, h, start);
    }

    method LoseAndPublish(p: nat, to: nat, base: nat, others: Interference, past: History<Event>, ghost start: State)
      returns (h: History<Event>)
      requires Carrying(start, past, others, p) && Model().At(p).transfer == Losing(to, base)
      modifies this
      ensures Carrying(start, h, others, p) && Model().At(p).transfer == Ending
      ensures truth == Record(to, base + 1) && old(history) < history && history[|history| - 1] == truth
      ensures Silent(others) ==>
                var r := Record(to, base + 1);
                var s := With(old(Model()), p, old(Model()).At(p).(transfer := Shadowing(to, base), belief := false));
                Model() == With(StoreTruth(StoreShadow(s, r), r), p, s.At(p).(transfer := Ending))
    {
      hide Run, Weave, Found;
      BesideTransfer(others, past, start, p);
      var l := Model().At(p);
      h := SetTransfer(p, l.(transfer := Shadowing(to, base), belief := false), others, past, start);
      h := PublishDomainRecord(p, to, base, others, h, start);
    }

    lemma LatchIsFree(s: State, p: nat)
      requires Inv(s) && s.Alive(p)
      ensures s.At(p).pin == Count(0) <==> s.At(p).Inside() == {} && s.At(p).transfer == Idle
      ensures s.At(p).pin == Count(0) ==> s.At(p).transfer == Idle
    {
      assert LocalOk(s, p);
    }

    // ---------- the seizure ----------

    /**
     The authority takes a dead holder's domain with a jump clear of any shadow the holder left, and adopts it; false
     when it must not.
     */
    method TakeoverFromDead(a: nat, claimHeld: bool, others: Interference) returns (seized: bool, h: History<Event>)
      requires Inv(Model()) && Model().Alive(a) && seizure == NoSeizure && SeizureAlone(others, a)
      modifies this
      ensures Inv(Model()) && Model() == Weave(old(Model()), h, others)
      ensures !claimHeld ==> !seized && h == Start
      ensures claimHeld ==>
                var found := Found(old(Model()), Start, others);
                (seized <==> !found.Alive(found.truth.holder)) && (seized ==> Seized(a, found.truth) in history)
      ensures Silent(others) ==> Model() == if seized then TakenOver(old(Model()), a) else old(Model())
    {
      hide Run, Weave, Found, Next, Inv;
      ghost var s := Model();
      NothingYet(others);
      if !claimHeld {
        return false, Start;
      }
      seized, h := ReadTruth(a, others);
      if seized {
        h := StoreAndAdopt(a, seizure.base, others, h, s);
        if Silent(others) {
          SeizedSteps(s, a);
        }
      }
      WeaveInv(s, h, others);
    }

    method ReadTruth(a: nat, others: Interference) returns (dead: bool, h: History<Event>)
      requires Model().Alive(a) && seizure == NoSeizure && SeizureAlone(others, a)
      modifies this
      ensures h == Then(Start, Seize(a)) && Model() == Weave(old(Model()), h, others) && Model().Alive(a)
      ensures var found := Found(old(Model()), Start, others);
              (dead <==> !found.Alive(found.truth.holder)) && (dead ==> seizure == Read(a, found.truth))
      ensures Silent(others) ==>
                && (dead <==> !old(Model()).Alive(old(truth).holder))
                && Model() == if dead then old(Model()).(seizure := Read(a, old(truth))) else old(Model())
    {
      hide Run;
      ghost var s := Model();
      RunSparesNoSeizure(s, others(Start), a);
      Others(others, Start, s);
      dead := !Model().Alive(truth.holder);
      if dead {
        seizure := Read(a, truth);
      }
      h := Then(Start, Seize(a));
    }

    ghost predicate Pressing(start: State, past: History<Event>, others: Interference, a: nat)
      reads this
    {
      Model() == Weave(start, past, others) && SeizureAlone(others, a) && Model().Alive(a)
    }

    method BesideSeizure(others: Interference, past: History<Event>, ghost start: State, ghost a: nat)
      requires Pressing(start, past, others, a) && seizure != NoSeizure && seizure.authority == a
      modifies this
      ensures Model() == Found(start, past, others) && (Silent(others) ==> Model() == old(Model())) && old(history) <= history
      ensures Model().Alive(a) && seizure == old(seizure)
    {
      hide Next, Run, Weave;
      RunSparesSeizure(Model(), others(past), a);
      Others(others, past, start);
    }

    method StoreAndAdopt(a: nat, base: Record, others: Interference, past: History<Event>, ghost start: State)
      returns (h: History<Event>)
      requires Pressing(start, past, others, a) && seizure == Read(a, base)
      modifies this
      ensures Model() == Weave(start, h, others) && Seized(a, base) in history
      ensures Silent(others) ==> Model() == Next(Next(Next(old(Model()), Press(a)), Press(a)), Press(a))
    {
      hide Run, Weave, Found, Next;
      h := PressShadow(a, base, others, past, start);
      h := PressTruth(a, base, others, h, start);
      h := PressAdopt(a, Seized(a, base), others, h, start);
    }

    method PressShadow(a: nat, base: Record, others: Interference, past: History<Event>, ghost start: State)
      returns (h: History<Event>)
      requires Pressing(start, past, others, a) && seizure == Read(a, base)
      modifies this
      ensures Pressing(start, h, others, a) && seizure == Stored(a, base)
      ensures Silent(others) ==> Model() == Next(old(Model()), Press(a))
    {
      hide Run;
      BesideSeizure(others, past, start, a);
      shadows := shadows[Model().Group(a) := Seized(a, base)];
      seizure := Stored(a, base);
      h := Then(past, Press(a));
    }

    method PressTruth(a: nat, base: Record, others: Interference, past: History<Event>, ghost start: State)
      returns (h: History<Event>)
      requires Pressing(start, past, others, a) && seizure == Stored(a, base)
      modifies this
      ensures Pressing(start, h, others, a) && seizure == Taken(a, Seized(a, base).epoch) && Seized(a, base) in history
      ensures Silent(others) ==> Model() == Next(old(Model()), Press(a))
    {
      hide Run;
      BesideSeizure(others, past, start, a);
      truth := Seized(a, base);
      history := history + [truth];
      seizure := Taken(a, truth.epoch);
      h := Then(past, Press(a));
    }

    method PressAdopt(a: nat, r: Record, others: Interference, past: History<Event>, ghost start: State)
      returns (h: History<Event>)
      requires Pressing(start, past, others, a) && seizure == Taken(a, r.epoch) && r in history
      modifies this
      ensures Model() == Weave(start, h, others) && r in history && seizure == NoSeizure
      ensures Model().At(a).belief && Model().At(a).baseline >= r.epoch
      ensures Silent(others) ==> Model() == Next(old(Model()), Press(a))
    {
      hide Run;
      BesideSeizure(others, past, start, a);
      var l := Model().At(a);
      locals := locals[a := l.(belief := true, baseline := Larger(r.epoch, l.baseline))];
      seizure := NoSeizure;
      h := Then(past, Press(a));
    }
  }
}
