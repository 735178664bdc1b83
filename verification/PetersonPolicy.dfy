/**
 `PetersonPolicy::lock` and `unlock` on top of the tournament (src/core/policy/successor_peterson.cpp,
 src/core/algo/ownership_transfer.cpp): several threads of one peer share one win, the climb mutex guards
 the `won` flag and the pin count, and the winner stamps and later vacates the domain record.

 Runs here are crash-free: recovery stamps an authority that never climbed.
 */
module PetersonPolicy {
  import T = Tournament
  import opened TreeGeometry

  /** The domain record, as far as ownership goes. */
  datatype Record = Record(holder: T.Owner, epoch: nat)

  /** What the thread holding the climb mutex of a peer is doing; `Free` when nobody holds it. */
  datatype Work =
    | Free
    | Entering(thread: nat)                    // about to pin
    | Pinned(thread: nat)                      // about to look at `won`
    | Climbing(thread: nat)                    // inside `acquire`
    | Loading(thread: nat)                     // won, about to read the record
    | Shadowing(thread: nat, base: Record)     // about to store the shadow
    | Stamping(thread: nat, base: Record)      // about to store the truth
    | Arriving(thread: nat)                    // about to return the guard
    | Failing(thread: nat)                     // timed out, about to unpin
    | Leaving(thread: nat)                     // `unlock` entered, about to read the pin count
    | Vacating(thread: nat)                    // about to read the record
    | VacateStore(thread: nat, base: Record)   // about to store the vacated record
    | Releasing(thread: nat)                   // inside `release`
    | Dropping(thread: nat)                    // about to unpin

  /** One peer's side: `users` are the threads that hold a guard. */
  datatype Side = Side(work: Work, won: bool, pins: nat, users: set<nat>)

  datatype State = State(tree: T.State, sides: map<nat, Side>, record: Record, shadows: map<nat, Record>) {
    function At(p: nat): Side {
      if p in sides then sides[p] else Side(Free, false, 0, {})
    }
  }

  datatype Event =
    | Lock(peer: nat, thread: nat)     // a thread takes the climb mutex to lock
    | Unlock(peer: nat, thread: nat)   // a thread takes the climb mutex to unlock
    | Work(peer: nat)                  // the mutex holder's next access
    | Expire(peer: nat)                // its deadline passes

  function Init(maxPeers: nat): State {
    State(T.Init(maxPeers), map[], Record(T.NoPeer, 0), map[])
  }

  function SetSide(s: State, p: nat, side: Side): State {
    s.(sides := s.sides[p := side])
  }

  /** The next access of the thread that holds the climb mutex of `p`. */
  function NextWork(s: State, p: nat): State {
    var me := s.At(p);
    match me.work
    case Free => s
    case Entering(t) => SetSide(s, p, me.(work := Pinned(t), pins := me.pins + 1))
    case Pinned(t) =>
      if me.won then SetSide(s, p, me.(work := Arriving(t)))
      else SetSide(s.(tree := T.Next(s.tree, T.Begin(p))), p, me.(work := Climbing(t)))
    case Climbing(t) =>
      if s.tree.Phase(p) == T.Inside then SetSide(s, p, me.(work := Loading(t), won := true))
      else if s.tree.Phase(p) == T.Outside then SetSide(s, p, me.(work := Failing(t)))
      else s.(tree := T.Next(s.tree, T.Access(p)))
    case Loading(t) => SetSide(s, p, me.(work := Shadowing(t, s.record)))
    case Shadowing(t, base) =>
      SetSide(s.(shadows := s.shadows[p := Record(T.Named(p), base.epoch + 1)]), p, me.(work := Stamping(t, base)))
    case Stamping(t, base) =>
      SetSide(s.(record := Record(T.Named(p), base.epoch + 1)), p, me.(work := Arriving(t)))
    case Arriving(t) => SetSide(s, p, me.(work := Free, users := me.users + {t}))
    case Failing(t) => SetSide(s, p, me.(work := Free, pins := Less(me.pins)))
    case Leaving(t) =>
      if me.pins > 1 then SetSide(s, p, me.(work := Dropping(t)))
      else if me.pins == 1 then SetSide(s, p, me.(work := Vacating(t)))
      else SetSide(s.(tree := T.Next(s.tree, T.Leave(p))), p, me.(work := Releasing(t)))
    case Vacating(t) => SetSide(s, p, me.(work := VacateStore(t, s.record)))
    case VacateStore(t, base) =>
      SetSide(s.(record := Record(T.NoPeer, base.epoch + 1), tree := T.Next(s.tree, T.Leave(p))),
              p, me.(work := Releasing(t)))
    case Releasing(t) =>
      if s.tree.Phase(p) == T.Outside then SetSide(s, p, me.(work := Dropping(t), won := false))
      else s.(tree := T.Next(s.tree, T.Access(p)))
    case Dropping(t) => SetSide(s, p, me.(work := Free, pins := Less(me.pins), users := me.users - {t}))
  }

  function Less(n: nat): nat { if n == 0 then 0 else n - 1 }

  function Next(s: State, e: Event): State {
    var p := e.peer;
    if p >= s.tree.maxPeers then s else
    match e
    case Lock(_, t) =>
      if s.At(p).work == Free && t !in s.At(p).users
      then SetSide(s, p, s.At(p).(work := Entering(t))) else s
    case Unlock(_, t) =>
      if s.At(p).work == Free && t in s.At(p).users
      then SetSide(s, p, s.At(p).(work := Leaving(t))) else s
    case Work(_) => NextWork(s, p)
    case Expire(_) => if s.At(p).work.Climbing? then s.(tree := T.Next(s.tree, T.Expire(p))) else s
  }

  function Run(s: State, events: seq<Event>): State
    decreases |events|
  {
    if events == [] then s else Run(Next(s, events[0]), events[1..])
  }

  // ---------- the invariant ----------

  /** At the root and quiet, or outside, as `won` says. */
  ghost predicate Settled(me: Side, phase: T.Phase) {
    phase == if me.won then T.Inside else T.Outside
  }

  /** The pin count, the flag and the tree position of one peer agree with what its mutex holder is doing. */
  ghost predicate PeerOk(me: Side, phase: T.Phase) {
    !phase.Dead? &&
    match me.work
    case Free => me.pins == |me.users| && me.won == (me.users != {}) && Settled(me, phase)
    case Entering(t) => t !in me.users && me.pins == |me.users| && me.won == (me.users != {}) && Settled(me, phase)
    case Pinned(t) => t !in me.users && me.pins == |me.users| + 1 && me.won == (me.users != {}) && Settled(me, phase)
    case Climbing(t) => me.users == {} && me.pins == 1 && !me.won
    case Loading(t) => me.users == {} && me.pins == 1 && me.won && phase == T.Inside
    case Shadowing(t, _) => me.users == {} && me.pins == 1 && me.won && phase == T.Inside
    case Stamping(t, _) => me.users == {} && me.pins == 1 && me.won && phase == T.Inside
    case Arriving(t) => t !in me.users && me.pins == |me.users| + 1 && me.won && phase == T.Inside
    case Failing(t) => me.users == {} && me.pins == 1 && !me.won && phase == T.Outside
    case Leaving(t) => t in me.users && me.pins == |me.users| && me.won && phase == T.Inside
    case Vacating(t) => me.users == {t} && me.pins == 1 && me.won && phase == T.Inside
    case VacateStore(t, _) => me.users == {t} && me.pins == 1 && me.won && phase == T.Inside
    case Releasing(t) => me.users == {t} && me.pins == 1 && me.won && (phase.Retreating? || phase == T.Outside)
    case Dropping(t) => t in me.users && me.pins == |me.users| && me.won == (me.users != {t}) && Settled(me, phase)
  }

  /** `p` is at the root and its stamp stands. */
  ghost predicate Stamped(me: Side, phase: T.Phase) {
    phase == T.Inside && !me.work.Climbing? && !me.work.Loading? && !me.work.Shadowing? && !me.work.Stamping?
  }

  /** The record `p` will write from is the record that stands. */
  ghost predicate BaseOk(me: Side, record: Record) {
    (me.work.Shadowing? || me.work.Stamping? || me.work.VacateStore?) ==> me.work.base == record
  }

  ghost predicate Inv(s: State) {
    && T.Inv(s.tree)
    && (forall p: nat | p < s.tree.maxPeers :: PeerOk(s.At(p), s.tree.Phase(p)))
    && (forall p: nat | p < s.tree.maxPeers :: s.record.holder == T.Named(p) <==> Stamped(s.At(p), s.tree.Phase(p)))
    && (forall p: nat | p < s.tree.maxPeers :: BaseOk(s.At(p), s.record))
    && (s.record.holder.Named? ==> s.record.holder.peer < s.tree.maxPeers)
  }

  lemma InitInv(maxPeers: nat)
    ensures Inv(Init(maxPeers))
  {
    T.InitInv(maxPeers);
  }

  /** At most one peer is past the root. */
  lemma OneInside(tree: T.State, p: nat, q: nat)
    requires T.Inv(tree) && p < tree.maxPeers && q < tree.maxPeers && p != q
    requires tree.Phase(p) == T.Inside
    ensures tree.Phase(q) != T.Inside
  {
    AtRoot(tree.maxPeers, p);
    AtRoot(tree.maxPeers, q);
    assert !(tree.Won(p) >= tree.Depth() && tree.Won(q) >= tree.Depth());
  }

  lemma OthersPhase(tree: T.State, e: T.Event, q: nat)
    requires q != e.peer
    ensures T.Next(tree, e).Phase(q) == tree.Phase(q)
  {
  }

  /** A tree event of `p` keeps the tree invariant and leaves the phases of the others alone. */
  lemma TreeStep(tree: T.State, e: T.Event)
    requires T.Inv(tree)
    ensures T.Inv(T.Next(tree, e)) && T.Next(tree, e).maxPeers == tree.maxPeers
    ensures forall q: nat | q != e.peer :: T.Next(tree, e).Phase(q) == tree.Phase(q)
  {
    T.NextInv(tree, e);
    forall q: nat | q != e.peer
      ensures T.Next(tree, e).Phase(q) == tree.Phase(q)
    {
      OthersPhase(tree, e, q);
    }
  }

  /** The phase of `p` after its own tree events. */
  lemma OwnPhase(tree: T.State, p: nat)
    requires p < tree.maxPeers && !tree.Phase(p).Dead?
    ensures !T.Next(tree, T.Access(p)).Phase(p).Dead?
    ensures !T.Next(tree, T.Expire(p)).Phase(p).Dead?
    ensures !T.Next(tree, T.Begin(p)).Phase(p).Dead?
    ensures tree.Phase(p).Retreating? ==>
              var after := T.Next(tree, T.Access(p)).Phase(p); after.Retreating? || after == T.Outside
    ensures tree.Phase(p) == T.Inside ==>
              var after := T.Next(tree, T.Leave(p)).Phase(p); after.Retreating? || after == T.Outside
  {
  }

  /** An event of `p`: its own side stays consistent, and it writes the record only from past the root. */
  ghost predicate OwnStep(s: State, s': State, p: nat) {
    && (forall q: nat | q != p :: s'.At(q) == s.At(q))
    && PeerOk(s'.At(p), s'.tree.Phase(p)) && BaseOk(s'.At(p), s'.record)
    && (s'.record == s.record || (s.tree.Phase(p) == T.Inside && s'.record.holder in {T.Named(p), T.NoPeer}))
    && (s'.record.holder == T.Named(p) <==> Stamped(s'.At(p), s'.tree.Phase(p)))
  }

  lemma StepInv(s: State, s': State, p: nat, e: T.Event)
    requires Inv(s) && p < s.tree.maxPeers && OwnStep(s, s', p)
    requires s'.tree == s.tree || (e.peer == p && s'.tree == T.Next(s.tree, e))
    ensures Inv(s')
  {
    TreeStep(s.tree, e);
    forall q: nat | q < s.tree.maxPeers
      ensures PeerOk(s'.At(q), s'.tree.Phase(q)) && BaseOk(s'.At(q), s'.record)
      ensures s'.record.holder == T.Named(q) <==> Stamped(s'.At(q), s'.tree.Phase(q))
    {
      if q != p {
        assert PeerOk(s.At(q), s.tree.Phase(q)) && BaseOk(s.At(q), s.record);
        if s'.record != s.record {
          OneInside(s.tree, p, q);
        }
      }
    }
  }

  /** What the own-step lemmas need to know before the event. */
  ghost predicate OwnOk(s: State, p: nat) {
    && p < s.tree.maxPeers && PeerOk(s.At(p), s.tree.Phase(p)) && BaseOk(s.At(p), s.record)
    && (s.record.holder == T.Named(p) <==> Stamped(s.At(p), s.tree.Phase(p)))
  }

  lemma LockWork(s: State, p: nat)
    requires OwnOk(s, p)
    requires var w := s.At(p).work; w.Free? || w.Entering? || w.Pinned? || w.Climbing? || w.Loading? || w.Shadowing?
    ensures OwnStep(s, Next(s, Work(p)), p)
  {
    OwnPhase(s.tree, p);
  }

  lemma ArriveWork(s: State, p: nat)
    requires OwnOk(s, p)
    requires var w := s.At(p).work; w.Stamping? || w.Arriving? || w.Failing?
    ensures OwnStep(s, Next(s, Work(p)), p)
  {
  }

  lemma CountWork(s: State, p: nat)
    requires OwnOk(s, p) && (s.At(p).work.Leaving? || s.At(p).work.Dropping?)
    ensures OwnStep(s, Next(s, Work(p)), p)
  {
    var users, t := s.At(p).users, s.At(p).work.thread;
    assert |users - {t}| == |users| - 1;
    assert users == {t} <==> |users| == 1;
    assert users - {t} == {} <==> users == {t};
  }

  lemma VacateWork(s: State, p: nat)
    requires OwnOk(s, p) && (s.At(p).work.Vacating? || s.At(p).work.VacateStore?)
    ensures OwnStep(s, Next(s, Work(p)), p)
  {
  }

  lemma ReleaseWork(s: State, p: nat)
    requires OwnOk(s, p) && s.At(p).work.Releasing?
    ensures OwnStep(s, Next(s, Work(p)), p)
  {
    OwnPhase(s.tree, p);
  }

  lemma WorkInv(s: State, p: nat)
    requires Inv(s) && p < s.tree.maxPeers
    ensures Inv(Next(s, Work(p)))
  {
    var s' := Next(s, Work(p));
    assert OwnOk(s, p);
    match s.At(p).work
    case Free => LockWork(s, p); StepInv(s, s', p, T.Begin(p));
    case Entering(_) => LockWork(s, p); StepInv(s, s', p, T.Begin(p));
    case Pinned(_) => LockWork(s, p); StepInv(s, s', p, T.Begin(p));
    case Climbing(_) => LockWork(s, p); StepInv(s, s', p, T.Access(p));
    case Loading(_) => LockWork(s, p); StepInv(s, s', p, T.Access(p));
    case Shadowing(_, _) => LockWork(s, p); StepInv(s, s', p, T.Access(p));
    case Stamping(_, _) => ArriveWork(s, p); StepInv(s, s', p, T.Access(p));
    case Arriving(_) => ArriveWork(s, p); StepInv(s, s', p, T.Access(p));
    case Failing(_) => ArriveWork(s, p); StepInv(s, s', p, T.Access(p));
    case Releasing(_) => ReleaseWork(s, p); StepInv(s, s', p, T.Access(p));
    case Vacating(_) => VacateWork(s, p); StepInv(s, s', p, T.Leave(p));
    case VacateStore(_, _) => VacateWork(s, p); StepInv(s, s', p, T.Leave(p));
    case _ => CountWork(s, p); StepInv(s, s', p, T.Leave(p));
  }

  lemma NextInv(s: State, e: Event)
    requires Inv(s)
    ensures Inv(Next(s, e))
  {
    var p := e.peer;
    if p < s.tree.maxPeers {
      if e.Work? {
        WorkInv(s, p);
      } else {
        assert OwnOk(s, p);
        EdgeStep(s, e);
        StepInv(s, Next(s, e), p, T.Expire(p));
      }
    }
  }

  lemma EdgeStep(s: State, e: Event)
    requires OwnOk(s, e.peer) && !e.Work?
    ensures OwnStep(s, Next(s, e), e.peer)
  {
    if e.Expire? {
      OwnPhase(s.tree, e.peer);
    }
  }

  lemma {:induction false} RunInv(s: State, events: seq<Event>)
    requires Inv(s)
    ensures Inv(Run(s, events))
    decreases |events|
  {
    if events != [] {
      NextInv(s, events[0]);
      RunInv(Next(s, events[0]), events[1..]);
    }
  }

  lemma ReachableInv(maxPeers: nat, events: seq<Event>)
    ensures Inv(Run(Init(maxPeers), events)) && Run(Init(maxPeers), events).tree.maxPeers == maxPeers
  {
    InitInv(maxPeers);
    RunInv(Init(maxPeers), events);
    RunKeepsSize(Init(maxPeers), events);
  }

  lemma {:induction false} RunKeepsSize(s: State, events: seq<Event>)
    ensures Run(s, events).tree.maxPeers == s.tree.maxPeers
    decreases |events|
  {
    if events != [] {
      NextKeepsSize(s, events[0]);
      RunKeepsSize(Next(s, events[0]), events[1..]);
    }
  }

  lemma NextKeepsSize(s: State, e: Event)
    ensures Next(s, e).tree.maxPeers == s.tree.maxPeers
  {
    forall t: T.Event
      ensures T.Next(s.tree, t).maxPeers == s.tree.maxPeers
    {
      T.RunKeepsSize(s.tree, [t]);
      assert T.Run(s.tree, [t]) == T.Next(s.tree, t);
    }
  }

  // ---------- main theorems ----------

  /** While nobody holds the climb mutex of `p`, the flag says exactly that some thread of `p` has a pin. */
  lemma WonMeansPinned(maxPeers: nat, events: seq<Event>, p: nat)
    requires p < maxPeers && Run(Init(maxPeers), events).At(p).work == Free
    ensures var me := Run(Init(maxPeers), events).At(p);
            && me.won == (me.pins > 0) && me.pins == |me.users|
            && Run(Init(maxPeers), events).tree.Phase(p) == if me.won then T.Inside else T.Outside
  {
    ReachableInv(maxPeers, events);
    var s := Run(Init(maxPeers), events);
    assert PeerOk(s.At(p), s.tree.Phase(p));
  }

  /** A thread that has its guard and has not begun to give it back. */
  predicate Uses(s: State, p: nat, thread: nat) {
    thread in s.At(p).users && (s.At(p).work == Free || s.At(p).work.thread != thread)
  }

  /**
   While a thread uses the domain, its peer is past the root and the record names that peer; and a thread
   of any other peer does not use it.
   */
  lemma UseIsExclusiveAndRecorded(maxPeers: nat, events: seq<Event>, p: nat, t: nat, q: nat, u: nat)
    requires p < maxPeers && q < maxPeers && Uses(Run(Init(maxPeers), events), p, t)
    ensures Run(Init(maxPeers), events).record.holder == T.Named(p)
    ensures Run(Init(maxPeers), events).tree.Phase(p) == T.Inside
    ensures p != q ==> !Uses(Run(Init(maxPeers), events), q, u)
  {
    ReachableInv(maxPeers, events);
    var s := Run(Init(maxPeers), events);
    assert PeerOk(s.At(p), s.tree.Phase(p)) && PeerOk(s.At(q), s.tree.Phase(q));
    if p != q {
      OneInside(s.tree, p, q);
    }
  }

  /** A peer the record names is past the root of the tournament. */
  lemma NamedHolderIsAtRoot(maxPeers: nat, events: seq<Event>, p: nat)
    requires Run(Init(maxPeers), events).record.holder == T.Named(p)
    ensures p < maxPeers && Run(Init(maxPeers), events).tree.Phase(p) == T.Inside
  {
    ReachableInv(maxPeers, events);
  }

  /**
   No update of the record is lost: an event either leaves it alone or replaces it by its successor, one
   epoch up, although every writer works from a copy read earlier.
   */
  lemma NoUpdateLost(maxPeers: nat, events: seq<Event>, e: Event)
    ensures var s := Run(Init(maxPeers), events);
            Next(s, e).record == s.record || Next(s, e).record.epoch == s.record.epoch + 1
  {
    ReachableInv(maxPeers, events);
    var s := Run(Init(maxPeers), events);
    if e.peer < maxPeers {
      assert BaseOk(s.At(e.peer), s.record);
    }
  }

  /** At most one peer at a time is between reading the record to update it and storing the update. */
  lemma OneRecordWriter(maxPeers: nat, events: seq<Event>, p: nat, q: nat)
    requires p < maxPeers && q < maxPeers && p != q
    requires var w := Run(Init(maxPeers), events).At(p).work;
             w.Loading? || w.Shadowing? || w.Stamping? || w.Vacating? || w.VacateStore?
    ensures var w := Run(Init(maxPeers), events).At(q).work;
            !w.Loading? && !w.Shadowing? && !w.Stamping? && !w.Vacating? && !w.VacateStore?
  {
    ReachableInv(maxPeers, events);
    var s := Run(Init(maxPeers), events);
    assert PeerOk(s.At(p), s.tree.Phase(p)) && PeerOk(s.At(q), s.tree.Phase(q));
    OneInside(s.tree, p, q);
  }
}
