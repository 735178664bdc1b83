/**
 What `Ownership` promises over every run: exclusive use, who changes the truth, epochs that identify, shadows that
 hide no grant, and exactly when the belief follows an adopt.
 */
module OwnershipSafety {
  import opened Basics
  import opened Ownership

  ghost predicate Reachable(s: State) {
    exists groupSize: Positive, created: Record, leftover: map<nat, Record>, events: seq<Event> ::
      s == Run(Init(groupSize, created, leftover), events)
  }

  lemma ReachableInv(s: State)
    requires Reachable(s)
    ensures Inv(s)
  {
    var groupSize: Positive, created: Record, leftover: map<nat, Record>, events: seq<Event> :|
      s == Run(Init(groupSize, created, leftover), events);
    InitInv(groupSize, created, leftover);
    RunInv(Init(groupSize, created, leftover), events);
  }

  // ---------- main theorems ----------

  /** At most one live peer has workers in the use phase, and the truth names it. */
  lemma UseIsExclusive(s: State, p: nat, w: nat, q: nat, v: nat)
    requires Reachable(s) && s.Alive(p) && s.At(p).Uses(w)
    ensures s.truth.holder == p
    ensures q != p && s.Alive(q) ==> !s.At(q).Uses(v)
  {
    ReachableInv(s);
    assert LocalOk(s, p) && LocalOk(s, q);
  }

  /** The truth changes only by its live named holder's transfer, or by a seizure once that holder is dead. */
  lemma OnlyNamedWrites(s: State, e: Event)
    requires Inv(s) && Next(s, e).truth != s.truth
    ensures e == if s.Alive(s.truth.holder) then Carry(s.truth.holder) else Press(Next(s, e).truth.holder)
    ensures Next(s, e).truth.epoch == s.truth.epoch + 1 + if s.Alive(s.truth.holder) then 0 else SEIZE_EPOCH_GAP
    ensures Next(s, e).history == s.history + [Next(s, e).truth]
  {
    assert LocalOk(s, e.peer);
  }

  predicate Moves(e: Event, p: nat, w: nat) {
    e.peer == p && (e.Pin? || e.Step? || e.Again? || e.Expire? || e.Unpin?) && e.worker == w
  }

  /** A worker's place changes by its own events only. */
  lemma WorkerUntouched(s: State, e: Event, p: nat, w: nat)
    requires !Moves(e, p, w)
    ensures Next(s, e).At(p).At(w) == s.At(p).At(w)
  {
    if e.peer != p {
      PeerUntouched(s, e, p);
    } else if e.Step? || e.Pin? || e.Again? || e.Expire? || e.Unpin? {
      OtherWorkerUntouched(s, e, p, w);
    } else {
      assert Next(s, e).At(p).workers == s.At(p).workers;
    }
  }

  lemma PeerUntouched(s: State, e: Event, p: nat)
    requires e.peer != p
    ensures Next(s, e).At(p) == s.At(p)
  {
  }

  lemma OtherWorkerUntouched(s: State, e: Event, p: nat, w: nat)
    requires e.Step? || e.Pin? || e.Again? || e.Expire? || e.Unpin?
    requires e.peer == p && e.worker != w
    ensures Next(s, e).At(p).At(w) == s.At(p).At(w)
  {
  }

  lemma UseContinues(s: State, e: Event, p: nat, w: nat)
    requires s.At(p).Uses(w) && Moves(e, p, w) && e != Unpin(p, w)
    ensures Next(s, e).At(p).Uses(w)
  {
  }

  /** While a worker uses the domain the truth stays as it is, until that worker itself unpins. */
  lemma HeldUntilUnpinned(s: State, e: Event, p: nat, w: nat)
    requires Reachable(s) && s.Alive(p) && s.At(p).Uses(w)
    ensures Next(s, e).truth == s.truth
    ensures Next(s, e).At(p).Uses(w) || e == Unpin(p, w)
  {
    ReachableInv(s);
    assert LocalOk(s, p);
    assert w in s.At(p).Inside();
    if Next(s, e).truth != s.truth {
      OnlyNamedWrites(s, e);
      assert false;
    }
    if !Moves(e, p, w) {
      WorkerUntouched(s, e, p, w);
    } else if e != Unpin(p, w) {
      UseContinues(s, e, p, w);
    }
  }

  /** Truth epochs strictly increase, so an epoch names one holder for ever. */
  lemma EpochImpliesIdentity(s: State, i: nat, j: nat)
    requires Reachable(s) && i < |s.history| && j < |s.history|
    ensures i < j <==> s.history[i].epoch < s.history[j].epoch
    ensures s.history[|s.history| - 1] == s.truth
  {
    ReachableInv(s);
  }

  lemma {:induction false} OrphansStay(s: State, events: seq<Event>, o: Record)
    requires o in s.orphans
    ensures o in Run(s, events).orphans
    decreases |events|
  {
    if events != [] {
      OrphansStay(Next(s, events[0]), events[1..], o);
    }
  }

  /** The record an interrupted transfer left in a shadow has an epoch no truth has had or will have. */
  lemma InterruptedShadowIsNeverTrue(s: State, p: nat, events: seq<Event>, i: nat)
    requires Reachable(s) && s.Alive(p) && s.At(p).transfer.Truthing?
    requires i < |Run(Next(s, Die(p)), events).history|
    ensures Run(Next(s, Die(p)), events).history[i].epoch != s.At(p).transfer.base + 1
  {
    ReachableInv(s);
    var o := Record(s.At(p).transfer.to, s.At(p).transfer.base + 1);
    NextInv(s, Die(p));
    RunInv(Next(s, Die(p)), events);
    OrphansStay(Next(s, Die(p)), events, o);
    assert OrphanOk(Run(Next(s, Die(p)), events), o);
  }

  /** A grant is newer than every baseline, so it is news to whoever waits for it. */
  lemma GrantIsAboveBaseline(s: State, e: Event, q: nat)
    requires Reachable(s) && Next(s, e).truth != s.truth && Next(s, e).Alive(q)
    ensures Next(s, e).At(q).baseline < Next(s, e).truth.epoch
  {
    ReachableInv(s);
    assert LocalOk(s, q);
    OnlyNamedWrites(s, e);
  }

  /** With no publish in flight, the group shadow of a live holder is the truth. */
  lemma ShadowIsTruth(s: State, p: nat)
    requires Reachable(s) && s.Alive(p) && s.truth.holder == p && !s.At(p).transfer.Truthing?
    ensures s.Shadow(p) == s.truth
  {
    ReachableInv(s);
  }

  /** So a grant above the baseline passes the shadow filter and is adopted. */
  lemma ShadowNeverHidesAGrant(s: State, p: nat, w: nat)
    requires Reachable(s) && s.Alive(p) && s.truth.holder == p && !s.At(p).transfer.Truthing?
    requires s.At(p).baseline < s.truth.epoch && s.At(p).At(w) == Waiting
    ensures Next(s, Step(p, w)).At(p).At(w) == Confirming
    ensures Next(Next(s, Step(p, w)), Step(p, w)).At(p).At(w) == Adopting(s.truth.epoch)
  {
    ShadowIsTruth(s, p);
  }

  // ---------- the belief ----------

  /** A run in which `p` neither starts a transfer nor dies. */
  predicate Keeps(events: seq<Event>, p: nat) {
    forall i | 0 <= i < |events| :: events[i].peer == p ==> !events[i].Begin? && !events[i].Die?
  }

  /** No worker of `p` is about to drop the belief on a truth it read before the adopt. */
  predicate NoneDisproved(s: State, p: nat) {
    forall v | v in s.At(p).workers :: s.At(p).workers[v] != Disproved
  }

  ghost predicate Settling(s: State, p: nat) {
    && s.Alive(p) && s.truth.holder == p && s.At(p).transfer == Idle && NoneDisproved(s, p)
    && (s.At(p).belief || s.At(p).reconcile == Rechecking)
  }

  /** No worker reaches a disproof while the truth names the peer. */
  lemma NoneDisprovedStep(s: State, e: Event, p: nat)
    requires NoneDisproved(s, p) && s.truth.holder == p
    ensures NoneDisproved(Next(s, e), p)
  {
    var s' := Next(s, e);
    forall v | v in s'.At(p).workers
      ensures s'.At(p).workers[v] != Disproved
    {
      assert s.At(p).At(v) != Disproved;
      if Moves(e, p, v) {
        MoveIsNoDisproof(s, e, p, v);
      } else {
        WorkerUntouched(s, e, p, v);
      }
      assert s'.At(p).At(v) == s'.At(p).workers[v];
    }
  }

  lemma MoveIsNoDisproof(s: State, e: Event, p: nat, w: nat)
    requires Moves(e, p, w) && s.truth.holder == p && s.At(p).At(w) != Disproved
    ensures Next(s, e).At(p).At(w) != Disproved
  {
  }

  lemma SettlingStep(s: State, e: Event, p: nat)
    requires Inv(s) && Settling(s, p) && (e.peer == p ==> !e.Begin? && !e.Die?)
    ensures Settling(Next(s, e), p)
  {
    var s' := Next(s, e);
    if s'.truth != s.truth {
      OnlyNamedWrites(s, e);
      assert false;
    }
    NoneDisprovedStep(s, e, p);
    if e.peer != p {
      PeerUntouched(s, e, p);
    } else {
      BeliefStep(s, e, p);
    }
  }

  lemma BeliefStep(s: State, e: Event, p: nat)
    requires e.peer == p && !e.Begin? && !e.Die? && s.Alive(p) && s.truth.holder == p && s.At(p).transfer == Idle
    requires NoneDisproved(s, p) && (s.At(p).belief || s.At(p).reconcile == Rechecking)
    ensures var l := Next(s, e).At(p); l.alive && l.transfer == Idle && (l.belief || l.reconcile == Rechecking)
  {
  }

  lemma {:induction false} SettlingRun(s: State, events: seq<Event>, p: nat)
    requires Inv(s) && Settling(s, p) && Keeps(events, p)
    ensures Settling(Run(s, events), p)
    decreases |events|
  {
    if events != [] {
      SettlingStep(s, events[0], p);
      NextInv(s, events[0]);
      SettlingRun(Next(s, events[0]), events[1..], p);
    }
  }

  /** The adopt is done, no belief pass is under way, and the truth names the peer: the belief says so. */
  predicate Agrees(s: State, p: nat) {
    s.truth.holder == p && (s.At(p).reconcile == Rested ==> s.At(p).belief)
  }

  lemma ReachableNext(s: State, e: Event)
    requires Reachable(s)
    ensures Reachable(Next(s, e))
  {
    var groupSize: Positive, created: Record, leftover: map<nat, Record>, events: seq<Event> :|
      s == Run(Init(groupSize, created, leftover), events);
    RunThen(Init(groupSize, created, leftover), events, e);
  }

  lemma {:induction false} RunThen(s: State, events: seq<Event>, e: Event)
    ensures Run(s, events + [e]) == Next(Run(s, events), e)
    decreases |events|
  {
    if events == [] {
      assert events + [e] == [e];
      assert Run(Next(s, e), [e][1..]) == Next(s, e);
    } else {
      assert (events + [e])[1..] == events[1..] + [e];
      RunThen(Next(s, events[0]), events[1..], e);
    }
  }

  /** Ends a belief pass of a peer the truth names. */
  lemma PassEnds(s: State, p: nat) returns (events: seq<Event>)
    requires s.Alive(p) && s.truth.holder == p
    ensures Keeps(events, p)
    ensures var s' := Run(s, events); s'.Alive(p) && s'.truth == s.truth && s'.At(p).reconcile == Rested && s'.At(p).workers == s.At(p).workers
  {
    match s.At(p).reconcile
    case Rested => events := [];
    case Rechecking =>
      events := [Poll(p)];
      assert Run(Next(s, Poll(p)), events[1..]) == Next(s, Poll(p));
    case Dropping =>
      events := [Poll(p), Poll(p)];
      var s1 := Next(s, Poll(p));
      assert events[1..] == [Poll(p)];
      assert Run(Next(s1, Poll(p)), [Poll(p)][1..]) == Next(s1, Poll(p));
  }

  /** A worker that disproved the belief before the adopt drops it after, and nothing rereads the truth. */
  lemma StaleDropWins(s: State, p: nat, v: nat) returns (events: seq<Event>)
    requires s.Alive(p) && s.truth.holder == p && s.At(p).At(v) == Disproved
    ensures Keeps(events, p) && !Agrees(Run(s, events), p)
  {
    var ending := PassEnds(s, p);
    var t := Run(s, ending);
    events := ending + [Step(p, v)];
    RunThen(s, ending, Step(p, v));
    assert t.At(p).At(v) == Disproved;
    assert Next(t, Step(p, v)).At(p).reconcile == Rested && !Next(t, Step(p, v)).At(p).belief;
  }

  /**
   However an adopt interleaves with belief passes and any number of workers of the peer, the belief is true once
   the passes are over, if and only if no worker had disproved an older belief and not yet dropped it at the adopt.
   */
  lemma BeliefConvergesExactly(s: State, p: nat, w: nat)
    requires Reachable(s) && s.Alive(p) && s.At(p).At(w).Adopting?
    ensures (forall events | Keeps(events, p) :: Agrees(Run(Next(s, Step(p, w)), events), p)) <==> NoneDisproved(s, p)
  {
    ReachableInv(s);
    assert LocalOk(s, p);
    assert s.At(p).Uses(w) && w in s.At(p).Inside();
    var t := Next(s, Step(p, w));
    NextInv(s, Step(p, w));
    if NoneDisproved(s, p) {
      NoneDisprovedStep(s, Step(p, w), p);
      forall events | Keeps(events, p)
        ensures Agrees(Run(t, events), p)
      {
        SettlingRun(t, events, p);
      }
    } else {
      var v :| v in s.At(p).workers && s.At(p).workers[v] == Disproved;
      WorkerUntouched(s, Step(p, w), p, v);
      var events := StaleDropWins(t, p, v);
    }
  }

  /**
   A peer that joins starts from the truth: it believes exactly what the truth says, and no shadow at or below the
   truth's epoch, such as one a former domain left, looks like a grant to it.
   */
  lemma JoinStartsFromTheTruth(s: State, p: nat)
    requires s.Alive(p) && s.At(p).Inside() == {} && s.At(p).pin == Count(0)
    ensures var s' := Next(s, Sync(p));
            && s' == With(s, p, s.At(p).(belief := s.truth.holder == p, baseline := s.truth.epoch))
            && (s'.Shadow(p).epoch <= s'.truth.epoch ==> !(s'.Shadow(p).epoch > s'.At(p).baseline))
  {
  }
}
