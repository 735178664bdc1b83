/**
 Exactly what a leave's unlatched hand-off asks for: use stays exclusive over every run if and only if no worker of
 the leaving peer pins, and no guarded transfer of it is under way, between the leave's pin check and its reset.
 */
module OwnershipLeaveRuns {
  import opened Basics
  import opened Ownership
  import opened OwnershipSafety
  import opened OwnershipLeave

  /** No two live peers have workers in the use phase. */
  ghost predicate Exclusive(s: State) {
    forall p: nat, w: nat, q: nat, v: nat | p != q && s.Alive(p) && s.Alive(q) && s.At(p).Uses(w) :: !s.At(q).Uses(v)
  }

  ghost predicate Reached(s: Extended, r: Rules) {
    exists groupSize: Positive, created: Record, leftover: map<nat, Record>, actions: seq<Action> ::
      s == Played(Start(groupSize, created, leftover), actions, r)
  }

  lemma {:induction false} PlayedThen(s: Extended, actions: seq<Action>, a: Action, r: Rules)
    ensures Played(s, actions + [a], r) == Acted(Played(s, actions, r), a, r)
    decreases |actions|
  {
    if actions == [] {
      assert [] + [a] == [a];
      assert Played(Acted(s, a, r), [a][1..], r) == Acted(s, a, r);
    } else {
      assert (actions + [a])[1..] == actions[1..] + [a];
      PlayedThen(Acted(s, actions[0], r), actions[1..], a, r);
    }
  }

  lemma Go(s: Extended, a: Action, r: Rules) returns (s': Extended)
    requires Reached(s, r)
    ensures s' == Acted(s, a, r) && Reached(s', r)
  {
    var groupSize: Positive, created: Record, leftover: map<nat, Record>, actions: seq<Action> :|
      s == Played(Start(groupSize, created, leftover), actions, r);
    PlayedThen(Start(groupSize, created, leftover), actions, a, r);
    s' := Acted(s, a, r);
  }

  // ---------- the moves both runs make ----------

  /** Nothing but the views of `p` has moved. */
  ghost predicate Beside(s: Extended, s': Extended, p: nat) {
    && s'.core.truth == s.core.truth && s'.core.shadows == s.core.shadows && s'.core.groupSize == s.core.groupSize
    && s'.leaves == s.leaves && forall q: nat | q != p :: s'.core.At(q) == s.core.At(q)
  }

  lemma Sets(s: Extended, e: Event, l: Local, r: Rules) returns (s': Extended)
    requires Reached(s, r) && Admits(s, e, r) && !e.Die? && Ownership.Next(s.core, e) == With(s.core, e.peer, l)
    ensures Reached(s', r) && Beside(s, s', e.peer) && s'.core.At(e.peer) == l
  {
    s' := Go(s, Do(e), r);
  }

  function OneWorker(phase: Worker): Local {
    FRESH.(pin := Count(1), workers := map[1 := phase])
  }

  /** A peer the truth names, and whose shadow shows it, adopts. */
  lemma Adopts(s: Extended, q: nat, r: Rules) returns (s': Extended)
    requires Reached(s, r) && s.core.At(q) == FRESH && s.At(q) == Staying
    requires s.core.truth.holder == q && s.core.truth.epoch > 0 && s.core.Shadow(q) == s.core.truth
    ensures Reached(s', r) && Beside(s, s', q) && s'.core.At(q) == OneWorker(Adopting(s.core.truth.epoch))
  {
    s' := Waits(s, q, r);
    s' := Sets(s', Step(q, 1), WithWorker(s'.core.At(q), 1, Confirming), r);
    assert s'.core.At(q).workers == map[1 := Confirming];
    s' := Sets(s', Step(q, 1), WithWorker(s'.core.At(q), 1, Adopting(s.core.truth.epoch)), r);
    assert s'.core.At(q).workers == map[1 := Adopting(s.core.truth.epoch)];
  }

  lemma Waits(s: Extended, q: nat, r: Rules) returns (s': Extended)
    requires Reached(s, r) && s.core.At(q) == FRESH && s.At(q) == Staying
    ensures Reached(s', r) && Beside(s, s', q) && s'.core.At(q) == OneWorker(Waiting)
  {
    s' := Sets(s, Pin(q, 1), WithWorker(FRESH, 1, Pinned).(pin := Count(1)), r);
    assert s'.core.At(q) == OneWorker(Pinned);
    s' := Sets(s', Step(q, 1), WithWorker(s'.core.At(q), 1, Waiting), r);
    assert s'.core.At(q).workers == map[1 := Waiting];
  }

  /** A leave that found its peer named publishes the successor, whatever that peer is doing. */
  lemma HandsOff(s: Extended, p: nat, to: nat, r: Rules) returns (s': Extended)
    requires Reached(s, r) && s.core.Alive(p) && s.At(p) == PinsChecked(to) && s.core.truth.holder == p
    ensures Reached(s', r) && s'.core.truth == Record(to, s.core.truth.epoch + 1) && s'.core.groupSize == s.core.groupSize
    ensures s'.core.shadows == s.core.shadows[s.core.Group(to) := s'.core.truth]
    ensures s'.core.At(p) == s.core.At(p).(belief := false) && forall q: nat | q != p :: s'.core.At(q) == s.core.At(q) && s'.At(q) == s.At(q)
  {
    s' := LetsGo(s, p, to, r);
    s' := Go(s', CarryLeave(p), r);
    s' := Go(s', CarryLeave(p), r);
  }

  lemma LetsGo(s: Extended, p: nat, to: nat, r: Rules) returns (s': Extended)
    requires Reached(s, r) && s.core.Alive(p) && s.At(p) == PinsChecked(to) && s.core.truth.holder == p
    ensures Reached(s', r) && s'.At(p) == Shading(to, s.core.truth.epoch) && s'.core == With(s.core, p, s.core.At(p).(belief := false))
    ensures forall q: nat | q != p :: s'.At(q) == s.At(q)
  {
    s' := Go(s, CarryLeave(p), r);
    s' := Go(s', CarryLeave(p), r);
    assert s'.At(p) == Letting(to, s.core.truth.epoch) && s'.core == s.core;
    s' := Go(s', CarryLeave(p), r);
  }

  const R00 := Record(0, 0)
  const BLANK := State(1, R00, map[0 := R00], map[], NoSeizure, [R00], {})

  /** Peer 0, named by the record, has begun to leave in favour of peer 7. */
  lemma LeaveBegun(r: Rules) returns (s: Extended)
    ensures Reached(s, r) && s.core.truth == R00 && s.core.groupSize == 1 && s.core.shadows == map[0 := R00] && s.leaves == map[0 := PinsChecked(7)]
    ensures s.core.At(0) == FRESH.(belief := true) && forall q: nat | q != 0 :: s.core.At(q) == FRESH
  {
    s := Start(1, R00, map[]);
    assert s == Played(Start(1, R00, map[]), [], r);
    assert s.core == BLANK;
    s := Sets(s, Poll(0), FRESH.(belief := true), r);
    s := Go(s, BeginLeave(0, 7), r);
  }

  // ---------- a worker pins inside the leave ----------

  lemma WorkerOvertakes(r: Rules) returns (s: Extended)
    requires r.pins
    ensures Reached(s, r) && s.core.truth == R00 && s.core.groupSize == 1 && s.core.shadows == map[0 := R00] && s.leaves == map[0 := PinsChecked(7)]
    ensures s.core.At(0) == OneWorker(Using).(belief := true) && forall q: nat | q != 0 :: s.core.At(q) == FRESH
  {
    s := LeaveBegun(r);
    s := Sets(s, Pin(0, 1), WithWorker(s.core.At(0), 1, Pinned).(pin := Count(1)), r);
    assert s.core.At(0) == OneWorker(Pinned).(belief := true);
    s := Sets(s, Step(0, 1), WithWorker(s.core.At(0), 1, Resident), r);
    assert s.core.At(0).workers == map[1 := Resident];
    s := Sets(s, Step(0, 1), WithWorker(s.core.At(0), 1, Using), r);
    assert s.core.At(0).workers == map[1 := Using];
  }

  /** The worker uses the domain, and so does the successor's. */
  lemma PinBreaksUse(r: Rules) returns (s: Extended)
    requires r.pins
    ensures Reached(s, r) && !Exclusive(s.core)
  {
    s := WorkerOvertakes(r);
    s := HandsOff(s, 0, 7, r);
    assert s.core.At(0).Uses(1);
    s := Adopts(s, 7, r);
    assert s.core.At(0).Uses(1) && s.core.At(7).Uses(1);
  }

  // ---------- a guarded transfer inside the leave ----------

  lemma TransferOvertakes(r: Rules) returns (s: Extended)
    requires r.transfers
    ensures Reached(s, r) && s.core.truth == R00 && s.core.groupSize == 1 && s.core.shadows == map[0 := R00, 8 := Record(8, 1)]
    ensures s.leaves == map[0 := PinsChecked(7)] && s.core.At(0) == FRESH.(pin := Transferring, transfer := Truthing(8, 0))
    ensures forall q: nat | q != 0 :: s.core.At(q) == FRESH
  {
    var was := TransferRuns(r);
    s := Go(was, Do(Carry(0)), r);
    assert forall q: nat | q != 0 :: s.core.At(q) == was.core.At(q);
  }

  lemma TransferRuns(r: Rules) returns (s: Extended)
    requires r.transfers
    ensures Reached(s, r) && s.core.truth == R00 && s.core.groupSize == 1 && s.core.shadows == map[0 := R00]
    ensures s.leaves == map[0 := PinsChecked(7)] && s.core.At(0) == FRESH.(pin := Transferring, transfer := Shadowing(8, 0))
    ensures forall q: nat | q != 0 :: s.core.At(q) == FRESH
  {
    s := LeaveBegun(r);
    s := Sets(s, Begin(0, 8), s.core.At(0).(pin := Transferring, transfer := Checking(8)), r);
    s := Sets(s, Carry(0), s.core.At(0).(transfer := Losing(8, 0)), r);
    s := Sets(s, Carry(0), s.core.At(0).(belief := false, transfer := Shadowing(8, 0)), r);
  }

  lemma SuccessorAdopts(r: Rules) returns (s: Extended)
    requires r.transfers
    ensures Reached(s, r) && s.core.truth == Record(7, 1) && s.core.groupSize == 1 && s.core.Shadow(8) == Record(8, 1) && s.At(8) == Staying
    ensures s.core.At(0) == FRESH.(pin := Transferring, transfer := Truthing(8, 0)) && s.core.At(8) == FRESH
    ensures s.core.At(7) == OneWorker(Adopting(1))
  {
    var was := TransferOvertakes(r);
    assert was.core.At(7) == was.core.At(8) == FRESH && was.At(7) == was.At(8) == Staying;
    var handed := HandsOff(was, 0, 7, r);
    assert handed.core.At(7) == handed.core.At(8) == FRESH && handed.At(7) == handed.At(8) == Staying;
    s := Adopts(handed, 7, r);
    assert s.core.At(8) == FRESH && s.core.At(0) == handed.core.At(0);
  }

  /** The successor of the leave uses the domain, and so does that of the transfer. */
  lemma TransferBreaksUse(r: Rules) returns (s: Extended)
    requires r.transfers
    ensures Reached(s, r) && !Exclusive(s.core)
  {
    s := SuccessorAdopts(r);
    s := Go(s, Do(Carry(0)), r);
    assert s.core.truth == Record(8, 1) && s.core.At(7) == OneWorker(Adopting(1));
    s := Adopts(s, 8, r);
    assert s.core.At(7).Uses(1) && s.core.At(8).Uses(1);
  }

  // ---------- exactly when ----------

  lemma StrictIsExclusive(s: Extended)
    requires Reached(s, STRICT)
    ensures Exclusive(s.core)
  {
    var groupSize: Positive, created: Record, leftover: map<nat, Record>, actions: seq<Action> :|
      s == Played(Start(groupSize, created, leftover), actions, STRICT);
    var t := LeaveIsATransfer(groupSize, created, leftover, actions);
    forall p: nat, w: nat, q: nat, v: nat | p != q && s.core.Alive(p) && s.core.Alive(q) && s.core.At(p).Uses(w)
      ensures !s.core.At(q).Uses(v)
    {
      assert t.At(p) == AsLatched(s.core.At(p), s.At(p)) && t.At(q) == AsLatched(s.core.At(q), s.At(q));
      UseIsExclusive(t, p, w, q, v);
    }
  }

  lemma UseIsExclusiveExactly(r: Rules)
    ensures (forall s | Reached(s, r) :: Exclusive(s.core)) <==> !r.pins && !r.transfers
  {
    if r.pins {
      var s := PinBreaksUse(r);
    } else if r.transfers {
      var s := TransferBreaksUse(r);
    } else {
      forall s | Reached(s, r)
        ensures Exclusive(s.core)
      {
        StrictIsExclusive(s);
      }
    }
  }
}
