/**
 A run of `Ownership` that reaches the state in which the belief does not converge: one worker is adopting a grant
 while another still has to drop a belief it disproved against an older truth.
 */
module OwnershipRun {
  import opened Ownership
  import opened OwnershipSafety

  const R00 := Record(0, 0)
  const R71 := Record(7, 1)
  const R02 := Record(0, 2)

  /** One more step of a run. */
  lemma Go(s: State, e: Event) returns (s': State)
    requires Reachable(s)
    ensures s' == Next(s, e) && Reachable(s')
  {
    ReachableNext(s, e);
    s' := Next(s, e);
  }

  lemma Begun() returns (s: State)
    ensures Reachable(s)
    ensures s == State(1, R00, map[0 := R00], map[0 := Local(true, Transferring, false, 0, map[], Checking(7), Rested)], NoSeizure, [R00], {})
  {
    s := Init(1, R00, map[]);
    assert s == Run(Init(1, R00, map[]), []);
    s := Go(s, Begin(0, 7));
  }

  lemma Latched() returns (s: State)
    ensures Reachable(s)
    ensures s == State(1, R00, map[0 := R00], map[0 := Local(true, Transferring, false, 0, map[], Shadowing(7, 0), Rested)], NoSeizure, [R00], {})
  {
    s := Begun();
    s := Go(s, Carry(0));
    s := Go(s, Carry(0));
  }

  lemma BeliefReturns() returns (s: State)
    ensures Reachable(s)
    ensures s == State(1, R00, map[0 := R00], map[0 := Local(true, Transferring, true, 0, map[], Shadowing(7, 0), Rested)], NoSeizure, [R00], {})
  {
    s := Latched();
    s := Go(s, Poll(0));
  }

  /** A belief pass between the drop and the truth store of a transfer brings the belief back. */
  lemma GivenAwayInBelief() returns (s: State)
    ensures Reachable(s)
    ensures s == State(1, R71, map[0 := R00, 7 := R71], map[0 := Local(true, Transferring, true, 0, map[], Ending, Rested)], NoSeizure, [R00, R71], {})
  {
    s := BeliefReturns();
    s := Go(s, Carry(0));
    s := Go(s, Carry(0));
  }

  lemma Overwrite(l: Local, w: nat, a: Worker, b: Worker, pin: Ownership.Pin)
    ensures WithWorker(WithWorker(l, w, a).(pin := pin), w, b) == WithWorker(l, w, b).(pin := pin)
  {
    assert l.workers[w := a][w := b] == l.workers[w := b];
  }

  /** The rest of the state, as a step of peer 0 that stores nothing leaves it. */
  predicate Beside(s: State, s': State) {
    s'.truth == s.truth && s'.shadows == s.shadows && s'.groupSize == s.groupSize && s'.At(7) == s.At(7)
  }

  /** A worker pins and trusts the belief. */
  lemma Trusts(s0: State, w: nat) returns (s: State)
    requires Reachable(s0) && w !in s0.At(0).workers && s0.Alive(0) && s0.At(0).pin.Count? && s0.At(0).belief
    ensures Reachable(s) && Beside(s0, s)
    ensures s.At(0) == WithWorker(s0.At(0), w, Resident).(pin := Count(s0.At(0).pin.pins + 1))
  {
    var pin := Count(s0.At(0).pin.pins + 1);
    s := Go(s0, Pin(0, w));
    assert s.At(0) == WithWorker(s0.At(0), w, Pinned).(pin := pin);
    s := Go(s, Step(0, w));
    Overwrite(s0.At(0), w, Pinned, Resident, pin);
  }

  /** A worker that trusts the belief and finds the truth elsewhere. */
  lemma Disproves(s0: State, w: nat) returns (s: State)
    requires Reachable(s0) && s0.truth.holder != 0 && w !in s0.At(0).workers
    requires s0.Alive(0) && s0.At(0).pin.Count? && s0.At(0).belief
    ensures Reachable(s) && Beside(s0, s)
    ensures s.At(0) == WithWorker(s0.At(0), w, Disproved).(pin := Count(s0.At(0).pin.pins + 1))
  {
    s := Trusts(s0, w);
    assert s.At(0).At(w) == Resident;
    s := Go(s, Step(0, w));
    Overwrite(s0.At(0), w, Resident, Disproved, Count(s0.At(0).pin.pins + 1));
  }

  lemma BothDisprove() returns (s: State)
    ensures Reachable(s) && s.truth == R71 && s.shadows == map[0 := R00, 7 := R71] && s.groupSize == 1 && s.At(7) == FRESH
    ensures s.At(0) == Local(true, Count(2), true, 0, map[1 := Disproved, 2 := Disproved], Idle, Rested)
  {
    s := GivenAwayInBelief();
    s := Go(s, Carry(0));
    assert s.At(0) == Local(true, Count(0), true, 0, map[], Idle, Rested);
    s := Disproves(s, 1);
    assert s.At(0) == Local(true, Count(1), true, 0, map[1 := Disproved], Idle, Rested);
    s := Disproves(s, 2);
  }

  lemma OneDrops() returns (s: State)
    ensures Reachable(s) && s.truth == R71 && s.shadows == map[0 := R00, 7 := R71] && s.groupSize == 1
    ensures s.At(0) == Local(true, Count(2), false, 0, map[1 := Disproved, 2 := Waiting], Idle, Rested)
    ensures s.At(7) == FRESH.(pin := Transferring, transfer := Checking(0))
  {
    s := BothDisprove();
    s := Go(s, Step(0, 2));
    s := Go(s, Begin(7, 0));
  }

  /** The holder's latched transfer, from its check to its shadow store. */
  lemma GrantComesBack() returns (s: State)
    ensures Reachable(s) && s.truth == R71 && s.groupSize == 1 && s.Shadow(0) == R02
    ensures s.At(0) == Local(true, Count(2), false, 0, map[1 := Disproved, 2 := Waiting], Idle, Rested)
    ensures s.At(7) == FRESH.(pin := Transferring, transfer := Truthing(0, 1))
  {
    s := OneDrops();
    s := Go(s, Carry(7));
    assert s.At(7) == FRESH.(pin := Transferring, transfer := Losing(0, 1));
    s := Go(s, Carry(7));
    assert s.At(7) == FRESH.(pin := Transferring, transfer := Shadowing(0, 1));
    s := Go(s, Carry(7));
  }

  lemma GrantLands() returns (s: State)
    ensures Reachable(s) && s.truth == R02 && s.groupSize == 1 && s.Shadow(0) == R02
    ensures s.At(0) == Local(true, Count(2), false, 0, map[1 := Disproved, 2 := Waiting], Idle, Rested)
  {
    s := GrantComesBack();
    s := Go(s, Carry(7));
  }

  lemma GrantIsSeen() returns (s: State)
    ensures Reachable(s) && s.truth == R02 && s.At(0) == Local(true, Count(2), false, 0, map[1 := Disproved, 2 := Confirming], Idle, Rested)
  {
    s := GrantLands();
    s := Go(s, Step(0, 2));
    assert s.At(0).workers == map[1 := Disproved, 2 := Confirming];
  }

  /** The state the exact condition excludes is reached. */
  lemma StaleDisproofIsReachable() returns (s: State)
    ensures Reachable(s) && s.Alive(0) && s.At(0).At(2).Adopting? && s.At(0).At(1) == Disproved && !NoneDisproved(s, 0)
  {
    s := GrantIsSeen();
    s := Go(s, Step(0, 2));
    assert s.At(0).workers[1] == Disproved;
  }
}
