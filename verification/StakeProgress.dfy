/**
 The lease is never wedged: whatever its last user was doing when it died, somebody else gets it, by a run that keeps
 every bound (src/core/algo/stake_claim.hpp, src/admission/claim.cpp).
 */
module StakeProgress {
  import opened StakeClaim
  import opened StakeExact

  /** Some run leads from `s` to `s'`. */
  ghost predicate Leads(s: State, s': State, b: Bounds) {
    exists events: seq<Event> :: s' == Run(s, events, b)
  }

  lemma Stay(s: State, b: Bounds)
    ensures Leads(s, s, b)
  {
    assert s == Run(s, [], b);
  }

  lemma OneMore(s: State, mid: State, e: Event, b: Bounds)
    requires Leads(s, mid, b)
    ensures Leads(s, Next(mid, e, b), b)
  {
    var events: seq<Event> :| mid == Run(s, events, b);
    RunThen(s, events, e, b);
  }

  /** Nobody has anything in hand: all look or rest. */
  ghost predicate Dormant(s: State) {
    forall r | r in s.procs :: s.procs[r].Idle? || s.procs[r].Watching?
  }

  /** Dormant, with every store landed and every bound met. */
  ghost predicate Still(s: State) {
    s.kept && s.inFlight == {} && s.clears == map[] && Dormant(s)
  }

  /** Whoever dies or gives up, at whatever point, has nothing in hand once its last write has landed. */
  lemma Dies(s: State, p: nat, b: Bounds)
    ensures Next(Next(s, Abandon(p), b), Drained(p), b) == SetProc(s, p, Idle(0))
  {
    var dead := Next(s, Abandon(p), b);
    assert dead.procs[p := Idle(0)] == s.procs[p := Idle(0)];
  }

  /** Time passes among the dormant and one that settles, and no bound is missed. */
  lemma Waits(s: State, to: int, b: Bounds)
    requires s.kept && s.inFlight == {} && s.clears == map[] && s.now <= to
    requires forall r | r in s.procs :: s.procs[r].Idle? || s.procs[r].Watching? || s.procs[r].Settling?
    ensures Next(s, Advance(to), b) == s.(now := to)
  {
  }

  /** A value nobody looks after stands its timeout, and is the one the watcher may then stake over. */
  lemma WatchesOut(s: State, q: nat, b: Bounds)
    requires Still(s) && s.At(q) == Idle(0) && s.word != 0 && 0 <= b.timeout
    ensures var watching := Next(s, Look(q, s.now), b);
            var later := Next(watching, Advance(s.now + b.timeout), b);
            && watching == SetProc(s, q, Watching(s.word, s.now)) && later == watching.(now := s.now + b.timeout)
            && Next(later, Look(q, later.now), b) == SetProc(later, q, Idle(s.word))
  {
    Waits(SetProc(s, q, Watching(s.word, s.now)), s.now + b.timeout, b);
  }

  /** The stake of a process that may stake, flushed and judged in time. */
  lemma StakesInTime(s: State, q: nat, nonce: nat, b: Bounds)
    requires (s.word == 0 || s.At(q) == Idle(s.word)) && s.At(q).Idle? && nonce != 0 && nonce !in s.flushed && 0 < b.window
    ensures var judged := Next(s, Look(q, s.now), b);
            var published := Next(judged, Publish(q, nonce), b);
            Next(published, Judge(q), b) ==
            SetProc(s.(flushed := s.flushed[nonce := s.now], inFlight := s.inFlight + {nonce}),
                    q, Settling(nonce, s.now + b.settle, s.now, s.version))
  {
    assert s.procs[q := Judged(s.now, s.now, s.version)][q := Published(nonce, s.now, s.now, s.version)][
             q := Settling(nonce, s.now + b.settle, s.now, s.version)] == s.procs[q := Settling(nonce, s.now + b.settle, s.now, s.version)];
  }

  /** A stake that lands and settles with nobody against it is confirmed. */
  lemma Confirms(s: State, q: nat, nonce: nat, b: Bounds)
    requires s.kept && s.inFlight == {nonce} && s.clears == map[] && 0 <= b.settle && 0 < b.stall
    requires s.At(q).Settling? && s.At(q).nonce == nonce && s.At(q).ends == s.now + b.settle
    requires forall r | r in s.procs :: s.procs[r].Idle? || s.procs[r].Watching? || s.procs[r].Settling?
    ensures var landed := Next(s, Land(nonce), b);
            var later := Next(landed, Advance(s.now + b.settle), b);
            var won := Next(later, EndSettle(q), b);
            won.kept && won.word == nonce && won.At(q).Committing? && won.At(q).nonce == nonce
  {
    var landed := Next(s, Land(nonce), b);
    assert landed.inFlight == {};
    Waits(landed, s.now + b.settle, b);
  }

  /** From a still state an idle process gets the lease. */
  lemma GetsTheLease(s0: State, s: State, q: nat, nonce: nat, b: Bounds) returns (won: State)
    requires Asserted(b) && Leads(s0, s, b) && Still(s) && s.At(q).Idle? && (s.word == 0 || s.At(q) == Idle(s.word))
    requires nonce != 0 && nonce !in s.flushed
    ensures Leads(s0, won, b) && won.kept && won.word == nonce && won.At(q).Committing? && won.At(q).nonce == nonce
  {
    hide Next, Leads;
    var judged := Next(s, Look(q, s.now), b);
    OneMore(s0, s, Look(q, s.now), b);
    var published := Next(judged, Publish(q, nonce), b);
    OneMore(s0, judged, Publish(q, nonce), b);
    var settling := Next(published, Judge(q), b);
    OneMore(s0, published, Judge(q), b);
    StakesInTime(s, q, nonce, b);
    assert s.inFlight + {nonce} == {nonce};
    var landed := Next(settling, Land(nonce), b);
    OneMore(s0, settling, Land(nonce), b);
    var later := Next(landed, Advance(settling.now + b.settle), b);
    OneMore(s0, landed, Advance(settling.now + b.settle), b);
    won := Next(later, EndSettle(q), b);
    OneMore(s0, later, EndSettle(q), b);
    Confirms(settling, q, nonce, b);
  }

  /** A process that finds a value standing gets there too, over it. */
  lemma GetsItByTheft(s0: State, s: State, q: nat, nonce: nat, b: Bounds) returns (won: State)
    requires Asserted(b) && Leads(s0, s, b) && Still(s) && s.At(q) == Idle(0) && nonce != 0 && nonce !in s.flushed
    ensures Leads(s0, won, b) && won.kept && won.word == nonce && won.At(q).Committing? && won.At(q).nonce == nonce
  {
    hide Next, Leads;
    if s.word == 0 {
      won := GetsTheLease(s0, s, q, nonce, b);
    } else {
      WatchesOut(s, q, b);
      var watching := Next(s, Look(q, s.now), b);
      OneMore(s0, s, Look(q, s.now), b);
      var later := Next(watching, Advance(s.now + b.timeout), b);
      OneMore(s0, watching, Advance(s.now + b.timeout), b);
      var stood := Next(later, Look(q, later.now), b);
      OneMore(s0, later, Look(q, later.now), b);
      won := GetsTheLease(s0, stood, q, nonce, b);
    }
  }

  /**
   Wherever one process stands when it dies, holding the lease, releasing it, settling, holding a late stake or
   withdrawing it, and whatever nonce it leaves behind, another gets the lease with a fresh nonce, by a run that keeps
   every bound, once the dead one's last store has landed and nobody else is at it.
   */
  lemma LeaseIsNeverWedged(s: State, p: nat, q: nat, nonce: nat, b: Bounds) returns (won: State)
    requires Asserted(b) && s.kept && s.inFlight == {} && s.clears == map[] && p != q && nonce != 0 && nonce !in s.flushed
    requires forall r | r in s.procs && r != p :: s.procs[r].Idle? || s.procs[r].Watching?
    ensures Leads(s, won, b) && won.kept && won.word == nonce && won.At(q).Committing? && won.At(q).nonce == nonce
  {
    Stay(s, b);
    var gone := Departs(s, s, p, b);
    var rested := Departs(s, gone, q, b);
    won := GetsItByTheft(s, rested, q, nonce, b);
  }

  lemma Departs(s0: State, s: State, p: nat, b: Bounds) returns (gone: State)
    requires Leads(s0, s, b)
    ensures gone == SetProc(s, p, Idle(0)) && Leads(s0, gone, b)
  {
    Dies(s, p, b);
    hide Next, Leads;
    OneMore(s0, s, Abandon(p), b);
    OneMore(s0, Next(s, Abandon(p), b), Drained(p), b);
    gone := Next(Next(s, Abandon(p), b), Drained(p), b);
  }
}
