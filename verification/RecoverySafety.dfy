/**
 What the recovery claim promises over every run of `RecoveryClaim`, however the claims are swept and reset: one
 recovery writer at a time, and takeovers that never start from the same reading. Either no sweep can erase what may
 be confirmed (`Sound`), or a settle outlasts every check (`RecoveryPatient.Patient`).
 */
module RecoverySafety {
  import opened RecoveryClaim
  import P = RecoveryPatient

  ghost predicate Safe(b: Bounds) {
    Sound(b) || P.Patient(b)
  }

  /** No two peers have a check or a store outstanding. */
  ghost predicate Single(s: State) {
    forall p: nat, q: nat | p != q && s.Open(p) :: !s.Open(q)
  }

  /** Whoever is about to be confirmed is alone. */
  ghost predicate Confirms(s: State, b: Bounds) {
    forall p: nat, q: nat | p != q && s.At(p).Settling? && Next(s, Tick(p), b).At(p).Settled? :: !s.Open(q)
  }

  /** A takeover was computed from a reading that has every earlier takeover of another authority in it. */
  ghost predicate Serial(s: State) {
    forall i: nat, j: nat | i < j < |s.taken| && s.taken[i].authority != s.taken[j].authority :: i < s.taken[j].base <= j
  }

  /** From a check of the claim to the landing of the store it guards, no other peer has a check or a store outstanding. */
  lemma SingleRecoveryWriter(b: Bounds, start: int, events: seq<Event>)
    requires Safe(b)
    ensures Single(Run(Init(start), events, b))
  {
    if Sound(b) {
      InitInv(start, b);
      RunInv(Init(start), events, b);
    } else {
      P.InitInv(start, b);
      P.RunInv(Init(start), events, b);
    }
  }

  /** Whoever finds its own id after a settle or a hold is alone. */
  lemma RipeIsAlone(b: Bounds, start: int, events: seq<Event>, p: nat, q: nat)
    requires Safe(b) && p != q && Run(Init(start), events, b).Shows(p) && Ripe(Run(Init(start), events, b), p)
    ensures !Run(Init(start), events, b).Open(q)
  {
    if Sound(b) {
      InitInv(start, b);
      RunInv(Init(start), events, b);
      AloneAtCheck(Run(Init(start), events, b), p, q, b);
    } else {
      P.InitInv(start, b);
      P.RunInv(Init(start), events, b);
      P.AloneAtCheck(Run(Init(start), events, b), p, q, b);
    }
  }

  /** When a late stake is found still standing after its hold, every takeover of the authority it deposed has landed. */
  lemma WithdrawalFollowsLastTakeover(b: Bounds, start: int, events: seq<Event>, q: nat, a: nat)
    requires Safe(b) && a != q
    requires var s := Run(Init(start), events, b); s.At(q).Holding? && Next(s, EndHold(q), b).At(q).Withdrawing?
    ensures var s := Run(Init(start), events, b); !s.At(a).Acting? && !s.Writing(a) && a !in s.clears
  {
    RipeIsAlone(b, start, events, q, a);
  }

  /** A new authority is confirmed only when no store of any other peer is outstanding. */
  lemma ConfirmFollowsLandings(b: Bounds, start: int, events: seq<Event>)
    requires Safe(b)
    ensures Confirms(Run(Init(start), events, b), b)
  {
    var s := Run(Init(start), events, b);
    forall p: nat, q: nat | p != q && s.At(p).Settling? && Next(s, Tick(p), b).At(p).Settled?
      ensures !s.Open(q)
    {
      RipeIsAlone(b, start, events, p, q);
    }
  }

  /** With sound bounds no sweep is left either that could erase what is confirmed. */
  lemma ConfirmFollowsSweeps(b: Bounds, start: int, events: seq<Event>, p: nat)
    requires Sound(b)
    requires var s := Run(Init(start), events, b); s.At(p).Settling? && Next(s, Tick(p), b).At(p).Settled?
    ensures Run(Init(start), events, b).sweeps == map[]
  {
    InitInv(start, b);
    RunInv(Init(start), events, b);
    NoSweepAtCheck(Run(Init(start), events, b), p, b);
  }

  /** Two authorities never take the domain over from the same reading: the later one had seen the earlier one's takeover. */
  lemma TakeoversSeeEachOther(b: Bounds, start: int, events: seq<Event>)
    requires Safe(b)
    ensures Serial(Run(Init(start), events, b))
  {
    if Sound(b) {
      InitInv(start, b);
      RunInv(Init(start), events, b);
    } else {
      P.InitInv(start, b);
      P.RunInv(Init(start), events, b);
    }
  }

  /** A look whose maker dies before it clears anything clears nothing. */
  lemma AbandonedLookIsForgotten(s: State, k: nat, b: Bounds)
    requires k in s.sweeps && s.sweeps[k].Looked? && s.sweeps[k].stake in s.stakes && s.At(s.stakes[s.sweeps[k].stake].owner).Dead?
    ensures Next(s, Abandon(k), b) == s.(sweeps := s.sweeps - {k})
  {
  }
}
