/**
 The other way to be safe: a settle that outlasts a stall and the lag behind it. Then whatever is swept or reset in
 between, nobody who reads the slot after a check is confirmed before the last store of that check has landed, so
 nothing needs to be known of the word while a check is good.
 */
module RecoveryPatient {
  import opened RecoveryClaim

  ghost predicate Patient(b: Bounds) {
    Declared(b) && b.stall + b.lag <= b.settle
  }

  ghost predicate Flushed(s: State, u: nat, since: int) {
    u in s.stakes && s.stakes[u].flush >= since
  }

  /** The stakes of `q` are gone for good, or too young to be found ripe while a check made at `since` is good. */
  ghost predicate Away(s: State, q: nat, since: int, b: Bounds) {
    match s.At(q)
    case Published(u, openedAt, _, _) =>
      Hidden(s, q) || Flushed(s, u, since) || (Flushed(s, u, since - b.lag) && s.now >= openedAt + b.window)
    case Holding(u, _) => Hidden(s, q) || Flushed(s, u, since - b.lag)
    case Settling(u, _, _, _) => Hidden(s, q) || Flushed(s, u, since)
    case Settled(u) => Hidden(s, q) || Flushed(s, u, since)
    case Reading(u, _) => Hidden(s, q) || Flushed(s, u, since)
    case Acting(u, _, _) => Hidden(s, q) || Flushed(s, u, since)
    case _ => true
  }

  ghost predicate AllAway(s: State, p: nat, since: int, b: Bounds) {
    since <= s.now && forall q: nat | q != p :: Away(s, q, since, b)
  }

  ghost predicate Apart(s: State, p: nat, b: Bounds) {
    && (s.At(p).Spans() ==> AllAway(s, p, s.At(p).since, b))
    && (p in s.clears ==> AllAway(s, p, s.clears[p].since, b))
    && (forall k | k in s.writes && s.writes[k].authority == p :: AllAway(s, p, s.writes[k].store.since, b))
  }

  ghost predicate Inv(s: State, b: Bounds) {
    && MemoryOk(s, b) && OneOpen(s) && TakenOk(s)
    && forall p: nat :: ProcOk(s, p, b) && Apart(s, p, b) && ReadingsOk(s, p)
  }

  lemma InitInv(now: int, b: Bounds)
    ensures Inv(Init(now), b)
  {
  }

  /** Nobody comes nearer than it was. */
  ghost predicate NoNearer(s: State, s': State, q: nat, b: Bounds) {
    forall since | since <= s.now && Away(s, q, since, b) :: Away(s', q, since, b)
  }

  /** The checks and stores of `p` are those it had. */
  ghost predicate NoMore(s: State, s': State, p: nat) {
    && (s'.At(p).Spans() ==> s.At(p).Spans() && s'.At(p).since == s.At(p).since)
    && (p in s'.clears ==> p in s.clears && s'.clears[p] == s.clears[p])
    && (forall k | k in s'.writes && s'.writes[k].authority == p :: k in s.writes && s'.writes[k] == s.writes[k])
  }

  lemma AllStayAway(s: State, s': State, p: nat, since: int, b: Bounds)
    requires AllAway(s, p, since, b) && s.now <= s'.now && forall q: nat :: NoNearer(s, s', q, b)
    ensures AllAway(s', p, since, b)
  {
    forall q: nat | q != p
      ensures Away(s', q, since, b)
    {
      assert NoNearer(s, s', q, b) && Away(s, q, since, b);
    }
  }

  lemma ApartStays(s: State, s': State, p: nat, b: Bounds)
    requires Apart(s, p, b) && NoMore(s, s', p) && s.now <= s'.now && forall q: nat :: NoNearer(s, s', q, b)
    ensures Apart(s', p, b)
  {
    if s'.At(p).Spans() {
      AllStayAway(s, s', p, s.At(p).since, b);
    }
    if p in s'.clears {
      AllStayAway(s, s', p, s.clears[p].since, b);
    }
    forall k | k in s'.writes && s'.writes[k].authority == p
      ensures AllAway(s', p, s'.writes[k].store.since, b)
    {
      AllStayAway(s, s', p, s.writes[k].store.since, b);
    }
  }

  lemma Opened(s: State, s': State, p: nat)
    requires NoMore(s, s', p) && s'.Open(p)
    ensures s.Open(p)
  {
    if s'.Writing(p) {
      var k :| k in s'.writes && s'.writes[k].authority == p;
      assert k in s.writes && s.writes[k].authority == p;
    }
  }

  /** A step in which nobody comes nearer and no check or store begins. */
  lemma QuietInv(s: State, s': State, b: Bounds)
    requires Inv(s, b) && MemoryOk(s', b) && TakenOk(s') && s.now <= s'.now
    requires forall q: nat :: ProcOk(s', q, b) && ReadingsOk(s', q) && NoNearer(s, s', q, b) && NoMore(s, s', q)
    ensures Inv(s', b)
  {
    forall q: nat
      ensures Apart(s', q, b) && (s'.Open(q) ==> s.Open(q))
    {
      assert Apart(s, q, b) && NoMore(s, s', q);
      ApartStays(s, s', q, b);
      if s'.Open(q) {
        Opened(s, s', q);
      }
    }
    StillOne(s, s');
  }

  // ---------- one process moves ----------

  lemma OthersStay(s: State, s': State, p: nat, q: nat, b: Bounds)
    requires s' == SetProc(s, p, s'.At(p)) && (s.At(p).Dead? ==> s'.At(p).Dead?) && q != p && ProcOk(s, q, b) && ReadingsOk(s, q)
    ensures ProcOk(s', q, b) && ReadingsOk(s', q) && NoNearer(s, s', q, b) && NoMore(s, s', q)
  {
    OthersStand(s, s', p, q, b);
    assert Hidden(s', q) == Hidden(s, q);
  }

  lemma MoveInv(s: State, s': State, p: nat, b: Bounds)
    requires Inv(s, b) && s' == SetProc(s, p, s'.At(p)) && (s.At(p).Dead? ==> s'.At(p).Dead?) && !s'.At(p).Spans()
    requires ProcOk(s', p, b) && ReadingsOk(s', p) && NoNearer(s, s', p, b)
    ensures Inv(s', b)
  {
    forall q: nat
      ensures ProcOk(s', q, b) && ReadingsOk(s', q) && NoNearer(s, s', q, b) && NoMore(s, s', q)
    {
      assert ProcOk(s, q, b) && ReadingsOk(s, q);
      if q != p {
        OthersStay(s, s', p, q, b);
      }
    }
    QuietInv(s, s', b);
  }

  lemma LookInv(s: State, p: nat, openedAt: int, b: Bounds)
    requires Patient(b) && Inv(s, b) && s.At(p).Idle? && openedAt <= s.now && IsFree(s, p, b)
    ensures Inv(Next(s, Look(p, openedAt), b), b)
  {
    assert ProcOk(s, p, b) && ReadingsOk(s, p);
    MoveInv(s, Next(s, Look(p, openedAt), b), p, b);
  }

  lemma JudgeInv(s: State, p: nat, b: Bounds)
    requires Patient(b) && Inv(s, b) && s.At(p).Published?
    ensures Inv(Next(s, Judge(p), b), b)
  {
    var s' := Next(s, Judge(p), b);
    assert ProcOk(s, p, b) && ReadingsOk(s, p);
    assert Hidden(s', p) == Hidden(s, p);
    MoveInv(s, s', p, b);
  }

  /** The settle or a later tick, the reading of the record, and the end of the writes behind a check. */
  lemma ProceedInv(s: State, e: Event, b: Bounds)
    requires Patient(b) && Inv(s, b)
    requires match e
             case Tick(p) => (s.At(p).Settling? && s.now >= s.At(p).ends) || s.At(p).Settled?
             case ReadRecord(p) => s.At(p).Settled?
             case Finish(p) => s.At(p).Acting?
             case _ => false
    ensures Inv(Next(s, e, b), b)
  {
    var s', p := Next(s, e, b), e.proc;
    assert ProcOk(s, p, b) && ReadingsOk(s, p);
    OwnHasLanded(s, p, b);
    assert Hidden(s', p) == Hidden(s, p);
    MoveInv(s, s', p, b);
  }

  /** A check that fails, the end of a hold that finds another id, a reset that does, and a death. */
  lemma LetGoInv(s: State, e: Event, b: Bounds)
    requires Patient(b) && Inv(s, b)
    requires match e
             case Check(p) => s.At(p).Reading? && !s.Shows(p)
             case EndHold(p) => s.At(p).Holding? && s.now >= s.At(p).ends && !s.Shows(p)
             case Release(p) => s.At(p).Settled? && !s.Shows(p)
             case _ => false
    ensures Inv(Next(s, e, b), b)
  {
    var s', p := Next(s, e, b), e.proc;
    assert ProcOk(s, p, b) && ReadingsOk(s, p);
    OwnHasLanded(s, p, b);
    NothingLeft(s, p);
    assert Hidden(s', p) == Hidden(s, p);
    MoveInv(s, s', p, b);
  }

  lemma DropInv(s: State, p: nat, proc: Proc, b: Bounds)
    requires Patient(b) && Inv(s, b) && !s.At(p).Dead?
    requires proc == Dead(s.now) || (proc == Idle && MayReset(s, p, b) && Sees(s, p) == 0)
    ensures Inv(SetProc(s, p, proc), b)
  {
    assert ProcOk(s, p, b) && ReadingsOk(s, p);
    if proc == Idle {
      assert Covered(s, p, 0) && (Covered(s, p, 0) ==> Covered(SetProc(s, p, proc), p, 0));
    }
    MoveInv(s, SetProc(s, p, proc), p, b);
  }

  // ---------- a check that succeeds ----------

  /** What is found ripe is not away from any check that is still good. */
  lemma RipeIsNear(s: State, p: nat, since: int, b: Bounds)
    requires Patient(b) && ProcOk(s, p, b) && s.Shows(p) && Ripe(s, p) && s.now < since + b.stall + b.lag
    ensures !Away(s, p, since, b)
  {
  }

  /** Whoever finds its own id ripe is alone. */
  lemma AloneAtCheck(s: State, p: nat, q: nat, b: Bounds)
    requires Patient(b) && Inv(s, b) && s.Shows(p) && q != p && Ripe(s, p)
    ensures !s.Open(q)
  {
    assert ProcOk(s, p, b) && ProcOk(s, q, b) && Apart(s, q, b);
    forall since | s.now < since + b.stall + b.lag
      ensures !AllAway(s, q, since, b)
    {
      RipeIsNear(s, p, since, b);
    }
    assert forall k | k in s.writes :: StoreOk(s, s.writes[k].store, b);
    assert forall r | r in s.clears :: StoreOk(s, s.clears[r], b);
  }

  lemma StartAway(s: State, p: nat, q: nat, b: Bounds)
    requires Declared(b) && MemoryOk(s, b) && ProcOk(s, q, b) && q != p && !s.Open(q)
    requires s.Shows(p) && !s.At(p).Dead? && s.stakes[s.word].flush + b.window + 2 * b.lag <= s.now
    ensures Away(s, q, s.now, b)
  {
    StartHarmless(s, p, q, b);
    if s.At(q).HasStake() && s.stakes[s.At(q).stake].flush + b.lag < s.now {
      assert Drained(s, q);
    }
  }

  lemma StartInv(s: State, s': State, p: nat, b: Bounds)
    requires Patient(b) && Inv(s, b) && s' == SetProc(s, p, s'.At(p)) && s.Shows(p) && !s.At(p).Dead?
    requires s'.At(p).Spans() && s'.At(p).since == s.now && ProcOk(s', p, b) && ReadingsOk(s', p)
    requires s.stakes[s.word].flush + b.window + 2 * b.lag <= s.now
    requires forall q: nat | q != p :: !s.Open(q)
    ensures Inv(s', b)
  {
    forall q: nat
      ensures q != p ==> ProcOk(s', q, b) && ReadingsOk(s', q) && Away(s', q, s.now, b) && NoNearer(s, s', q, b) && !s'.Open(q)
    {
      assert ProcOk(s, q, b) && ReadingsOk(s, q);
      if q != p {
        StartAway(s, p, q, b);
        OthersStay(s, s', p, q, b);
        assert s'.At(q) == s.At(q) && !s.Open(q);
      }
    }
    forall q: nat
      ensures Apart(s', q, b)
    {
      if q == p {
        StartApart(s, s', p, b);
      } else {
        assert !s'.Open(q);
        ShutIsApart(s', q, b);
      }
    }
  }

  lemma ShutIsApart(s: State, q: nat, b: Bounds)
    requires !s.Open(q)
    ensures Apart(s, q, b)
  {
    assert !s.Writing(q);
  }

  lemma StartApart(s: State, s': State, p: nat, b: Bounds)
    requires Apart(s, p, b) && s' == SetProc(s, p, s'.At(p)) && s'.At(p).Spans() && s'.At(p).since == s.now
    requires forall q: nat | q != p :: Away(s', q, s.now, b) && NoNearer(s, s', q, b)
    ensures Apart(s', p, b)
  {
    forall since | AllAway(s, p, since, b)
      ensures AllAway(s', p, since, b)
    {
      forall q: nat | q != p
        ensures Away(s', q, since, b)
      {
        assert NoNearer(s, s', q, b) && Away(s, q, since, b);
      }
    }
  }

  lemma CheckedInv(s: State, e: Event, b: Bounds)
    requires Patient(b) && Inv(s, b)
    requires match e
             case Check(p) => s.At(p).Reading? && s.Shows(p)
             case EndHold(p) => s.At(p).Holding? && s.now >= s.At(p).ends && s.Shows(p)
             case Release(p) => s.At(p).Settled? && s.Shows(p)
             case _ => false
    ensures Inv(Next(s, e, b), b)
  {
    var s', p := Next(s, e, b), e.proc;
    assert ProcOk(s, p, b) && ReadingsOk(s, p);
    OwnHasLanded(s, p, b);
    forall q: nat | q != p
      ensures !s.Open(q)
    {
      AloneAtCheck(s, p, q, b);
    }
    StartInv(s, s', p, b);
  }

  // ---------- stores ----------

  lemma WriteInv(s: State, p: nat, k: nat, b: Bounds)
    requires Patient(b) && Inv(s, b) && s.At(p).Acting? && k !in s.writes
    ensures Inv(Next(s, Write(p, k), b), b)
  {
    var s' := Next(s, Write(p, k), b);
    assert ProcOk(s, p, b) && s.Open(p) && Apart(s, p, b);
    forall q: nat
      ensures ProcOk(s', q, b) && NoNearer(s, s', q, b) && ReadingsOk(s', q)
    {
      assert ProcOk(s, q, b) && ReadingsOk(s, q);
      SeizureAside(s, s', q, b);
    }
    AllStayAway(s, s', p, s.At(p).since, b);
    forall q: nat
      ensures Apart(s', q, b) && (s'.Open(q) ==> s.Open(q))
    {
      assert Apart(s, q, b) && s'.At(q) == s.At(q);
      if q == p {
        WriteApart(s, s', p, k, b);
      } else {
        ApartStays(s, s', q, b);
      }
    }
    StillOne(s, s');
    WriteStores(s, s', p, k, b);
  }

  lemma WriteApart(s: State, s': State, p: nat, k: nat, b: Bounds)
    requires Apart(s, p, b) && s.At(p).Acting? && k !in s.writes && s' == Next(s, Write(p, k), b)
    requires AllAway(s', p, s.At(p).since, b) && forall q: nat :: NoNearer(s, s', q, b)
    ensures Apart(s', p, b)
  {
    assert s'.At(p) == s.At(p);
    forall i | i in s'.writes && s'.writes[i].authority == p
      ensures AllAway(s', p, s'.writes[i].store.since, b)
    {
      if i != k {
        AllStayAway(s, s', p, s.writes[i].store.since, b);
      }
    }
    if p in s.clears {
      AllStayAway(s, s', p, s.clears[p].since, b);
    }
  }

  lemma WriteStores(s: State, s': State, p: nat, k: nat, b: Bounds)
    requires MemoryOk(s, b) && s.At(p).Acting? && k !in s.writes && s' == Next(s, Write(p, k), b) && 0 <= b.lag
    requires s.At(p).since <= s.now < s.At(p).since + b.stall
    ensures MemoryOk(s', b)
  {
    assert forall q | q in s'.clears :: StoreOk(s, s.clears[q], b) && StoreOk(s', s'.clears[q], b);
    forall i | i in s'.writes
      ensures StoreOk(s', s'.writes[i].store, b)
    {
      assert i in s.writes ==> StoreOk(s, s.writes[i].store, b);
    }
  }

  /** A takeover in flight or landed is no part of what the claim slot shows. */
  lemma SeizureAside(s: State, s': State, q: nat, b: Bounds)
    requires s' == s.(writes := s'.writes, taken := s'.taken) && ProcOk(s, q, b)
    ensures ProcOk(s', q, b) && NoNearer(s, s', q, b)
  {
    SameView(s, s', q, b);
    assert s'.At(q) == s.At(q) && Hidden(s', q) == Hidden(s, q);
  }

  lemma RetractInv(s: State, p: nat, b: Bounds)
    requires Patient(b) && Inv(s, b) && s.At(p).Withdrawing?
    ensures Inv(Next(s, Retract(p), b), b)
  {
    var s' := Next(s, Retract(p), b);
    assert ProcOk(s, p, b) && Apart(s, p, b) && s.Open(p);
    OwnHasLanded(s, p, b);
    forall q: nat
      ensures ProcOk(s', q, b) && ReadingsOk(s', q) && NoNearer(s, s', q, b) && (q != p ==> !s'.Open(q))
    {
      assert ProcOk(s, q, b) && ReadingsOk(s, q);
      RetractAside(s, s', p, q, b);
      if q != p {
        assert !s.Open(q);
      }
    }
    AllStayAway(s, s', p, s.At(p).since, b);
    forall q: nat
      ensures Apart(s', q, b)
    {
      if q == p {
        RetractApart(s, s', p, b);
      } else {
        ShutIsApart(s', q, b);
      }
    }
    RetractStores(s, s', p, b);
  }

  lemma RetractAside(s: State, s': State, p: nat, q: nat, b: Bounds)
    requires s.At(p).Withdrawing? && s' == Next(s, Retract(p), b) && ProcOk(s, q, b) && ReadingsOk(s, q) && Drained(s, p)
    ensures ProcOk(s', q, b) && ReadingsOk(s', q) && NoNearer(s, s', q, b) && (q != p && !s.Open(q) ==> !s'.Open(q))
  {
    assert forall r: nat | r != p :: s'.At(r) == s.At(r);
    assert Hidden(s', q) == Hidden(s, q);
    if q != p {
      StoreAside(s, s', p, q, b);
    }
  }

  lemma RetractApart(s: State, s': State, p: nat, b: Bounds)
    requires Apart(s, p, b) && s.At(p).Withdrawing? && s' == Next(s, Retract(p), b)
    requires AllAway(s', p, s.At(p).since, b) && forall q: nat :: NoNearer(s, s', q, b)
    ensures Apart(s', p, b)
  {
    forall i | i in s'.writes && s'.writes[i].authority == p
      ensures AllAway(s', p, s'.writes[i].store.since, b)
    {
      AllStayAway(s, s', p, s.writes[i].store.since, b);
    }
  }

  lemma RetractStores(s: State, s': State, p: nat, b: Bounds)
    requires MemoryOk(s, b) && s.At(p).Withdrawing? && s' == Next(s, Retract(p), b) && 0 <= b.lag
    requires s.At(p).since <= s.now < s.At(p).since + b.stall
    ensures MemoryOk(s', b)
  {
    forall q | q in s'.clears
      ensures StoreOk(s', s'.clears[q], b)
    {
      assert q in s.clears ==> StoreOk(s, s.clears[q], b);
    }
    assert forall k | k in s'.writes :: StoreOk(s, s.writes[k].store, b) && StoreOk(s', s'.writes[k].store, b);
  }

  lemma LandWriteInv(s: State, k: nat, b: Bounds)
    requires Patient(b) && Inv(s, b) && k in s.writes
    ensures Inv(Next(s, LandWrite(k), b), b)
  {
    var s' := Next(s, LandWrite(k), b);
    LandWriteReadings(s, s', k, b);
    forall q: nat
      ensures ProcOk(s', q, b) && NoNearer(s, s', q, b) && NoMore(s, s', q)
    {
      assert ProcOk(s, q, b);
      SeizureAside(s, s', q, b);
      assert s'.At(q) == s.At(q);
    }
    StoresStand(s, s', b);
    QuietInv(s, s', b);
  }

  lemma LandWriteReadings(s: State, s': State, k: nat, b: Bounds)
    requires Patient(b) && Inv(s, b) && k in s.writes && s' == Next(s, LandWrite(k), b)
    ensures TakenOk(s') && forall q: nat :: ReadingsOk(s', q)
  {
    var p := s.writes[k].authority;
    assert s.Writing(p) && s.Open(p) && ReadingsOk(s, p) && Apart(s, p, b) && StoreOk(s, s.writes[k].store, b);
    forall q: nat
      ensures ReadingsOk(s', q)
    {
      assert ReadingsOk(s, q) && ProcOk(s, q, b) && s'.At(q) == s.At(q);
      if q != p {
        assert !s.Open(q) && Away(s, q, s.writes[k].store.since, b);
        forall i | i in s'.writes
          ensures s'.writes[i].authority != q
        {
          assert i in s.writes;
        }
      }
    }
  }

  // ---------- sweeps and resets ----------

  /** Sweeps come and go; nothing else moves. */
  lemma SweepsMoved(s: State, s': State, b: Bounds)
    requires Inv(s, b) && s' == s.(sweeps := s'.sweeps)
    requires forall q: nat | !s.At(q).Dead? :: StaysSwept(s, s', q)
    ensures Inv(s', b)
  {
    forall q: nat
      ensures ProcOk(s', q, b) && ReadingsOk(s', q) && NoNearer(s, s', q, b) && NoMore(s, s', q)
    {
      assert ProcOk(s, q, b) && ReadingsOk(s, q);
      SweepsAside(s, s', q, b);
      assert s'.At(q) == s.At(q) && Hidden(s', q) == Hidden(s, q);
    }
    StoresStand(s, s', b);
    QuietInv(s, s', b);
  }

  lemma SweepInv(s: State, e: Event, b: Bounds)
    requires Patient(b) && Inv(s, b) && (e.SweepCheck? || e.SweepStore? || e.Abandon?)
    ensures Inv(Next(s, e, b), b)
  {
    var s', k := Next(s, e, b), e.id;
    forall v: nat | s.Visible(v) && !s.At(s.stakes[v].owner).Dead? && s.Swept(v)
      ensures s'.Swept(v)
    {
      var i :| i in s.sweeps && s.sweeps[i].stake == v;
      assert i in s'.sweeps && s'.sweeps[i].stake == v;
    }
    assert s' == s.(sweeps := s'.sweeps);
    SweepsMoved(s, s', b);
  }

  lemma ResetInv(s: State, p: nat, k: nat, b: Bounds)
    requires Patient(b) && Inv(s, b) && MayReset(s, p, b) && Sees(s, p) != 0 && k !in s.sweeps
    ensures Inv(Next(s, Reset(p, k), b), b)
  {
    var looked := s.(sweeps := s.sweeps[k := Looked(Sees(s, p), s.now)]);
    StillSwept(s, looked, k);
    SweepsMoved(s, looked, b);
    assert k in looked.sweeps && looked.sweeps[k].stake == Sees(s, p) && looked.Swept(Sees(s, p));
    assert ProcOk(looked, p, b) && ReadingsOk(looked, p);
    ResetIsCovered(looked, p, b);
    MoveInv(looked, SetProc(looked, p, Idle), p, b);
  }

  // ---------- stakes and clears reach memory, and time passes ----------

  lemma PublishInv(s: State, p: nat, u: nat, b: Bounds)
    requires Patient(b) && Inv(s, b) && s.At(p).Judged? && u != 0 && u !in s.stakes
    ensures Inv(Next(s, Publish(p, u), b), b)
  {
    var s' := Next(s, Publish(p, u), b);
    forall q: nat
      ensures ProcOk(s', q, b) && ReadingsOk(s', q) && NoNearer(s, s', q, b) && NoMore(s, s', q)
    {
      assert ProcOk(s, q, b) && ReadingsOk(s, q) && ProcOk(s, p, b);
      PublishProc(s, s', p, u, q, b);
      PublishAway(s, s', p, u, q, b);
    }
    StoresStand(s, s', b);
    QuietInv(s, s', b);
  }

  lemma PublishAway(s: State, s': State, p: nat, u: nat, q: nat, b: Bounds)
    requires MemoryOk(s, b) && ProcOk(s, q, b) && s.At(p).Judged? && u != 0 && u !in s.stakes && s' == Next(s, Publish(p, u), b)
    ensures NoNearer(s, s', q, b) && NoMore(s, s', q)
  {
    if q == p {
      assert Flushed(s', u, s.now);
    } else {
      assert s'.At(q) == s.At(q);
      assert Hidden(s, q) ==> Hidden(s', q);
      assert forall v, since :: Flushed(s, v, since) ==> Flushed(s', v, since);
    }
  }

  lemma LandInv(s: State, u: nat, b: Bounds)
    requires Patient(b) && Inv(s, b) && u in s.inFlight
    ensures Inv(Next(s, Land(u), b), b)
  {
    var s' := Next(s, Land(u), b);
    forall q: nat
      ensures ProcOk(s', q, b) && ReadingsOk(s', q) && NoNearer(s, s', q, b) && NoMore(s, s', q)
    {
      assert ProcOk(s, q, b) && ReadingsOk(s, q);
      LandProc(s, s', u, q, b);
      if s.At(q).Reading? {
        OwnHasLanded(s, q, b);
      }
      assert s'.At(q) == s.At(q) && (Hidden(s, q) ==> Hidden(s', q));
    }
    StoresStand(s, s', b);
    QuietInv(s, s', b);
  }

  lemma EmptiedInv(s: State, s': State, b: Bounds)
    requires Patient(b) && Inv(s, b) && Empties(s, s')
    ensures Inv(s', b)
  {
    forall q: nat
      ensures ProcOk(s', q, b) && ReadingsOk(s', q) && NoNearer(s, s', q, b) && NoMore(s, s', q)
    {
      assert ProcOk(s, q, b) && ReadingsOk(s, q);
      EmptiedProc(s, s', q, b);
    }
    StoresStand(s, s', b);
    QuietInv(s, s', b);
  }

  lemma EmptiedProc(s: State, s': State, q: nat, b: Bounds)
    requires MemoryOk(s, b) && ProcOk(s, q, b) && ReadingsOk(s, q) && Empties(s, s')
    ensures ProcOk(s', q, b) && ReadingsOk(s', q) && NoNearer(s, s', q, b) && NoMore(s, s', q)
  {
    assert s'.At(q) == s.At(q) && !s'.Shows(q);
    assert Drained(s, q) ==> Drained(s', q);
    forall u | Covered(s, q, u)
      ensures Covered(s', q, u)
    {
      StillCovered(s, s', q, u);
    }
  }

  lemma AdvanceAway(s: State, s': State, to: int, q: nat, b: Bounds)
    requires s.now <= to && s' == s.(now := to)
    ensures NoNearer(s, s', q, b) && NoMore(s, s', q)
  {
    assert s'.At(q) == s.At(q) && Hidden(s', q) == Hidden(s, q);
    assert forall v, since :: Flushed(s, v, since) ==> Flushed(s', v, since);
  }

  lemma AdvanceInv(s: State, to: int, b: Bounds)
    requires Patient(b) && Inv(s, b) && MayAdvance(s, to, b)
    ensures Inv(Next(s, Advance(to), b), b)
  {
    var s' := Next(s, Advance(to), b);
    forall q: nat
      ensures ProcOk(s', q, b) && ReadingsOk(s', q) && NoNearer(s, s', q, b) && NoMore(s, s', q)
    {
      assert ProcOk(s, q, b) && ReadingsOk(s, q);
      AdvanceProc(s, s', to, q, b);
      AdvanceAway(s, s', to, q, b);
    }
    assert forall k | k in s'.writes :: StoreOk(s, s.writes[k].store, b) && StoreOk(s', s'.writes[k].store, b);
    assert forall q | q in s'.clears :: StoreOk(s, s.clears[q], b) && StoreOk(s', s'.clears[q], b);
    QuietInv(s, s', b);
  }

  // ---------- every event, every run ----------

  /** What a peer does by itself. */
  lemma PeerInv(s: State, e: Event, b: Bounds)
    requires Patient(b) && Inv(s, b)
    requires e.Look? || e.Publish? || e.Judge? || e.Tick? || e.ReadRecord? || e.Check? || e.Write? || e.Finish? || e.EndHold?
    ensures Inv(Next(s, e, b), b)
  {
    match e
    case Look(p, openedAt) => if s.At(p).Idle? && openedAt <= s.now && IsFree(s, p, b) { LookInv(s, p, openedAt, b); }
    case Publish(p, u) => if s.At(p).Judged? && u != 0 && u !in s.stakes { PublishInv(s, p, u, b); }
    case Judge(p) => if s.At(p).Published? { JudgeInv(s, p, b); }
    case Tick(p) => if (s.At(p).Settling? && s.now >= s.At(p).ends) || s.At(p).Settled? { ProceedInv(s, e, b); }
    case ReadRecord(p) => if s.At(p).Settled? { ProceedInv(s, e, b); }
    case Check(p) => if s.At(p).Reading? { if s.Shows(p) { CheckedInv(s, e, b); } else { LetGoInv(s, e, b); } }
    case Write(p, k) => if s.At(p).Acting? && k !in s.writes { WriteInv(s, p, k, b); }
    case Finish(p) => if s.At(p).Acting? { ProceedInv(s, e, b); }
    case EndHold(p) =>
      if s.At(p).Holding? && s.now >= s.At(p).ends { if s.Shows(p) { CheckedInv(s, e, b); } else { LetGoInv(s, e, b); } }
  }

  lemma NextInv(s: State, e: Event, b: Bounds)
    requires Patient(b) && Inv(s, b)
    ensures Inv(Next(s, e, b), b)
  {
    match e
    case Release(p) => if s.At(p).Settled? { if s.Shows(p) { CheckedInv(s, e, b); } else { LetGoInv(s, e, b); } }
    case Retract(p) => if s.At(p).Withdrawing? { RetractInv(s, p, b); }
    case Reset(p, k) => if MayReset(s, p, b) && k !in s.sweeps { if Sees(s, p) != 0 { ResetInv(s, p, k, b); } else { DropInv(s, p, Idle, b); } }
    case SweepCheck(_) => SweepInv(s, e, b);
    case SweepStore(_) => SweepInv(s, e, b);
    case Abandon(_) => SweepInv(s, e, b);
    case Die(p) => if !s.At(p).Dead? { DropInv(s, p, Dead(s.now), b); }
    case Land(u) => if u in s.inFlight { LandInv(s, u, b); }
    case LandClear(p) => if p in s.clears { EmptiedInv(s, Next(s, e, b), b); }
    case LandSweep(k) => if k in s.sweeps && s.sweeps[k].Sent? && s.sweeps[k].stake !in s.inFlight { EmptiedInv(s, Next(s, e, b), b); }
    case LandWrite(k) => if k in s.writes { LandWriteInv(s, k, b); }
    case Advance(to) => if MayAdvance(s, to, b) { AdvanceInv(s, to, b); }
    case _ => PeerInv(s, e, b);
  }

  lemma {:induction false} RunInv(s: State, events: seq<Event>, b: Bounds)
    requires Patient(b) && Inv(s, b)
    ensures Inv(Run(s, events, b), b)
    decreases |events|
  {
    if events != [] {
      NextInv(s, events[0], b);
      RunInv(Next(s, events[0], b), events[1..], b);
    }
  }
}
