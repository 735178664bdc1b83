/**
 The claim procedure on one last-writer-wins word, as the admission lease runs it
 (src/core/algo/stake_claim.hpp, src/admission/claim.cpp, bounds in src/config.hpp).

 Time is explicit. A store is flushed at one moment and lands in memory at a later one, at most the
 visibility lag after; reads see memory. Any number of processes stake, settle, hold late stakes, withdraw
 them, watch and steal, give up or crash, in any interleaving. `kept` says whether everybody has met the bounds so
 far; the theorems speak of runs in which they have.
 */
module StakeClaim {

  /**
   The configured durations, and `judge`, which no constant bounds: how long a staker may take from flushing its
   stake to asking whether that was in time.
   */
  datatype Bounds = Bounds(window: int, settle: int, lag: int, stall: int, lateHold: int, timeout: int, judge: int)

  /** The static assertions of src/config.hpp, and that a writer's stall is not shorter than the stake window. */
  ghost predicate Asserted(b: Bounds) {
    && 0 < b.window <= b.stall && 0 <= b.lag && 0 <= b.judge
    && b.window + 2 * b.lag <= b.settle
    && b.lateHold == b.stall + 2 * b.lag
    && b.settle + b.stall + b.lag < b.timeout
    && b.lateHold + b.stall + b.lag < b.timeout
  }

  /** A late stake's withdrawal lands before anybody who stole its nonce can confirm, or a settle outlasts any withdrawal. */
  predicate Slack(b: Bounds) {
    b.judge + b.lateHold + b.stall + b.lag <= b.timeout + b.settle || b.lateHold <= b.settle
  }

  ghost predicate Declared(b: Bounds) {
    Asserted(b) && Slack(b)
  }

  /** One process's attempt. A nonce is never zero; zero is the free word. */
  datatype Proc =
    | Idle(stalled: nat)                                                  // 0 when no value has stood its timeout
    | Watching(value: nat, since: int)
    | Judged(openedAt: int, readAt: int, version: nat)                      // read free or stalled, about to publish
    | Published(nonce: nat, openedAt: int, readAt: int, version: nat)       // flushed, about to ask whether it was late
    | Settling(nonce: nat, ends: int, readAt: int, version: nat)
    | Holding(nonce: nat, ends: int)                                      // staked late
    | Withdrawing(nonce: nat, ends: int, since: int)                      // found its own nonce, about to clear it
    | Committing(nonce: nat, ends: int, since: int)                       // confirmed: holds the lease
    | Releasing(nonce: nat, ends: int, since: int)                        // found its own nonce, about to clear it
    | Draining(nonce: nat, ends: int, since: int, last: int)              // last write flushed, not yet landed
  {
    /** Between the check that entitles it to write and the landing of its last write. */
    predicate Writes() {
      Withdrawing? || Committing? || Releasing? || Draining?
    }

    predicate HasNonce() {
      Published? || Settling? || Holding? || Writes()
    }
  }

  /** A clear on its way to memory, and when the tenure it ends became due and began. */
  datatype Clear = Clear(flush: int, ends: int, since: int)

  datatype State = State(
    now: int,
    word: nat,
    version: nat,               // how many stores have landed
    landedAt: int,              // when the last one did
    flushed: map<nat, int>,     // every nonce ever published, and when it was flushed
    inFlight: set<nat>,         // stakes that have not landed
    clears: map<nat, Clear>,    // clears that have not landed, by the nonce they clear
    procs: map<nat, Proc>,
    kept: bool)                 // everybody has met the bounds so far
  {
    function At(p: nat): Proc {
      if p in procs then procs[p] else Idle(0)
    }

    /** Whether a stake can still be read from memory, now or later. */
    predicate Visible(nonce: nat) {
      nonce == word || nonce in inFlight
    }
  }

  function Init(now: int): State {
    State(now, 0, 0, now, map[], {}, map[], map[], true)
  }

  datatype Event =
    | Look(proc: nat, openedAt: int)     // read the word, with the stake window opened at `openedAt`
    | Publish(proc: nat, nonce: nat)   // flush a fresh nonce
    | Judge(proc: nat)                 // ask whether the stake was late
    | EndSettle(proc: nat)             // re-read after the settle
    | EndHold(proc: nat)               // re-read after the late hold
    | Withdraw(proc: nat)              // flush the clear of a late stake
    | Release(proc: nat)               // commit done: check the own nonce
    | ReleaseStore(proc: nat)          // flush the clear of the lease
    | Drained(proc: nat)               // its writes have landed
    | Abandon(proc: nat)               // gives up or crashes
    | Land(nonce: nat)                 // a stake reaches memory
    | LandClear(nonce: nat)            // a clear reaches memory
    | Advance(to: int)

  function SetProc(s: State, p: nat, proc: Proc): State {
    s.(procs := s.procs[p := proc])
  }

  function Landed(s: State, word: nat): State {
    s.(word := word, version := s.version + 1, landedAt := s.now)
  }

  /** A read of the word by a process that holds no stake. */
  function Looked(s: State, p: nat, openedAt: int, b: Bounds): State {
    var seen := s.word;
    match s.At(p)
    case Idle(stalled) =>
      if seen == 0 || seen == stalled then SetProc(s, p, Judged(openedAt, s.now, s.version))
      else SetProc(s, p, Watching(seen, s.now))
    case Watching(value, since) =>
      if seen == 0 then SetProc(s, p, Judged(openedAt, s.now, s.version))
      else if seen != value then SetProc(s, p, Watching(seen, s.now))
      else if s.now - since < b.timeout then s
      else SetProc(s, p, Idle(seen))
    case _ => s
  }

  /**
   The bounds on the passage of time: a store lands within the lag of its flush, a stake is judged within the judge
   gap of its flush, and a confirmed holder's last write and a withdrawn stake's clear are flushed less than the
   stall after the end of the settle or of the hold.
   */
  predicate Within(s: State, to: int, b: Bounds) {
    && (forall n | n in s.inFlight && n in s.flushed :: to <= s.flushed[n] + b.lag)
    && (forall n | n in s.clears :: to <= s.clears[n].flush + b.lag)
    && (forall p | p in s.procs :: Timely(s, s.procs[p], to, b))
  }

  predicate Timely(s: State, proc: Proc, at: int, b: Bounds) {
    match proc
    case Published(n, _, _, _) => n in s.flushed ==> at <= s.flushed[n] + b.judge
    case Withdrawing(_, ends, _) => at < ends + b.stall
    case Committing(_, ends, _) => at < ends + b.stall
    case Releasing(_, ends, _) => at < ends + b.stall
    case Draining(_, _, _, last) => at <= last + b.lag
    case _ => true
  }

  /** The check that starts a tenure; one made after its stall has run out breaks the bounds. */
  function Entitled(s: State, p: nat, proc: Proc, b: Bounds): State {
    SetProc(s, p, proc).(kept := s.kept && Timely(s, proc, s.now, b))
  }

  function Next(s: State, e: Event, b: Bounds): State {
    match e
    case Look(p, openedAt) => if openedAt <= s.now then Looked(s, p, openedAt, b) else s
    case Publish(p, nonce) =>
      if s.At(p).Judged? && nonce != 0 && nonce !in s.flushed then
        var me := s.At(p);
        SetProc(s.(flushed := s.flushed[nonce := s.now], inFlight := s.inFlight + {nonce}),
                p, Published(nonce, me.openedAt, me.readAt, me.version))
      else s
    case Judge(p) =>
      if s.At(p).Published? then
        var me := s.At(p);
        SetProc(s, p, if s.now >= me.openedAt + b.window then Holding(me.nonce, s.now + b.lateHold)
                      else Settling(me.nonce, s.now + b.settle, me.readAt, me.version))
      else s
    case EndSettle(p) =>
      if s.At(p).Settling? && s.now >= s.At(p).ends then
        var me := s.At(p);
        if s.word != me.nonce then SetProc(s, p, Idle(0)) else Entitled(s, p, Committing(me.nonce, me.ends, s.now), b)
      else s
    case EndHold(p) =>
      if s.At(p).Holding? && s.now >= s.At(p).ends then
        var me := s.At(p);
        if s.word != me.nonce then SetProc(s, p, Idle(0)) else Entitled(s, p, Withdrawing(me.nonce, me.ends, s.now), b)
      else s
    case Withdraw(p) =>
      if s.At(p).Withdrawing? then
        SetProc(s.(clears := s.clears[s.At(p).nonce := Clear(s.now, s.At(p).ends, s.At(p).since)]), p, Idle(0))
      else s
    case Release(p) =>
      if s.At(p).Committing? then
        var me := s.At(p);
        SetProc(s, p, if s.word == me.nonce then Releasing(me.nonce, me.ends, me.since)
                      else Draining(me.nonce, me.ends, me.since, s.now))
      else s
    case ReleaseStore(p) =>
      if s.At(p).Releasing? then
        SetProc(s.(clears := s.clears[s.At(p).nonce := Clear(s.now, s.At(p).ends, s.At(p).since)]), p, Idle(0))
      else s
    case Drained(p) => if s.At(p).Draining? then SetProc(s, p, Idle(0)) else s
    case Abandon(p) =>
      if s.At(p).Committing? || s.At(p).Releasing? then
        SetProc(s, p, Draining(s.At(p).nonce, s.At(p).ends, s.At(p).since, s.now))
      else if s.At(p).Draining? then s
      else SetProc(s, p, Idle(0))
    case Land(nonce) => if nonce in s.inFlight then Landed(s.(inFlight := s.inFlight - {nonce}), nonce) else s
    case LandClear(nonce) => if nonce in s.clears then Landed(s.(clears := s.clears - {nonce}), 0) else s
    case Advance(to) => if s.now <= to then s.(now := to, kept := s.kept && Within(s, to, b)) else s
  }

  function Run(s: State, events: seq<Event>, b: Bounds): State
    decreases |events|
  {
    if events == [] then s else Run(Next(s, events[0], b), events[1..], b)
  }

  // ---------- the invariant ----------

  /** The word read at `at`, after the last landing, was free or had stood its whole timeout. */
  ghost predicate FreeAt(s: State, at: int, b: Bounds) {
    s.word == 0 || (s.word in s.flushed && at >= s.flushed[s.word] + b.timeout)
  }

  /** A read that led to a stake saw the word free, unless a store has landed since. */
  ghost predicate ReadOk(s: State, readAt: int, version: nat, b: Bounds) {
    && version <= s.version && readAt <= s.now
    && (version == s.version ==> FreeAt(s, readAt, b))
    && (version < s.version ==> readAt <= s.landedAt)
  }

  /** When the settle or the hold of a stake that may write ends, counted from its flush. */
  predicate EndsOk(flush: int, ends: int, b: Bounds) {
    flush + b.window + 2 * b.lag <= ends && (ends + b.stall + b.lag <= flush + b.timeout + b.settle || b.lateHold <= b.settle)
  }

  /** A tenure that began at `since`, on time. */
  predicate TenureOk(s: State, n: nat, ends: int, since: int, b: Bounds) {
    n in s.flushed && EndsOk(s.flushed[n], ends, b) && ends <= since
  }

  ghost predicate ProcOk(s: State, proc: Proc, b: Bounds) {
    && (proc.HasNonce() ==> proc.nonce in s.flushed && proc.nonce !in s.clears)
    && match proc
       case Idle(stalled) => stalled != 0 ==> stalled in s.flushed && s.now >= s.flushed[stalled] + b.timeout
       case Watching(value, since) => value in s.flushed && s.flushed[value] <= since <= s.now
       case Judged(openedAt, readAt, version) => openedAt <= readAt && ReadOk(s, readAt, version, b)
       case Published(n, openedAt, readAt, version) =>
         openedAt <= readAt <= s.flushed[n] && ReadOk(s, readAt, version, b) && s.now <= s.flushed[n] + b.judge
       case Settling(n, ends, readAt, version) =>
         && ReadOk(s, readAt, version, b) && readAt <= s.flushed[n] < readAt + b.window
         && s.flushed[n] + b.settle <= ends && EndsOk(s.flushed[n], ends, b)
       case Holding(n, ends) => s.flushed[n] + b.lateHold <= ends && EndsOk(s.flushed[n], ends, b)
       case Withdrawing(n, ends, since) => TenureOk(s, n, ends, since, b) && since <= s.now < ends + b.stall
       case Committing(n, ends, since) => TenureOk(s, n, ends, since, b) && since <= s.now < ends + b.stall
       case Releasing(n, ends, since) => TenureOk(s, n, ends, since, b) && since <= s.now < ends + b.stall
       case Draining(n, ends, since, last) =>
         TenureOk(s, n, ends, since, b) && since <= last <= s.now <= last + b.lag && last < ends + b.stall
  }

  ghost predicate MemoryOk(s: State, b: Bounds) {
    && 0 !in s.flushed && s.inFlight <= s.flushed.Keys && s.clears.Keys <= s.flushed.Keys
    && s.word !in s.inFlight
    && s.landedAt <= s.now
    && (forall n | n in s.flushed :: s.flushed[n] <= s.now)
    && (s.word != 0 ==> s.word in s.flushed && s.landedAt <= s.flushed[s.word] + b.lag)
    && (forall n | n in s.inFlight :: s.now <= s.flushed[n] + b.lag)
    && (forall n | n in s.clears :: ClearOk(s, n, b))
  }

  /** A clear in flight ends a tenure that began after the settle or the hold of its stake. */
  ghost predicate ClearOk(s: State, n: nat, b: Bounds)
    requires n in s.clears
  {
    var c := s.clears[n];
    TenureOk(s, n, c.ends, c.since, b) && c.since <= c.flush <= s.now <= c.flush + b.lag && c.flush < c.ends + b.stall
  }

  /** Two processes never carry one nonce. */
  ghost predicate NoncesDistinct(s: State) {
    forall p: nat, q: nat | p != q && s.At(p).HasNonce() && s.At(q).HasNonce() :: s.At(p).nonce != s.At(q).nonce
  }

  /**
   What holds throughout a tenure of `nonce` that began at `since`: the word is never free, every other value that
   can be read was flushed so recently that its own withdrawal comes after the tenure, and nobody is on its way to
   confirm before the tenure is over.
   */
  ghost predicate Guarded(s: State, nonce: nat, since: int, b: Bounds) {
    && s.word != 0 && nonce in s.flushed
    && (forall u | u in s.flushed && u != nonce && s.Visible(u) :: s.flushed[u] >= since - b.lag)
    && (forall p: nat :: Fits(s, s.At(p), s.flushed[nonce] + b.timeout, b))
  }

  /** A stake that has been overwritten for good or is bound to be judged late, or one read no earlier than `stolen`. */
  ghost predicate Fits(s: State, proc: Proc, stolen: int, b: Bounds) {
    match proc
    case Settling(n, _, readAt, _) => !s.Visible(n) || readAt >= stolen
    case Judged(openedAt, readAt, _) => s.now >= openedAt + b.window || readAt >= stolen
    case Published(n, openedAt, readAt, _) => !s.Visible(n) || s.now >= openedAt + b.window || readAt >= stolen
    case _ => true
  }

  ghost predicate Tenures(s: State, b: Bounds) {
    && (forall p: nat | s.At(p).Writes() :: Guarded(s, s.At(p).nonce, s.At(p).since, b) && s.clears == map[])
    && (forall n | n in s.clears :: Guarded(s, n, s.clears[n].since, b))
    && (forall p: nat, q: nat | s.At(p).Writes() && s.At(q).Writes() :: p == q)
    && (forall m, n | m in s.clears && n in s.clears :: m == n)
  }

  ghost predicate Sound(s: State, b: Bounds) {
    && MemoryOk(s, b)
    && (forall p: nat :: ProcOk(s, s.At(p), b))
    && NoncesDistinct(s)
    && Tenures(s, b)
  }

  /** As long as everybody has met the bounds, the claim is sound. */
  ghost predicate Inv(s: State, b: Bounds) {
    s.kept ==> Sound(s, b)
  }

  lemma InitInv(now: int, b: Bounds)
    ensures Inv(Init(now), b)
  {
  }

  // ---------- facts about a tenure ----------

  /** A tenure is over before its stall and the lag have passed, and before anybody who stole its nonce can confirm. */
  lemma TenureBounds(s: State, p: nat, b: Bounds)
    requires Asserted(b) && ProcOk(s, s.At(p), b) && s.At(p).Writes()
    ensures var me := s.At(p);
            && me.nonce in s.flushed && s.flushed[me.nonce] + b.lag <= me.since <= s.now < me.since + b.stall + b.lag
            && (s.now < s.flushed[me.nonce] + b.timeout + b.settle || b.lateHold <= b.settle)
  {
  }

  /** During a tenure a look succeeds only once the tenure's own nonce has stood its timeout. */
  lemma LookIsSteal(s: State, nonce: nat, since: int, b: Bounds)
    requires MemoryOk(s, b) && Guarded(s, nonce, since, b) && s.flushed[nonce] + b.lag <= since
    requires s.now >= s.flushed[s.word] + b.timeout
    ensures s.now >= s.flushed[nonce] + b.timeout
  {
    assert s.word != nonce ==> s.flushed[s.word] >= since - b.lag;
  }

  // ---------- one event keeps the invariant ----------

  /** The process fits every tenure that is open. */
  ghost predicate FitsAll(s: State, proc: Proc, b: Bounds) {
    && (forall q: nat | s.At(q).Writes() && s.At(q).nonce in s.flushed :: Fits(s, proc, s.flushed[s.At(q).nonce] + b.timeout, b))
    && (forall n | n in s.clears && n in s.flushed :: Fits(s, proc, s.flushed[n] + b.timeout, b))
  }

  lemma FitsNow(s: State, p: nat, b: Bounds)
    requires Sound(s, b)
    ensures FitsAll(s, s.At(p), b)
  {
  }

  /** A change of one process that starts no tenure and takes no new nonce. */
  lemma ProcStep(s: State, s': State, p: nat, b: Bounds)
    requires Sound(s, b) && s' == SetProc(s, p, s'.At(p)) && ProcOk(s', s'.At(p), b)
    requires s'.At(p).HasNonce() ==> s.At(p).HasNonce() && s'.At(p).nonce == s.At(p).nonce
    requires s'.At(p).Writes() ==> s.At(p).Writes() && s'.At(p).since == s.At(p).since
    requires FitsAll(s, s'.At(p), b)
    ensures Sound(s', b)
  {
    assert forall q: nat | q != p :: s'.At(q) == s.At(q);
    forall q: nat
      ensures ProcOk(s', s'.At(q), b)
    {
      assert ProcOk(s, s.At(q), b);
      if q != p {
        OtherProcs(s, s', s.At(q), b);
      }
    }
    assert NoncesDistinct(s');
    assert MemoryOk(s', b) by {
      assert forall n | n in s.clears :: ClearOk(s, n, b) && ClearOk(s', n, b);
    }
    StepTenures(s, s', p, b);
  }

  lemma OtherProcs(s: State, s': State, proc: Proc, b: Bounds)
    requires ProcOk(s, proc, b) && s' == s.(procs := s'.procs)
    ensures ProcOk(s', proc, b)
  {
  }

  lemma StepTenures(s: State, s': State, p: nat, b: Bounds)
    requires Sound(s, b) && s' == SetProc(s, p, s'.At(p)) && FitsAll(s, s'.At(p), b)
    requires s'.At(p).Writes() ==> s.At(p).Writes() && s'.At(p).since == s.At(p).since && s'.At(p).nonce == s.At(p).nonce
    ensures Tenures(s', b)
  {
    assert forall q: nat | q != p :: s'.At(q) == s.At(q);
    forall q: nat | s'.At(q).Writes()
      ensures Guarded(s', s'.At(q).nonce, s'.At(q).since, b) && s'.clears == map[]
    {
      assert s.At(q).Writes() && Guarded(s, s.At(q).nonce, s.At(q).since, b);
      StepGuarded(s, s', p, s.At(q).nonce, s.At(q).since, b);
    }
    forall n | n in s'.clears
      ensures Guarded(s', n, s'.clears[n].since, b)
    {
      StepGuarded(s, s', p, n, s.clears[n].since, b);
    }
  }

  /** A process on its way to no confirmation fits every tenure. */
  lemma QuietFits(s: State, proc: Proc, b: Bounds)
    requires !proc.Judged? && !proc.Published? && !proc.Settling?
    ensures FitsAll(s, proc, b)
  {
  }

  lemma StepGuarded(s: State, s': State, p: nat, n: nat, since: int, b: Bounds)
    requires Guarded(s, n, since, b) && s' == SetProc(s, p, s'.At(p)) && Fits(s, s'.At(p), s.flushed[n] + b.timeout, b)
    ensures Guarded(s', n, since, b)
  {
    forall q: nat
      ensures Fits(s', s'.At(q), s'.flushed[n] + b.timeout, b)
    {
      assert Fits(s, s.At(q), s.flushed[n] + b.timeout, b);
      assert q != p ==> s'.At(q) == s.At(q);
    }
  }

  /** A look during a tenure that leads to a stake reads no earlier than the steal. */
  lemma LookFits(s: State, openedAt: int, b: Bounds)
    requires Asserted(b) && Sound(s, b) && FreeAt(s, s.now, b)
    ensures FitsAll(s, Judged(openedAt, s.now, s.version), b)
  {
    forall q: nat | s.At(q).Writes()
      ensures Fits(s, Judged(openedAt, s.now, s.version), s.flushed[s.At(q).nonce] + b.timeout, b)
    {
      assert ProcOk(s, s.At(q), b) && Guarded(s, s.At(q).nonce, s.At(q).since, b);
      TenureBounds(s, q, b);
      LookIsSteal(s, s.At(q).nonce, s.At(q).since, b);
    }
    forall n | n in s.clears
      ensures Fits(s, Judged(openedAt, s.now, s.version), s.flushed[n] + b.timeout, b)
    {
      assert ClearOk(s, n, b) && Guarded(s, n, s.clears[n].since, b);
      LookIsSteal(s, n, s.clears[n].since, b);
    }
  }

  lemma LookProc(s: State, p: nat, openedAt: int, b: Bounds)
    requires MemoryOk(s, b) && ProcOk(s, s.At(p), b) && openedAt <= s.now && Next(s, Look(p, openedAt), b) != s
    ensures var s' := Next(s, Look(p, openedAt), b);
            && s' == SetProc(s, p, s'.At(p)) && ProcOk(s', s'.At(p), b) && !s'.At(p).HasNonce()
            && (s'.At(p).Judged? ==> s'.At(p) == Judged(openedAt, s.now, s.version) && FreeAt(s, s.now, b))
  {
  }

  lemma LookInv(s: State, p: nat, openedAt: int, b: Bounds)
    requires Asserted(b) && Sound(s, b)
    ensures Sound(Next(s, Look(p, openedAt), b), b)
  {
    var s' := Next(s, Look(p, openedAt), b);
    assert ProcOk(s, s.At(p), b);
    if s' != s {
      LookProc(s, p, openedAt, b);
      if s'.At(p).Judged? {
        LookFits(s, openedAt, b);
      } else {
        QuietFits(s, s'.At(p), b);
      }
      ProcStep(s, s', p, b);
    }
  }

  lemma JudgeFits(s: State, proc: Proc, p: nat, b: Bounds)
    requires s.At(p).Published? && FitsAll(s, s.At(p), b) && proc == Next(s, Judge(p), b).At(p)
    ensures FitsAll(s, proc, b)
  {
  }

  lemma JudgeInv(s: State, p: nat, b: Bounds)
    requires Declared(b) && Sound(s, b) && s.At(p).Published?
    ensures Sound(Next(s, Judge(p), b), b)
  {
    var s' := Next(s, Judge(p), b);
    assert ProcOk(s, s.At(p), b);
    FitsNow(s, p, b);
    JudgeFits(s, s'.At(p), p, b);
    ProcStep(s, s', p, b);
  }

  /** Once the standing stake has settled, every other stake fits its tenure. */
  lemma StartFits(s: State, proc: Proc, b: Bounds)
    requires Asserted(b) && MemoryOk(s, b) && ProcOk(s, proc, b) && (proc.HasNonce() ==> proc.nonce != s.word)
    requires s.word != 0 && s.flushed[s.word] + b.window + 2 * b.lag <= s.now
    ensures Fits(s, proc, s.flushed[s.word] + b.timeout, b)
  {
  }

  /** The check that starts a tenure: the own nonce is read back a settle or a hold after its flush. */
  lemma StartInv(s: State, s': State, p: nat, b: Bounds)
    requires Asserted(b) && Sound(s, b) && s' == SetProc(s, p, s'.At(p)) && ProcOk(s', s'.At(p), b)
    requires s'.At(p).Writes() && s'.At(p).since == s.now && s.At(p).HasNonce() && s.At(p).nonce == s'.At(p).nonce
    requires s.word == s'.At(p).nonce && (s.At(p).Settling? || s.At(p).Holding?) && s.now >= s.At(p).ends
    ensures Sound(s', b)
  {
    assert forall q: nat | q != p :: s'.At(q) == s.At(q);
    assert ProcOk(s, s.At(p), b);
    NoTenureYet(s, p, b);
    forall q: nat
      ensures ProcOk(s', s'.At(q), b) && Fits(s', s'.At(q), s.flushed[s.word] + b.timeout, b)
    {
      assert ProcOk(s, s.At(q), b);
      if q != p {
        StartFits(s, s.At(q), b);
        OtherProcs(s, s', s.At(q), b);
      }
    }
    assert NoncesDistinct(s');
    assert Guarded(s', s.word, s.now, b);
  }

  /** A process that finds its own nonce after its settle or its hold finds no tenure open. */
  lemma NoTenureYet(s: State, p: nat, b: Bounds)
    requires Asserted(b) && Sound(s, b) && s.At(p).HasNonce() && s.word == s.At(p).nonce
    requires (s.At(p).Settling? || s.At(p).Holding?) && s.now >= s.At(p).ends
    ensures s.clears == map[] && forall q: nat :: !s.At(q).Writes()
  {
    assert ProcOk(s, s.At(p), b);
    FitsNow(s, p, b);
    forall q: nat
      ensures !s.At(q).Writes()
    {
      if s.At(q).Writes() {
        assert ProcOk(s, s.At(q), b);
        TenureBounds(s, q, b);
        assert false;
      }
    }
    if s.clears != map[] {
      assert false;
    }
  }

  lemma PublishInv(s: State, p: nat, nonce: nat, b: Bounds)
    requires Asserted(b) && Sound(s, b) && s.At(p).Judged? && nonce != 0 && nonce !in s.flushed
    ensures Sound(Next(s, Publish(p, nonce), b), b)
  {
    var s' := Next(s, Publish(p, nonce), b);
    assert forall q: nat | q != p :: s'.At(q) == s.At(q);
    forall q: nat
      ensures ProcOk(s', s'.At(q), b)
      ensures q != p && s'.At(q).HasNonce() ==> s'.At(q).nonce != nonce
    {
      assert ProcOk(s, s.At(q), b);
      PublishProc(s, s', s.At(q), nonce, b);
    }
    forall n, since | Guarded(s, n, since, b) && since <= s.now
      ensures Guarded(s', n, since, b)
    {
      PublishGuarded(s, s', p, nonce, n, since, b);
    }
    PublishMemory(s, s', p, nonce, b);
    TenuresMoved(s, s', b);
  }

  lemma PublishMemory(s: State, s': State, p: nat, nonce: nat, b: Bounds)
    requires Asserted(b) && MemoryOk(s, b) && s.At(p).Judged? && nonce != 0 && nonce !in s.flushed
    requires s' == Next(s, Publish(p, nonce), b)
    ensures MemoryOk(s', b)
  {
    assert forall n | n in s.clears :: ClearOk(s, n, b) && ClearOk(s', n, b);
  }

  /** A fresh flush leaves what is known of every process standing, the publisher's read included. */
  lemma PublishProc(s: State, s': State, proc: Proc, nonce: nat, b: Bounds)
    requires Asserted(b) && MemoryOk(s, b) && ProcOk(s, proc, b) && nonce != 0 && nonce !in s.flushed
    requires s' == s.(flushed := s.flushed[nonce := s.now], inFlight := s.inFlight + {nonce}, procs := s'.procs)
    ensures ProcOk(s', proc, b)
    ensures proc.HasNonce() ==> proc.nonce != nonce
    ensures proc.Judged? ==> ProcOk(s', Published(nonce, proc.openedAt, proc.readAt, proc.version), b)
  {
  }

  lemma PublishGuarded(s: State, s': State, p: nat, nonce: nat, n: nat, since: int, b: Bounds)
    requires Asserted(b) && Guarded(s, n, since, b) && since <= s.now && s.At(p).Judged? && nonce !in s.flushed
    requires s' == Next(s, Publish(p, nonce), b) && nonce != 0
    requires forall q: nat | s.At(q).HasNonce() :: s.At(q).nonce in s.flushed
    ensures Guarded(s', n, since, b)
  {
    forall q: nat
      ensures Fits(s', s'.At(q), s'.flushed[n] + b.timeout, b)
    {
      assert Fits(s, s.At(q), s.flushed[n] + b.timeout, b);
      assert q != p ==> s'.At(q) == s.At(q);
    }
  }

  /** Tenures carry over when no process starts or ends one and each stays guarded. */
  lemma TenuresMoved(s: State, s': State, b: Bounds)
    requires Asserted(b) && Sound(s, b) && s'.clears == s.clears
    requires forall q: nat | s'.At(q).Writes() || s.At(q).Writes() :: s'.At(q) == s.At(q)
    requires forall n, since | Guarded(s, n, since, b) && since <= s.now :: Guarded(s', n, since, b)
    ensures Tenures(s', b)
  {
    forall q: nat | s'.At(q).Writes()
      ensures Guarded(s', s'.At(q).nonce, s'.At(q).since, b) && s'.clears == map[]
    {
      assert ProcOk(s, s.At(q), b);
      TenureBounds(s, q, b);
    }
    forall n | n in s'.clears
      ensures Guarded(s', n, s'.clears[n].since, b)
    {
      assert ClearOk(s, n, b);
    }
  }

  lemma LandInv(s: State, nonce: nat, b: Bounds)
    requires Asserted(b) && Sound(s, b) && nonce in s.inFlight
    ensures Sound(Next(s, Land(nonce), b), b)
  {
    var s' := Next(s, Land(nonce), b);
    assert forall q: nat :: s'.At(q) == s.At(q);
    forall q: nat
      ensures ProcOk(s', s'.At(q), b)
    {
      assert ProcOk(s, s.At(q), b);
    }
    assert NoncesDistinct(s');
    forall n, since | Guarded(s, n, since, b) && since <= s.now
      ensures Guarded(s', n, since, b)
    {
      LandGuarded(s, s', nonce, n, since, b);
    }
    assert forall n | n in s.clears :: ClearOk(s, n, b) && ClearOk(s', n, b);
    TenuresMoved(s, s', b);
  }

  lemma LandGuarded(s: State, s': State, nonce: nat, n: nat, since: int, b: Bounds)
    requires Guarded(s, n, since, b) && nonce in s.inFlight && nonce in s.flushed && 0 !in s.flushed
    requires s' == Next(s, Land(nonce), b)
    ensures Guarded(s', n, since, b)
  {
    forall q: nat
      ensures Fits(s', s'.At(q), s'.flushed[n] + b.timeout, b)
    {
      assert s'.At(q) == s.At(q) && Fits(s, s.At(q), s.flushed[n] + b.timeout, b);
    }
  }

  lemma LandClearInv(s: State, nonce: nat, b: Bounds)
    requires Asserted(b) && Sound(s, b) && nonce in s.clears
    ensures Sound(Next(s, LandClear(nonce), b), b)
  {
    var s' := Next(s, LandClear(nonce), b);
    assert forall q: nat :: s'.At(q) == s.At(q) && !s.At(q).Writes();
    assert s'.clears == map[];
    forall q: nat
      ensures ProcOk(s', s'.At(q), b)
    {
      assert ProcOk(s, s.At(q), b);
    }
    assert NoncesDistinct(s');
  }

  lemma AdvanceInv(s: State, to: int, b: Bounds)
    requires Asserted(b) && Sound(s, b) && s.now <= to && Within(s, to, b)
    ensures Sound(s.(now := to), b)
  {
    var s' := s.(now := to);
    assert forall q: nat :: s'.At(q) == s.At(q);
    forall q: nat
      ensures ProcOk(s', s'.At(q), b)
    {
      assert ProcOk(s, s.At(q), b);
      assert q in s.procs ==> Timely(s, s.procs[q], to, b);
      AdvanceProc(s, s.At(q), to, b);
    }
    assert NoncesDistinct(s');
    AdvanceMemory(s, to, b);
    forall n, since | Guarded(s, n, since, b) && since <= s.now
      ensures Guarded(s', n, since, b)
    {
      AdvanceGuarded(s, to, n, since, b);
    }
    TenuresMoved(s, s', b);
  }

  lemma AdvanceProc(s: State, proc: Proc, to: int, b: Bounds)
    requires ProcOk(s, proc, b) && Timely(s, proc, to, b) && s.now <= to
    ensures ProcOk(s.(now := to), proc, b)
  {
  }

  lemma AdvanceMemory(s: State, to: int, b: Bounds)
    requires MemoryOk(s, b) && s.now <= to && Within(s, to, b)
    ensures MemoryOk(s.(now := to), b)
  {
    forall n | n in s.clears
      ensures ClearOk(s.(now := to), n, b)
    {
      assert ClearOk(s, n, b);
    }
  }

  lemma AdvanceGuarded(s: State, to: int, n: nat, since: int, b: Bounds)
    requires Guarded(s, n, since, b) && s.now <= to
    ensures Guarded(s.(now := to), n, since, b)
  {
    var s' := s.(now := to);
    forall q: nat
      ensures Fits(s', s'.At(q), s'.flushed[n] + b.timeout, b)
    {
      assert Fits(s, s.At(q), s.flushed[n] + b.timeout, b);
    }
  }

  /** The clear of a tenure on its way. */
  function ClearStored(s: State, p: nat): State
    requires s.At(p).Withdrawing? || s.At(p).Releasing?
  {
    SetProc(s.(clears := s.clears[s.At(p).nonce := Clear(s.now, s.At(p).ends, s.At(p).since)]), p, Idle(0))
  }

  lemma ClearStoreProcs(s: State, p: nat, b: Bounds)
    requires Sound(s, b) && (s.At(p).Withdrawing? || s.At(p).Releasing?)
    ensures var s' := ClearStored(s, p); NoncesDistinct(s') && forall q: nat :: ProcOk(s', s'.At(q), b)
  {
    var s' := ClearStored(s, p);
    assert s.clears == map[] && s'.clears.Keys == {s.At(p).nonce};
    assert forall q: nat | q != p :: s'.At(q) == s.At(q);
    forall q: nat
      ensures ProcOk(s', s'.At(q), b)
    {
      assert ProcOk(s, s.At(q), b);
      if q != p {
        ClearStoreProc(s, s', s.At(q), s.At(p).nonce, b);
      }
    }
  }

  lemma ClearStoreMemory(s: State, p: nat, b: Bounds)
    requires Asserted(b) && MemoryOk(s, b) && ProcOk(s, s.At(p), b) && s.clears == map[]
    requires s.At(p).Withdrawing? || s.At(p).Releasing?
    ensures MemoryOk(ClearStored(s, p), b)
  {
    assert ClearOk(ClearStored(s, p), s.At(p).nonce, b);
  }

  /** The writer of a tenure flushes its clear: the tenure goes on until the clear lands. */
  lemma ClearStoreInv(s: State, p: nat, b: Bounds)
    requires Asserted(b) && Sound(s, b) && (s.At(p).Withdrawing? || s.At(p).Releasing?)
    ensures Sound(ClearStored(s, p), b)
  {
    var s', n, since := ClearStored(s, p), s.At(p).nonce, s.At(p).since;
    assert ProcOk(s, s.At(p), b) && Guarded(s, n, since, b) && s.clears == map[];
    ClearStoreProcs(s, p, b);
    ClearStoreMemory(s, p, b);
    ClearStoreGuarded(s, s', p, n, since, b);
    assert s'.clears.Keys == {n};
    forall q: nat
      ensures !s'.At(q).Writes()
    {
      assert s.At(q).Writes() ==> q == p;
    }
  }

  lemma ClearStoreGuarded(s: State, s': State, p: nat, n: nat, since: int, b: Bounds)
    requires Guarded(s, n, since, b) && s' == SetProc(s.(clears := s'.clears), p, Idle(0))
    ensures Guarded(s', n, since, b)
  {
    forall q: nat
      ensures Fits(s', s'.At(q), s'.flushed[n] + b.timeout, b)
    {
      assert Fits(s, s.At(q), s.flushed[n] + b.timeout, b);
      assert q != p ==> s'.At(q) == s.At(q);
    }
  }

  lemma ClearStoreProc(s: State, s': State, proc: Proc, n: nat, b: Bounds)
    requires ProcOk(s, proc, b) && s.clears == map[] && (proc.HasNonce() ==> proc.nonce != n)
    requires s' == s.(clears := s'.clears, procs := s'.procs) && s'.clears.Keys == {n}
    ensures ProcOk(s', proc, b)
  {
  }

  lemma ProcEventInv(s: State, e: Event, b: Bounds)
    requires Asserted(b) && Sound(s, b) && (e.Release? || e.Drained? || e.Abandon?)
    ensures Sound(Next(s, e, b), b)
  {
    var s' := Next(s, e, b);
    assert ProcOk(s, s.At(e.proc), b);
    if s' != s {
      EndProc(s, e, b);
      QuietFits(s, s'.At(e.proc), b);
      ProcStep(s, s', e.proc, b);
    }
  }

  lemma EndProc(s: State, e: Event, b: Bounds)
    requires 0 <= b.lag && (e.Release? || e.Drained? || e.Abandon?) && ProcOk(s, s.At(e.proc), b) && Next(s, e, b) != s
    ensures var s', p := Next(s, e, b), e.proc;
            && s' == SetProc(s, p, s'.At(p)) && ProcOk(s', s'.At(p), b)
            && !s'.At(p).Judged? && !s'.At(p).Published? && !s'.At(p).Settling?
            && (s'.At(p).HasNonce() ==> s.At(p).Writes() && s'.At(p).nonce == s.At(p).nonce && s'.At(p).since == s.At(p).since)
  {
  }

  /** What the re-read after a settle or a hold makes of the process. */
  lemma CheckProc(s: State, e: Event, b: Bounds)
    requires Asserted(b) && (e.EndSettle? || e.EndHold?) && ProcOk(s, s.At(e.proc), b) && Next(s, e, b) != s && Next(s, e, b).kept
    ensures var s', p := Next(s, e, b), e.proc;
            var t := SetProc(s, p, s'.At(p));
            && s' == t.(kept := s'.kept) && ProcOk(t, t.At(p), b)
            && (s.At(p).Settling? || s.At(p).Holding?) && s.now >= s.At(p).ends
            && (t.At(p) == Idle(0)
                || (t.At(p).Writes() && t.At(p).since == s.now && t.At(p).nonce == s.At(p).nonce == s.word))
  {
  }

  lemma CheckInv(s: State, e: Event, b: Bounds)
    requires Asserted(b) && Sound(s, b) && (e.EndSettle? || e.EndHold?) && Next(s, e, b).kept
    ensures Sound(Next(s, e, b), b)
  {
    var s', p := Next(s, e, b), e.proc;
    assert ProcOk(s, s.At(p), b);
    if s' != s {
      CheckProc(s, e, b);
      var t := SetProc(s, p, s'.At(p));
      if t.At(p).Writes() {
        StartInv(s, t, p, b);
      } else {
        QuietFits(s, t.At(p), b);
        ProcStep(s, t, p, b);
      }
      SameButKept(t, s', b);
    }
  }

  lemma SameButKept(s: State, s': State, b: Bounds)
    requires Sound(s, b) && s' == s.(kept := s'.kept)
    ensures Sound(s', b)
  {
    assert forall q: nat :: s'.At(q) == s.At(q);
    assert forall n | n in s.clears :: ClearOk(s, n, b) && ClearOk(s', n, b);
    forall q: nat
      ensures ProcOk(s', s'.At(q), b)
    {
      assert ProcOk(s, s.At(q), b);
    }
    forall n, since | Guarded(s, n, since, b)
      ensures Guarded(s', n, since, b)
    {
      assert forall q: nat :: Fits(s, s.At(q), s.flushed[n] + b.timeout, b) && Fits(s', s'.At(q), s'.flushed[n] + b.timeout, b);
    }
  }

  lemma NextSound(s: State, e: Event, b: Bounds)
    requires Declared(b) && Sound(s, b) && Next(s, e, b).kept
    ensures Sound(Next(s, e, b), b)
  {
    match e
    case Look(p, openedAt) => LookInv(s, p, openedAt, b);
    case Publish(p, nonce) =>
      if s.At(p).Judged? && nonce != 0 && nonce !in s.flushed {
        PublishInv(s, p, nonce, b);
      }
    case Judge(p) => if s.At(p).Published? { JudgeInv(s, p, b); }
    case EndSettle(_) => CheckInv(s, e, b);
    case EndHold(_) => CheckInv(s, e, b);
    case Withdraw(p) => if s.At(p).Withdrawing? { ClearStoreInv(s, p, b); }
    case ReleaseStore(p) => if s.At(p).Releasing? { ClearStoreInv(s, p, b); }
    case Release(_) => ProcEventInv(s, e, b);
    case Drained(_) => ProcEventInv(s, e, b);
    case Abandon(_) => ProcEventInv(s, e, b);
    case Land(nonce) => if nonce in s.inFlight { LandInv(s, nonce, b); }
    case LandClear(nonce) => if nonce in s.clears { LandClearInv(s, nonce, b); }
    case Advance(to) =>
      if s.now <= to {
        AdvanceInv(s, to, b);
        SameButKept(s.(now := to), Next(s, e, b), b);
      }
  }

  lemma NextInv(s: State, e: Event, b: Bounds)
    requires Declared(b) && Inv(s, b)
    ensures Inv(Next(s, e, b), b)
  {
    if Next(s, e, b).kept {
      NextSound(s, e, b);
    }
  }

  lemma {:induction false} RunInv(s: State, events: seq<Event>, b: Bounds)
    requires Declared(b) && Inv(s, b)
    ensures Inv(Run(s, events, b), b)
    decreases |events|
  {
    if events != [] {
      NextInv(s, events[0], b);
      RunInv(Next(s, events[0], b), events[1..], b);
    }
  }

  // ---------- main theorems ----------

  /**
   Commits on the word are serial: from the check that entitles a process to write, be it the confirmation of the
   lease or the recheck before a late stake is withdrawn, until its last write has landed, no other process is in
   such a span and no clear is on its way to the word.
   */
  ghost predicate Serial(s: State) {
    forall p: nat | s.At(p).Writes() :: s.clears == map[] && forall q: nat | q != p :: !s.At(q).Writes()
  }

  lemma SerialCommits(b: Bounds, start: int, events: seq<Event>)
    requires Declared(b) && Run(Init(start), events, b).kept
    ensures Serial(Run(Init(start), events, b))
  {
    InitInv(start, b);
    RunInv(Init(start), events, b);
  }

  /** When a process confirms the lease, every write of every earlier holder has landed. */
  lemma ConfirmFollowsLandings(b: Bounds, start: int, events: seq<Event>, p: nat)
    requires Declared(b) && Run(Init(start), events, b).kept
    requires var s := Run(Init(start), events, b); !s.At(p).Committing? && Next(s, EndSettle(p), b).At(p).Committing?
    ensures var s := Run(Init(start), events, b); s.clears == map[] && forall q: nat :: !s.At(q).Writes()
  {
    InitInv(start, b);
    RunInv(Init(start), events, b);
    NoTenureYet(Run(Init(start), events, b), p, b);
  }

  /**
   A holder's nonce is taken from under it only by a late stake or a steal: while it commits, the word carries its
   nonce or a stake flushed after it confirmed, up to the lag, and no process can confirm over it.
   */
  lemma HolderIsNotDisplaced(b: Bounds, start: int, events: seq<Event>, p: nat, e: Event)
    requires Declared(b) && Run(Init(start), events, b).kept && Run(Init(start), events, b).At(p).Committing?
    ensures var s := Run(Init(start), events, b);
            && s.word != 0 && s.word in s.flushed
            && (s.word == s.At(p).nonce || s.flushed[s.word] >= s.At(p).since - b.lag)
            && (e.EndSettle? && e.proc != p ==> !Next(s, e, b).At(e.proc).Committing?)
  {
    InitInv(start, b);
    RunInv(Init(start), events, b);
    var s := Run(Init(start), events, b);
    assert Guarded(s, s.At(p).nonce, s.At(p).since, b);
    if e.EndSettle? && e.proc != p && !s.At(e.proc).Committing? && Next(s, e, b).At(e.proc).Committing? {
      NoTenureYet(s, e.proc, b);
      assert false;
    }
  }
}
