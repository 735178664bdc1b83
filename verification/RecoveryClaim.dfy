/**
 The claim procedure as recovery authorities run it on one dead peer's claim slot, and the seizures it guards
 (src/core/algo/stake_claim.hpp, src/core/policy/recovery_authority.cpp, src/core/algo/recovery.cpp, bounds in
 src/config.hpp). The word carries the authority's own id: no value is fresh, no value times out, and the slot
 opens again when it is empty, when it already carries the reader's id, or when the recorded authority is dead.

 Time is explicit as in `StakeClaim`: stores land at most the lag after their flush, reads see memory. An
 authority reads the record of the domain it recovers, checks that the claim still carries its id, and only
 then writes. Any number of authorities compete, stall up to the declared bound, and die. Whoever finishes a
 recovery sweeps the claims of the recovered peer, and a peer may reset a stake that has not settled: both look at
 the word and clear it with no settle behind them, on a bound of their own.
 */
module RecoveryClaim {
  import opened Basics

  /**
   `stall` bounds the time from a check of the own id to the flush it guards, `sweep` the same of a clear that no
   settle or hold precedes; `dead` is how long a death goes undeclared. `earlyReset` says whether a late stake may
   be reset before its hold is over.
   */
  datatype Bounds = Bounds(window: int, settle: int, lag: int, stall: int, lateHold: int, dead: int, sweep: int, earlyReset: bool)

  ghost predicate Declared(b: Bounds) {
    && 0 < b.window <= b.stall && 0 <= b.lag
    && b.window + 2 * b.lag <= b.settle
    && b.lateHold == b.stall + 2 * b.lag
    && b.stall + b.lag <= b.dead
    && 0 < b.sweep <= b.stall
  }

  /** A sweep has landed before any stake it might erase is confirmed, and late stakes are held to the end. */
  ghost predicate Sound(b: Bounds) {
    Declared(b) && b.sweep + 2 * b.lag <= b.settle && !b.earlyReset
  }

  /** Whose, when flushed, and the reading of the slot it was made from. */
  datatype Stake = Stake(owner: nat, flush: int, readAt: int, version: nat)

  /** A store on its way to memory, made within the stall of a check at `since`. */
  datatype Store = Store(since: int, flush: int)

  /** A clear with no settle behind it: the stake it saw, and whether it has been flushed. */
  datatype Sweep =
    | Looked(stake: nat, since: int)
    | Sent(stake: nat, since: int, flush: int)

  /** A takeover in flight: whose, what it was computed from, and its store. */
  datatype Seizure = Seizure(authority: nat, base: nat, store: Store)

  /** One takeover of the domain: who made it and how many takeovers its reading had seen. */
  datatype Takeover = Takeover(authority: nat, base: nat)

  datatype Proc =
    | Idle
    | Judged(openedAt: int, readAt: int, version: nat)                    // read the slot as free, about to publish
    | Published(stake: nat, openedAt: int, readAt: int, version: nat)     // flushed, about to ask whether it was late
    | Settling(stake: nat, ends: int, readAt: int, version: nat)
    | Settled(stake: nat)                                                 // confirmed authority
    | Reading(stake: nat, base: nat)                                      // has read the record, about to check the claim
    | Acting(stake: nat, base: nat, since: int)                           // checked, flushing what the check guards
    | Holding(stake: nat, ends: int)                                      // staked late
    | Withdrawing(stake: nat, since: int)                                 // found its own id, about to clear it
    | Dead(at: int)
  {
    predicate HasStake() {
      Published? || Settling? || Settled? || Reading? || Acting? || Holding? || Withdrawing?
    }

    predicate Authority() {
      Settled? || Reading? || Acting?
    }

    predicate Spans() {
      Acting? || Withdrawing?
    }
  }

  datatype State = State(
    now: int,
    word: nat,                      // a stake, or zero
    version: nat,
    landedAt: int,
    stakes: map<nat, Stake>,
    inFlight: set<nat>,             // stakes that have not landed
    clears: map<nat, Store>,        // by the peer that clears
    sweeps: map<nat, Sweep>,
    writes: map<nat, Seizure>,      // takeovers in flight
    taken: seq<Takeover>,           // takeovers landed, in order
    procs: map<nat, Proc>)
  {
    function At(p: nat): Proc {
      if p in procs then procs[p] else Idle
    }

    predicate Visible(u: nat) {
      u in stakes && (u == word || u in inFlight)
    }

    predicate Shows(p: nat) {
      word in stakes && stakes[word].owner == p
    }

    predicate Writing(p: nat) {
      exists k | k in writes :: writes[k].authority == p
    }

    /** Somebody is about to clear the stake with a sweep, or has. */
    predicate Swept(u: nat) {
      exists k | k in sweeps :: sweeps[k].stake == u
    }

    /** A check the peer has made, or a store it has flushed, is still outstanding. */
    predicate Open(p: nat) {
      At(p).Spans() || p in clears || Writing(p)
    }
  }

  function Init(now: int): State {
    State(now, 0, 0, now, map[], {}, map[], map[], map[], [], map[])
  }

  datatype Event =
    | Look(proc: nat, openedAt: int)
    | Publish(proc: nat, stake: nat)
    | Judge(proc: nat)
    | Tick(proc: nat)                 // the settle or a later tick re-reads the claim
    | ReadRecord(proc: nat)
    | Check(proc: nat)                // isClaimHeld
    | Write(proc: nat, id: nat)       // flush a takeover the check guards
    | Finish(proc: nat)               // the writes behind one check are over
    | EndHold(proc: nat)
    | Release(proc: nat)              // resetClaim of a confirmed authority: check the own id
    | Retract(proc: nat)              // flush the clear
    | Reset(proc: nat, id: nat)       // resetClaim of a stake not confirmed, or the last look of a peer that leaves
    | SweepCheck(id: nat)             // retractClaimsBy finds the id of a recovered peer
    | SweepStore(id: nat)             // flush that clear, or a reset's
    | Abandon(id: nat)                // whoever looked dies before the flush
    | Die(proc: nat)
    | Land(stake: nat)
    | LandClear(proc: nat)
    | LandSweep(id: nat)
    | LandWrite(id: nat)
    | Advance(to: int)

  function SetProc(s: State, p: nat, proc: Proc): State {
    s.(procs := s.procs[p := proc])
  }

  function Landed(s: State, word: nat): State {
    s.(word := word, version := s.version + 1, landedAt := s.now)
  }

  /** Declared dead. */
  predicate GivenUp(s: State, p: nat, b: Bounds) {
    s.At(p).Dead? && s.now >= s.At(p).at + b.dead
  }

  /** The slot as `p` judges it: empty, its own, or recorded by a peer declared dead. */
  predicate IsFree(s: State, p: nat, b: Bounds) {
    s.word in s.stakes ==> s.stakes[s.word].owner == p || GivenUp(s, s.stakes[s.word].owner, b)
  }

  /** Everything `p` has staked has reached the word. */
  predicate Drained(s: State, p: nat) {
    forall u | u in s.inFlight && u in s.stakes :: s.stakes[u].owner != p
  }

  /** `p` may drop its stake without a settle behind it. */
  predicate MayReset(s: State, p: nat, b: Bounds) {
    (s.At(p).Idle? && Drained(s, p)) || s.At(p).Settling? || (s.At(p).Holding? && b.earlyReset)
  }

  /** What `p` finds of its own: a stake still on its way, which its own read follows, or the word; zero for nothing. */
  function Sees(s: State, p: nat): nat {
    if s.At(p).HasStake() && s.At(p).stake in s.inFlight then s.At(p).stake else if s.Shows(p) then s.word else 0
  }

  predicate MayAdvance(s: State, to: int, b: Bounds) {
    && s.now <= to
    && (forall u | u in s.inFlight && u in s.stakes :: to <= s.stakes[u].flush + b.lag)
    && (forall p | p in s.clears :: to <= s.clears[p].flush + b.lag)
    && (forall k | k in s.writes :: to <= s.writes[k].store.flush + b.lag)
    && (forall k | k in s.sweeps :: if s.sweeps[k].Sent? then to <= s.sweeps[k].flush + b.lag else to < s.sweeps[k].since + b.sweep)
    && (forall p | p in s.procs && s.procs[p].Spans() :: to < s.procs[p].since + b.stall)
  }

  function Next(s: State, e: Event, b: Bounds): State {
    match e
    case Look(p, openedAt) =>
      if s.At(p).Idle? && openedAt <= s.now && IsFree(s, p, b) then SetProc(s, p, Judged(openedAt, s.now, s.version)) else s
    case Publish(p, u) =>
      if s.At(p).Judged? && u != 0 && u !in s.stakes then
        var me := s.At(p);
        SetProc(s.(stakes := s.stakes[u := Stake(p, s.now, me.readAt, me.version)], inFlight := s.inFlight + {u}),
                p, Published(u, me.openedAt, me.readAt, me.version))
      else s
    case Judge(p) =>
      if s.At(p).Published? then
        var me := s.At(p);
        SetProc(s, p, if s.now >= me.openedAt + b.window then Holding(me.stake, s.now + b.lateHold)
                      else Settling(me.stake, s.now + b.settle, me.readAt, me.version))
      else s
    case Tick(p) =>
      if (s.At(p).Settling? && s.now >= s.At(p).ends) || s.At(p).Settled?
      then SetProc(s, p, if s.Shows(p) then Settled(s.At(p).stake) else Idle)
      else s
    case ReadRecord(p) => if s.At(p).Settled? then SetProc(s, p, Reading(s.At(p).stake, |s.taken|)) else s
    case Check(p) =>
      if s.At(p).Reading? then
        SetProc(s, p, if s.Shows(p) then Acting(s.At(p).stake, s.At(p).base, s.now) else Settled(s.At(p).stake))
      else s
    case Write(p, k) =>
      if s.At(p).Acting? && k !in s.writes then
        s.(writes := s.writes[k := Seizure(p, s.At(p).base, Store(s.At(p).since, s.now))])
      else s
    case Finish(p) => if s.At(p).Acting? then SetProc(s, p, Settled(s.At(p).stake)) else s
    case EndHold(p) =>
      if s.At(p).Holding? && s.now >= s.At(p).ends
      then SetProc(s, p, if s.Shows(p) then Withdrawing(s.At(p).stake, s.now) else Idle)
      else s
    case Release(p) =>
      if s.At(p).Settled? then SetProc(s, p, if s.Shows(p) then Withdrawing(s.At(p).stake, s.now) else Idle) else s
    case Retract(p) =>
      if s.At(p).Withdrawing? then SetProc(s.(clears := s.clears[p := Store(s.At(p).since, s.now)]), p, Idle) else s
    case Reset(p, k) =>
      if MayReset(s, p, b) && k !in s.sweeps then
        SetProc(if Sees(s, p) != 0 then s.(sweeps := s.sweeps[k := Looked(Sees(s, p), s.now)]) else s, p, Idle)
      else s
    case SweepCheck(k) =>
      if s.word in s.stakes && GivenUp(s, s.stakes[s.word].owner, b) && k !in s.sweeps
      then s.(sweeps := s.sweeps[k := Looked(s.word, s.now)]) else s
    case SweepStore(k) =>
      if k in s.sweeps && s.sweeps[k].Looked?
      then s.(sweeps := s.sweeps[k := Sent(s.sweeps[k].stake, s.sweeps[k].since, s.now)]) else s
    case Abandon(k) =>
      if k in s.sweeps && s.sweeps[k].Looked? && s.sweeps[k].stake in s.stakes && s.At(s.stakes[s.sweeps[k].stake].owner).Dead?
      then s.(sweeps := s.sweeps - {k}) else s
    case Die(p) => if s.At(p).Dead? then s else SetProc(s, p, Dead(s.now))
    case Land(u) => if u in s.inFlight then Landed(s.(inFlight := s.inFlight - {u}), u) else s
    case LandClear(p) => if p in s.clears then Landed(s.(clears := s.clears - {p}), 0) else s
    case LandSweep(k) =>
      if k in s.sweeps && s.sweeps[k].Sent? && s.sweeps[k].stake !in s.inFlight then Landed(s.(sweeps := s.sweeps - {k}), 0) else s
    case LandWrite(k) =>
      if k in s.writes
      then s.(writes := s.writes - {k}, taken := s.taken + [Takeover(s.writes[k].authority, s.writes[k].base)]) else s
    case Advance(to) => if MayAdvance(s, to, b) then s.(now := to) else s
  }

  function Run(s: State, events: seq<Event>, b: Bounds): State
    decreases |events|
  {
    if events == [] then s else Run(Next(s, events[0], b), events[1..], b)
  }

  // ---------- the invariant ----------

  /** A read that led to a stake of `p` saw the slot free, unless a store has landed since. */
  ghost predicate ReadOk(s: State, p: nat, readAt: int, version: nat) {
    && version <= s.version && readAt <= s.now
    && (version < s.version ==> readAt <= s.landedAt)
    && (version == s.version && s.word in s.stakes ==> s.stakes[s.word].owner == p || s.At(s.stakes[s.word].owner).Dead?)
  }

  /** Every stake of `p` was flushed by `at`. */
  ghost predicate StakesBy(s: State, p: nat, at: int) {
    forall u | u in s.stakes && s.stakes[u].owner == p :: s.stakes[u].flush <= at
  }

  ghost predicate Hidden(s: State, p: nat) {
    Drained(s, p) && !s.Shows(p)
  }

  ghost predicate StakeOk(s: State, p: nat, u: nat) {
    u in s.stakes && s.stakes[u].owner == p && StakesBy(s, p, s.stakes[u].flush)
  }

  ghost predicate ClearedBy(s: State, p: nat, at: int) {
    p in s.clears ==> s.clears[p].flush <= at
  }

  /** Whatever of `p` shows or will, but for `u`, a clear or a sweep follows. */
  ghost predicate Covered(s: State, p: nat, u: nat) {
    forall v | s.Visible(v) && s.stakes[v].owner == p :: v == u || s.Swept(v) || (v == s.word && p in s.clears)
  }

  ghost predicate ProcOk(s: State, p: nat, b: Bounds) {
    && (s.At(p).HasStake() ==> StakeOk(s, p, s.At(p).stake))
    && match s.At(p)
       case Idle => Covered(s, p, 0)
       case Judged(openedAt, readAt, version) =>
         openedAt <= readAt && ReadOk(s, p, readAt, version) && Covered(s, p, 0)
       case Published(u, openedAt, readAt, version) =>
         && openedAt <= readAt <= s.stakes[u].flush && s.stakes[u].readAt == readAt && s.stakes[u].version == version
         && ReadOk(s, p, readAt, version) && ClearedBy(s, p, s.stakes[u].flush) && Covered(s, p, u)
       case Settling(u, ends, readAt, version) =>
         && readAt <= s.stakes[u].flush < readAt + b.window && s.stakes[u].flush + b.settle <= ends
         && s.stakes[u].readAt == readAt && s.stakes[u].version == version
         && ReadOk(s, p, readAt, version) && ClearedBy(s, p, s.stakes[u].flush) && Covered(s, p, u)
       case Settled(u) => s.stakes[u].flush + b.settle <= s.now && p !in s.clears
       case Reading(u, base) => s.stakes[u].flush + b.settle <= s.now && p !in s.clears
       case Acting(u, base, since) =>
         s.stakes[u].flush + b.settle <= since <= s.now < since + b.stall && p !in s.clears
       case Holding(u, ends) => s.stakes[u].flush + b.lateHold <= ends && ClearedBy(s, p, s.stakes[u].flush) && Covered(s, p, u)
       case Withdrawing(u, since) =>
         s.stakes[u].flush + b.window + 2 * b.lag <= since <= s.now < since + b.stall && p !in s.clears
       case Dead(at) => at <= s.now && StakesBy(s, p, at)
  }

  ghost predicate StoreOk(s: State, store: Store, b: Bounds) {
    store.since <= store.flush <= s.now <= store.flush + b.lag && store.flush < store.since + b.stall
  }

  ghost predicate MemoryOk(s: State, b: Bounds) {
    && 0 !in s.stakes && s.inFlight <= s.stakes.Keys && s.word !in s.inFlight && s.landedAt <= s.now
    && (s.word == 0 || s.word in s.stakes)
    && (s.word != 0 ==> s.landedAt <= s.stakes[s.word].flush + b.lag)
    && (forall u | u in s.stakes :: s.stakes[u].flush <= s.now)
    && (forall u | u in s.inFlight :: s.now <= s.stakes[u].flush + b.lag)
    && (forall p | p in s.clears :: StoreOk(s, s.clears[p], b))
    && (forall k | k in s.writes :: StoreOk(s, s.writes[k].store, b))
  }

  /** Whoever the sweep clears is dead, or has reset the stake and published none since but after that look. */
  ghost predicate OwnerOk(s: State, w: Sweep) {
    && w.stake in s.stakes
    && var o := s.stakes[w.stake].owner;
       s.At(o).Dead? || (s.At(o).HasStake() ==> s.At(o).stake in s.stakes && s.stakes[s.At(o).stake].flush >= w.since)
  }

  /** What a sweep will erase is what it saw, or too young to be confirmed when the sweep lands. */
  ghost predicate SweepOk(s: State, w: Sweep, b: Bounds) {
    && w.since <= s.now
    && (w.Looked? ==> s.now < w.since + b.sweep)
    && (w.Sent? ==> w.since <= w.flush < w.since + b.sweep && w.flush <= s.now <= w.flush + b.lag)
    && OwnerOk(s, w)
    && (if w.stake in s.inFlight then TimelyOk(s, s.stakes[w.stake], b)
        else s.word == 0 || s.word == w.stake || (s.word in s.stakes && s.stakes[s.word].flush >= w.since - b.lag))
  }

  /** A stake on its way was made in time, from a slot read as free. */
  ghost predicate TimelyOk(s: State, stake: Stake, b: Bounds) {
    stake.flush < stake.readAt + b.window && ReadOk(s, stake.owner, stake.readAt, stake.version)
  }

  ghost predicate SweepsOk(s: State, b: Bounds) {
    forall k | k in s.sweeps :: SweepOk(s, s.sweeps[k], b)
  }

  /** What keeps `q` from confirming: its stakes are gone for good, or the next one will be judged late. */
  ghost predicate Harmless(s: State, q: nat, b: Bounds) {
    match s.At(q)
    case Judged(openedAt, _, _) => s.now >= openedAt + b.window
    case Published(_, openedAt, _, _) => Hidden(s, q) || s.now >= openedAt + b.window
    case Settling(_, _, _, _) => Hidden(s, q)
    case Settled(_) => Hidden(s, q)
    case Reading(_, _) => Hidden(s, q)
    case Acting(_, _, _) => Hidden(s, q)
    case _ => true
  }

  /** A stake whose reading came after `flush` settles only once a store flushed then has landed. */
  ghost predicate Later(s: State, q: nat, flush: int) {
    match s.At(q)
    case Judged(_, readAt, _) => readAt >= flush
    case Published(_, _, readAt, _) => readAt >= flush
    case Settling(_, _, readAt, _) => readAt >= flush
    case _ => false
  }

  /** Everything of others that can still be read is too young to be withdrawn before a span begun at `since` is over. */
  ghost predicate Young(s: State, p: nat, since: int, b: Bounds) {
    forall u | s.Visible(u) && s.stakes[u].owner != p :: s.stakes[u].flush >= since - b.lag
  }

  /** From the check of `p` to the flush it guards. */
  ghost predicate Guarded(s: State, p: nat, since: int, b: Bounds) {
    s.word != 0 && s.sweeps == map[] && Young(s, p, since, b) && forall q: nat | q != p :: Harmless(s, q, b)
  }

  /** From that flush to its landing. */
  ghost predicate Sheltered(s: State, p: nat, store: Store, b: Bounds) {
    Young(s, p, store.since, b) && forall q: nat | q != p :: Harmless(s, q, b) || Later(s, q, store.flush)
  }

  ghost predicate OpenOk(s: State, p: nat, b: Bounds) {
    && (s.At(p).Spans() ==> Guarded(s, p, s.At(p).since, b))
    && (p in s.clears ==> Sheltered(s, p, s.clears[p], b))
    && (forall k | k in s.writes && s.writes[k].authority == p :: Sheltered(s, p, s.writes[k].store, b))
  }

  ghost predicate OneOpen(s: State) {
    forall p: nat, q: nat | s.Open(p) && s.Open(q) :: p == q
  }

  /** Every takeover landed since the reading `base` was made is `p`'s own. */
  ghost predicate Fresh(s: State, p: nat, base: nat) {
    base <= |s.taken| && forall i | base <= i < |s.taken| :: s.taken[i].authority == p
  }

  ghost predicate ReadingsOk(s: State, p: nat) {
    && (s.At(p).Reading? && s.Shows(p) ==> Fresh(s, p, s.At(p).base))
    && (s.At(p).Acting? ==> Fresh(s, p, s.At(p).base))
    && (forall k | k in s.writes && s.writes[k].authority == p :: Fresh(s, p, s.writes[k].base))
  }

  ghost predicate TakenOk(s: State) {
    forall j | 0 <= j < |s.taken| ::
      s.taken[j].base <= j && forall i | s.taken[j].base <= i < j :: s.taken[i].authority == s.taken[j].authority
  }

  ghost predicate Inv(s: State, b: Bounds) {
    && MemoryOk(s, b) && SweepsOk(s, b) && OneOpen(s) && TakenOk(s)
    && forall p: nat :: ProcOk(s, p, b) && OpenOk(s, p, b) && ReadingsOk(s, p)
  }

  lemma InitInv(now: int, b: Bounds)
    ensures Inv(Init(now), b)
  {
  }

  // ---------- one process moves ----------

  /** What another peer's check or store asks of a process. */
  ghost predicate Suits(s: State, p: nat, q: nat, b: Bounds) {
    && (s.At(q).Spans() ==> Harmless(s, p, b))
    && (q in s.clears ==> Harmless(s, p, b) || Later(s, p, s.clears[q].flush))
    && (forall k | k in s.writes && s.writes[k].authority == q :: Harmless(s, p, b) || Later(s, p, s.writes[k].store.flush))
  }

  /** A peer that is dead stays so, and a stake it has is the one it had or flushed now. */
  ghost predicate Follows(s: State, s': State, p: nat) {
    && (s.At(p).Dead? ==> s'.At(p).Dead?)
    && (s'.At(p).HasStake() ==>
          && s'.At(p).stake in s'.stakes
          && ((s.At(p).HasStake() && s'.At(p).stake == s.At(p).stake) || s'.stakes[s'.At(p).stake].flush >= s.now))
  }

  /** The word stands as it was read, or another store has landed now. */
  ghost predicate ReadsOn(s: State, s': State) {
    || (s'.version == s.version && s'.word == s.word && s'.landedAt == s.landedAt)
    || (s'.version == s.version + 1 && s'.landedAt == s.now)
  }

  lemma SweepsStand(s: State, s': State, b: Bounds)
    requires SweepsOk(s, b) && s'.now == s.now && ReadsOn(s, s') && MemoryOk(s, b) && 0 !in s'.stakes
    requires forall k | k in s'.sweeps :: k in s.sweeps && s'.sweeps[k] == s.sweeps[k]
    requires forall u | u in s.stakes :: u in s'.stakes && s'.stakes[u] == s.stakes[u]
    requires forall u | u in s.stakes && u in s'.inFlight :: u in s.inFlight
    requires forall u | u in s.inFlight && u !in s'.inFlight :: s'.word == u
    requires s'.word == s.word || s'.word == 0 || (s'.word in s'.stakes && s'.stakes[s'.word].flush >= s.now - b.lag)
    requires forall p: nat :: Follows(s, s', p)
    ensures SweepsOk(s', b)
  {
    forall k | k in s'.sweeps
      ensures SweepOk(s', s'.sweeps[k], b)
    {
      var w := s.sweeps[k];
      assert SweepOk(s, w, b);
      assert Follows(s, s', s.stakes[w.stake].owner);
      if w.stake in s'.inFlight {
        ReadStands(s, s', s.stakes[w.stake]);
      }
    }
  }

  lemma ReadStands(s: State, s': State, stake: Stake)
    requires ReadOk(s, stake.owner, stake.readAt, stake.version) && ReadsOn(s, s') && s'.now == s.now
    requires s.word in s.stakes ==> s.word in s'.stakes && s'.stakes[s.word] == s.stakes[s.word]
    requires s'.word in s'.stakes && s'.word == s.word ==> s.word in s.stakes
    requires forall p: nat :: Follows(s, s', p)
    ensures ReadOk(s', stake.owner, stake.readAt, stake.version)
  {
    if s.word in s.stakes {
      assert Follows(s, s', s.stakes[s.word].owner);
    }
  }

  /** Nothing that held `q` back is lost. */
  ghost predicate NoWorse(s: State, s': State, q: nat, b: Bounds) {
    (Harmless(s, q, b) ==> Harmless(s', q, b)) && forall f :: Later(s, q, f) ==> Later(s', q, f)
  }

  /** The checks and stores of `q` stand where nothing new shows and nobody is set free. */
  lemma OpenFollows(s: State, s': State, q: nat, b: Bounds)
    requires OpenOk(s, q, b) && s'.At(q) == s.At(q) && (s.At(q).Spans() ==> s'.word != 0 && s'.sweeps == map[])
    requires q in s'.clears ==> q in s.clears && s'.clears[q] == s.clears[q]
    requires forall k | k in s'.writes && s'.writes[k].authority == q :: k in s.writes && s'.writes[k] == s.writes[k]
    requires forall u | s'.Visible(u) :: s.Visible(u) && s'.stakes[u] == s.stakes[u]
    requires forall r: nat | r != q :: NoWorse(s, s', r, b)
    ensures OpenOk(s', q, b)
  {
    forall since | Young(s, q, since, b)
      ensures Young(s', q, since, b)
    {
    }
    forall store: Store | Sheltered(s, q, store, b)
      ensures Sheltered(s', q, store, b)
    {
      forall r: nat | r != q
        ensures Harmless(s', r, b) || Later(s', r, store.flush)
      {
        assert NoWorse(s, s', r, b);
      }
    }
    if s.At(q).Spans() {
      forall r: nat | r != q
        ensures Harmless(s', r, b)
      {
        assert NoWorse(s, s', r, b);
      }
    }
  }

  /** Stores in flight stay as they are. */
  lemma StoresStand(s: State, s': State, b: Bounds)
    requires MemoryOk(s, b) && s'.now == s.now
    requires forall p | p in s'.clears :: p in s.clears && s'.clears[p] == s.clears[p]
    requires forall k | k in s'.writes :: k in s.writes && s'.writes[k] == s.writes[k]
    ensures (forall p | p in s'.clears :: StoreOk(s', s'.clears[p], b)) && forall k | k in s'.writes :: StoreOk(s', s'.writes[k].store, b)
  {
    assert forall p | p in s'.clears :: StoreOk(s, s.clears[p], b);
    assert forall k | k in s'.writes :: StoreOk(s, s.writes[k].store, b);
  }

  lemma OthersStand(s: State, s': State, p: nat, q: nat, b: Bounds)
    requires s' == SetProc(s, p, s'.At(p)) && (s.At(p).Dead? ==> s'.At(p).Dead?) && q != p && ProcOk(s, q, b)
    ensures s'.At(q) == s.At(q) && ProcOk(s', q, b)
    ensures Harmless(s, q, b) ==> Harmless(s', q, b)
    ensures forall f :: Later(s, q, f) ==> Later(s', q, f)
  {
  }

  /** Shared memory stays, `p` moves without making a check. */
  lemma ProcStep(s: State, s': State, p: nat, b: Bounds)
    requires Inv(s, b) && s' == SetProc(s, p, s'.At(p)) && (s.At(p).Dead? ==> s'.At(p).Dead?)
    requires ProcOk(s', p, b) && ReadingsOk(s', p) && !s'.At(p).Spans()
    requires s'.At(p).HasStake() ==> s.At(p).HasStake() && s'.At(p).stake == s.At(p).stake
    requires forall q: nat | q != p && s.Open(q) :: Suits(s', p, q, b)
    ensures Inv(s', b)
  {
    forall q: nat
      ensures ProcOk(s', q, b) && OpenOk(s', q, b) && ReadingsOk(s', q) && Follows(s, s', q)
    {
      assert ProcOk(s, q, b) && ReadingsOk(s, q);
      if q != p {
        OthersStand(s, s', p, q, b);
      }
      OpenStands(s, s', p, q, b);
    }
    SweepsStand(s, s', b);
    StillOne(s, s');
  }

  lemma StillOne(s: State, s': State)
    requires OneOpen(s) && forall q: nat | s'.Open(q) :: s.Open(q)
    ensures OneOpen(s')
  {
  }

  lemma OpenStands(s: State, s': State, p: nat, q: nat, b: Bounds)
    requires Inv(s, b) && s' == SetProc(s, p, s'.At(p)) && (s.At(p).Dead? ==> s'.At(p).Dead?) && !s'.At(p).Spans()
    requires q != p && s.Open(q) ==> Suits(s', p, q, b)
    ensures OpenOk(s', q, b)
  {
    assert OpenOk(s, q, b);
    forall r: nat | r != q && r != p
      ensures Harmless(s, r, b) ==> Harmless(s', r, b)
      ensures forall f :: Later(s, r, f) ==> Later(s', r, f)
    {
      assert ProcOk(s, r, b);
      OthersStand(s, s', p, r, b);
    }
    assert q != p ==> s'.At(q) == s.At(q);
  }

  lemma SuitsNow(s: State, p: nat, q: nat, b: Bounds)
    requires Inv(s, b) && q != p
    ensures Suits(s, p, q, b)
  {
    assert OpenOk(s, q, b);
    assert Harmless(s, p, b) || !Harmless(s, p, b);
  }

  /** While a checked process has not flushed, the word shows a stake whose owner is not yet given up. */
  lemma SpanShields(s: State, q: nat, b: Bounds)
    requires Declared(b) && Inv(s, b) && s.At(q).Spans()
    ensures s.sweeps == map[] && s.word in s.stakes && !GivenUp(s, s.stakes[s.word].owner, b)
  {
    assert ProcOk(s, q, b) && OpenOk(s, q, b);
    assert s.word in s.stakes && s.Visible(s.word);
    assert ProcOk(s, s.stakes[s.word].owner, b);
  }

  /** While a checked process has not flushed, nobody else reads the slot as free. */
  lemma SpanBlocks(s: State, p: nat, q: nat, b: Bounds)
    requires Declared(b) && Inv(s, b) && s.At(p).Idle? && q != p && s.At(q).Spans()
    ensures !IsFree(s, p, b) && !s.Shows(p)
  {
    SpanShields(s, q, b);
    assert ProcOk(s, p, b);
    if s.Shows(p) {
      assert s.Open(p) && s.Open(q);
      assert false;
    }
  }

  lemma LookInv(s: State, p: nat, openedAt: int, b: Bounds)
    requires Declared(b) && Inv(s, b) && s.At(p).Idle? && openedAt <= s.now && IsFree(s, p, b)
    ensures Inv(Next(s, Look(p, openedAt), b), b)
  {
    var s' := Next(s, Look(p, openedAt), b);
    assert ProcOk(s, p, b) && ReadingsOk(s, p);
    forall q: nat | q != p && s.Open(q)
      ensures Suits(s', p, q, b)
    {
      assert q in s.clears ==> StoreOk(s, s.clears[q], b);
      assert forall k | k in s.writes :: StoreOk(s, s.writes[k].store, b);
      if s.At(q).Spans() {
        SpanBlocks(s, p, q, b);
        assert false;
      }
    }
    ProcStep(s, s', p, b);
  }

  lemma JudgeInv(s: State, p: nat, b: Bounds)
    requires Declared(b) && Inv(s, b) && s.At(p).Published?
    ensures Inv(Next(s, Judge(p), b), b)
  {
    var s' := Next(s, Judge(p), b);
    assert ProcOk(s, p, b) && ReadingsOk(s, p);
    forall q: nat | q != p && s.Open(q)
      ensures Suits(s', p, q, b)
    {
      SuitsNow(s, p, q, b);
      assert Hidden(s, p) ==> Hidden(s', p);
    }
    ProcStep(s, s', p, b);
  }

  /** Own stakes and clears older than a settle have landed. */
  lemma OwnHasLanded(s: State, p: nat, b: Bounds)
    requires Declared(b) && MemoryOk(s, b) && s.At(p).HasStake() && StakeOk(s, p, s.At(p).stake)
    requires s.stakes[s.At(p).stake].flush + b.window + 2 * b.lag <= s.now
    ensures Drained(s, p)
    ensures ClearedBy(s, p, s.stakes[s.At(p).stake].flush) ==> p !in s.clears
  {
    assert p in s.clears ==> StoreOk(s, s.clears[p], b);
  }

  /** At the end of a settle or a hold, or confirmed. */
  ghost predicate Ripe(s: State, p: nat) {
    s.At(p).Authority() || ((s.At(p).Settling? || s.At(p).Holding?) && s.now >= s.At(p).ends)
  }

  /** Whoever finds its own id after a settle, as an authority or after a hold is alone. */
  lemma AloneAtCheck(s: State, p: nat, q: nat, b: Bounds)
    requires Declared(b) && Inv(s, b) && s.Shows(p) && q != p && Ripe(s, p)
    ensures !s.Open(q)
  {
    assert q in s.clears ==> StoreOk(s, s.clears[q], b);
    assert forall k | k in s.writes :: StoreOk(s, s.writes[k].store, b);
    SuitsNow(s, p, q, b);
    assert s.Visible(s.word);
    assert ProcOk(s, p, b) && ProcOk(s, q, b) && OpenOk(s, q, b);
  }

  /** And no sweep is left that could erase it. */
  lemma NoSweepAtCheck(s: State, p: nat, b: Bounds)
    requires Sound(b) && Inv(s, b) && s.Shows(p) && Ripe(s, p)
    ensures s.sweeps == map[]
  {
    assert ProcOk(s, p, b);
    forall k | k in s.sweeps
      ensures false
    {
    }
  }

  lemma TickInv(s: State, p: nat, b: Bounds)
    requires Sound(b) && Inv(s, b) && ((s.At(p).Settling? && s.now >= s.At(p).ends) || s.At(p).Settled?)
    ensures Inv(Next(s, Tick(p), b), b)
  {
    var s' := Next(s, Tick(p), b);
    assert ProcOk(s, p, b) && ReadingsOk(s, p);
    OwnHasLanded(s, p, b);
    forall q: nat | q != p && s.Open(q)
      ensures Suits(s', p, q, b)
    {
      if s.Shows(p) {
        AloneAtCheck(s, p, q, b);
      }
    }
    ProcStep(s, s', p, b);
  }

  lemma ReadRecordInv(s: State, p: nat, b: Bounds)
    requires Declared(b) && Inv(s, b) && s.At(p).Settled?
    ensures Inv(Next(s, ReadRecord(p), b), b)
  {
    var s' := Next(s, ReadRecord(p), b);
    assert ProcOk(s, p, b) && ReadingsOk(s, p);
    forall q: nat | q != p && s.Open(q)
      ensures Suits(s', p, q, b)
    {
      SuitsNow(s, p, q, b);
      assert Hidden(s, p) ==> Hidden(s', p);
    }
    ProcStep(s, s', p, b);
  }

  /** A check that fails, and the end of a hold or of a claim that finds another id. */
  lemma LetGoInv(s: State, e: Event, b: Bounds)
    requires Sound(b) && Inv(s, b)
    requires match e
             case Check(p) => s.At(p).Reading? && !s.Shows(p)
             case EndHold(p) => s.At(p).Holding? && s.now >= s.At(p).ends && !s.Shows(p)
             case Release(p) => s.At(p).Settled? && !s.Shows(p)
             case _ => false
    ensures Inv(Next(s, e, b), b)
  {
    var s', p := Next(s, e, b), e.proc;
    assert ProcOk(s, p, b) && ReadingsOk(s, p);
    OwnHasLanded(s, p, b);
    NothingLeft(s, p);
    forall q: nat | q != p && s.Open(q)
      ensures Suits(s', p, q, b)
    {
      SuitsNow(s, p, q, b);
      assert Hidden(s, p) ==> Hidden(s', p);
    }
    ProcStep(s, s', p, b);
  }

  lemma NothingLeft(s: State, p: nat)
    requires Drained(s, p) && !s.Shows(p)
    ensures forall u :: Covered(s, p, u)
  {
  }

  /** A death, and a reset that finds nothing of its own. */
  lemma DropInv(s: State, p: nat, proc: Proc, b: Bounds)
    requires Declared(b) && Inv(s, b) && !s.At(p).Dead? && (proc == Dead(s.now) || (proc == Idle && MayReset(s, p, b) && Sees(s, p) == 0))
    ensures Inv(SetProc(s, p, proc), b)
  {
    var s' := SetProc(s, p, proc);
    assert ProcOk(s, p, b) && ReadingsOk(s, p);
    if proc == Idle {
      assert Covered(s, p, 0) && (Covered(s, p, 0) ==> Covered(s', p, 0));
    }
    ProcStep(s, s', p, b);
  }

  // ---------- a check that succeeds ----------

  /** Once the id has stood a window and two lags, every other stake is overwritten for good or bound to be late. */
  lemma StartHarmless(s: State, p: nat, q: nat, b: Bounds)
    requires Declared(b) && MemoryOk(s, b) && ProcOk(s, q, b) && q != p && !s.Open(q)
    requires s.Shows(p) && !s.At(p).Dead? && s.stakes[s.word].flush + b.window + 2 * b.lag <= s.now
    ensures Harmless(s, q, b)
  {
    assert s.word != 0;
    if s.At(q).HasStake() && s.stakes[s.At(q).stake].flush + b.lag < s.now {
      assert Drained(s, q);
    }
  }

  lemma StartInv(s: State, s': State, p: nat, b: Bounds)
    requires Declared(b) && Inv(s, b) && s' == SetProc(s, p, s'.At(p)) && s.Shows(p) && !s.At(p).Dead?
    requires s'.At(p).Spans() && s'.At(p).since == s.now && ProcOk(s', p, b) && ReadingsOk(s', p)
    requires s.stakes[s.word].flush + b.window + 2 * b.lag <= s.now && s.sweeps == map[]
    requires forall q: nat | q != p :: !s.Open(q)
    ensures Inv(s', b)
  {
    forall q: nat
      ensures q != p ==> ProcOk(s', q, b) && Harmless(s', q, b) && ReadingsOk(s', q)
    {
      assert ProcOk(s, q, b) && ReadingsOk(s, q);
      if q != p {
        StartHarmless(s, p, q, b);
        OthersStand(s, s', p, q, b);
      }
    }
    assert s.word != 0;
    assert Young(s', p, s.now, b);
    forall q: nat
      ensures OpenOk(s', q, b)
    {
      assert OpenOk(s, q, b);
      if q == p {
        OwnStoresStand(s, s', p, b);
      } else {
        assert s'.At(q) == s.At(q) && !s.Open(q);
      }
    }
    forall q: nat, r: nat | s'.Open(q) && s'.Open(r)
      ensures q == r
    {
      assert q != p ==> s.Open(q);
      assert r != p ==> s.Open(r);
    }
  }

  lemma OwnStoresStand(s: State, s': State, p: nat, b: Bounds)
    requires OpenOk(s, p, b) && s' == SetProc(s, p, s'.At(p)) && !s.At(p).Dead?
    requires forall q: nat | q != p :: Harmless(s', q, b)
    ensures p in s.clears ==> Sheltered(s', p, s.clears[p], b)
    ensures forall k | k in s.writes && s.writes[k].authority == p :: Sheltered(s', p, s.writes[k].store, b)
  {
  }

  lemma CheckedInv(s: State, e: Event, b: Bounds)
    requires Sound(b) && Inv(s, b)
    requires match e
             case Check(p) => s.At(p).Reading? && s.Shows(p)
             case EndHold(p) => s.At(p).Holding? && s.now >= s.At(p).ends && s.Shows(p)
             case Release(p) => s.At(p).Settled? && s.Shows(p)
             case _ => false
    ensures Inv(Next(s, e, b), b)
  {
    var s', p := Next(s, e, b), e.proc;
    assert ProcOk(s, p, b) && ReadingsOk(s, p);
    OwnHasLanded(s, p, b);
    NoSweepAtCheck(s, p, b);
    forall q: nat | q != p
      ensures !s.Open(q)
    {
      AloneAtCheck(s, p, q, b);
    }
    StartInv(s, s', p, b);
  }

  // ---------- sweeps ----------

  /** What of `q` can be read, now or later, and was swept is swept. */
  ghost predicate StaysSwept(s: State, s': State, q: nat) {
    forall v | s.Visible(v) && s.stakes[v].owner == q && s.Swept(v) :: s'.Swept(v)
  }

  /** Sweeps come and go; nothing else moves. */
  lemma SweepsAside(s: State, s': State, q: nat, b: Bounds)
    requires s' == s.(sweeps := s'.sweeps) && ProcOk(s, q, b) && ReadingsOk(s, q)
    requires !s.At(q).Dead? ==> StaysSwept(s, s', q)
    ensures ProcOk(s', q, b) && ReadingsOk(s', q) && NoWorse(s, s', q, b)
  {
    assert s'.At(q) == s.At(q) && Hidden(s', q) == Hidden(s, q);
    assert forall u :: Covered(s, q, u) && !s.At(q).Dead? ==> Covered(s', q, u);
  }

  lemma SweepsMoved(s: State, s': State, b: Bounds)
    requires Inv(s, b) && s' == s.(sweeps := s'.sweeps) && SweepsOk(s', b)
    requires forall q: nat | s.At(q).Spans() :: s'.sweeps == map[]
    requires forall q: nat | !s.At(q).Dead? :: StaysSwept(s, s', q)
    ensures Inv(s', b)
  {
    forall q: nat
      ensures ProcOk(s', q, b) && ReadingsOk(s', q) && NoWorse(s, s', q, b)
    {
      assert ProcOk(s, q, b) && ReadingsOk(s, q);
      SweepsAside(s, s', q, b);
    }
    forall q: nat
      ensures OpenOk(s', q, b)
    {
      assert OpenOk(s, q, b) && s'.At(q) == s.At(q);
      OpenFollows(s, s', q, b);
    }
    StillOne(s, s');
    StoresStand(s, s', b);
  }

  /** A look at the word that begins a sweep: of a dead peer's stake, or of a peer's own. */
  lemma LookedOk(s: State, s': State, k: nat, b: Bounds)
    requires Sound(b) && MemoryOk(s, b) && SweepsOk(s, b) && s.word in s.stakes && k !in s.sweeps
    requires s' == s.(sweeps := s.sweeps[k := Looked(s.word, s.now)])
    requires s.At(s.stakes[s.word].owner).Dead? || !s.At(s.stakes[s.word].owner).HasStake()
    ensures SweepsOk(s', b)
  {
    forall i | i in s'.sweeps
      ensures SweepOk(s', s'.sweeps[i], b)
    {
      assert i != k ==> SweepOk(s, s.sweeps[i], b);
      assert forall p: nat :: s'.At(p) == s.At(p);
    }
  }

  lemma StillSwept(s: State, s': State, k: nat)
    requires k !in s.sweeps && k in s'.sweeps && s'.sweeps == s.sweeps[k := s'.sweeps[k]]
    ensures forall q: nat :: StaysSwept(s, s', q)
  {
    forall v | s.Swept(v)
      ensures s'.Swept(v)
    {
      var i :| i in s.sweeps && s.sweeps[i].stake == v;
      assert i in s'.sweeps && s'.sweeps[i].stake == v;
    }
  }

  lemma SweepCheckInv(s: State, k: nat, b: Bounds)
    requires Sound(b) && Inv(s, b) && s.word in s.stakes && GivenUp(s, s.stakes[s.word].owner, b) && k !in s.sweeps
    ensures Inv(Next(s, SweepCheck(k), b), b)
  {
    var s' := Next(s, SweepCheck(k), b);
    LookedOk(s, s', k, b);
    StillSwept(s, s', k);
    forall q: nat | s.At(q).Spans()
      ensures false
    {
      SpanShields(s, q, b);
    }
    SweepsMoved(s, s', b);
  }

  /** A peer that resets a stake of its own that shows, or will: its look stands for it. */
  lemma ResetInv(s: State, p: nat, k: nat, b: Bounds)
    requires Sound(b) && Inv(s, b) && MayReset(s, p, b) && Sees(s, p) != 0 && k !in s.sweeps
    ensures Inv(Next(s, Reset(p, k), b), b)
  {
    var s' := Next(s, Reset(p, k), b);
    forall q: nat | s.At(q).Spans()
      ensures false
    {
      ResetMeetsNoSpan(s, p, q, b);
    }
    forall q: nat
      ensures ProcOk(s', q, b) && ReadingsOk(s', q) && Tamer(s, s', q, b)
    {
      assert ProcOk(s, q, b) && ReadingsOk(s, q);
      ResetAside(s, s', p, k, q, b);
    }
    forall q: nat
      ensures OpenOk(s', q, b) && (s'.Open(q) ==> s.Open(q))
    {
      assert OpenOk(s, q, b);
      ResetOpen(s, s', q, b);
    }
    ResetSweeps(s, s', p, k, b);
    StillOne(s, s');
    StoresStand(s, s', b);
  }

  /** As harmless as before, or more. */
  ghost predicate Tamer(s: State, s': State, q: nat, b: Bounds) {
    (Harmless(s, q, b) ==> Harmless(s', q, b)) && forall f :: Later(s, q, f) ==> Later(s', q, f) || Harmless(s', q, b)
  }

  lemma ResetOpen(s: State, s': State, q: nat, b: Bounds)
    requires OpenOk(s, q, b) && !s'.At(q).Spans() && forall r: nat :: Tamer(s, s', r, b)
    requires s'.clears == s.clears && s'.writes == s.writes && s'.stakes == s.stakes && s'.inFlight == s.inFlight && s'.word == s.word
    ensures OpenOk(s', q, b) && (s'.Open(q) ==> s.Open(q))
  {
    forall store: Store | Sheltered(s, q, store, b)
      ensures Sheltered(s', q, store, b)
    {
      forall r: nat | r != q
        ensures Harmless(s', r, b) || Later(s', r, store.flush)
      {
        assert Tamer(s, s', r, b);
      }
    }
  }

  lemma ResetMeetsNoSpan(s: State, p: nat, q: nat, b: Bounds)
    requires Sound(b) && Inv(s, b) && MayReset(s, p, b) && Sees(s, p) != 0
    ensures !s.At(q).Spans()
  {
    assert OpenOk(s, q, b) && ProcOk(s, p, b);
    assert q != p && s.At(q).Spans() ==> Harmless(s, p, b);
    if s.At(q).Spans() && s.At(p).Idle? {
      SpanBlocks(s, p, q, b);
      assert false;
    }
  }

  lemma ResetAside(s: State, s': State, p: nat, k: nat, q: nat, b: Bounds)
    requires MayReset(s, p, b) && !b.earlyReset && Sees(s, p) != 0 && k !in s.sweeps && ProcOk(s, q, b) && ReadingsOk(s, q)
    requires s' == SetProc(s.(sweeps := s.sweeps[k := Looked(Sees(s, p), s.now)]), p, Idle)
    ensures ProcOk(s', q, b) && ReadingsOk(s', q) && Tamer(s, s', q, b)
  {
    var looked := s.(sweeps := s'.sweeps);
    StillSwept(s, looked, k);
    assert k in looked.sweeps && looked.sweeps[k].stake == Sees(s, p) && looked.Swept(Sees(s, p));
    SweepsAside(s, looked, q, b);
    if q == p {
      ResetIsCovered(looked, p, b);
    } else {
      OthersStand(looked, s', p, q, b);
    }
  }

  /** With its own stake swept, a peer can rest. */
  lemma ResetIsCovered(s: State, p: nat, b: Bounds)
    requires MayReset(s, p, b) && ProcOk(s, p, b) && Sees(s, p) != 0 && s.Swept(Sees(s, p))
    ensures ProcOk(SetProc(s, p, Idle), p, b)
  {
    assert Covered(s, p, 0) ==> Covered(SetProc(s, p, Idle), p, 0);
  }

  lemma ResetSweeps(s: State, s': State, p: nat, k: nat, b: Bounds)
    requires Sound(b) && MemoryOk(s, b) && SweepsOk(s, b) && ProcOk(s, p, b) && MayReset(s, p, b) && Sees(s, p) != 0 && k !in s.sweeps
    requires s' == SetProc(s.(sweeps := s.sweeps[k := Looked(Sees(s, p), s.now)]), p, Idle)
    ensures SweepsOk(s', b)
  {
    forall i | i in s'.sweeps
      ensures SweepOk(s', s'.sweeps[i], b)
    {
      assert i != k ==> SweepOk(s, s.sweeps[i], b);
      assert forall q: nat :: s'.At(q) == if q == p then Idle else s.At(q);
    }
  }

  lemma NoSweepInSpan(s: State, q: nat, k: nat, b: Bounds)
    requires Inv(s, b) && k in s.sweeps
    ensures !s.At(q).Spans()
  {
    assert OpenOk(s, q, b);
  }

  lemma SweepStoreInv(s: State, k: nat, b: Bounds)
    requires Inv(s, b) && k in s.sweeps && s.sweeps[k].Looked? && 0 <= b.lag
    ensures Inv(Next(s, SweepStore(k), b), b)
  {
    var s' := Next(s, SweepStore(k), b);
    forall i | i in s'.sweeps
      ensures SweepOk(s', s'.sweeps[i], b)
    {
      assert SweepOk(s, s.sweeps[i], b);
      assert forall p: nat :: s'.At(p) == s.At(p);
    }
    forall v | s.Swept(v)
      ensures s'.Swept(v)
    {
      var i :| i in s.sweeps && s.sweeps[i].stake == v;
      assert i in s'.sweeps && s'.sweeps[i].stake == v;
    }
    forall q: nat | s.At(q).Spans()
      ensures false
    {
      NoSweepInSpan(s, q, k, b);
    }
    SweepsMoved(s, s', b);
  }

  lemma AbandonInv(s: State, k: nat, b: Bounds)
    requires Inv(s, b) && k in s.sweeps && s.sweeps[k].stake in s.stakes && s.At(s.stakes[s.sweeps[k].stake].owner).Dead?
    ensures Inv(s.(sweeps := s.sweeps - {k}), b)
  {
    var s' := s.(sweeps := s.sweeps - {k});
    assert forall p: nat :: s'.At(p) == s.At(p);
    forall i | i in s'.sweeps
      ensures SweepOk(s', s'.sweeps[i], b)
    {
      assert SweepOk(s, s.sweeps[i], b);
    }
    forall v: nat | s.Visible(v) && !s.At(s.stakes[v].owner).Dead? && s.Swept(v)
      ensures s'.Swept(v)
    {
      var i :| i in s.sweeps && s.sweeps[i].stake == v;
      assert i in s'.sweeps && s'.sweeps[i].stake == v;
    }
    forall q: nat | s.At(q).Spans()
      ensures false
    {
      NoSweepInSpan(s, q, k, b);
    }
    SweepsMoved(s, s', b);
  }

  lemma LandSweepInv(s: State, k: nat, b: Bounds)
    requires Declared(b) && Inv(s, b) && k in s.sweeps && s.sweeps[k].stake !in s.inFlight
    ensures Inv(Landed(s.(sweeps := s.sweeps - {k}), 0), b)
  {
    var s' := Landed(s.(sweeps := s.sweeps - {k}), 0);
    forall q: nat | s.At(q).Spans()
      ensures false
    {
      NoSweepInSpan(s, q, k, b);
    }
    ClearedInv(s, s', b);
  }

  // ---------- stores ----------

  /** Nothing changed that another process's facts rest on. */
  lemma StoreAside(s: State, s': State, p: nat, q: nat, b: Bounds)
    requires q != p && ProcOk(s, q, b) && !s.At(p).Dead?
    requires s'.At(q) == s.At(q) && s'.now == s.now && s'.word == s.word && s'.version == s.version && s'.landedAt == s.landedAt
    requires s'.stakes == s.stakes && s'.inFlight == s.inFlight && s'.sweeps == s.sweeps
    requires forall r: nat | r != p :: s'.At(r) == s.At(r)
    requires (q in s'.clears <==> q in s.clears) && (q in s.clears ==> s'.clears[q] == s.clears[q])
    ensures ProcOk(s', q, b) && (Harmless(s, q, b) ==> Harmless(s', q, b))
  {
  }

  /** The clear a check guards: the span ends and its store begins. */
  lemma RetractInv(s: State, p: nat, b: Bounds)
    requires Declared(b) && Inv(s, b) && s.At(p).Withdrawing?
    ensures Inv(Next(s, Retract(p), b), b)
  {
    var s' := Next(s, Retract(p), b);
    assert ProcOk(s, p, b) && OpenOk(s, p, b) && s.Open(p);
    OwnHasLanded(s, p, b);
    assert forall r: nat | r != p :: s'.At(r) == s.At(r);
    forall q: nat
      ensures ProcOk(s', q, b) && ReadingsOk(s', q) && (q != p ==> Harmless(s', q, b) && !s'.Open(q))
    {
      assert ProcOk(s, q, b) && ReadingsOk(s, q);
      if q != p {
        assert Harmless(s, q, b) && !s.Open(q);
        StoreAside(s, s', p, q, b);
      }
    }
    RetractOpen(s, s', p, b);
    forall q | q in s'.clears
      ensures StoreOk(s', s'.clears[q], b)
    {
      assert q in s.clears ==> StoreOk(s, s.clears[q], b);
    }
    assert forall k | k in s'.writes :: StoreOk(s, s.writes[k].store, b) && StoreOk(s', s'.writes[k].store, b);
  }

  lemma RetractOpen(s: State, s': State, p: nat, b: Bounds)
    requires Inv(s, b) && s.At(p).Withdrawing? && s' == Next(s, Retract(p), b)
    requires forall q: nat | q != p :: Harmless(s', q, b) && !s'.Open(q)
    ensures OneOpen(s') && SweepsOk(s', b) && forall q: nat :: OpenOk(s', q, b)
  {
    assert OpenOk(s, p, b);
    forall q: nat
      ensures OpenOk(s', q, b)
    {
      assert forall u | s'.Visible(u) :: s.Visible(u);
      assert q != p ==> !s'.Open(q);
    }
  }

  /** A store the check guards; others may follow it. */
  lemma WriteInv(s: State, p: nat, k: nat, b: Bounds)
    requires Declared(b) && Inv(s, b) && s.At(p).Acting? && k !in s.writes
    ensures Inv(Next(s, Write(p, k), b), b)
  {
    var s' := Next(s, Write(p, k), b);
    assert ProcOk(s, p, b) && s.Open(p);
    forall q: nat
      ensures ProcOk(s', q, b) && NoWorse(s, s', q, b) && ReadingsOk(s', q)
    {
      assert ProcOk(s, q, b) && ReadingsOk(s, q);
      SameView(s, s', q, b);
    }
    forall q: nat
      ensures OpenOk(s', q, b) && (s'.Open(q) ==> s.Open(q))
    {
      assert OpenOk(s, q, b) && s'.At(q) == s.At(q);
      if q == p {
        WriteOpen(s, s', p, k, b);
      } else {
        OpenFollows(s, s', q, b);
      }
    }
    StillOne(s, s');
    WriteMemory(s, s', p, k, b);
  }

  lemma WriteOpen(s: State, s': State, p: nat, k: nat, b: Bounds)
    requires OpenOk(s, p, b) && s.At(p).Acting? && k !in s.writes && s' == Next(s, Write(p, k), b)
    requires forall q: nat :: NoWorse(s, s', q, b)
    ensures OpenOk(s', p, b)
  {
    assert s'.At(p) == s.At(p);
    assert forall u | s'.Visible(u) :: s.Visible(u);
    forall q: nat | q != p
      ensures Harmless(s', q, b)
    {
      assert NoWorse(s, s', q, b);
    }
  }

  lemma WriteMemory(s: State, s': State, p: nat, k: nat, b: Bounds)
    requires MemoryOk(s, b) && SweepsOk(s, b) && s.At(p).Acting? && k !in s.writes && s' == Next(s, Write(p, k), b) && 0 <= b.lag
    requires s.At(p).since <= s.now < s.At(p).since + b.stall && s.sweeps == map[]
    ensures MemoryOk(s', b) && SweepsOk(s', b)
  {
    assert forall q | q in s'.clears :: StoreOk(s, s.clears[q], b) && StoreOk(s', s'.clears[q], b);
    forall i | i in s'.writes
      ensures StoreOk(s', s'.writes[i].store, b)
    {
      assert i in s.writes ==> StoreOk(s, s.writes[i].store, b);
    }
  }

  lemma FinishInv(s: State, p: nat, b: Bounds)
    requires Declared(b) && Inv(s, b) && s.At(p).Acting?
    ensures Inv(Next(s, Finish(p), b), b)
  {
    var s' := Next(s, Finish(p), b);
    assert ProcOk(s, p, b) && ReadingsOk(s, p) && s.Open(p);
    ProcStep(s, s', p, b);
  }

  lemma LandWriteInv(s: State, k: nat, b: Bounds)
    requires Declared(b) && Inv(s, b) && k in s.writes
    ensures Inv(Next(s, LandWrite(k), b), b)
  {
    var s' := Next(s, LandWrite(k), b);
    forall q: nat
      ensures ProcOk(s', q, b) && NoWorse(s, s', q, b) && Follows(s, s', q)
    {
      assert ProcOk(s, q, b);
      SameView(s, s', q, b);
    }
    forall q: nat
      ensures OpenOk(s', q, b)
    {
      assert OpenOk(s, q, b) && s'.At(q) == s.At(q);
      OpenFollows(s, s', q, b);
    }
    StillOne(s, s');
    SweepsStand(s, s', b);
    StoresStand(s, s', b);
    LandWriteReadings(s, s', k, b);
  }

  lemma LandWriteReadings(s: State, s': State, k: nat, b: Bounds)
    requires Inv(s, b) && k in s.writes && s' == Next(s, LandWrite(k), b)
    ensures TakenOk(s') && forall q: nat :: ReadingsOk(s', q)
  {
    var p := s.writes[k].authority;
    assert s.Writing(p) && s.Open(p) && ReadingsOk(s, p);
    forall q: nat
      ensures ReadingsOk(s', q)
    {
      assert ReadingsOk(s, q) && s'.At(q) == s.At(q);
      if q != p {
        assert !s.Open(q);
        SuitsNow(s, q, p, b);
        TakenByAnother(s, s', k, q, b);
      }
    }
  }

  lemma TakenByAnother(s: State, s': State, k: nat, q: nat, b: Bounds)
    requires k in s.writes && s' == Next(s, LandWrite(k), b) && ReadingsOk(s, q) && !s.Open(q)
    requires Suits(s, q, s.writes[k].authority, b)
    ensures ReadingsOk(s', q)
  {
    assert Harmless(s, q, b) || Later(s, q, s.writes[k].store.flush);
    forall i | i in s'.writes
      ensures s'.writes[i].authority != q
    {
      assert i in s.writes;
    }
  }

  /** A takeover in flight or landed is no part of what the claim slot shows. */
  lemma SameView(s: State, s': State, q: nat, b: Bounds)
    requires s' == s.(writes := s'.writes, taken := s'.taken) && ProcOk(s, q, b)
    ensures ProcOk(s', q, b) && NoWorse(s, s', q, b)
  {
    assert s'.At(q) == s.At(q) && Hidden(s', q) == Hidden(s, q);
  }

  // ---------- stakes and clears reach memory, and time passes ----------

  lemma PublishInv(s: State, p: nat, u: nat, b: Bounds)
    requires Declared(b) && Inv(s, b) && s.At(p).Judged? && u != 0 && u !in s.stakes
    ensures Inv(Next(s, Publish(p, u), b), b)
  {
    var s' := Next(s, Publish(p, u), b);
    forall q: nat
      ensures ProcOk(s', q, b) && OpenOk(s', q, b) && ReadingsOk(s', q) && Follows(s, s', q) && (s'.Open(q) ==> s.Open(q))
    {
      assert ProcOk(s, q, b) && ReadingsOk(s, q) && ProcOk(s, p, b);
      PublishProc(s, s', p, u, q, b);
      PublishOpen(s, s', p, u, q, b);
      PublishFollows(s, s', p, u, q, b);
    }
    StillOne(s, s');
    SweepsStand(s, s', b);
    StoresStand(s, s', b);
  }

  lemma PublishFollows(s: State, s': State, p: nat, u: nat, q: nat, b: Bounds)
    requires MemoryOk(s, b) && ProcOk(s, q, b) && ReadingsOk(s, q)
    requires s.At(p).Judged? && u != 0 && u !in s.stakes && s' == Next(s, Publish(p, u), b)
    ensures ReadingsOk(s', q) && Follows(s, s', q) && (s'.Open(q) ==> s.Open(q))
  {
    assert q != p ==> s'.At(q) == s.At(q);
  }

  lemma PublishProc(s: State, s': State, p: nat, u: nat, q: nat, b: Bounds)
    requires Declared(b) && MemoryOk(s, b) && ProcOk(s, q, b) && ProcOk(s, p, b)
    requires s.At(p).Judged? && u != 0 && u !in s.stakes && s' == Next(s, Publish(p, u), b)
    ensures ProcOk(s', q, b) && (q != p ==> NoWorse(s, s', q, b))
  {
    if q == p {
      assert p in s.clears ==> StoreOk(s, s.clears[p], b);
    } else {
      PublishAside(s, s', p, u, q, b);
    }
  }

  /** A fresh stake of `p` is no part of what is known of `q`. */
  lemma PublishAside(s: State, s': State, p: nat, u: nat, q: nat, b: Bounds)
    requires MemoryOk(s, b) && ProcOk(s, q, b) && q != p && u != 0 && u !in s.stakes && s.At(p).Judged?
    requires s' == SetProc(s.(stakes := s.stakes[u := Stake(p, s.now, s.At(p).readAt, s.At(p).version)], inFlight := s.inFlight + {u}), p, s'.At(p))
    ensures ProcOk(s', q, b) && NoWorse(s, s', q, b)
  {
    assert s'.At(q) == s.At(q);
    assert Drained(s, q) ==> Drained(s', q);
    PublishCovered(s, s', p, u, q);
    assert forall at :: StakesBy(s, q, at) ==> StakesBy(s', q, at);
  }

  lemma PublishCovered(s: State, s': State, p: nat, u: nat, q: nat)
    requires q != p && u !in s.stakes && s'.word == s.word && s'.sweeps == s.sweeps && s'.clears == s.clears && s'.inFlight == s.inFlight + {u}
    requires u in s'.stakes && s'.stakes[u].owner == p && s'.stakes == s.stakes[u := s'.stakes[u]]
    ensures forall v :: Covered(s, q, v) ==> Covered(s', q, v)
  {
    assert forall v | s'.Visible(v) && v != u :: s.Visible(v) && s'.stakes[v] == s.stakes[v];
    assert forall v :: s'.Swept(v) == s.Swept(v);
  }

  lemma PublishOpen(s: State, s': State, p: nat, u: nat, q: nat, b: Bounds)
    requires Declared(b) && Inv(s, b) && s.At(p).Judged? && u != 0 && u !in s.stakes && s' == Next(s, Publish(p, u), b)
    ensures OpenOk(s', q, b)
  {
    assert OpenOk(s, q, b) && ProcOk(s, q, b) && ProcOk(s, p, b) && s'.Open(q) == s.Open(q);
    forall r: nat | r != q && s.Open(q)
      ensures Suits(s', r, q, b)
    {
      assert ProcOk(s, r, b);
      PublishProc(s, s', p, u, r, b);
      SuitsNow(s, r, q, b);
    }
    PublishYoung(s, s', p, u, q, b);
  }

  lemma OpenFromSuits(s: State, q: nat, b: Bounds)
    requires s.Open(q) ==> forall r: nat | r != q :: Suits(s, r, q, b)
    requires s.At(q).Spans() ==> s.word != 0 && s.sweeps == map[] && Young(s, q, s.At(q).since, b)
    requires q in s.clears ==> Young(s, q, s.clears[q].since, b)
    requires forall k | k in s.writes && s.writes[k].authority == q :: Young(s, q, s.writes[k].store.since, b)
    ensures OpenOk(s, q, b)
  {
    if s.At(q).Spans() || q in s.clears {
      forall r: nat | r != q
        ensures s.At(q).Spans() ==> Harmless(s, r, b)
        ensures q in s.clears ==> Harmless(s, r, b) || Later(s, r, s.clears[q].flush)
      {
        assert Suits(s, r, q, b);
      }
    }
    forall k | k in s.writes && s.writes[k].authority == q
      ensures Sheltered(s, q, s.writes[k].store, b)
    {
      assert s.Writing(q);
      forall r: nat | r != q
        ensures Harmless(s, r, b) || Later(s, r, s.writes[k].store.flush)
      {
        assert Suits(s, r, q, b);
      }
    }
  }

  lemma PublishYoung(s: State, s': State, p: nat, u: nat, q: nat, b: Bounds)
    requires Declared(b) && MemoryOk(s, b) && OpenOk(s, q, b) && ProcOk(s, q, b)
    requires s.At(p).Judged? && u != 0 && u !in s.stakes && s' == Next(s, Publish(p, u), b)
    requires forall r: nat | r != q && s.Open(q) :: Suits(s', r, q, b)
    ensures OpenOk(s', q, b)
  {
    assert q in s.clears ==> StoreOk(s, s.clears[q], b);
    assert forall k | k in s.writes :: StoreOk(s, s.writes[k].store, b);
    forall since | since <= s.now && Young(s, q, since, b)
      ensures Young(s', q, since, b)
    {
      assert forall v | s'.Visible(v) && v != u :: s.Visible(v);
    }
    assert s'.At(q).Spans() ==> s'.At(q) == s.At(q);
    assert s'.Open(q) ==> s.Open(q);
    OpenFromSuits(s', q, b);
  }

  lemma LandInv(s: State, u: nat, b: Bounds)
    requires Declared(b) && Inv(s, b) && u in s.inFlight
    ensures Inv(Next(s, Land(u), b), b)
  {
    var s' := Next(s, Land(u), b);
    forall q: nat
      ensures ProcOk(s', q, b) && NoWorse(s, s', q, b) && ReadingsOk(s', q) && Follows(s, s', q)
    {
      assert ProcOk(s, q, b) && ReadingsOk(s, q);
      LandProc(s, s', u, q, b);
      if s.At(q).Reading? {
        OwnHasLanded(s, q, b);
      }
    }
    forall q: nat
      ensures OpenOk(s', q, b)
    {
      assert OpenOk(s, q, b) && s'.At(q) == s.At(q);
      OpenFollows(s, s', q, b);
    }
    StillOne(s, s');
    SweepsStand(s, s', b);
    StoresStand(s, s', b);
  }

  lemma LandProc(s: State, s': State, u: nat, q: nat, b: Bounds)
    requires Declared(b) && MemoryOk(s, b) && ProcOk(s, q, b) && u in s.inFlight && s' == Next(s, Land(u), b)
    ensures ProcOk(s', q, b) && NoWorse(s, s', q, b)
  {
    assert s'.At(q) == s.At(q);
    assert Drained(s, q) ==> Drained(s', q) && !s'.Shows(q);
  }

  lemma LandClearInv(s: State, p: nat, b: Bounds)
    requires Declared(b) && Inv(s, b) && p in s.clears
    ensures Inv(Next(s, LandClear(p), b), b)
  {
    var s' := Next(s, LandClear(p), b);
    assert s.Open(p) && ProcOk(s, p, b);
    forall q: nat | s.At(q).Spans()
      ensures false
    {
      assert s.Open(q);
    }
    ClearedInv(s, s', b);
  }

  /** The word is empty again, and a clear or a sweep has landed. */
  ghost predicate Empties(s: State, s': State) {
    && s' == Landed(s.(clears := s'.clears, sweeps := s'.sweeps), 0)
    && (forall p | p in s'.clears :: p in s.clears && s'.clears[p] == s.clears[p])
    && (forall k | k in s'.sweeps :: k in s.sweeps && s'.sweeps[k] == s.sweeps[k])
    && (forall k | k in s.sweeps && k !in s'.sweeps :: s.sweeps[k].stake !in s.inFlight)
  }

  lemma StillCovered(s: State, s': State, p: nat, u: nat)
    requires Empties(s, s') && Covered(s, p, u) && 0 !in s.stakes && s.word !in s.inFlight
    ensures Covered(s', p, u)
  {
    forall v | v in s.inFlight && s.Swept(v)
      ensures s'.Swept(v)
    {
      var i :| i in s.sweeps && s.sweeps[i].stake == v;
      assert i in s'.sweeps && s'.sweeps[i].stake == v;
    }
    assert forall v | s'.Visible(v) :: s.Visible(v) && v != s.word;
  }

  lemma ClearedInv(s: State, s': State, b: Bounds)
    requires Declared(b) && Inv(s, b) && Empties(s, s') && forall q: nat :: !s.At(q).Spans()
    ensures Inv(s', b)
  {
    forall q: nat
      ensures ProcOk(s', q, b) && ReadingsOk(s', q) && Follows(s, s', q) && NoWorse(s, s', q, b)
    {
      assert ProcOk(s, q, b) && ReadingsOk(s, q);
      ClearedProc(s, s', q, b);
    }
    forall q: nat
      ensures OpenOk(s', q, b)
    {
      assert OpenOk(s, q, b) && s'.At(q) == s.At(q);
      OpenFollows(s, s', q, b);
    }
    StillOne(s, s');
    SweepsStand(s, s', b);
    StoresStand(s, s', b);
  }

  lemma ClearedProc(s: State, s': State, q: nat, b: Bounds)
    requires MemoryOk(s, b) && ProcOk(s, q, b) && ReadingsOk(s, q) && Empties(s, s') && !s.At(q).Spans()
    ensures ProcOk(s', q, b) && ReadingsOk(s', q) && Follows(s, s', q) && NoWorse(s, s', q, b)
  {
    assert s'.At(q) == s.At(q) && !s'.Shows(q);
    assert Drained(s, q) ==> Drained(s', q);
    forall u | Covered(s, q, u)
      ensures Covered(s', q, u)
    {
      StillCovered(s, s', q, u);
    }
  }

  lemma AdvanceInv(s: State, to: int, b: Bounds)
    requires Declared(b) && Inv(s, b) && MayAdvance(s, to, b)
    ensures Inv(Next(s, Advance(to), b), b)
  {
    var s' := Next(s, Advance(to), b);
    forall q: nat
      ensures ProcOk(s', q, b) && NoWorse(s, s', q, b) && ReadingsOk(s', q)
    {
      assert ProcOk(s, q, b) && ReadingsOk(s, q);
      AdvanceProc(s, s', to, q, b);
    }
    forall q: nat
      ensures OpenOk(s', q, b)
    {
      assert OpenOk(s, q, b) && s'.At(q) == s.At(q);
      OpenFollows(s, s', q, b);
    }
    StillOne(s, s');
    AdvanceSweeps(s, s', to, b);
    assert forall k | k in s'.writes :: StoreOk(s, s.writes[k].store, b) && StoreOk(s', s'.writes[k].store, b);
    assert forall q | q in s'.clears :: StoreOk(s, s.clears[q], b) && StoreOk(s', s'.clears[q], b);
  }

  lemma AdvanceSweeps(s: State, s': State, to: int, b: Bounds)
    requires SweepsOk(s, b) && MayAdvance(s, to, b) && s' == s.(now := to)
    ensures SweepsOk(s', b)
  {
    forall k | k in s'.sweeps
      ensures SweepOk(s', s'.sweeps[k], b)
    {
      assert SweepOk(s, s.sweeps[k], b);
      assert forall p: nat :: s'.At(p) == s.At(p);
    }
  }

  lemma AdvanceProc(s: State, s': State, to: int, q: nat, b: Bounds)
    requires ProcOk(s, q, b) && MayAdvance(s, to, b) && s' == s.(now := to)
    ensures ProcOk(s', q, b) && NoWorse(s, s', q, b)
  {
    assert s'.At(q) == s.At(q);
    assert q in s.procs && s.procs[q].Spans() ==> to < s.procs[q].since + b.stall;
    assert Hidden(s, q) ==> Hidden(s', q);
  }

  // ---------- every event, every run ----------

  lemma NextInv(s: State, e: Event, b: Bounds)
    requires Sound(b) && Inv(s, b)
    ensures Inv(Next(s, e, b), b)
  {
    match e
    case Look(p, openedAt) => if s.At(p).Idle? && openedAt <= s.now && IsFree(s, p, b) { LookInv(s, p, openedAt, b); }
    case Publish(p, u) => if s.At(p).Judged? && u != 0 && u !in s.stakes { PublishInv(s, p, u, b); }
    case Judge(p) => if s.At(p).Published? { JudgeInv(s, p, b); }
    case Tick(p) => if (s.At(p).Settling? && s.now >= s.At(p).ends) || s.At(p).Settled? { TickInv(s, p, b); }
    case ReadRecord(p) => if s.At(p).Settled? { ReadRecordInv(s, p, b); }
    case Check(p) => if s.At(p).Reading? { if s.Shows(p) { CheckedInv(s, e, b); } else { LetGoInv(s, e, b); } }
    case Write(p, k) => if s.At(p).Acting? && k !in s.writes { WriteInv(s, p, k, b); }
    case Finish(p) => if s.At(p).Acting? { FinishInv(s, p, b); }
    case EndHold(p) =>
      if s.At(p).Holding? && s.now >= s.At(p).ends { if s.Shows(p) { CheckedInv(s, e, b); } else { LetGoInv(s, e, b); } }
    case Release(p) => if s.At(p).Settled? { if s.Shows(p) { CheckedInv(s, e, b); } else { LetGoInv(s, e, b); } }
    case Retract(p) => if s.At(p).Withdrawing? { RetractInv(s, p, b); }
    case Reset(p, k) => if MayReset(s, p, b) && k !in s.sweeps { if Sees(s, p) != 0 { ResetInv(s, p, k, b); } else { DropInv(s, p, Idle, b); } }
    case SweepCheck(k) =>
      if s.word in s.stakes && GivenUp(s, s.stakes[s.word].owner, b) && k !in s.sweeps { SweepCheckInv(s, k, b); }
    case SweepStore(k) => if k in s.sweeps && s.sweeps[k].Looked? { SweepStoreInv(s, k, b); }
    case Abandon(k) => if Next(s, e, b) != s { AbandonInv(s, k, b); }
    case Die(p) => if !s.At(p).Dead? { DropInv(s, p, Dead(s.now), b); }
    case Land(u) => if u in s.inFlight { LandInv(s, u, b); }
    case LandClear(p) => if p in s.clears { LandClearInv(s, p, b); }
    case LandSweep(k) => if k in s.sweeps && s.sweeps[k].Sent? && s.sweeps[k].stake !in s.inFlight { LandSweepInv(s, k, b); }
    case LandWrite(k) => if k in s.writes { LandWriteInv(s, k, b); }
    case Advance(to) => if MayAdvance(s, to, b) { AdvanceInv(s, to, b); }
  }

  lemma {:induction false} RunInv(s: State, events: seq<Event>, b: Bounds)
    requires Sound(b) && Inv(s, b)
    ensures Inv(Run(s, events, b), b)
    decreases |events|
  {
    if events != [] {
      NextInv(s, events[0], b);
      RunInv(Next(s, events[0], b), events[1..], b);
    }
  }
}
