/**
 Exactly which bounds keep recovery safe. A sweep or a reset that may land after a settle lets a second authority in
 behind a confirmed one, and so does a late stake reset before its hold is over, unless a settle outlasts a stall and
 the lag; otherwise every promise of `RecoverySafety` holds. Whatever the bounds, an authority gets as far as a landed takeover.
 */
module RecoveryExact {
  import opened RecoveryClaim
  import opened RecoverySafety

  /** The configured constants in milliseconds, with the bound on sweeps and the resets of late stakes left open. */
  function Configured(sweep: int, earlyReset: bool): Bounds {
    Bounds(1, 5, 2, 100, 104, 500, sweep, earlyReset)
  }

  /** With those constants a sweep has to be flushed within the millisecond of its look. */
  lemma ConfiguredTolerates(sweep: int, earlyReset: bool)
    ensures Safe(Configured(sweep, earlyReset)) <==> sweep == 1 && !earlyReset
  {
  }

  ghost predicate Reachable(s: State, b: Bounds) {
    exists start: int, events: seq<Event> :: s == Run(Init(start), events, b)
  }

  lemma {:induction false} RunThen(s: State, events: seq<Event>, e: Event, b: Bounds)
    ensures Run(s, events + [e], b) == Next(Run(s, events, b), e, b)
    decreases |events|
  {
    if events == [] {
      assert events + [e] == [e];
      assert Run(Next(s, e, b), [e][1..], b) == Next(s, e, b);
    } else {
      assert (events + [e])[1..] == events[1..] + [e];
      RunThen(Next(s, events[0], b), events[1..], e, b);
    }
  }

  /** One more step of a run. */
  lemma Step(s: State, e: Event, b: Bounds) returns (s': State)
    requires Reachable(s, b)
    ensures s' == Next(s, e, b) && Reachable(s', b)
  {
    var start: int, events: seq<Event> :| s == Run(Init(start), events, b);
    RunThen(Init(start), events, e, b);
    s' := Next(s, e, b);
  }

  // ---------- the steps the runs below take ----------

  lemma Looks(s: State, p: nat, b: Bounds) returns (s': State)
    requires Reachable(s, b) && s.At(p).Idle? && IsFree(s, p, b)
    ensures Reachable(s', b) && s' == SetProc(s, p, Judged(s.now, s.now, s.version))
  {
    s' := Step(s, Look(p, s.now), b);
  }

  lemma Publishes(s: State, p: nat, u: nat, b: Bounds) returns (s': State)
    requires Reachable(s, b) && s.At(p).Judged? && u != 0 && u !in s.stakes
    ensures Reachable(s', b)
    ensures s' == SetProc(s.(stakes := s.stakes[u := Stake(p, s.now, s.At(p).readAt, s.At(p).version)], inFlight := s.inFlight + {u}),
                          p, Published(u, s.At(p).openedAt, s.At(p).readAt, s.At(p).version))
  {
    s' := Step(s, Publish(p, u), b);
  }

  lemma Judges(s: State, p: nat, b: Bounds) returns (s': State)
    requires Reachable(s, b) && s.At(p).Published?
    ensures Reachable(s', b)
    ensures s' == SetProc(s, p, if s.now >= s.At(p).openedAt + b.window then Holding(s.At(p).stake, s.now + b.lateHold)
                                else Settling(s.At(p).stake, s.now + b.settle, s.At(p).readAt, s.At(p).version))
  {
    s' := Step(s, Judge(p), b);
  }

  lemma Lands(s: State, u: nat, b: Bounds) returns (s': State)
    requires Reachable(s, b) && s.inFlight == {u}
    ensures Reachable(s', b) && s' == Landed(s.(inFlight := {}), u)
  {
    assert {u} - {u} == {};
    s' := Step(s, Land(u), b);
  }

  lemma Waits(s: State, to: int, b: Bounds) returns (s': State)
    requires Reachable(s, b) && MayAdvance(s, to, b)
    ensures Reachable(s', b) && s' == s.(now := to)
  {
    s' := Step(s, Advance(to), b);
  }

  lemma Dies(s: State, p: nat, b: Bounds) returns (s': State)
    requires Reachable(s, b) && !s.At(p).Dead?
    ensures Reachable(s', b) && s' == SetProc(s, p, Dead(s.now))
  {
    s' := Step(s, Die(p), b);
  }

  lemma Ticks(s: State, p: nat, b: Bounds) returns (s': State)
    requires Reachable(s, b) && s.At(p).Settling? && s.now >= s.At(p).ends && s.Shows(p)
    ensures Reachable(s', b) && s' == SetProc(s, p, Settled(s.At(p).stake)) && s' == Next(s, Tick(p), b)
  {
    s' := Step(s, Tick(p), b);
  }

  lemma Reads(s: State, p: nat, b: Bounds) returns (s': State)
    requires Reachable(s, b) && s.At(p).Settled?
    ensures Reachable(s', b) && s' == SetProc(s, p, Reading(s.At(p).stake, |s.taken|))
  {
    s' := Step(s, ReadRecord(p), b);
  }

  lemma Checks(s: State, p: nat, b: Bounds) returns (s': State)
    requires Reachable(s, b) && s.At(p).Reading? && s.Shows(p)
    ensures Reachable(s', b) && s' == SetProc(s, p, Acting(s.At(p).stake, s.At(p).base, s.now))
  {
    s' := Step(s, Check(p), b);
  }

  lemma Overwrite(s: State, p: nat, first: Proc, second: Proc)
    ensures SetProc(SetProc(s, p, first), p, second) == SetProc(s, p, second)
  {
    assert s.procs[p := first][p := second] == s.procs[p := second];
  }

  /** A settled stake that stands is confirmed, the record read and the claim checked. */
  lemma Acts(s: State, p: nat, b: Bounds) returns (s': State)
    requires Reachable(s, b) && s.At(p).Settling? && s.now >= s.At(p).ends && s.Shows(p)
    ensures Reachable(s', b) && s' == SetProc(s, p, Acting(s.At(p).stake, |s.taken|, s.now))
  {
    s' := Ticks(s, p, b);
    s' := Reads(s', p, b);
    s' := Checks(s', p, b);
    Overwrite(s, p, Settled(s.At(p).stake), Reading(s.At(p).stake, |s.taken|));
    Overwrite(s, p, Reading(s.At(p).stake, |s.taken|), Acting(s.At(p).stake, |s.taken|, s.now));
  }

  lemma Writes(s: State, p: nat, b: Bounds) returns (s': State)
    requires Reachable(s, b) && s.At(p).Acting? && s.writes == map[]
    ensures Reachable(s', b)
    ensures s' == s.(writes := map[0 := Seizure(p, s.At(p).base, Store(s.At(p).since, s.now))])
  {
    s' := Step(s, Write(p, 0), b);
  }

  lemma WriteLands(s: State, w: Seizure, b: Bounds) returns (s': State)
    requires Reachable(s, b) && s.writes == map[0 := w]
    ensures Reachable(s', b) && s' == s.(writes := map[], taken := s.taken + [Takeover(w.authority, w.base)])
  {
    s' := Step(s, LandWrite(0), b);
    assert s'.writes == map[];
  }

  lemma TakesOver(s: State, p: nat, b: Bounds) returns (s': State)
    requires Reachable(s, b) && s.At(p).Acting? && s.writes == map[]
    ensures Reachable(s', b) && s' == s.(taken := s.taken + [Takeover(p, s.At(p).base)])
  {
    s' := Writes(s, p, b);
    s' := WriteLands(s', Seizure(p, s.At(p).base, Store(s.At(p).since, s.now)), b);
    assert s.writes == map[];
  }

  lemma SweepLooks(s: State, b: Bounds) returns (s': State)
    requires Reachable(s, b) && s.word in s.stakes && GivenUp(s, s.stakes[s.word].owner, b) && s.sweeps == map[]
    ensures Reachable(s', b) && s' == s.(sweeps := map[0 := Looked(s.word, s.now)])
  {
    s' := Step(s, SweepCheck(0), b);
  }

  lemma Resets(s: State, p: nat, b: Bounds) returns (s': State)
    requires Reachable(s, b) && MayReset(s, p, b) && s.inFlight == {} && s.Shows(p) && s.word != 0 && s.sweeps == map[]
    ensures Reachable(s', b) && s' == SetProc(s.(sweeps := map[0 := Looked(s.word, s.now)]), p, Idle)
  {
    s' := Step(s, Reset(p, 0), b);
  }

  lemma SweepIsSent(s: State, w: Sweep, b: Bounds) returns (s': State)
    requires Reachable(s, b) && w.Looked? && s.sweeps == map[0 := w]
    ensures Reachable(s', b) && s' == s.(sweeps := map[0 := Sent(w.stake, w.since, s.now)])
  {
    s' := Step(s, SweepStore(0), b);
    assert s'.sweeps == map[0 := Sent(w.stake, w.since, s.now)];
  }

  lemma SweepLands(s: State, w: Sweep, b: Bounds) returns (s': State)
    requires Reachable(s, b) && w.Sent? && s.sweeps == map[0 := w] && s.inFlight == {}
    ensures Reachable(s', b) && s' == Landed(s.(sweeps := map[]), 0)
  {
    s' := Step(s, LandSweep(0), b);
    assert s'.sweeps == map[];
  }

  // ---------- a second authority behind a confirmed one ----------

  /** A takeover of `x` is on its way; `y` has settled, its id stands, and both are at the start of the record's history. */
  ghost predicate Race(s: State, x: nat, y: nat, store: Store) {
    && x != y && s.taken == [] && s.writes == map[0 := Seizure(x, 0, store)]
    && s.At(y).Settling? && s.now >= s.At(y).ends && s.Shows(y)
  }

  lemma NotConfirmedAlone(s: State, x: nat, y: nat, store: Store, b: Bounds)
    requires Reachable(s, b) && Race(s, x, y, store)
    ensures !Confirms(s, b)
  {
    var _ := Ticks(s, y, b);
    assert 0 in s.writes && s.Writing(x) && s.Open(x);
    assert s.At(y).Settling? && Next(s, Tick(y), b).At(y).Settled?;
  }

  /** From there both act, and both takeovers land from the same reading. */
  lemma RaceBreaks(s: State, x: nat, y: nat, store: Store, b: Bounds)
    requires Reachable(s, b) && Race(s, x, y, store)
    ensures !Confirms(s, b)
    ensures exists t :: Reachable(t, b) && !Single(t)
    ensures exists t :: Reachable(t, b) && !Serial(t)
  {
    NotConfirmedAlone(s, x, y, store, b);
    var t := Acts(s, y, b);
    assert 0 in t.writes && t.Writing(x) && t.Open(x) && t.Open(y) && !Single(t);
    var once := WriteLands(t, Seizure(x, 0, store), b);
    var twice := TakesOver(once, y, b);
    assert twice.taken[0] == Takeover(x, 0) && twice.taken[1] == Takeover(y, 0);
    assert !Serial(twice);
  }

  /** The word is empty and nothing is under way but the check `x` has just made. */
  ghost predicate Exposed(s: State, x: nat) {
    && s.word == 0 && 0 !in s.stakes && s.inFlight == {} && s.clears == map[] && s.sweeps == map[] && s.writes == map[] && s.taken == []
    && s.At(x).Acting? && s.At(x).base == 0 && s.At(x).since == s.now
    && forall p | p in s.procs && s.procs[p].Spans() :: p == x
  }

  lemma PublishesBehind(s: State, y: nat, u: nat, b: Bounds) returns (s': State)
    requires Reachable(s, b) && s.word == 0 && 0 !in s.stakes && s.inFlight == {} && s.At(y).Idle? && u != 0 && u !in s.stakes
    ensures Reachable(s', b)
    ensures s' == SetProc(s.(stakes := s.stakes[u := Stake(y, s.now, s.now, s.version)], inFlight := {u}), y, Published(u, s.now, s.now, s.version))
  {
    s' := Looks(s, y, b);
    s' := Publishes(s', y, u, b);
    assert {} + {u} == {u};
    Overwrite(s, y, Judged(s.now, s.now, s.version), Published(u, s.now, s.now, s.version));
  }

  lemma StakesBehind(s: State, x: nat, y: nat, u: nat, b: Bounds) returns (s': State)
    requires Declared(b) && Reachable(s, b) && Exposed(s, x) && y != x && s.At(y).Idle? && u != 0 && u !in s.stakes
    ensures Reachable(s', b)
    ensures s' == Landed(SetProc(s.(stakes := s.stakes[u := Stake(y, s.now, s.now, s.version)]), y, Settling(u, s.now + b.settle, s.now, s.version)), u)
  {
    s' := PublishesBehind(s, y, u, b);
    s' := Judges(s', y, b);
    Overwrite(s, y, Published(u, s.now, s.now, s.version), Settling(u, s.now + b.settle, s.now, s.version));
    s' := Lands(s', u, b);
  }

  /** When `x` flushes, as late as its stall and the other's settle allow. */
  function FlushAt(now: int, b: Bounds): int {
    if b.settle < b.stall then now + b.settle else now + b.stall - 1
  }

  lemma FlushesBehind(s: State, x: nat, y: nat, u: nat, b: Bounds) returns (s': State)
    requires Declared(b) && Reachable(s, b) && Exposed(s, x) && y != x && s.At(y).Idle? && u != 0 && u !in s.stakes
    ensures Reachable(s', b) && s'.now == FlushAt(s.now, b) && s'.taken == [] && s'.inFlight == {} && s'.clears == map[] && s'.sweeps == map[]
    ensures s'.writes == map[0 := Seizure(x, 0, Store(s.now, s'.now))]
    ensures s'.At(x) == s.At(x) && s'.At(y) == Settling(u, s.now + b.settle, s.now, s.version) && s'.Shows(y)
    ensures forall p | p in s'.procs && s'.procs[p].Spans() :: p == x
  {
    s' := StakesBehind(s, x, y, u, b);
    assert s'.At(x) == s.At(x);
    assert MayAdvance(s', FlushAt(s.now, b), b);
    s' := Waits(s', FlushAt(s.now, b), b);
    s' := Writes(s', x, b);
  }

  /** A peer that stakes the empty slot settles while the store behind the check of `x` is on its way. */
  lemma SettlesBehind(s: State, x: nat, y: nat, u: nat, b: Bounds) returns (s': State)
    requires Declared(b) && Reachable(s, b) && Exposed(s, x) && y != x && s.At(y).Idle? && u != 0 && u !in s.stakes
    requires b.settle < b.stall + b.lag
    ensures Reachable(s', b) && Race(s', x, y, Store(s.now, FlushAt(s.now, b)))
  {
    var flushed := FlushesBehind(s, x, y, u, b);
    s' := EndsSpan(flushed, x, b);
    assert s'.At(y) == flushed.At(y);
    assert MayAdvance(s', s.now + b.settle, b);
    s' := Waits(s', s.now + b.settle, b);
  }

  lemma EndsSpan(s: State, p: nat, b: Bounds) returns (s': State)
    requires Reachable(s, b) && s.At(p).Acting?
    ensures Reachable(s', b) && s' == SetProc(s, p, Settled(s.At(p).stake))
  {
    s' := Step(s, Finish(p), b);
  }

  // ---------- a sweep that lands after a settle ----------

  function DeadAuthor(now: int): State {
    State(now, 11, 1, 0, map[11 := Stake(1, 0, 0, 0)], {}, map[], map[], map[], [], map[1 := Dead(0)])
  }

  /** Peer 1 stakes the slot and dies. */
  lemma AuthorDies(b: Bounds) returns (s: State)
    requires Declared(b)
    ensures Reachable(s, b) && s == DeadAuthor(0)
  {
    assert Init(0) == Run(Init(0), [], b);
    s := Looks(Init(0), 1, b);
    assert s == Init(0).(procs := map[1 := Judged(0, 0, 0)]);
    s := Publishes(s, 1, 11, b);
    assert s == State(0, 0, 0, 0, map[11 := Stake(1, 0, 0, 0)], {11}, map[], map[], map[], [], map[1 := Published(11, 0, 0, 0)]);
    s := Lands(s, 11, b);
    assert s == DeadAuthor(0).(procs := map[1 := Published(11, 0, 0, 0)]);
    s := Dies(s, 1, b);
    assert s == DeadAuthor(0);
  }

  function TwoStakes(b: Bounds): map<nat, Stake> {
    map[11 := Stake(1, 0, 0, 0), 12 := Stake(2, b.dead, b.dead, 1)]
  }

  function SecondStakes(b: Bounds): State {
    State(b.dead, 11, 1, 0, TwoStakes(b), {12}, map[], map[], map[], [],
          map[1 := Dead(0), 2 := Settling(12, b.dead + b.settle, b.dead, 1)])
  }

  lemma CandidateLooks(b: Bounds) returns (s: State)
    requires Declared(b)
    ensures Reachable(s, b) && s == DeadAuthor(b.dead).(procs := map[1 := Dead(0), 2 := Judged(b.dead, b.dead, 1)])
  {
    s := AuthorDies(b);
    assert MayAdvance(s, b.dead, b);
    s := Waits(s, b.dead, b);
    assert s == DeadAuthor(b.dead);
    s := Looks(s, 2, b);
    assert s == DeadAuthor(b.dead).(procs := map[1 := Dead(0), 2 := Judged(b.dead, b.dead, 1)]);
  }

  /** Once that is known, peer 2 stakes the slot. */
  lemma CandidateStakes(b: Bounds) returns (s: State)
    requires Declared(b)
    ensures Reachable(s, b) && s == SecondStakes(b)
  {
    s := CandidateLooks(b);
    s := Publishes(s, 2, 12, b);
    s := Judges(s, 2, b);
    assert s == SecondStakes(b);
  }

  function Looking(b: Bounds, now: int, w: Sweep): State {
    State(now, 12, 2, b.dead + b.lag, TwoStakes(b), {}, map[], map[0 := w], map[], [],
          map[1 := Dead(0), 2 := Settling(12, b.dead + b.settle, b.dead, 1)])
  }

  lemma StakeIsOnItsWay(b: Bounds) returns (s: State)
    requires Declared(b)
    ensures Reachable(s, b) && s == SecondStakes(b).(now := b.dead + b.lag)
  {
    s := CandidateStakes(b);
    assert MayAdvance(s, b.dead + b.lag, b);
    s := Waits(s, b.dead + b.lag, b);
  }

  lemma SlotIsSwept(b: Bounds) returns (s: State)
    requires Declared(b)
    ensures Reachable(s, b) && s == SecondStakes(b).(now := b.dead + b.lag, sweeps := map[0 := Looked(11, b.dead + b.lag)])
  {
    s := StakeIsOnItsWay(b);
    s := SweepLooks(s, b);
    assert s == SecondStakes(b).(now := b.dead + b.lag, sweeps := map[0 := Looked(11, b.dead + b.lag)]);
  }

  /** A sweeper looks at the slot just before that stake reaches it. */
  lemma SweeperLooks(b: Bounds) returns (s: State)
    requires Declared(b)
    ensures Reachable(s, b) && s == Looking(b, b.dead + b.lag, Looked(11, b.dead + b.lag))
  {
    s := SlotIsSwept(b);
    s := Lands(s, 12, b);
    assert s == Looking(b, b.dead + b.lag, Looked(11, b.dead + b.lag));
  }

  /** When the last of that sweep lands. */
  function Last(b: Bounds): int {
    b.dead + 2 * b.lag + b.sweep - 1
  }

  lemma SweeperStalls(b: Bounds) returns (s: State)
    requires Declared(b)
    ensures Reachable(s, b) && s == Looking(b, Last(b) - b.lag, Looked(11, b.dead + b.lag))
  {
    s := SweeperLooks(b);
    assert MayAdvance(s, Last(b) - b.lag, b);
    s := Waits(s, Last(b) - b.lag, b);
    assert s == Looking(b, Last(b) - b.lag, Looked(11, b.dead + b.lag));
  }

  lemma SweepIsLate(b: Bounds) returns (s: State)
    requires Declared(b)
    ensures Reachable(s, b) && s == Looking(b, Last(b), Sent(11, b.dead + b.lag, Last(b) - b.lag))
  {
    s := SweeperStalls(b);
    s := SweepIsSent(s, Looked(11, b.dead + b.lag), b);
    assert s == Looking(b, Last(b) - b.lag, Sent(11, b.dead + b.lag, Last(b) - b.lag));
    assert MayAdvance(s, Last(b), b);
    s := Waits(s, Last(b), b);
  }

  function Confirmed(b: Bounds, proc: Proc): State {
    Looking(b, Last(b), Sent(11, b.dead + b.lag, Last(b) - b.lag)).(procs := map[1 := Dead(0), 2 := proc])
  }

  /** Peer 2 has settled by then, and checks its claim. */
  lemma CandidateActs(b: Bounds) returns (s: State)
    requires Declared(b) && b.settle < b.sweep + 2 * b.lag
    ensures Reachable(s, b) && s == Confirmed(b, Acting(12, 0, Last(b)))
  {
    s := SweepIsLate(b);
    s := Acts(s, 2, b);
    assert s == Confirmed(b, Acting(12, 0, Last(b)));
  }

  lemma SweepLetsASecondIn(b: Bounds) returns (s: State)
    requires Declared(b) && b.settle < b.sweep + 2 * b.lag && b.settle < b.stall + b.lag
    ensures Reachable(s, b) && Race(s, 2, 4, Store(Last(b), FlushAt(Last(b), b)))
  {
    s := CandidateActs(b);
    s := SweepLands(s, Sent(11, b.dead + b.lag, Last(b) - b.lag), b);
    s := SettlesBehind(s, 2, 4, 14, b);
  }

  // ---------- a late stake reset before its hold is over ----------

  function Pair(b: Bounds, now: int, one: Proc): State {
    State(now, 11, 1, 0, map[11 := Stake(1, 0, 0, 0)], {}, map[], map[], map[], [], map[1 := one, 2 := Judged(0, 0, 0)])
  }

  lemma BothLook(b: Bounds) returns (s: State)
    ensures Reachable(s, b) && s == Init(0).(procs := map[1 := Judged(0, 0, 0), 2 := Judged(0, 0, 0)])
  {
    assert Init(0) == Run(Init(0), [], b);
    s := Looks(Init(0), 1, b);
    s := Looks(s, 2, b);
    assert s == Init(0).(procs := map[1 := Judged(0, 0, 0), 2 := Judged(0, 0, 0)]);
  }

  /** Peers 1 and 2 both read the empty slot; peer 1 stakes at once. */
  lemma OneIsQuick(b: Bounds) returns (s: State)
    requires Declared(b)
    ensures Reachable(s, b) && s == Pair(b, 0, Settling(11, b.settle, 0, 0))
  {
    s := BothLook(b);
    s := Publishes(s, 1, 11, b);
    s := Judges(s, 1, b);
    assert s == Pair(b, 0, Settling(11, b.settle, 0, 0)).(word := 0, version := 0, inFlight := {11});
    s := Lands(s, 11, b);
    assert s == Pair(b, 0, Settling(11, b.settle, 0, 0));
  }

  lemma OneActs(b: Bounds) returns (s: State)
    requires Declared(b)
    ensures Reachable(s, b) && s == Pair(b, b.settle, Acting(11, 0, b.settle))
  {
    s := OneIsQuick(b);
    assert MayAdvance(s, b.settle, b);
    s := Waits(s, b.settle, b);
    s := Acts(s, 1, b);
    assert s == Pair(b, b.settle, Acting(11, 0, b.settle));
  }

  function Deposed(b: Bounds, two: Proc, sweeps: map<nat, Sweep>): State {
    State(b.settle, 12, 2, b.settle, map[11 := Stake(1, 0, 0, 0), 12 := Stake(2, b.settle, 0, 0)], {}, map[], sweeps, map[], [],
          map[1 := Acting(11, 0, b.settle), 2 := two])
  }

  /** Peer 2 stakes late, over peer 1's check. */
  lemma TwoIsLate(b: Bounds) returns (s: State)
    requires Declared(b)
    ensures Reachable(s, b) && s == Deposed(b, Holding(12, b.settle + b.lateHold), map[])
  {
    s := OneActs(b);
    s := Publishes(s, 2, 12, b);
    s := Judges(s, 2, b);
    assert s == Deposed(b, Holding(12, b.settle + b.lateHold), map[]).(word := 11, version := 1, landedAt := 0, inFlight := {12});
    s := Lands(s, 12, b);
    assert s == Deposed(b, Holding(12, b.settle + b.lateHold), map[]);
  }

  lemma ResetLetsASecondIn(b: Bounds) returns (s: State)
    requires Declared(b) && b.earlyReset && b.settle < b.stall + b.lag
    ensures Reachable(s, b) && Race(s, 1, 3, Store(b.settle, FlushAt(b.settle, b)))
  {
    s := TwoIsLate(b);
    s := Resets(s, 2, b);
    assert s == Deposed(b, Idle, map[0 := Looked(12, b.settle)]);
    s := SweepIsSent(s, Looked(12, b.settle), b);
    assert s == Deposed(b, Idle, map[0 := Sent(12, b.settle, b.settle)]);
    s := SweepLands(s, Sent(12, b.settle, b.settle), b);
    s := SettlesBehind(s, 1, 3, 13, b);
  }

  // ---------- exactly when ----------

  lemma UnsafeRaces(b: Bounds) returns (s: State, x: nat, y: nat, store: Store)
    requires Declared(b) && !Safe(b)
    ensures Reachable(s, b) && Race(s, x, y, store)
  {
    if b.earlyReset {
      s := ResetLetsASecondIn(b);
      x, y, store := 1, 3, Store(b.settle, FlushAt(b.settle, b));
    } else {
      s := SweepLetsASecondIn(b);
      x, y, store := 2, 4, Store(Last(b), FlushAt(Last(b), b));
    }
  }

  /** For all declared bounds, each of the three promises holds over every run exactly when the bounds are safe. */
  lemma SafeExactly(b: Bounds)
    requires Declared(b)
    ensures (forall s | Reachable(s, b) :: Single(s)) <==> Safe(b)
    ensures (forall s | Reachable(s, b) :: Confirms(s, b)) <==> Safe(b)
    ensures (forall s | Reachable(s, b) :: Serial(s)) <==> Safe(b)
  {
    if Safe(b) {
      forall s | Reachable(s, b)
        ensures Single(s) && Confirms(s, b) && Serial(s)
      {
        var start: int, events: seq<Event> :| s == Run(Init(start), events, b);
        SingleRecoveryWriter(b, start, events);
        ConfirmFollowsLandings(b, start, events);
        TakeoversSeeEachOther(b, start, events);
      }
    } else {
      var s, x, y, store := UnsafeRaces(b);
      RaceBreaks(s, x, y, store, b);
    }
  }

  // ---------- the procedure gets somewhere ----------

  /** An authority alone on a free slot stakes it in time, settles, checks, and its takeover lands. */
  lemma AuthorityCanTakeOver(b: Bounds) returns (s: State)
    requires Declared(b)
    ensures Reachable(s, b) && s.taken == [Takeover(1, 0)]
  {
    s := OneActs(b);
    s := TakesOver(s, 1, b);
  }
}
