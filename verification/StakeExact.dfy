/**
 How much of a gap between the flush of a stake and the question whether it was late the claim tolerates. Commits are
 serial over every run that meets the bounds if and only if `StakeClaim.Slack` holds; below, the run that breaks
 them otherwise, for every choice of the durations.

 The run: a stake is flushed and its late judgement is delayed, so that its hold ends about when a watcher takes it
 for dead. Its owner finds its own nonce just before the thief's stake lands, and its clear is still on the way
 when the thief confirms.
 */
module StakeExact {
  import opened StakeClaim

  /** The configured milliseconds, with a judge gap of `judge`. */
  function Lease(judge: int): Bounds {
    Bounds(1, 5, 2, 50, 54, 200, judge)
  }

  /** The configured lease tolerates a gap of up to 99 milliseconds, and no more. */
  lemma LeaseTolerates(judge: int)
    ensures Declared(Lease(judge)) <==> 0 <= judge <= 99
  {
  }

  ghost predicate Reachable(s: State, b: Bounds) {
    exists start: int, events: seq<Event> :: s == Run(Init(start), events, b)
  }

  lemma {:induction false} RunThen(s: State, events: seq<Event>, e: Event, b: Bounds)
    ensures Run(s, events + [e], b) == Next(Run(s, events, b), e, b)
    decreases |events|
  {
    if events == [] {
      assert events + [e] == [e];
      assert Run(Next(s, e, b), [e][1..], b) == Next(s, e, b);
    } else {
      assert (events + [e])[1..] == events[1..] + [e];
      RunThen(Next(s, events[0], b), events[1..], e, b);
    }
  }

  /** One more step of a run. */
  lemma Step(s: State, e: Event, b: Bounds) returns (s': State)
    requires Reachable(s, b)
    ensures s' == Next(s, e, b) && Reachable(s', b)
  {
    var start: int, events: seq<Event> :| s == Run(Init(start), events, b);
    RunThen(Init(start), events, e, b);
    s' := Next(s, e, b);
  }

  /** Durations that meet the source's assertions and leave too little slack. */
  ghost predicate Short(b: Bounds) {
    Asserted(b) && !Slack(b)
  }

  /** When the delayed judgement falls. */
  function Delay(b: Bounds): int {
    b.timeout + b.settle + 1 - b.lateHold - b.stall - b.lag
  }

  function HoldEnds(b: Bounds): int {
    Delay(b) + b.lateHold
  }

  /** When the owner of the late stake finds its own nonce. */
  function CheckAt(b: Bounds): int {
    if HoldEnds(b) < b.timeout then b.timeout else HoldEnds(b)
  }

  lemma Times(b: Bounds)
    requires Short(b)
    ensures 0 <= Delay(b) <= b.judge && Delay(b) <= b.timeout <= CheckAt(b) <= b.timeout + b.lag
    ensures HoldEnds(b) <= CheckAt(b) <= b.timeout + b.settle - b.lag < HoldEnds(b) + b.stall
  {
  }

  lemma StakeStands(b: Bounds) returns (s: State)
    requires Short(b)
    ensures Reachable(s, b)
    ensures s == State(0, 1, 1, 0, map[1 := 0], {}, map[], map[1 := Published(1, -b.window, 0, 0)], true)
  {
    assert Init(0) == Run(Init(0), [], b);
    s := Step(Init(0), Look(1, -b.window), b);
    s := Step(s, Publish(1, 1), b);
    s := Step(s, Land(1), b);
  }

  lemma StakeIsWatched(b: Bounds) returns (s: State)
    requires Short(b)
    ensures Reachable(s, b)
    ensures s == State(Delay(b), 1, 1, 0, map[1 := 0], {}, map[],
                       map[1 := Published(1, -b.window, 0, 0), 2 := Watching(1, 0)], true)
  {
    Times(b);
    s := StakeStands(b);
    s := Step(s, Look(2, 0), b);
    assert Within(s, Delay(b), b);
    s := Step(s, Advance(Delay(b)), b);
  }

  lemma StakeIsHeld(b: Bounds) returns (s: State)
    requires Short(b)
    ensures Reachable(s, b)
    ensures s == State(b.timeout, 1, 1, 0, map[1 := 0], {}, map[],
                       map[1 := Holding(1, HoldEnds(b)), 2 := Watching(1, 0)], true)
  {
    Times(b);
    s := StakeIsWatched(b);
    s := Step(s, Judge(1), b);
    assert Within(s, b.timeout, b);
    s := Step(s, Advance(b.timeout), b);
  }

  lemma NonceIsJudgedDead(b: Bounds) returns (s: State)
    requires Short(b)
    ensures Reachable(s, b)
    ensures s == State(b.timeout, 1, 1, 0, map[1 := 0], {}, map[],
                       map[1 := Holding(1, HoldEnds(b)), 2 := Judged(b.timeout, b.timeout, 1)], true)
  {
    s := StakeIsHeld(b);
    s := Step(s, Look(2, b.timeout), b);
    s := Step(s, Look(2, b.timeout), b);
  }

  lemma NonceIsStolen(b: Bounds) returns (s: State)
    requires Short(b)
    ensures Reachable(s, b)
    ensures s == State(b.timeout, 1, 1, 0, map[1 := 0, 2 := b.timeout], {2}, map[],
                       map[1 := Holding(1, HoldEnds(b)), 2 := Settling(2, b.timeout + b.settle, b.timeout, 1)], true)
  {
    s := NonceIsJudgedDead(b);
    s := Step(s, Publish(2, 2), b);
    s := Step(s, Judge(2), b);
  }

  lemma OwnerStillFindsIt(b: Bounds) returns (s: State)
    requires Short(b)
    ensures Reachable(s, b)
    ensures s == State(CheckAt(b), 1, 1, 0, map[1 := 0, 2 := b.timeout], {2}, map[],
                       map[1 := Withdrawing(1, HoldEnds(b), CheckAt(b)), 2 := Settling(2, b.timeout + b.settle, b.timeout, 1)], true)
  {
    Times(b);
    s := NonceIsStolen(b);
    assert Within(s, CheckAt(b), b);
    s := Step(s, Advance(CheckAt(b)), b);
    s := Step(s, EndHold(1), b);
  }

  lemma ThiefLands(b: Bounds) returns (s: State)
    requires Short(b)
    ensures Reachable(s, b)
    ensures s == State(b.timeout + b.settle - b.lag, 2, 2, CheckAt(b), map[1 := 0, 2 := b.timeout], {}, map[],
                       map[1 := Withdrawing(1, HoldEnds(b), CheckAt(b)), 2 := Settling(2, b.timeout + b.settle, b.timeout, 1)], true)
  {
    Times(b);
    s := OwnerStillFindsIt(b);
    s := Step(s, Land(2), b);
    assert Within(s, b.timeout + b.settle - b.lag, b);
    s := Step(s, Advance(b.timeout + b.settle - b.lag), b);
  }

  lemma ClearIsSent(b: Bounds) returns (s: State)
    requires Short(b)
    ensures Reachable(s, b)
    ensures s == State(b.timeout + b.settle - b.lag, 2, 2, CheckAt(b), map[1 := 0, 2 := b.timeout], {},
                       map[1 := Clear(b.timeout + b.settle - b.lag, HoldEnds(b), CheckAt(b))],
                       map[1 := Idle(0), 2 := Settling(2, b.timeout + b.settle, b.timeout, 1)], true)
  {
    s := ThiefLands(b);
    s := Step(s, Withdraw(1), b);
  }

  lemma ClearIsFlushed(b: Bounds) returns (s: State)
    requires Short(b)
    ensures Reachable(s, b)
    ensures s == State(b.timeout + b.settle, 2, 2, CheckAt(b), map[1 := 0, 2 := b.timeout], {},
                       map[1 := Clear(b.timeout + b.settle - b.lag, HoldEnds(b), CheckAt(b))],
                       map[1 := Idle(0), 2 := Settling(2, b.timeout + b.settle, b.timeout, 1)], true)
  {
    s := ClearIsSent(b);
    assert Within(s, b.timeout + b.settle, b);
    s := Step(s, Advance(b.timeout + b.settle), b);
  }

  /** The thief confirms while the clear of the nonce it stole is on its way to the word. */
  lemma CommitsOverlap(b: Bounds) returns (s: State)
    requires Short(b)
    ensures Reachable(s, b) && s.kept && !Serial(s)
    ensures s == State(b.timeout + b.settle, 2, 2, CheckAt(b), map[1 := 0, 2 := b.timeout], {},
                       map[1 := Clear(b.timeout + b.settle - b.lag, HoldEnds(b), CheckAt(b))],
                       map[1 := Idle(0), 2 := Committing(2, b.timeout + b.settle, b.timeout + b.settle)], true)
  {
    s := ClearIsFlushed(b);
    s := Step(s, EndSettle(2), b);
    assert s.At(2).Writes() && 1 in s.clears;
  }

  lemma WordIsFreed(b: Bounds) returns (s: State)
    requires Short(b)
    ensures Reachable(s, b)
    ensures var t := b.timeout + b.settle;
            s == State(t, 0, 3, t, map[1 := 0, 2 := b.timeout], {}, map[], map[1 := Idle(0), 2 := Committing(2, t, t)], true)
  {
    s := CommitsOverlap(b);
    s := Step(s, LandClear(1), b);
  }

  lemma ThirdStakes(b: Bounds) returns (s: State)
    requires Short(b)
    ensures Reachable(s, b)
    ensures var t := b.timeout + b.settle;
            s == State(t, 0, 3, t, map[1 := 0, 2 := b.timeout, 3 := t], {3}, map[],
                       map[1 := Idle(0), 2 := Committing(2, t, t), 3 := Settling(3, t + b.settle, t, 3)], true)
  {
    s := WordIsFreed(b);
    s := Step(s, Look(3, s.now), b);
    s := Step(s, Publish(3, 3), b);
    s := Step(s, Judge(3), b);
  }

  lemma ThirdLands(b: Bounds) returns (s: State)
    requires Short(b)
    ensures Reachable(s, b)
    ensures var t := b.timeout + b.settle;
            s == State(t, 3, 4, t, map[1 := 0, 2 := b.timeout, 3 := t], {}, map[],
                       map[1 := Idle(0), 2 := Committing(2, t, t), 3 := Settling(3, t + b.settle, t, 3)], true)
  {
    s := ThirdStakes(b);
    s := Step(s, Land(3), b);
  }

  /** Where a holder may stall longer than a settle, the freed word makes a second holder beside the thief. */
  lemma TwoHolders(b: Bounds) returns (s: State)
    requires Short(b) && b.settle < b.stall
    ensures Reachable(s, b) && s.kept && s.At(2).Committing? && s.At(3).Committing?
  {
    s := ThirdLands(b);
    assert Within(s, s.now + b.settle, b);
    s := Step(s, Advance(s.now + b.settle), b);
    s := Step(s, EndSettle(3), b);
  }

  /** Commits are serial over every run that meets the bounds if and only if the durations leave the slack. */
  lemma SerialExactly(b: Bounds)
    requires Asserted(b)
    ensures (forall s: State | Reachable(s, b) && s.kept :: Serial(s)) <==> Slack(b)
  {
    if Slack(b) {
      forall s: State | Reachable(s, b) && s.kept
        ensures Serial(s)
      {
        var start: int, events: seq<Event> :| s == Run(Init(start), events, b);
        SerialCommits(b, start, events);
      }
    } else {
      var s := CommitsOverlap(b);
    }
  }
}
