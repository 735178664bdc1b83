/**
 `lockNode`, `unlockNode`, `acquire`, `release` and `cleanupDeadPeer` as the loops the source runs
 (src/core/policy/successor_peterson.cpp), against a tree that other peers write between any two of
 their accesses.

 The tree object holds the shared lines together with the place of every peer in its own program, so that
 `Model` is a state of the `Tournament` machine. Each method performs its own accesses one by one and
 lets the other peers run after each of them: `others(h)` is what they do once it has made the accesses `h`. A
 method's contract names its own accesses, and says that what it leaves is those woven with `others` and no more.
 */
module Climb {
  import opened Histories
  import opened TreeGeometry
  import opened Tournament

  type Interference = History<Event> -> seq<Event>

  /** The interference contains no event of `self`. */
  ghost predicate Foreign(others: Interference, self: nat) {
    forall h: History<Event>, e: Event | e in others(h) :: e.peer != self
  }

  ghost predicate Silent(others: Interference) {
    forall h: History<Event> :: others(h) == []
  }

  // ---------- own accesses woven with interference ----------

  /** The own events one after the other, everybody else running after each. */
  function Weave(s: State, own: History<Event>, others: Interference): State {
    match own
    case Start => s
    case Then(past, e) => Run(Next(Weave(s, past, others), e), others(own))
  }

  lemma WeaveOne(s: State, past: History<Event>, e: Event, others: Interference)
    ensures Weave(s, Then(past, e), others) == Run(Next(Weave(s, past, others), e), others(Then(past, e)))
  {
  }

  lemma WeaveTimes(s: State, past: History<Event>, e: Event, n: nat, others: Interference)
    ensures Times(past, e, n + 1) == Then(Times(past, e, n), e)
    ensures Weave(s, Times(past, e, n + 1), others) == Run(Next(Weave(s, Times(past, e, n), others), e), others(Times(past, e, n + 1)))
  {
  }

  lemma {:induction false} WeaveInv(s: State, own: History<Event>, others: Interference)
    requires Inv(s)
    ensures Inv(Weave(s, own, others)) && Weave(s, own, others).maxPeers == s.maxPeers
    decreases own
  {
    if own.Then? {
      WeaveInv(s, own.past, others);
      var t := Weave(s, own.past, others);
      NextInv(t, own.event);
      RunInv(Next(t, own.event), others(own));
      RunKeepsSize(Next(t, own.event), others(own));
    }
  }

  /** One level after `past`, with `retries` failed probes before the last: announce, yield, probe; a level not won is retracted. */
  function Level(past: History<Event>, self: nat, retries: nat, won: bool): History<Event> {
    var probed := Times(past, Access(self), 4 + 3 * retries);
    if won then probed else Then(Then(probed, Expire(self)), Access(self))
  }

  /** Levels won one after the other. */
  function Levels(self: nat, tries: seq<nat>): History<Event> {
    if tries == [] then Then(Start, Begin(self)) else Level(Levels(self, tries[..|tries| - 1]), self, tries[|tries| - 1], true)
  }

  /** A whole climb; one that is not won gives back the levels below the last. */
  function Climbing(self: nat, tries: seq<nat>, won: bool): History<Event> {
    if won || tries == [] then Levels(self, tries)
    else
      var last := |tries| - 1;
      Times(Level(Levels(self, tries[..last]), self, tries[last], false), Access(self), last)
  }

  /** Every event is one of `self`. */
  predicate Own(h: History<Event>, self: nat) {
    h.Start? || (h.event.peer == self && Own(h.past, self))
  }

  // ---------- what own accesses leave alone ----------

  /** The line opposite to the one `self` announces itself on. */
  function Rival(maxPeers: nat, self: nat, level: nat): ClimbStep
    requires level < Depth(maxPeers)
  {
    var step := StepAt(maxPeers, self, level);
    ClimbStep(step.node, step.role.Other())
  }

  /** Every line opposite to the path is idle. */
  ghost predicate PathClear(s: State, self: nat) {
    forall level: nat | level < s.Depth() :: s.Line(Rival(s.maxPeers, self, level)) == NoPeer
  }

  /** What a line says of peers other than `self`. */
  function OtherOwner(s: State, step: ClimbStep, self: nat): Owner {
    if s.Line(step) == Named(self) then NoPeer else s.Line(step)
  }

  /** No other peer has moved, and no line says anything else of one. */
  ghost predicate Spared(s: State, s': State, self: nat) {
    && OthersSame(s, s', self)
    && forall step: ClimbStep :: OtherOwner(s', step, self) == OtherOwner(s, step, self)
  }

  lemma OthersLeaveSelf(s: State, e: Event, self: nat)
    requires e.peer != self
    ensures Next(s, e).Phase(self) == s.Phase(self) && Next(s, e).Scrub(self) == s.Scrub(self)
    ensures Next(s, e).maxPeers == s.maxPeers
  {
    hide NextAccess, NextScrub;
    AccessesLeaveSelf(s, e.peer, self);
    ScrubsLeaveSelf(s, e.peer, self);
  }

  lemma AccessesLeaveSelf(s: State, p: nat, self: nat)
    requires p != self
    ensures NextAccess(s, p).Phase(self) == s.Phase(self) && NextAccess(s, p).Scrub(self) == s.Scrub(self)
    ensures NextAccess(s, p).maxPeers == s.maxPeers
  {
  }

  lemma ScrubsLeaveSelf(s: State, p: nat, self: nat)
    requires p != self
    ensures NextScrub(s, p).Phase(self) == s.Phase(self) && NextScrub(s, p).Scrub(self) == s.Scrub(self)
    ensures NextScrub(s, p).maxPeers == s.maxPeers
  {
  }

  /** Lines follow the places of the peers they name. */
  lemma LinesSpared(s: State, s': State, self: nat)
    requires Inv(s) && Inv(s') && OthersSame(s, s', self)
    ensures Spared(s, s', self)
  {
    forall step: ClimbStep
      ensures OtherOwner(s', step, self) == OtherOwner(s, step, self)
    {
      NamedStays(s, s', self, step);
      NamedStays(s', s, self, step);
    }
  }

  lemma NamedStays(s: State, s': State, self: nat, step: ClimbStep)
    requires Inv(s) && Inv(s') && OthersSame(s, s', self)
    ensures s.Line(step).Named? && s.Line(step).peer != self ==> s'.Line(step) == s.Line(step)
  {
    if s.Line(step).Named? && s.Line(step).peer != self {
      var q := s.Line(step).peer;
      assert StandsAt(s, q, step);
      assert s'.Standing(q) == s.Standing(q);
    }
  }

  /** Own events alone change nothing of anybody else's, whatever they are. */
  lemma {:induction false} OwnEventsSpareOthers(s: State, own: History<Event>, self: nat, others: Interference)
    requires Inv(s) && Silent(others) && Own(own, self)
    ensures Inv(Weave(s, own, others)) && Spared(s, Weave(s, own, others), self)
    decreases own
  {
    if own.Then? {
      var t := Weave(s, own.past, others);
      OwnEventsSpareOthers(s, own.past, self, others);
      NextInv(t, own.event);
      OwnStepSpares(t, own.event, self);
      assert Weave(s, own, others) == Next(t, own.event);
      LinesSpared(s, Next(t, own.event), self);
    }
  }

  lemma OwnStepSpares(s: State, e: Event, self: nat)
    requires e.peer == self
    ensures OthersSame(s, Next(s, e), self)
  {
    forall q: nat | q != self
      ensures Next(s, e).Phase(q) == s.Phase(q) && Next(s, e).Scrub(q) == s.Scrub(q)
    {
      OthersLeaveSelf(s, e, q);
    }
  }

  /** A peer's own id is never opposite to its path. */
  lemma RivalIsNotOwn(s: State, self: nat, level: nat)
    requires Inv(s) && level < s.Depth()
    ensures s.Line(Rival(s.maxPeers, self, level)) != Named(self)
  {
    var rival := Rival(s.maxPeers, self, level);
    if s.Line(rival) == Named(self) {
      assert StandsAt(s, self, rival);
      var j: nat :| j < s.Standing(self) && j < s.Depth() && StepAt(s.maxPeers, self, j) == rival;
      SameNode(s, self, level, self, j);
      assert false;
    }
  }

  /** Nobody but `self` stands anywhere in the tree. */
  predicate Alone(s: State, self: nat) {
    forall q: nat | q < s.maxPeers && q != self :: s.Standing(q) == 0
  }

  lemma AloneIsClear(s: State, self: nat)
    requires Inv(s) && Alone(s, self)
    ensures PathClear(s, self)
  {
    forall level: nat | level < s.Depth()
      ensures s.Line(Rival(s.maxPeers, self, level)) == NoPeer
    {
      var rival := Rival(s.maxPeers, self, level);
      RivalIsNotOwn(s, self, level);
      if s.Line(rival).Named? {
        assert false;
      }
    }
  }

  /** The probe of one level as the lines stand: the other line is idle, or the turn is not the other's. */
  predicate Passes(s: State, self: nat, level: nat)
    requires level < s.Depth()
  {
    var step := StepAt(s.maxPeers, self, level);
    s.Line(Rival(s.maxPeers, self, level)) == NoPeer || s.Turn(step.node) != step.role.Other()
  }

  lemma {:induction false} TimesIsOwn(past: History<Event>, e: Event, n: nat, self: nat)
    requires Own(past, self) && e.peer == self
    ensures Own(Times(past, e, n), self)
    decreases n
  {
    if n > 0 {
      TimesIsOwn(past, e, n - 1, self);
    }
  }

  lemma LevelIsOwn(past: History<Event>, self: nat, retries: nat, won: bool)
    requires Own(past, self)
    ensures Own(Level(past, self, retries, won), self)
  {
    TimesIsOwn(past, Access(self), 4 + 3 * retries, self);
  }

  lemma {:induction false} LevelsAreOwn(self: nat, tries: seq<nat>)
    ensures Own(Levels(self, tries), self)
    decreases |tries|
  {
    if tries != [] {
      LevelsAreOwn(self, tries[..|tries| - 1]);
      LevelIsOwn(Levels(self, tries[..|tries| - 1]), self, tries[|tries| - 1], true);
    }
  }

  lemma ClimbingIsOwn(self: nat, tries: seq<nat>, won: bool)
    ensures Own(Climbing(self, tries, won), self)
  {
    LevelsAreOwn(self, tries);
    if !won && tries != [] {
      var last := |tries| - 1;
      LevelsAreOwn(self, tries[..last]);
      LevelIsOwn(Levels(self, tries[..last]), self, tries[last], false);
      TimesIsOwn(Level(Levels(self, tries[..last]), self, tries[last], false), Access(self), last, self);
    }
  }

  lemma OneMoreLevel(self: nat, tries: seq<nat>, retries: nat)
    ensures Climbing(self, tries + [retries], true) == Level(Climbing(self, tries, true), self, retries, true)
    ensures Climbing(self, tries + [retries], false) == Times(Level(Climbing(self, tries, true), self, retries, false), Access(self), |tries|)
  {
    var longer := tries + [retries];
    assert longer[..|longer| - 1] == tries && longer[|longer| - 1] == retries;
  }

  lemma Undisturbed(s: State, self: nat, tries: seq<nat>, won: bool, others: Interference)
    requires Inv(s)
    ensures Silent(others) ==> Spared(s, Weave(s, Climbing(self, tries, won), others), self)
  {
    ClimbingIsOwn(self, tries, won);
    if Silent(others) {
      OwnEventsSpareOthers(s, Climbing(self, tries, won), self, others);
    }
  }

  /** Undisturbed, the line opposite to a level is idle when the climb gets there exactly if it was at the start. */
  lemma RivalStays(s: State, t: State, self: nat, tries: seq<nat>, level: nat, others: Interference)
    requires Inv(s) && Silent(others) && t == Weave(s, Climbing(self, tries, true), others) && level < s.Depth()
    ensures t.maxPeers == s.maxPeers
    ensures t.Line(Rival(s.maxPeers, self, level)) == NoPeer <==> s.Line(Rival(s.maxPeers, self, level)) == NoPeer
  {
    ClimbingIsOwn(self, tries, true);
    OwnEventsSpareOthers(s, Climbing(self, tries, true), self, others);
    RivalIsNotOwn(s, self, level);
    RivalIsNotOwn(t, self, level);
    assert OtherOwner(t, Rival(s.maxPeers, self, level), self) == OtherOwner(s, Rival(s.maxPeers, self, level), self);
  }

  /** The accesses of a scrub. */
  function ScrubSteps(dead: nat, accesses: nat): History<Event> {
    Times(Then(Start, ScrubBegin(dead)), ScrubAccess(dead), accesses)
  }

  class Tree {
    const maxPeers: nat
    var lines: map<ClimbStep, Owner>
    var turns: map<nat, Role>
    var phases: map<nat, Phase>
    var scrubs: map<nat, Scrub>

    function Model(): State
      reads this
    {
      State(maxPeers, lines, turns, phases, scrubs)
    }

    /** A formatted tree: every line idle, every turn with the first role. */
    constructor (maxPeers: nat)
      ensures Model() == Init(maxPeers) && Inv(Model())
    {
      this.maxPeers := maxPeers;
      lines, turns, phases, scrubs := map[], map[], map[], map[];
      new;
      InitInv(maxPeers);
    }

    /** The other peers run. */
    method Others(events: seq<Event>, ghost self: nat)
      requires forall e | e in events :: e.peer != self
      modifies this
      ensures Model() == Run(old(Model()), events)
      ensures Model().Phase(self) == old(Model().Phase(self))
      ensures Model().Scrub(self) == old(Model().Scrub(self))
      ensures events == [] ==> Model() == old(Model())
    {
      var i := 0;
      while i < |events|
        invariant 0 <= i <= |events|
        invariant Run(Model(), events[i..]) == Run(old(Model()), events)
        invariant Model().Phase(self) == old(Model().Phase(self))
        invariant Model().Scrub(self) == old(Model().Scrub(self))
      {
          OthersLeaveSelf(Model(), events[i], self);
        assert events[i..][1..] == events[i + 1..];
        var next := Next(Model(), events[i]);
        lines, turns, phases, scrubs := next.lines, next.turns, next.phases, next.scrubs;
        i := i + 1;
      }
      assert events[i..] == [];
    }

    // The accesses of one level, each the machine's next step for `self` with the interference after it.

    method Announce(self: nat, level: nat, step: ClimbStep, others: Interference, h: History<Event>)
      requires self < maxPeers && level < Depth(maxPeers) && step == StepAt(maxPeers, self, level)
      requires Model().Phase(self) == Announcing(level) && Foreign(others, self)
      modifies this
      ensures Model() == Run(Next(old(Model()), Access(self)), others(h))
      ensures Model().Phase(self) == Yielding(level)
      ensures others(h) == [] ==> lines == old(lines)[step := Named(self)] && turns == old(turns)
    {
      lines := lines[step := Named(self)];
      phases := phases[self := Yielding(level)];
      Others(others(h), self);
    }

    method YieldTurn(self: nat, level: nat, step: ClimbStep, others: Interference, h: History<Event>)
      requires self < maxPeers && level < Depth(maxPeers) && step == StepAt(maxPeers, self, level)
      requires Model().Phase(self) == Yielding(level) && Foreign(others, self)
      modifies this
      ensures Model() == Run(Next(old(Model()), Access(self)), others(h))
      ensures Model().Phase(self) == ReadingOther(level)
      ensures others(h) == [] ==> lines == old(lines) && turns == old(turns)[step.node := step.role.Other()]
    {
      turns := turns[step.node := step.role.Other()];
      phases := phases[self := ReadingOther(level)];
      Others(others(h), self);
    }

    method ReadOther(self: nat, level: nat, step: ClimbStep, others: Interference, h: History<Event>) returns (owner: Owner)
      requires self < maxPeers && level < Depth(maxPeers) && step == StepAt(maxPeers, self, level)
      requires Model().Phase(self) == ReadingOther(level) && Foreign(others, self)
      modifies this
      ensures Model() == Run(Next(old(Model()), Access(self)), others(h))
      ensures Model().Phase(self) == ReadingTurn(level, owner == NoPeer)
      ensures owner == old(Model()).Line(Rival(maxPeers, self, level))
      ensures others(h) == [] ==> lines == old(lines) && turns == old(turns)
    {
      owner := Model().Line(ClimbStep(step.node, step.role.Other()));
      phases := phases[self := ReadingTurn(level, owner == NoPeer)];
      Others(others(h), self);
    }

    method ReadTurn(self: nat, level: nat, step: ClimbStep, owner: Owner, others: Interference, h: History<Event>)
      returns (won: bool)
      requires self < maxPeers && level < Depth(maxPeers) && step == StepAt(maxPeers, self, level)
      requires Model().Phase(self) == ReadingTurn(level, owner == NoPeer) && Foreign(others, self)
      modifies this
      ensures Model() == Run(Next(old(Model()), Access(self)), others(h))
      ensures Model().Phase(self) == if won then Climbed(Model(), level + 1) else Losing(level)
      ensures won <==> owner == NoPeer || old(Model()).Turn(step.node) != step.role.Other()
      ensures others(h) == [] ==> lines == old(lines) && turns == old(turns)
    {
      var turn := Model().Turn(step.node);
      won := owner == NoPeer || turn != step.role.Other();
      phases := phases[self := if won then Climbed(Model(), level + 1) else Losing(level)];
      Others(others(h), self);
    }

    method Retry(self: nat, level: nat, others: Interference, past: History<Event>, n: nat, ghost start: State)
      requires self < maxPeers && Model().Phase(self) == Losing(level) && Foreign(others, self)
      requires Model() == Weave(start, Times(past, Access(self), n), others)
      modifies this
      ensures Model() == Weave(start, Times(past, Access(self), n + 1), others)
      ensures Model().Phase(self) == ReadingOther(level)
      ensures Silent(others) ==> lines == old(lines) && turns == old(turns)
    {
      WeaveTimes(start, past, Access(self), n, others);
      phases := phases[self := ReadingOther(level)];
      Others(others(Times(past, Access(self), n + 1)), self);
    }

    method FindExpired(self: nat, level: nat, others: Interference, past: History<Event>, ghost start: State)
      requires self < maxPeers && Model().Phase(self) == Losing(level) && Foreign(others, self)
      requires Model() == Weave(start, past, others)
      modifies this
      ensures Model().Phase(self) == Retreating(level + 1, level)
      ensures Model() == Weave(start, Then(past, Expire(self)), others)
    {
      hide Run;
      phases := phases[self := Retreating(level + 1, level)];
      Others(others(Then(past, Expire(self))), self);
    }

    /** The deadline passed: take the announcement of this level back. */
    method Retract(self: nat, level: nat, step: ClimbStep, others: Interference, past: History<Event>, ghost start: State)
      requires self < maxPeers && level < Depth(maxPeers) && step == StepAt(maxPeers, self, level)
      requires Model().Phase(self) == Losing(level) && Foreign(others, self)
      requires Model() == Weave(start, past, others)
      modifies this
      ensures Model().Phase(self) == Retreat(level, level)
      ensures Model() == Weave(start, Then(Then(past, Expire(self)), Access(self)), others)
    {
      var expired := Then(past, Expire(self));
      FindExpired(self, level, others, past, start);
      hide Next, Run, Weave;
      WeaveOne(start, expired, Access(self), others);
      UnlockNode(self, level, step, others, Then(expired, Access(self)));
    }

    /** One level: announce, yield the turn, then probe until the level is won or the budget is spent. */
    method LockNode(self: nat, level: nat, step: ClimbStep, budget: nat, others: Interference, past: History<Event>, ghost start: State)
      returns (won: bool, retries: nat)
      requires self < maxPeers && level < Depth(maxPeers) && Foreign(others, self)
      requires step == StepAt(maxPeers, self, level) && Model().Phase(self) == Announcing(level)
      requires Model() == Weave(start, past, others)
      modifies this
      ensures Model().Phase(self) == if won then Climbed(Model(), level + 1) else Retreat(level, level)
      ensures Model() == Weave(start, Level(past, self, retries, won), others)
      ensures retries <= budget && (!won ==> retries == budget)
      ensures forall i: nat | i < (if won then retries else retries + 1) ::
                Weave(start, Times(past, Access(self), 4 + 3 * i), others).Phase(self) == Losing(level)
      ensures Silent(others) ==> (won <==> old(Model()).Line(Rival(maxPeers, self, level)) == NoPeer)
    {
      hide Weave, Times;
      StartLevel(self, level, step, others, past, start);
      label Yielded:
      won, retries := Spin(self, level, step, budget, others, past, start);
      if !won {
        Retract(self, level, step, others, Times(past, Access(self), 4 + 3 * retries), start);
      }
    }

    /** The announcement and the turn of one level. */
    method StartLevel(self: nat, level: nat, step: ClimbStep, others: Interference, past: History<Event>, ghost start: State)
      requires self < maxPeers && level < Depth(maxPeers) && Foreign(others, self)
      requires step == StepAt(maxPeers, self, level) && Model().Phase(self) == Announcing(level)
      requires Model() == Weave(start, past, others)
      modifies this
      ensures Model().Phase(self) == ReadingOther(level)
      ensures Model() == Weave(start, Times(past, Access(self), 2), others)
      ensures Silent(others) ==> (Passes(Model(), self, level) <==> old(Model()).Line(Rival(maxPeers, self, level)) == NoPeer)
    {
      assert Times(past, Access(self), 0) == past;
      WeaveTimes(start, past, Access(self), 0, others);
      Announce(self, level, step, others, Times(past, Access(self), 1));
      WeaveTimes(start, past, Access(self), 1, others);
      YieldTurn(self, level, step, others, Times(past, Access(self), 2));
    }

    /** The probe loop; `budget` failed probes are tolerated before the deadline is found expired. */
    method Spin(self: nat, level: nat, step: ClimbStep, budget: nat, others: Interference, past: History<Event>, ghost start: State)
      returns (won: bool, retries: nat)
      requires self < maxPeers && level < Depth(maxPeers) && Foreign(others, self)
      requires step == StepAt(maxPeers, self, level) && Model().Phase(self) == ReadingOther(level)
      requires Model() == Weave(start, Times(past, Access(self), 2), others)
      modifies this
      ensures Model().Phase(self) == if won then Climbed(Model(), level + 1) else Losing(level)
      ensures Model() == Weave(start, Times(past, Access(self), 4 + 3 * retries), others)
      ensures retries <= budget && (!won ==> retries == budget)
      ensures forall i: nat | i < (if won then retries else retries + 1) ::
                Weave(start, Times(past, Access(self), 4 + 3 * i), others).Phase(self) == Losing(level)
      ensures Silent(others) ==> (won <==> Passes(old(Model()), self, level))
    {
      hide Weave, Times;
      retries := 0;
      won := Probe(self, level, step, others, past, 2, start);
      while !won && retries < budget
        invariant Model().Phase(self) == if won then Climbed(Model(), level + 1) else Losing(level)
        invariant Model() == Weave(start, Times(past, Access(self), 4 + 3 * retries), others)
        invariant retries <= budget
        invariant forall i: nat | i < (if won then retries else retries + 1) ::
                    Weave(start, Times(past, Access(self), 4 + 3 * i), others).Phase(self) == Losing(level)
        invariant Silent(others) ==> lines == old(lines) && turns == old(turns) && (won <==> Passes(old(Model()), self, level))
      {
        Retry(self, level, others, past, 4 + 3 * retries, start);
        retries := retries + 1;
        won := Probe(self, level, step, others, past, 2 + 3 * retries, start);
      }
    }

    /** The two reads of one probe, after `n` accesses. */
    method Probe(self: nat, level: nat, step: ClimbStep, others: Interference, past: History<Event>, n: nat, ghost start: State)
      returns (won: bool)
      requires self < maxPeers && level < Depth(maxPeers) && Foreign(others, self)
      requires step == StepAt(maxPeers, self, level) && Model().Phase(self) == ReadingOther(level)
      requires Model() == Weave(start, Times(past, Access(self), n), others)
      modifies this
      ensures Model().Phase(self) == if won then Climbed(Model(), level + 1) else Losing(level)
      ensures Model() == Weave(start, Times(past, Access(self), n + 2), others)
      ensures Silent(others) ==> (won <==> Passes(old(Model()), self, level)) && lines == old(lines) && turns == old(turns)
    {
      WeaveTimes(start, past, Access(self), n, others);
      var otherOwner := ReadOther(self, level, step, others, Times(past, Access(self), n + 1));
      WeaveTimes(start, past, Access(self), n + 1, others);
      won := ReadTurn(self, level, step, otherOwner, others, Times(past, Access(self), n + 2));
    }

    /** Clears the topmost line `self` has standing. */
    method UnlockNode(self: nat, level: nat, step: ClimbStep, others: Interference, h: History<Event>)
      requires self < maxPeers && level < Depth(maxPeers) && step == StepAt(maxPeers, self, level)
      requires Model().Phase(self).Retreating? && Model().Phase(self).standing == level + 1 && Foreign(others, self)
      modifies this
      ensures Model() == Run(Next(old(Model()), Access(self)), others(h))
      ensures Model().Phase(self) == Retreat(level, Min(old(Model().Won(self)), level))
    {
      var won := Model().Won(self);
      lines := lines[step := NoPeer];
      phases := phases[self := Retreat(level, Min(won, level))];
      Others(others(h), self);
    }

    /** Clears `[0, standing)` of the path, root side first. */
    method BackOut(self: nat, path: seq<ClimbStep>, standing: nat, others: Interference, past: History<Event>, ghost start: State)
      requires self < maxPeers && Foreign(others, self) && path == ClimbPath(maxPeers, self)
      requires standing <= |path| && Model().Phase(self) == Retreat(standing, standing)
      requires Model() == Weave(start, past, others)
      modifies this
      ensures Model().Phase(self) == Outside
      ensures Model() == Weave(start, Times(past, Access(self), standing), others)
    {
      hide Weave, Next;
      var level := standing;
      while level > 0
        invariant 0 <= level <= standing && Model().Phase(self) == Retreat(level, level)
        invariant Model() == Weave(start, Times(past, Access(self), standing - level), others)
      {
        WeaveTimes(start, past, Access(self), standing - level, others);
        level := level - 1;
        UnlockNode(self, level, path[level], others, Times(past, Access(self), standing - level));
      }
    }

    /**
     Climb leaf to root; on a level timeout give back what was won. True means past the root. A climb that fails has
     seen its budget and one more probe fail on one level; one that nobody disturbs fails exactly if a line opposite to
     its path names somebody.
     */
    method Acquire(self: nat, budget: nat -> nat, others: Interference) returns (won: bool, tries: seq<nat>)
      requires Inv(Model()) && self < maxPeers && Model().Phase(self) == Outside && Foreign(others, self)
      modifies this
      ensures Inv(Model()) && Model().Phase(self) == if won then Inside else Outside
      ensures Model() == Weave(old(Model()), Climbing(self, tries, won), others)
      ensures |tries| <= Depth(maxPeers) && (won ==> |tries| == Depth(maxPeers)) && (!won ==> tries != [])
      ensures forall k | 0 <= k < |tries| :: tries[k] <= budget(k)
      ensures !won ==> tries[|tries| - 1] == budget(|tries| - 1)
      ensures Silent(others) ==> (won <==> PathClear(old(Model()), self)) && Spared(old(Model()), Model(), self)
    {
      hide Weave, Times, Level, Climbing, Inv, Spared, Next, Run, Foreign;
      ghost var start := Model();
      var path := BuildClimbPath(maxPeers, self);
      StartClimb(self, others);
      tries := [];
      var level := 0;
      while level < |path|
        invariant level <= |path| && |tries| == level && Model().Phase(self) == Climbed(Model(), level)
        invariant Model() == Weave(start, Climbing(self, tries, true), others)
        invariant forall k | 0 <= k < |tries| :: tries[k] <= budget(k)
        invariant Silent(others) ==> forall k: nat | k < level :: start.Line(Rival(maxPeers, self, k)) == NoPeer
      {
        var ok, retries := ClimbOne(self, path, tries, budget(level), others, start);
        tries := tries + [retries];
        if !ok {
          WeaveInv(start, Climbing(self, tries, false), others);
          Undisturbed(start, self, tries, false, others);
          return false, tries;
        }
        level := level + 1;
      }
      WeaveInv(start, Climbing(self, tries, true), others);
      Undisturbed(start, self, tries, true, others);
      won := true;
    }

    /** The next level of a climb, and on its timeout the way back. */
    method ClimbOne(self: nat, path: seq<ClimbStep>, tries: seq<nat>, budget: nat, others: Interference, ghost start: State)
      returns (ok: bool, retries: nat)
      requires self < maxPeers && Foreign(others, self) && path == ClimbPath(maxPeers, self) && |tries| < |path|
      requires Inv(start) && start.maxPeers == maxPeers && Model() == Weave(start, Climbing(self, tries, true), others)
      requires Model().Phase(self) == Announcing(|tries|)
      modifies this
      ensures Model() == Weave(start, Climbing(self, tries + [retries], ok), others)
      ensures Model().Phase(self) == if ok then Climbed(Model(), |tries| + 1) else Outside
      ensures retries <= budget && (!ok ==> retries == budget)
      ensures Silent(others) ==> (ok <==> start.Line(Rival(maxPeers, self, |tries|)) == NoPeer)
    {
      hide Weave, Times, Level, Climbing, Inv;
      var level := |tries|;
      if Silent(others) {
        RivalStays(start, Model(), self, tries, level, others);
      }
      var past := Climbing(self, tries, true);
      ok, retries := LockNode(self, level, path[level], budget, others, past, start);
      OneMoreLevel(self, tries, retries);
      if !ok {
        BackOut(self, path, level, others, Level(past, self, retries, false), start);
      }
    }

    /** The climb starts; no line is touched yet. */
    method StartClimb(self: nat, others: Interference)
      requires self < maxPeers && Model().Phase(self) == Outside && Foreign(others, self)
      modifies this
      ensures Model() == Weave(old(Model()), Climbing(self, [], true), others)
      ensures Model().Phase(self) == Climbed(Model(), 0)
    {
      phases := phases[self := Climbed(Model(), 0)];
      Others(others(Then(Start, Begin(self))), self);
    }

    /** The holder leaves: its lines go down root to leaf. */
    method Release(self: nat, others: Interference)
      requires Inv(Model()) && self < maxPeers && Model().Phase(self) == Inside && Foreign(others, self)
      modifies this
      ensures Inv(Model()) && Model().Phase(self) == Outside
      ensures Model() == Weave(old(Model()), Times(Then(Start, Leave(self)), Access(self), Depth(maxPeers)), others)
      ensures Silent(others) ==> Spared(old(Model()), Model(), self)
    {
      ghost var start := Model();
      var path := BuildClimbPath(maxPeers, self);
      var left := Then(Start, Leave(self));
      StartRelease(self, |path|, others);
      BackOut(self, path, |path|, others, left, start);
      WeaveInv(start, Times(left, Access(self), |path|), others);
      if Silent(others) {
        TimesIsOwn(left, Access(self), |path|, self);
        OwnEventsSpareOthers(start, Times(left, Access(self), |path|), self, others);
      }
    }

    method StartRelease(self: nat, depth: nat, others: Interference)
      requires self < maxPeers && Model().Phase(self) == Inside && Foreign(others, self) && depth == Depth(maxPeers)
      modifies this
      ensures Model().Phase(self) == Retreat(depth, depth)
      ensures Model() == Weave(old(Model()), Then(Start, Leave(self)), others)
    {
      phases := phases[self := Retreat(depth, depth)];
      Others(others(Then(Start, Leave(self))), self);
    }

    /**
     The authority scrubs the residue of a dead peer, root to leaf, clearing only a line it has just read as
     naming that peer. Live peers climb meanwhile; afterwards no line names the dead peer.
     */
    method CleanupDeadPeer(dead: nat, others: Interference) returns (accesses: nat)
      requires Inv(Model()) && dead < maxPeers && Foreign(others, dead)
      requires Model().Phase(dead).Dead? && Model().Scrub(dead) == Unscrubbed
      modifies this
      ensures Inv(Model()) && Model().Phase(dead).Dead? && Model().Scrub(dead) == Scrubbed
      ensures forall step :: Model().Line(step) != Named(dead)
      ensures Model() == Weave(old(Model()), ScrubSteps(dead, accesses), others)
      ensures Depth(maxPeers) < accesses <= 2 * Depth(maxPeers) + 1
      ensures Silent(others) ==> Spared(old(Model()), Model(), dead)
    {
      hide Weave;
      ghost var start := Model();
      var path := BuildClimbPath(maxPeers, dead);
      var level := |path|;
      StartScrub(dead, level, others);
      accesses := 0;
      while level > 0
        invariant 0 <= level <= |path|
        invariant Model().Phase(dead).Dead? && Model().Scrub(dead) == Scrubbing(level, false)
        invariant |path| - level <= accesses <= 2 * (|path| - level)
        invariant Model() == Weave(start, ScrubSteps(dead, accesses), others)
      {
        var found := ScrubLevel(dead, level, path[level - 1], others, accesses, start);
        accesses := accesses + if found then 2 else 1;
        level := level - 1;
      }
      EndScrub(dead, others, accesses, start);
      accesses := accesses + 1;
      WeaveInv(start, ScrubSteps(dead, accesses), others);
      ScrubbedClean(Model(), dead);
      if Silent(others) {
        TimesIsOwn(Then(Start, ScrubBegin(dead)), ScrubAccess(dead), accesses, dead);
        OwnEventsSpareOthers(start, ScrubSteps(dead, accesses), dead, others);
      }
    }

    method StartScrub(dead: nat, depth: nat, others: Interference)
      requires dead < maxPeers && Foreign(others, dead) && depth == Depth(maxPeers)
      requires Model().Phase(dead).Dead? && Model().Scrub(dead) == Unscrubbed
      modifies this
      ensures Model().Phase(dead).Dead? && Model().Scrub(dead) == Scrubbing(depth, false)
      ensures Model() == Weave(old(Model()), ScrubSteps(dead, 0), others)
    {
      scrubs := scrubs[dead := Scrubbing(depth, false)];
      Others(others(Then(Start, ScrubBegin(dead))), dead);
    }

    method EndScrub(dead: nat, others: Interference, n: nat, ghost start: State)
      requires dead < maxPeers && Foreign(others, dead)
      requires Model().Phase(dead).Dead? && Model().Scrub(dead) == Scrubbing(0, false)
      requires Model() == Weave(start, ScrubSteps(dead, n), others)
      modifies this
      ensures Model().Phase(dead).Dead? && Model().Scrub(dead) == Scrubbed
      ensures Model() == Weave(start, ScrubSteps(dead, n + 1), others)
    {
      WeaveTimes(start, Then(Start, ScrubBegin(dead)), ScrubAccess(dead), n, others);
      scrubs := scrubs[dead := Scrubbed];
      Others(others(ScrubSteps(dead, n + 1)), dead);
    }

    /** Clears the line of one level if it still names the dead peer. */
    method ScrubLevel(dead: nat, level: nat, step: ClimbStep, others: Interference, n: nat, ghost start: State)
      returns (found: bool)
      requires dead < maxPeers && 0 < level <= Depth(maxPeers) && Foreign(others, dead)
      requires step == StepAt(maxPeers, dead, level - 1)
      requires Model().Phase(dead).Dead? && Model().Scrub(dead) == Scrubbing(level, false)
      requires Model() == Weave(start, ScrubSteps(dead, n), others)
      modifies this
      ensures Model().Phase(dead).Dead? && Model().Scrub(dead) == Scrubbing(level - 1, false)
      ensures found <==> old(Model()).Line(step) == Named(dead)
      ensures Model() == Weave(start, ScrubSteps(dead, if found then n + 2 else n + 1), others)
    {
      hide Weave, Next;
      WeaveTimes(start, Then(Start, ScrubBegin(dead)), ScrubAccess(dead), n, others);
      found := ScrubRead(dead, level, step);
      Others(others(ScrubSteps(dead, n + 1)), dead);
      if found {
        WeaveTimes(start, Then(Start, ScrubBegin(dead)), ScrubAccess(dead), n + 1, others);
        ScrubClear(dead, level, step);
        Others(others(ScrubSteps(dead, n + 2)), dead);
      }
    }

    method ScrubRead(dead: nat, level: nat, step: ClimbStep) returns (found: bool)
      requires dead < maxPeers && 0 < level <= Depth(maxPeers)
      requires step == StepAt(maxPeers, dead, level - 1)
      requires Model().Phase(dead).Dead? && Model().Scrub(dead) == Scrubbing(level, false)
      modifies this
      ensures Model() == Next(old(Model()), ScrubAccess(dead))
      ensures Model().Phase(dead).Dead?
      ensures Model().Scrub(dead) == if found then Scrubbing(level, true) else Scrubbing(level - 1, false)
      ensures found <==> old(Model()).Line(step) == Named(dead)
    {
      found := Model().Line(step) == Named(dead);
      scrubs := scrubs[dead := if found then Scrubbing(level, true) else Scrubbing(level - 1, false)];
    }

    method ScrubClear(dead: nat, level: nat, step: ClimbStep)
      requires dead < maxPeers && 0 < level <= Depth(maxPeers)
      requires step == StepAt(maxPeers, dead, level - 1)
      requires Model().Phase(dead).Dead? && Model().Scrub(dead) == Scrubbing(level, true)
      modifies this
      ensures Model() == Next(old(Model()), ScrubAccess(dead))
      ensures Model().Phase(dead).Dead? && Model().Scrub(dead) == Scrubbing(level - 1, false)
    {
      var won := Model().Won(dead);
      lines := lines[step := NoPeer];
      phases := phases[dead := Dead(level - 1, Min(won, level - 1))];
      scrubs := scrubs[dead := Scrubbing(level - 1, false)];
    }
  }

  lemma ScrubbedClean(s: State, dead: nat)
    requires Inv(s) && dead < s.maxPeers && s.Phase(dead).Dead? && s.Scrub(dead) == Scrubbed
    ensures forall step :: s.Line(step) != Named(dead)
  {
    assert ScrubOk(s, dead);
    assert forall step | s.Line(step) == Named(dead) :: StandsAt(s, dead, step);
  }
}
