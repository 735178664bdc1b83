/**
 One recovery authority as the object the source has: its claim ticked once a poll, the guarded seizure of a dead
 peer's domain and the reset (src/core/policy/recovery_authority.cpp, src/core/algo/recovery.cpp,
 src/core/algo/stake_claim.hpp).

 `ClaimSlot` is the claim line with every peer's place, a state of the `RecoveryClaim` machine. Before every
 access of one authority the others run, stores land and the clock moves; `others(h)` is what happens once the
 authority has made the accesses `h`. What a method leaves is its own accesses woven with `others` and no more.
 */
module RecoveryAuthority {
  import opened Basics
  import opened Histories
  import R = RecoveryClaim
  import opened RecoveryClaim

  /** What an authority does: it reads the clock or the slot, or takes a step of its own. */
  datatype Access = Read | Act(event: Event) {
    /** The end of the writes behind one check touches no memory. */
    predicate IsAccess() {
      Read? || !event.Finish?
    }
  }

  type Interference = History<Access> -> seq<Event>

  /** An event of another peer, of memory, or of the clock. */
  predicate ForeignEvent(e: Event, self: nat) {
    match e
    case Land(_) => true
    case LandClear(_) => true
    case LandSweep(_) => true
    case LandWrite(_) => true
    case SweepCheck(_) => true
    case SweepStore(_) => true
    case Abandon(_) => true
    case Advance(_) => true
    case _ => e.proc != self
  }

  ghost predicate Foreign(others: Interference, self: nat) {
    forall h: History<Access>, e: Event | e in others(h) :: ForeignEvent(e, self)
  }

  ghost predicate Silent(others: Interference) {
    forall h: History<Access> :: others(h) == []
  }

  /** A step an authority takes: one of its own, or a store of a sweep it has looked for. */
  predicate OwnEvent(e: Event, self: nat) {
    e.SweepCheck? || e.SweepStore? || !ForeignEvent(e, self)
  }

  predicate Own(h: History<Access>, self: nat) {
    h.Start? || ((h.event.Act? ==> OwnEvent(h.event.event, self)) && Own(h.past, self))
  }

  function After(h: History<Access>, a: Access, self: nat): (r: History<Access>)
    ensures Own(r, self) <==> Own(h, self) && (a.Act? ==> OwnEvent(a.event, self))
  {
    Then(h, a)
  }

  function Weave(s: State, own: History<Access>, others: Interference, b: Bounds): State {
    match own
    case Start => s
    case Then(past, a) =>
      var before := if a.IsAccess() then Run(Weave(s, past, others, b), others(past), b) else Weave(s, past, others, b);
      if a.Read? then before else Next(before, a.event, b)
  }

  /** What the access after `past` finds. */
  function Found(s: State, past: History<Access>, others: Interference, b: Bounds): State {
    Run(Weave(s, past, others, b), others(past), b)
  }

  lemma {:induction false} WeaveInv(s: State, own: History<Access>, others: Interference, b: Bounds)
    requires Sound(b) && Inv(s, b)
    ensures Inv(Weave(s, own, others, b), b) && Inv(Found(s, own, others, b), b)
    decreases own
  {
    hide Next, Run, Inv;
    if own.Then? {
      WeaveInv(s, own.past, others, b);
      if own.event.Act? {
        NextInv(if own.event.IsAccess() then Found(s, own.past, others, b) else Weave(s, own.past, others, b), own.event.event, b);
      }
    }
    RunInv(Weave(s, own, others, b), others(own), b);
  }

  lemma ForeignLeavesSelf(s: State, e: Event, self: nat, b: Bounds)
    requires ForeignEvent(e, self)
    ensures Next(s, e, b).At(self) == s.At(self) && s.now <= Next(s, e, b).now
    ensures OwnWritesFrom(s, Next(s, e, b), self)
  {
    ForeignLeavesWrites(s, e, self, b);
  }

  lemma ForeignLeavesWrites(s: State, e: Event, self: nat, b: Bounds)
    requires ForeignEvent(e, self)
    ensures OwnWritesFrom(s, Next(s, e, b), self)
  {
    assert !e.LandWrite? && !e.Write? ==> Next(s, e, b).writes == s.writes;
  }

  lemma {:induction false} ForeignRunLeavesSelf(s: State, events: seq<Event>, self: nat, b: Bounds)
    requires forall e | e in events :: ForeignEvent(e, self)
    ensures Run(s, events, b).At(self) == s.At(self) && s.now <= Run(s, events, b).now
    ensures OwnWritesFrom(s, Run(s, events, b), self)
    decreases |events|
  {
    if events != [] {
      ForeignLeavesSelf(s, events[0], self, b);
      ForeignRunLeavesSelf(Next(s, events[0], b), events[1..], self, b);
    }
  }

  /** Every takeover of `self` in flight in `s'` was in flight in `s`. */
  ghost predicate OwnWritesFrom(s: State, s': State, self: nat) {
    forall k | k in s'.writes && s'.writes[k].authority == self :: k in s.writes && s'.writes[k] == s.writes[k]
  }

  lemma ForeignKeepsGivenUp(s: State, e: Event, p: nat, b: Bounds)
    requires GivenUp(s, p, b)
    ensures GivenUp(Next(s, e, b), p, b)
  {
  }

  /** The dead stay declared dead. */
  lemma {:induction false} GivenUpStays(s: State, events: seq<Event>, p: nat, b: Bounds)
    requires GivenUp(s, p, b)
    ensures GivenUp(Run(s, events, b), p, b)
    decreases |events|
  {
    if events != [] {
      ForeignKeepsGivenUp(s, events[0], p, b);
      GivenUpStays(Next(s, events[0], b), events[1..], p, b);
    }
  }

  /** After a settle or a hold nothing of the own is still on its way. */
  lemma SeesWhatShows(s: State, self: nat, b: Bounds)
    requires Sound(b) && Inv(s, b) && Ripe(s, self)
    ensures Sees(s, self) != 0 <==> s.Shows(self)
  {
    assert ProcOk(s, self, b);
    OwnHasLanded(s, self, b);
  }

  lemma RipeFinds(s: State, others: Interference, self: nat, b: Bounds)
    requires Sound(b) && Inv(s, b) && Ripe(s, self) && Foreign(others, self)
    ensures var found := Found(s, Start, others, b); Sees(found, self) != 0 <==> found.Shows(self)
  {
    hide Run, Inv;
    WeaveInv(s, Start, others, b);
    ForeignRunLeavesSelf(s, others(Start), self, b);
    SeesWhatShows(Found(s, Start, others, b), self, b);
  }

  lemma SeesNothing(s: State, self: nat, b: Bounds)
    requires Inv(s, b) && Sees(s, self) == 0
    ensures !s.Shows(self)
  {
  }

  // ---------- what an undisturbed call comes to ----------

  /** A stake flushed, and the settle open. */
  function Staked(s: State, self: nat, u: nat, b: Bounds): State {
    SetProc(s.(stakes := s.stakes[u := Stake(self, s.now, s.now, s.version)], inFlight := s.inFlight + {u}),
            self, Settling(u, s.now + b.settle, s.now, s.version))
  }

  ghost predicate Attempted(s: State, s': State, self: nat, b: Bounds) {
    if IsFree(s, self, b)
    then s'.At(self).Settling? && s'.At(self).stake !in s.stakes && s' == Staked(s, self, s'.At(self).stake, b)
    else s' == s
  }

  /** A claim dropped: its id is on the way out if it is still read. */
  function TakenBack(s: State, self: nat): State {
    SetProc(if s.Shows(self) then s.(clears := s.clears[self := Store(s.now, s.now)]) else s, self, Idle)
  }

  /** One tick of the claim. */
  ghost predicate Ticked(s: State, s': State, self: nat, b: Bounds) {
    match s.At(self)
    case Settling(u, ends, _, _) =>
      if s.now < ends then s' == s
      else if s.Shows(self) then s' == SetProc(s, self, Settled(u))
      else Attempted(SetProc(s, self, Idle), s', self, b)
    case Settled(u) => if s.Shows(self) then s' == SetProc(s, self, Settled(u)) else Attempted(SetProc(s, self, Idle), s', self, b)
    case Holding(_, ends) => if s.now < ends then s' == s else Attempted(TakenBack(s, self), s', self, b)
    case _ => Attempted(s, s', self, b)
  }

  /** One seizure. */
  ghost predicate Seized(s: State, s': State, self: nat, seized: bool, id: nat) {
    && s.At(self).Settled? && (seized <==> s.Shows(self))
    && var settled := SetProc(s, self, Settled(s.At(self).stake));
    s' == (if seized then settled.(writes := s.writes[id := Seizure(self, |s.taken|, Store(s.now, s.now))]) else settled)
    && (seized ==> id !in s.writes)
  }

  /** Nothing is new but a store on its way that clears `u`. */
  ghost predicate Cleared(s: State, s': State, u: nat, k: nat) {
    k !in s.sweeps && s' == s.(sweeps := s.sweeps[k := Sent(u, s.now, s.now)])
  }

  /** A claim reset: what the peer finds of its own is on the way out. */
  ghost predicate Dropped(s: State, s': State, self: nat) {
    if s.At(self).Settling? && Sees(s, self) != 0
    then exists k :: Cleared(SetProc(s, self, Idle), s', Sees(s, self), k)
    else s' == TakenBack(s, self)
  }

  lemma LookStep(s: State, self: nat, openedAt: int, b: Bounds)
    requires s.At(self).Idle? && openedAt <= s.now
    ensures Next(s, Look(self, openedAt), b) ==
            if IsFree(s, self, b) then SetProc(s, self, Judged(openedAt, s.now, s.version)) else s
  {
  }

  /** Look, publish and judge at one moment. */
  lemma StakeSteps(s: State, self: nat, u: nat, b: Bounds)
    requires 0 < b.window && s.At(self).Idle? && IsFree(s, self, b) && u != 0 && u !in s.stakes
    ensures Next(Next(Next(s, Look(self, s.now), b), Publish(self, u), b), R.Judge(self), b) == Staked(s, self, u, b)
  {
  }

  lemma LookOutStep(s: State, self: nat, look: Event, b: Bounds)
    requires look == R.EndHold(self) || look == Release(self)
    requires if look.EndHold? then s.At(self).Holding? && s.now >= s.At(self).ends else s.At(self).Settled?
    ensures Next(s, look, b) == SetProc(s, self, if s.Shows(self) then Withdrawing(s.At(self).stake, s.now) else Idle)
  {
  }

  lemma RetractStep(s: State, self: nat, b: Bounds)
    requires s.At(self).Withdrawing?
    ensures Next(s, R.Retract(self), b) == SetProc(s.(clears := s.clears[self := Store(s.At(self).since, s.now)]), self, Idle)
  {
  }

  lemma ReadStep(s: State, self: nat, b: Bounds)
    requires s.At(self).Settled?
    ensures Next(s, ReadRecord(self), b) == SetProc(s, self, Reading(s.At(self).stake, |s.taken|))
  {
  }

  lemma CheckStep(s: State, self: nat, b: Bounds)
    requires s.At(self).Reading?
    ensures var me := s.At(self);
            Next(s, Check(self), b) == SetProc(s, self, if s.Shows(self) then Acting(me.stake, me.base, s.now) else Settled(me.stake))
  {
  }

  /** The flush of a takeover right after its check. */
  lemma FlushSteps(s: State, self: nat, k: nat, b: Bounds)
    requires s.At(self).Reading? && s.Shows(self) && k !in s.writes
    ensures var me := s.At(self);
            Next(Next(Next(s, Check(self), b), Write(self, k), b), Finish(self), b) ==
            SetProc(s, self, Settled(me.stake)).(writes := s.writes[k := Seizure(self, me.base, Store(s.now, s.now))])
  {
  }

  class ClaimSlot {
    const b: Bounds
    var s: State

    constructor (b: Bounds, start: int)
      requires Sound(b)
      ensures this.b == b && s == Init(start) && Inv(s, b)
    {
      this.b := b;
      s := Init(start);
      InitInv(start, b);
    }

    method Do(e: Event)
      modifies this
      ensures s == Next(old(s), e, b)
    {
      s := Next(s, e, b);
    }

    /** The others run until the authority's next access. */
    method Others(others: Interference, past: History<Access>, ghost start: State, ghost self: nat)
      requires s == Weave(start, past, others, b) && Foreign(others, self)
      modifies this
      ensures s == Found(start, past, others, b)
      ensures s.At(self) == old(s).At(self) && old(s).now <= s.now && OwnWritesFrom(old(s), s, self)
      ensures Silent(others) ==> s == old(s)
    {
      hide Next, Weave;
      ForeignRunLeavesSelf(s, others(past), self, b);
      for i := 0 to |others(past)|
        invariant Run(s, others(past)[i..], b) == Run(old(s), others(past), b)
      {
        assert others(past)[i..][1..] == others(past)[i + 1..];
        Do(others(past)[i]);
      }
      assert others(past)[|others(past)|..] == [];
    }

    method ReadClock(others: Interference, past: History<Access>, ghost start: State, ghost self: nat) returns (now: int)
      requires s == Weave(start, past, others, b) && Foreign(others, self)
      modifies this
      ensures s == Weave(start, Then(past, Read), others, b) == Found(start, past, others, b) && now == s.now
      ensures s.At(self) == old(s).At(self) && old(s).now <= s.now && (Silent(others) ==> s == old(s))
    {
      Others(others, past, start, self);
      now := s.now;
    }

    method ReadFree(others: Interference, past: History<Access>, ghost start: State, self: nat) returns (free: bool)
      requires s == Weave(start, past, others, b) && Foreign(others, self)
      modifies this
      ensures s == Weave(start, Then(past, Read), others, b) == Found(start, past, others, b) && free == IsFree(s, self, b)
      ensures s.At(self) == old(s).At(self) && old(s).now <= s.now && (Silent(others) ==> s == old(s))
    {
      Others(others, past, start, self);
      free := IsFree(s, self, b);
    }

    /** A step that looks on its way whether the slot carries the own id. */
    method Access(e: Event, others: Interference, past: History<Access>, ghost start: State, self: nat)
      returns (shows: bool, ghost found: State)
      requires s == Weave(start, past, others, b) && Foreign(others, self) && !e.Finish?
      modifies this
      ensures s == Weave(start, Then(past, Act(e)), others, b)
      ensures found == Found(start, past, others, b) && s == Next(found, e, b) && shows == found.Shows(self)
      ensures found.At(self) == old(s).At(self) && old(s).now <= found.now && OwnWritesFrom(old(s), found, self)
      ensures Silent(others) ==> found == old(s)
    {
      hide Next, Run;
      Others(others, past, start, self);
      shows, found := s.Shows(self), s;
      Do(e);
    }

    /** A name for the next stake; the value stored is the peer's own id. */
    method NextStake() returns (stake: nat)
      ensures stake != 0 && stake !in s.stakes
    {
      ghost var bound := FreshExists(s.stakes.Keys);
      assert bound !in s.stakes;
      stake :| stake != 0 && stake !in s.stakes;
    }

    /** A name for a store on its way. */
    method NextStore() returns (id: nat)
      ensures id !in s.writes && id !in s.sweeps
    {
      ghost var bound := FreshExists(s.writes.Keys + s.sweeps.Keys);
      assert bound !in s.writes.Keys + s.sweeps.Keys;
      id :| id !in s.writes && id !in s.sweeps;
    }
  }

  /** No other peer has a check or a store outstanding, and no sweep is left that could erase the claim. */
  ghost predicate Alone(s: State, self: nat) {
    s.sweeps == map[] && forall q: nat | q != self :: !s.Open(q)
  }

  lemma ConfirmedIsAlone(s: State, self: nat, b: Bounds)
    requires Sound(b) && Inv(s, b) && s.Shows(self)
    requires (s.At(self).Settling? && s.now >= s.At(self).ends) || s.At(self).Settled?
    ensures var s' := Next(s, Tick(self), b); Alone(s', self) && s'.Shows(self)
  {
    NoSweepAtCheck(s, self, b);
    var s' := Next(s, Tick(self), b);
    NextInv(s, Tick(self), b);
    forall q: nat | q != self
      ensures !s'.Open(q)
    {
      AloneAtCheck(s', self, q, b);
    }
  }

  /** What is flushed was computed from a reading that has every other authority's takeover in it. */
  lemma StillFresh(s: State, self: nat, b: Bounds)
    requires Inv(s, b)
    ensures forall k | k in s.writes && s.writes[k].authority == self :: Fresh(s, self, s.writes[k].base)
  {
    assert ReadingsOk(s, self);
  }

  datatype ClaimPhase = IdlePhase | SettlingPhase | HoldingPhase

  class Authority {
    const self: nat
    const slot: ClaimSlot
    var phase: ClaimPhase
    var windowEnds: int

    constructor (self: nat, slot: ClaimSlot)
      ensures this.self == self && this.slot == slot && phase == IdlePhase
    {
      this.self, this.slot, phase, windowEnds := self, slot, IdlePhase, 0;
    }

    /** The fields say what the machine knows of this peer; a stake that settled and stood is a confirmed one. */
    ghost predicate Mirrors(s: State)
      reads this
    {
      match phase
      case IdlePhase => s.At(self) == Idle
      case SettlingPhase => (s.At(self).Settling? && s.At(self).ends == windowEnds) || (s.At(self).Settled? && s.now >= windowEnds)
      case HoldingPhase => s.At(self).Holding? && s.At(self).ends == windowEnds
    }

    ghost predicate Valid()
      reads this, slot
    {
      Sound(slot.b) && Inv(slot.s, slot.b) && Mirrors(slot.s)
    }

    /** In the middle of a call that found `start` and has made the accesses `past`. */
    ghost predicate Going(start: State, past: History<Access>, others: Interference)
      reads this, slot
    {
      && Sound(slot.b) && Inv(start, slot.b) && Foreign(others, self) && Own(past, self)
      && slot.s == Weave(start, past, others, slot.b)
    }

    /** One tick of the claim. Won means confirmed, with the slot carrying this id and nobody else's check or store outstanding. */
    method Claim(others: Interference) returns (won: bool, h: History<Access>)
      requires Valid() && Foreign(others, self)
      modifies this, slot
      ensures Valid() && slot.s == Weave(old(slot.s), h, others, slot.b) && Own(h, self)
      ensures won ==> slot.s.At(self).Settled? && slot.s.Shows(self) && Alone(slot.s, self)
      ensures !won ==> !slot.s.At(self).Settled?
      ensures Silent(others) ==> Ticked(old(slot.s), slot.s, self, slot.b)
    {
      hide Run, Next, Inv;
      match phase {
        case IdlePhase => h := TryStake(others, Start, slot.s); won := false;
        case SettlingPhase => won, h := EndSettle(others, slot.s);
        case HoldingPhase => h := EndHold(others, slot.s); won := false;
      }
      WeaveInv(old(slot.s), h, others, slot.b);
    }

    /**
     Stakes the slot when it is empty, its own, or recorded by a dead authority; a late stake is held. The slot is
     judged twice: on the first read, and again on the copy the stake is made from.
     */
    method TryStake(others: Interference, past: History<Access>, ghost start: State) returns (h: History<Access>)
      requires Going(start, past, others) && Mirrors(slot.s) && phase == IdlePhase
      modifies this, slot
      ensures Going(start, h, others) && Mirrors(slot.s) && !slot.s.At(self).Settled?
      ensures phase != IdlePhase <==>
                && IsFree(Found(start, Then(past, Read), others, slot.b), self, slot.b)
                && IsFree(Found(start, Then(Then(past, Read), Read), others, slot.b), self, slot.b)
      ensures Silent(others) ==> Attempted(old(slot.s), slot.s, self, slot.b)
    {
      hide Run, Inv, Weave, Next;
      var openedAt := slot.ReadClock(others, past, start, self);
      h := After(past, Read, self);
      var free := slot.ReadFree(others, h, start, self);
      h := After(h, Read, self);
      if free {
        h := Stake(openedAt, others, h, start);
      }
    }

    /** The slot judged again, and the stake made from the copy just judged free. */
    method Stake(openedAt: int, others: Interference, past: History<Access>, ghost start: State)
      returns (h: History<Access>)
      requires Going(start, past, others) && Mirrors(slot.s) && phase == IdlePhase && openedAt <= slot.s.now
      modifies this, slot
      ensures Going(start, h, others) && Mirrors(slot.s) && !slot.s.At(self).Settled?
      ensures phase != IdlePhase <==> IsFree(Found(start, past, others, slot.b), self, slot.b)
      ensures Silent(others) && openedAt == old(slot.s).now ==> Attempted(old(slot.s), slot.s, self, slot.b)
    {
      hide Run, Inv, Weave, Next, Found;
      var _, found := slot.Access(Look(self, openedAt), others, past, start, self);
      h := After(past, Act(Look(self, openedAt)), self);
      LookStep(found, self, openedAt, slot.b);
      if slot.s.At(self).Judged? {
        h := PublishAndJudge(openedAt, others, h, start);
        if Silent(others) && openedAt == found.now {
          StakeSteps(found, self, slot.s.At(self).stake, slot.b);
        }
      }
    }

    method PublishAndJudge(openedAt: int, others: Interference, past: History<Access>, ghost start: State)
      returns (h: History<Access>)
      requires Going(start, past, others) && slot.s.At(self).Judged? && slot.s.At(self).openedAt == openedAt
      modifies this, slot
      ensures Going(start, h, others) && Mirrors(slot.s) && !slot.s.At(self).Settled? && phase != IdlePhase
      ensures Silent(others) ==>
                var u := slot.s.At(self).stake;
                && u != 0 && u !in old(slot.s).stakes
                && slot.s == Next(Next(old(slot.s), Publish(self, u), slot.b), R.Judge(self), slot.b)
    {
      hide Run, Inv, Weave, Next, Found;
      h := PublishOwn(openedAt, others, past, start);
      JudgeLate(openedAt, others, h, start);
      h := After(h, Act(R.Judge(self)), self);
    }

    method PublishOwn(openedAt: int, others: Interference, past: History<Access>, ghost start: State)
      returns (h: History<Access>)
      requires Going(start, past, others) && slot.s.At(self).Judged? && slot.s.At(self).openedAt == openedAt
      modifies slot
      ensures Going(start, h, others) && slot.s.At(self).Published? && slot.s.At(self).openedAt == openedAt
      ensures Silent(others) ==>
                var u := slot.s.At(self).stake;
                u != 0 && u !in old(slot.s).stakes && slot.s == Next(old(slot.s), Publish(self, u), slot.b)
    {
      hide Run, Inv;
      slot.Others(others, past, start, self);
      var stake := slot.NextStake();
      slot.Do(Publish(self, stake));
      h := After(past, Act(Publish(self, stake)), self);
    }

    method JudgeLate(openedAt: int, others: Interference, past: History<Access>, ghost start: State)
      requires Going(start, past, others) && slot.s.At(self).Published? && slot.s.At(self).openedAt == openedAt
      modifies this, slot
      ensures slot.s == Weave(start, Then(past, Act(R.Judge(self))), others, slot.b) && Mirrors(slot.s)
      ensures slot.s.At(self).Settling? || slot.s.At(self).Holding?
      ensures phase == if slot.s.now >= openedAt + slot.b.window then HoldingPhase else SettlingPhase
      ensures slot.s.At(self).stake == old(slot.s).At(self).stake
      ensures Silent(others) ==> slot.s == Next(old(slot.s), R.Judge(self), slot.b)
    {
      hide Run, Inv;
      slot.Others(others, past, start, self);
      var late := slot.s.now >= openedAt + slot.b.window;
      phase := if late then HoldingPhase else SettlingPhase;
      windowEnds := slot.s.now + if late then slot.b.lateHold else slot.b.settle;
      slot.Do(R.Judge(self));
    }

    method EndSettle(others: Interference, ghost start: State) returns (won: bool, h: History<Access>)
      requires Going(start, Start, others) && Mirrors(slot.s) && phase == SettlingPhase
      modifies this, slot
      ensures Going(start, h, others) && Mirrors(slot.s)
      ensures won ==> slot.s.At(self).Settled? && slot.s.Shows(self) && Alone(slot.s, self)
      ensures !won ==> !slot.s.At(self).Settled?
      ensures won <==> Found(start, Start, others, slot.b).now >= old(windowEnds)
                       && Found(start, Then(Start, Read), others, slot.b).Shows(self)
      ensures Silent(others) ==> Ticked(old(slot.s), slot.s, self, slot.b)
    {
      hide Run, Inv, Weave, Found;
      var now := slot.ReadClock(others, Start, start, self);
      h := After(Start, Read, self);
      if now < windowEnds {
        return false, h;
      }
      ghost var found;
      won, found := slot.Access(Tick(self), others, h, start, self);
      WeaveInv(start, h, others, slot.b);
      h := After(h, Act(Tick(self)), self);
      if won {
        ConfirmedIsAlone(found, self, slot.b);
      } else {
        phase := IdlePhase;
        h := TryStake(others, h, start);
      }
    }

    /** A late stake is never won: it is withdrawn after its hold if it still stands, and a new attempt starts. */
    method EndHold(others: Interference, ghost start: State) returns (h: History<Access>)
      requires Going(start, Start, others) && Mirrors(slot.s) && phase == HoldingPhase
      modifies this, slot
      ensures Going(start, h, others) && Mirrors(slot.s) && !slot.s.At(self).Settled?
      ensures Silent(others) ==> Ticked(old(slot.s), slot.s, self, slot.b)
    {
      hide Run, Inv, Weave, Found;
      var now := slot.ReadClock(others, Start, start, self);
      h := After(Start, Read, self);
      if now < windowEnds {
        return;
      }
      h := TakeBack(R.EndHold(self), others, h, start);
      phase := IdlePhase;
      h := TryStake(others, h, start);
    }

    /** `retract` of a late stake after its hold, or of a confirmed claim: cleared if it is still read. */
    method TakeBack(look: Event, others: Interference, past: History<Access>, ghost start: State)
      returns (h: History<Access>)
      requires Going(start, past, others) && (look == R.EndHold(self) || look == Release(self))
      requires if look.EndHold? then slot.s.At(self).Holding? && slot.s.now >= slot.s.At(self).ends else slot.s.At(self).Settled?
      modifies slot
      ensures Going(start, h, others) && slot.s.At(self) == Idle
      ensures h == if Found(start, past, others, slot.b).Shows(self)
                   then Then(Then(past, Act(look)), Act(R.Retract(self))) else Then(past, Act(look))
      ensures Silent(others) ==> slot.s == TakenBack(old(slot.s), self)
    {
      hide Run, Inv, Weave, Found, Next;
      var stands, found := slot.Access(look, others, past, start, self);
      LookOutStep(found, self, look, slot.b);
      h := After(past, Act(look), self);
      if stands {
        var _, again := slot.Access(R.Retract(self), others, h, start, self);
        RetractStep(again, self, slot.b);
        h := After(h, Act(R.Retract(self)), self);
      }
    }

    /**
     The seizure of the domain by a confirmed authority: the record is read, the claim is checked again, and only
     then is the takeover flushed, whatever earlier ones are still on their way. What is flushed was computed from a
     reading that has every other authority's takeover in it.
     */
    method Takeover(others: Interference) returns (seized: bool, id: nat, h: History<Access>)
      requires Valid() && slot.s.At(self).Settled? && Foreign(others, self)
      modifies slot
      ensures Valid() && slot.s.At(self).Settled? && slot.s == Weave(old(slot.s), h, others, slot.b) && Own(h, self)
      ensures seized <==> Found(old(slot.s), Then(Start, Act(ReadRecord(self))), others, slot.b).Shows(self)
      ensures seized ==> id in slot.s.writes && slot.s.writes[id].authority == self && Fresh(slot.s, self, slot.s.writes[id].base)
      ensures !seized ==> OwnWritesFrom(old(slot.s), slot.s, self)
      ensures Silent(others) ==> Seized(old(slot.s), slot.s, self, seized, id)
    {
      hide Run, Inv, Found, Next;
      ghost var start := slot.s;
      var _, found := slot.Access(ReadRecord(self), others, Start, start, self);
      ReadStep(found, self, slot.b);
      h := After(Start, Act(ReadRecord(self)), self);
      id := 0;
      seized, found := slot.Access(Check(self), others, h, start, self);
      CheckStep(found, self, slot.b);
      h := After(h, Act(Check(self)), self);
      if seized {
        id, h := Flush(others, h, start);
      }
      WeaveInv(start, h, others, slot.b);
      StillFresh(slot.s, self, slot.b);
      if Silent(others) && seized {
        FlushSteps(found, self, id, slot.b);
      }
    }

    method Flush(others: Interference, past: History<Access>, ghost start: State) returns (id: nat, h: History<Access>)
      requires Going(start, past, others) && slot.s.At(self).Acting?
      modifies slot
      ensures Going(start, h, others) && old(slot.s).now <= slot.s.now
      ensures slot.s.At(self) == Settled(old(slot.s).At(self).stake)
      ensures id in slot.s.writes && slot.s.writes[id].authority == self
      ensures slot.s.writes[id].base == old(slot.s).At(self).base
      ensures Silent(others) ==>
                && id !in old(slot.s).writes
                && slot.s == Next(Next(old(slot.s), Write(self, id), slot.b), Finish(self), slot.b)
    {
      hide Run, Inv;
      slot.Others(others, past, start, self);
      id := slot.NextStore();
      slot.Do(Write(self, id));
      h := After(past, Act(Write(self, id)), self);
      assert slot.s == Weave(start, h, others, slot.b);
      slot.Do(Finish(self));
      h := After(h, Act(Finish(self)), self);
    }

    /**
     Drops whatever is staked: its id is cleared only if it still stands, or is still on its way. A late stake is not
     let go before its hold is over.
     */
    method ResetClaim(others: Interference) returns (h: History<Access>)
      requires Valid() && Foreign(others, self)
      requires phase == HoldingPhase ==> slot.s.now >= windowEnds
      modifies this, slot
      ensures Valid() && phase == IdlePhase && slot.s == Weave(old(slot.s), h, others, slot.b) && Own(h, self)
      ensures old(phase) == IdlePhase ==> h == Start
      ensures old(phase) != IdlePhase ==>
                h != Start && (h.past != Start <==> Sees(Found(old(slot.s), Start, others, slot.b), self) != 0)
      ensures Silent(others) && old(phase) != IdlePhase ==> Dropped(old(slot.s), slot.s, self)
    {
      hide Run, Next, Inv;
      if phase == IdlePhase {
        return Start;
      }
      if slot.s.At(self).Settling? {
        h := DropUnsettled(others, slot.s);
      } else {
        RipeFinds(slot.s, others, self, slot.b);
        h := TakeBack(if phase == HoldingPhase then R.EndHold(self) else Release(self), others, Start, slot.s);
      }
      phase := IdlePhase;
      WeaveInv(old(slot.s), h, others, slot.b);
    }

    /** A stake that has not settled, wherever it has got to. */
    method DropUnsettled(others: Interference, ghost start: State) returns (h: History<Access>)
      requires Going(start, Start, others) && slot.s.At(self).Settling?
      modifies slot
      ensures Going(start, h, others) && slot.s.At(self) == Idle
      ensures h != Start && (h.past != Start <==> Sees(Found(start, Start, others, slot.b), self) != 0)
      ensures Silent(others) ==> Dropped(old(slot.s), slot.s, self)
    {
      hide Run, Inv;
      slot.Others(others, Start, start, self);
      WeaveInv(start, Start, others, slot.b);
      if Sees(slot.s, self) == 0 {
        SeesNothing(slot.s, self, slot.b);
      }
      var mine := Sees(slot.s, self);
      var id := slot.NextStore();
      slot.Do(R.Reset(self, id));
      h := After(Start, Act(R.Reset(self, id)), self);
      if mine != 0 {
        h := Clear(id, others, h, start);
        assert Silent(others) ==> Cleared(SetProc(old(slot.s), self, Idle), slot.s, mine, id);
      }
    }

    /** The store of a clear whose look has been made. */
    method Clear(id: nat, others: Interference, past: History<Access>, ghost start: State) returns (h: History<Access>)
      requires Going(start, past, others) && id in slot.s.sweeps && slot.s.sweeps[id].Looked?
      modifies slot
      ensures Going(start, h, others) && h == Then(past, Act(SweepStore(id)))
      ensures slot.s.At(self) == old(slot.s).At(self) && old(slot.s).now <= slot.s.now
      ensures Silent(others) ==>
                var look := old(slot.s).sweeps[id];
                slot.s == old(slot.s).(sweeps := old(slot.s).sweeps[id := Sent(look.stake, look.since, slot.s.now)])
    {
      hide Run, Inv;
      var _, _ := slot.Access(SweepStore(id), others, past, start, self);
      h := After(past, Act(SweepStore(id)), self);
    }

    /** The sweep of one slot for a peer this authority has recovered: cleared only if it still carries that peer's id. */
    method RetractClaimsBy(recovered: nat, others: Interference) returns (swept: bool, h: History<Access>)
      requires Valid() && Foreign(others, self) && GivenUp(slot.s, recovered, slot.b)
      modifies slot
      ensures Valid() && slot.s.At(self) == old(slot.s).At(self) && slot.s == Weave(old(slot.s), h, others, slot.b)
      ensures Own(h, self)
      ensures swept <==> Found(old(slot.s), Start, others, slot.b).Shows(recovered)
      ensures swept <==> h != Then(Start, Read)
      ensures Silent(others) && !swept ==> slot.s == old(slot.s)
      ensures Silent(others) && swept ==> exists k :: Cleared(old(slot.s), slot.s, old(slot.s).word, k)
    {
      hide Run, Inv, Next;
      ghost var start := slot.s;
      GivenUpStays(start, others(Start), recovered, slot.b);
      slot.Others(others, Start, start, self);
      swept := slot.s.Shows(recovered);
      if swept {
        h := SweepOut(others, start);
      } else {
        h := After(Start, Read, self);
      }
      WeaveInv(start, h, others, slot.b);
    }

    method SweepOut(others: Interference, ghost start: State) returns (h: History<Access>)
      requires Sound(slot.b) && Inv(start, slot.b) && Foreign(others, self) && slot.s == Found(start, Start, others, slot.b)
      requires slot.s.word in slot.s.stakes && GivenUp(slot.s, slot.s.stakes[slot.s.word].owner, slot.b)
      modifies slot
      ensures Going(start, h, others) && h != Then(Start, Read)
      ensures slot.s.At(self) == old(slot.s).At(self) && old(slot.s).now <= slot.s.now
      ensures Silent(others) ==> exists k :: Cleared(old(slot.s), slot.s, old(slot.s).word, k)
    {
      hide Run, Inv;
      var id := slot.NextStore();
      slot.Do(SweepCheck(id));
      h := After(Start, Act(SweepCheck(id)), self);
      h := Clear(id, others, h, start);
      assert Silent(others) ==> Cleared(old(slot.s), slot.s, old(slot.s).word, id);
    }
  }
}
