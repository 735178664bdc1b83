/**
 `stake::Claim` as the object the source has: its phase, its own value, what it watches, the value that
 stood its timeout and the open window, changed tick by tick (src/core/algo/stake_claim.hpp).

 `Memory` is the lease line together with every process's place, a state of the `StakeClaim` machine. Before
 every access of one claim the other processes run and the clock moves; `others(h)` is what happens once the
 claim has made the accesses `h`. What a tick leaves is its own accesses woven with `others` and no more, and
 the claim's fields mirror its process in the machine throughout.
 */
module Claim {
  import opened Basics
  import opened Histories
  import S = StakeClaim
  import opened StakeClaim

  /** What a claim does: it reads the clock, or takes a step of its process. */
  datatype Access = Clock | Act(event: Event)

  type Interference = History<Access> -> seq<Event>

  /** An event of another process, of memory, or of the clock. */
  predicate ForeignEvent(e: Event, self: nat) {
    match e
    case Look(p, _) => p != self
    case Publish(p, _) => p != self
    case Judge(p) => p != self
    case EndSettle(p) => p != self
    case EndHold(p) => p != self
    case Withdraw(p) => p != self
    case Release(p) => p != self
    case ReleaseStore(p) => p != self
    case Drained(p) => p != self
    case Abandon(p) => p != self
    case Land(_) => true
    case LandClear(_) => true
    case Advance(_) => true
  }

  ghost predicate Foreign(others: Interference, self: nat) {
    forall h: History<Access>, e: Event | e in others(h) :: ForeignEvent(e, self)
  }

  ghost predicate Silent(others: Interference) {
    forall h: History<Access> :: others(h) == []
  }

  /** Every step is one of `self`. */
  predicate Own(h: History<Access>, self: nat) {
    h.Start? || ((h.event.Act? ==> !ForeignEvent(h.event.event, self)) && Own(h.past, self))
  }

  function After(h: History<Access>, a: Access, self: nat): (r: History<Access>)
    ensures Own(r, self) <==> Own(h, self) && (a.Act? ==> !ForeignEvent(a.event, self))
    ensures Did(r, Withdraw(self)) <==> Did(h, Withdraw(self)) || a == Act(Withdraw(self))
  {
    Then(h, a)
  }

  /** Whether `e` is among the steps. */
  predicate Did(h: History<Access>, e: Event) {
    h.Then? && (h.event == Act(e) || Did(h.past, e))
  }

  function Weave(s: State, own: History<Access>, others: Interference, b: Bounds): State {
    match own
    case Start => s
    case Then(past, a) =>
      var before := Run(Weave(s, past, others, b), others(past), b);
      if a.Clock? then before else Next(before, a.event, b)
  }

  /** What the access after `past` finds. */
  function Found(s: State, past: History<Access>, others: Interference, b: Bounds): State {
    Run(Weave(s, past, others, b), others(past), b)
  }

  lemma {:induction false} WeaveInv(s: State, own: History<Access>, others: Interference, b: Bounds)
    requires Declared(b) && Inv(s, b)
    ensures Inv(Weave(s, own, others, b), b)
    decreases own
  {
    hide Next, Run, Inv;
    if own.Then? {
      WeaveInv(s, own.past, others, b);
      RunInv(Weave(s, own.past, others, b), others(own.past), b);
      if own.event.Act? {
        NextInv(Found(s, own.past, others, b), own.event.event, b);
      }
    }
  }

  lemma ForeignLeavesSelf(s: State, e: Event, self: nat, b: Bounds)
    requires ForeignEvent(e, self)
    ensures Next(s, e, b).At(self) == s.At(self) && s.now <= Next(s, e, b).now
  {
  }

  lemma {:induction false} ForeignRunLeavesSelf(s: State, events: seq<Event>, self: nat, b: Bounds)
    requires forall e | e in events :: ForeignEvent(e, self)
    ensures Run(s, events, b).At(self) == s.At(self) && s.now <= Run(s, events, b).now
    decreases |events|
  {
    if events != [] {
      ForeignLeavesSelf(s, events[0], self, b);
      ForeignRunLeavesSelf(Next(s, events[0], b), events[1..], self, b);
    }
  }

  /** What a process knows survives a look at the clock. */
  lemma FoundSelf(s: State, past: History<Access>, others: Interference, self: nat, b: Bounds)
    requires Foreign(others, self)
    ensures Found(s, Then(past, Clock), others, b).At(self) == Weave(s, past, others, b).At(self)
  {
    hide Next, Run;
    ForeignRunLeavesSelf(Weave(s, past, others, b), others(past), self, b);
    ForeignRunLeavesSelf(Weave(s, Then(past, Clock), others, b), others(Then(past, Clock)), self, b);
  }

  // ---------- what an attempt comes to ----------

  /** The word a look finds is free, or the one value this process may stake over. */
  predicate Open(s: State, self: nat) {
    s.word == 0 || s.At(self) == Idle(s.word)
  }

  /** The value found is the watched one, and it has stood its timeout. */
  predicate Stood(s: State, self: nat, b: Bounds) {
    s.word != 0 && s.At(self).Watching? && s.At(self).value == s.word && s.now - s.At(self).since >= b.timeout
  }

  /** The accesses of one look. */
  function LookSteps(s: State, past: History<Access>, others: Interference, self: nat, b: Bounds): History<Access> {
    Then(Then(past, Clock), Act(Look(self, Found(s, past, others, b).now)))
  }

  /** Whether the attempt that starts after `past` stakes: its look finds the word open, or stood and then still open. */
  predicate Stakes(s: State, past: History<Access>, others: Interference, self: nat, b: Bounds) {
    var found := Found(s, Then(past, Clock), others, b);
    || Open(found, self)
    || (Stood(found, self, b) && Open(Found(s, Then(LookSteps(s, past, others, self, b), Clock), others, b), self))
  }

  /** A fresh value flushed, and the settle open. */
  function Staked(s: State, self: nat, nonce: nat, b: Bounds): State {
    SetProc(s.(flushed := s.flushed[nonce := s.now], inFlight := s.inFlight + {nonce}),
            self, Settling(nonce, s.now + b.settle, s.now, s.version))
  }

  lemma LookOpens(s: State, self: nat, openedAt: int, b: Bounds)
    requires openedAt <= s.now && Open(s, self) && (s.At(self).Idle? || s.At(self).Watching?)
    ensures Next(s, Look(self, openedAt), b) == SetProc(s, self, Judged(openedAt, s.now, s.version))
  {
  }

  /** Look, publish and judge at one moment. */
  lemma StakeSteps(s: State, self: nat, nonce: nat, b: Bounds)
    requires 0 < b.window && Open(s, self) && (s.At(self).Idle? || s.At(self).Watching?) && nonce != 0
    requires nonce !in s.flushed
    ensures Next(Next(Next(s, Look(self, s.now), b), Publish(self, nonce), b), S.Judge(self), b) == Staked(s, self, nonce, b)
  {
  }

  /** The value found is watched, since when it was first seen; nothing is stored. */
  function Watched(s: State, self: nat): State {
    var since := if s.At(self).Watching? && s.At(self).value == s.word then s.At(self).since else s.now;
    SetProc(s, self, Watching(s.word, since))
  }

  /** An undisturbed attempt. */
  ghost predicate Attempted(s: State, s': State, self: nat, mine: nat, b: Bounds) {
    if Open(s, self) || Stood(s, self, b)
    then mine != 0 && mine !in s.flushed && s' == Staked(s, self, mine, b)
    else s' == Watched(s, self)
  }

  /** A late stake taken back: cleared if it is still read, and forgotten. */
  function TakenBack(s: State, self: nat, nonce: nat, ends: int, b: Bounds): State {
    SetProc(if s.word == nonce
            then s.(clears := s.clears[nonce := Clear(s.now, ends, s.now)], kept := s.kept && s.now < ends + b.stall)
            else s, self, Idle(0))
  }

  /** An undisturbed tick. */
  ghost predicate Ticked(s: State, s': State, self: nat, mine: nat, b: Bounds) {
    match s.At(self)
    case Settling(n, ends, _, _) =>
      if s.now < ends then s' == s
      else if s.word == n then s' == Entitled(s, self, Committing(n, ends, s.now), b)
      else Attempted(SetProc(s, self, Idle(0)), s', self, mine, b)
    case Holding(n, ends) =>
      if s.now < ends then s' == s else Attempted(TakenBack(s, self, n, ends, b), s', self, mine, b)
    case _ => Attempted(s, s', self, mine, b)
  }

  class Memory {
    const b: Bounds
    var s: State

    constructor (b: Bounds, start: int)
      requires Declared(b)
      ensures this.b == b && s == Init(start) && Inv(s, b)
    {
      this.b := b;
      s := Init(start);
      InitInv(start, b);
    }

    method Do(e: Event)
      modifies this
      ensures s == Next(old(s), e, b)
    {
      s := Next(s, e, b);
    }

    method MakeOwn() returns (nonce: nat)
      ensures nonce != 0 && nonce !in s.flushed
    {
      ghost var bound := FreshExists(s.flushed.Keys);
      assert bound !in s.flushed;
      nonce :| nonce != 0 && nonce !in s.flushed;
    }

    /** The others run until the claim's next access. */
    method Others(others: Interference, past: History<Access>, ghost start: State, ghost self: nat)
      requires s == Weave(start, past, others, b) && Foreign(others, self)
      modifies this
      ensures s == Found(start, past, others, b)
      ensures s.At(self) == old(s).At(self) && old(s).now <= s.now && (Silent(others) ==> s == old(s))
    {
      hide Next, Weave;
      ForeignRunLeavesSelf(s, others(past), self, b);
      for i := 0 to |others(past)|
        invariant Run(s, others(past)[i..], b) == Run(old(s), others(past), b)
      {
        assert others(past)[i..][1..] == others(past)[i + 1..];
        Do(others(past)[i]);
      }
      assert others(past)[|others(past)|..] == [];
    }

    method ReadClock(others: Interference, past: History<Access>, ghost start: State, ghost self: nat) returns (now: int)
      requires s == Weave(start, past, others, b) && Foreign(others, self)
      modifies this
      ensures s == Weave(start, Then(past, Clock), others, b) && now == s.now == Found(start, past, others, b).now
      ensures s.At(self) == old(s).At(self) && (Silent(others) ==> s == old(s))
    {
      Others(others, past, start, self);
      now := s.now;
    }

    /** A step that reads the word on its way. */
    method Access(e: Event, others: Interference, past: History<Access>, ghost start: State, ghost self: nat)
      returns (seen: nat, ghost found: State)
      requires s == Weave(start, past, others, b) && Foreign(others, self)
      modifies this
      ensures s == Weave(start, Then(past, Act(e)), others, b)
      ensures found == Found(start, past, others, b) && s == Next(found, e, b) && seen == found.word
      ensures found.At(self) == old(s).At(self) && old(s).now <= found.now && (Silent(others) ==> found == old(s))
    {
      hide Next, Run;
      Others(others, past, start, self);
      seen, found := s.word, s;
      Do(e);
    }
  }

  datatype Outcome = Pending | Won

  datatype ClaimPhase = IdlePhase | WatchingPhase | SettlingPhase | HoldingPhase

  class Claim {
    const self: nat
    const memory: Memory
    var phase: ClaimPhase
    var mine: nat
    var watched: nat
    var watchedSince: int
    var stalled: nat          // 0 when no value has stood its timeout
    var windowEnds: int

    constructor (self: nat, memory: Memory)
      ensures this.self == self && this.memory == memory && phase == IdlePhase && stalled == 0
    {
      this.self, this.memory := self, memory;
      phase, mine, watched, watchedSince, stalled, windowEnds := IdlePhase, 0, 0, 0, 0, 0;
    }

    /** The fields say what the machine knows of this process. */
    ghost predicate Mirrors(proc: Proc)
      reads this
    {
      match phase
      case IdlePhase => proc == Idle(stalled)
      case WatchingPhase => proc == Watching(watched, watchedSince) && stalled == 0
      case SettlingPhase => proc.Settling? && proc.nonce == mine && proc.ends == windowEnds && stalled == 0
      case HoldingPhase => proc == Holding(mine, windowEnds) && stalled == 0
    }

    predicate IsStaked()
      reads this
    {
      phase == SettlingPhase || phase == HoldingPhase
    }

    ghost predicate Valid()
      reads this, memory
    {
      Declared(memory.b) && Inv(memory.s, memory.b) && Mirrors(memory.s.At(self))
    }

    /** In the middle of a tick that found `start` and has made the accesses `past`. */
    ghost predicate Going(start: State, past: History<Access>, others: Interference)
      reads this, memory
    {
      && Declared(memory.b) && Foreign(others, self) && Own(past, self)
      && memory.s == Weave(start, past, others, memory.b) && Mirrors(memory.s.At(self))
    }

    /** One step, never blocking. */
    method Tick(others: Interference) returns (outcome: Outcome, h: History<Access>)
      requires Valid() && Foreign(others, self)
      modifies this, memory
      ensures Inv(memory.s, memory.b) && memory.s == Weave(old(memory.s), h, others, memory.b) && Own(h, self)
      ensures outcome == Won <==> memory.s.At(self).Committing?
      ensures outcome == Won ==> memory.s.word == mine == memory.s.At(self).nonce
      ensures outcome == Pending ==> Valid()
      ensures Silent(others) ==> Ticked(old(memory.s), memory.s, self, mine, memory.b)
    {
      hide Run, Next, Inv;
      match phase {
        case IdlePhase => outcome, h := TryStake(others, Start, memory.s);
        case WatchingPhase => outcome, h := TryStake(others, Start, memory.s);
        case SettlingPhase => outcome, h := EndSettle(others, memory.s);
        case HoldingPhase => outcome, h := EndHold(others, memory.s);
      }
      WeaveInv(old(memory.s), h, others, memory.b);
    }

    /** Reads the word and, when it is free or its value has stood its timeout, stakes over it. */
    method TryStake(others: Interference, past: History<Access>, ghost start: State)
      returns (outcome: Outcome, h: History<Access>)
      requires Going(start, past, others) && !IsStaked()
      modifies this, memory
      ensures Going(start, h, others) && outcome == Pending && (phase == WatchingPhase || IsStaked())
      ensures IsStaked() <==> Stakes(start, past, others, self, memory.b)
      ensures Did(h, Withdraw(self)) <==> Did(past, Withdraw(self))
      ensures Silent(others) ==> Attempted(old(memory.s), memory.s, self, mine, memory.b)
      decreases phase == WatchingPhase
    {
      hide Run, Weave, Found;
      outcome := Pending;
      var openedAt := memory.ReadClock(others, past, start, self);
      h := After(past, Clock, self);
      var seen, found := memory.Access(Look(self, openedAt), others, h, start, self);
      h := After(h, Act(Look(self, openedAt)), self);
      assert h == LookSteps(start, past, others, self, memory.b);
      var reclaimable := stalled != 0 && stalled == seen;
      if seen != 0 && !reclaimable {
        var stood := HasStoodTimeout(seen, openedAt, found);
        if stood {
          FoundSelf(start, h, others, self, memory.b);
          outcome, h := TryStake(others, h, start);
        }
        return;
      }
      h := Stake(openedAt, others, h, start, found);
    }

    /** Whether `seen` has stood unchanged through the stall timeout, which ends the watch. */
    method HasStoodTimeout(seen: nat, ghost openedAt: int, ghost found: State) returns (stood: bool)
      requires memory.s == Next(found, Look(self, openedAt), memory.b) && openedAt <= found.now
      requires Mirrors(found.At(self)) && !IsStaked() && seen == found.word && seen != 0 && seen != stalled
      modifies this
      ensures Mirrors(memory.s.At(self)) && (stood <==> Stood(found, self, memory.b))
      ensures stood ==> phase == IdlePhase && stalled == seen
      ensures !stood ==> phase == WatchingPhase && watched == seen
      ensures memory.s == if stood then SetProc(found, self, Idle(seen)) else Watched(found, self)
    {
      if phase != WatchingPhase || seen != watched {
        phase, watched, watchedSince, stalled := WatchingPhase, seen, memory.s.now, 0;
        return false;
      }
      if memory.s.now - watchedSince < memory.b.timeout {
        return false;
      }
      stalled := seen;
      phase := IdlePhase;
      return true;
    }

    /** The word was read free or reclaimable: publish a fresh value and ask whether that was in time. */
    method Stake(openedAt: int, others: Interference, past: History<Access>, ghost start: State, ghost found: State)
      returns (h: History<Access>)
      requires Declared(memory.b) && Foreign(others, self) && Own(past, self)
      requires memory.s == Weave(start, past, others, memory.b) == Next(found, Look(self, openedAt), memory.b)
      requires openedAt <= found.now && Open(found, self) && Mirrors(found.At(self)) && !IsStaked()
      modifies this, memory
      ensures Going(start, h, others) && IsStaked() && (Did(h, Withdraw(self)) <==> Did(past, Withdraw(self)))
      ensures Silent(others) && openedAt == found.now ==>
                mine != 0 && mine !in found.flushed && memory.s == Staked(found, self, mine, memory.b)
    {
      hide Run, Weave, Found, Next;
      LookOpens(found, self, openedAt, memory.b);
      stalled := 0;
      PublishOwn(openedAt, others, past, start);
      h := After(past, Act(Publish(self, mine)), self);
      JudgeLate(openedAt, others, h, start);
      h := After(h, Act(S.Judge(self)), self);
      if Silent(others) && openedAt == found.now {
        StakeSteps(found, self, mine, memory.b);
      }
    }

    method PublishOwn(openedAt: int, others: Interference, past: History<Access>, ghost start: State)
      requires memory.s == Weave(start, past, others, memory.b) && Foreign(others, self)
      requires memory.s.At(self).Judged? && memory.s.At(self).openedAt == openedAt
      modifies this`mine, memory
      ensures memory.s == Weave(start, Then(past, Act(Publish(self, mine))), others, memory.b)
      ensures var proc := memory.s.At(self); proc.Published? && proc.nonce == mine && proc.openedAt == openedAt
      ensures mine != 0 && mine !in Found(start, past, others, memory.b).flushed
      ensures Silent(others) ==>
                mine !in old(memory.s).flushed && memory.s == Next(old(memory.s), Publish(self, mine), memory.b)
    {
      hide Run;
      memory.Others(others, past, start, self);
      mine := memory.MakeOwn();
      memory.Do(Publish(self, mine));
    }

    method JudgeLate(openedAt: int, others: Interference, past: History<Access>, ghost start: State)
      requires memory.s == Weave(start, past, others, memory.b) && Foreign(others, self) && stalled == 0
      requires var proc := memory.s.At(self); proc.Published? && proc.nonce == mine && proc.openedAt == openedAt
      modifies this`phase, this`windowEnds, memory
      ensures memory.s == Weave(start, Then(past, Act(S.Judge(self))), others, memory.b) && Mirrors(memory.s.At(self))
      ensures phase == if memory.s.now >= openedAt + memory.b.window then HoldingPhase else SettlingPhase
      ensures Silent(others) ==> memory.s == Next(old(memory.s), S.Judge(self), memory.b)
    {
      hide Run;
      memory.Others(others, past, start, self);
      var late := memory.s.now >= openedAt + memory.b.window;
      phase := if late then HoldingPhase else SettlingPhase;
      windowEnds := memory.s.now + if late then memory.b.lateHold else memory.b.settle;
      memory.Do(S.Judge(self));
    }

    method EndSettle(others: Interference, ghost start: State) returns (outcome: Outcome, h: History<Access>)
      requires Going(start, Start, others) && phase == SettlingPhase
      modifies this, memory
      ensures memory.s == Weave(start, h, others, memory.b) && Own(h, self)
      ensures outcome == Won <==> memory.s.At(self).Committing?
      ensures outcome == Won ==> memory.s.word == mine == memory.s.At(self).nonce
      ensures outcome == Won <==> Found(start, Start, others, memory.b).now >= old(windowEnds)
                                  && Found(start, Then(Start, Clock), others, memory.b).word == old(mine)
      ensures outcome == Pending ==> Mirrors(memory.s.At(self))
      ensures Silent(others) ==> Ticked(old(memory.s), memory.s, self, mine, memory.b)
    {
      hide Run, Weave, Found;
      var now := memory.ReadClock(others, Start, start, self);
      h := After(Start, Clock, self);
      if now < windowEnds {
        return Pending, h;
      }
      var seen, _ := memory.Access(S.EndSettle(self), others, h, start, self);
      h := After(h, Act(S.EndSettle(self)), self);
      if seen == mine {
        return Won, h;
      }
      phase := IdlePhase;
      outcome, h := TryStake(others, h, start);
    }

    method EndHold(others: Interference, ghost start: State) returns (outcome: Outcome, h: History<Access>)
      requires Going(start, Start, others) && phase == HoldingPhase
      modifies this, memory
      ensures Going(start, h, others) && outcome == Pending
      ensures Did(h, Withdraw(self)) <==> Found(start, Start, others, memory.b).now >= old(windowEnds)
                                          && Found(start, Then(Start, Clock), others, memory.b).word == old(mine)
      ensures Silent(others) ==> Ticked(old(memory.s), memory.s, self, mine, memory.b)
    {
      hide Run, Weave, Found;
      var now := memory.ReadClock(others, Start, start, self);
      h := After(Start, Clock, self);
      if now < windowEnds {
        return Pending, h;
      }
      h := TakeBack(others, h, start);
      outcome, h := TryStake(others, h, start);
    }

    /** `retract`: the stake is cleared if it is still read. */
    method TakeBack(others: Interference, past: History<Access>, ghost start: State) returns (h: History<Access>)
      requires Going(start, past, others) && phase == HoldingPhase && memory.s.now >= windowEnds
      modifies this`phase, memory
      ensures Going(start, h, others) && phase == IdlePhase
      ensures Did(h, Withdraw(self)) <==> Did(past, Withdraw(self)) || Found(start, past, others, memory.b).word == mine
      ensures Silent(others) ==> memory.s == TakenBack(old(memory.s), self, mine, windowEnds, memory.b)
    {
      hide Run, Weave, Found;
      var seen, _ := memory.Access(S.EndHold(self), others, past, start, self);
      h := After(past, Act(S.EndHold(self)), self);
      if seen == mine {
        var _, _ := memory.Access(Withdraw(self), others, h, start, self);
        h := After(h, Act(Withdraw(self)), self);
      }
      phase := IdlePhase;
    }

    /** `releaseLease`: the line is cleared only while it still carries the own nonce, so nobody else's stake is erased. */
    method ReleaseLease(others: Interference) returns (cleared: bool, h: History<Access>)
      requires Declared(memory.b) && Inv(memory.s, memory.b) && memory.s.At(self).Committing? && Foreign(others, self)
      modifies memory
      ensures Inv(memory.s, memory.b) && memory.s == Weave(old(memory.s), h, others, memory.b) && Own(h, self)
      ensures cleared <==> Found(old(memory.s), Start, others, memory.b).word == old(memory.s).At(self).nonce
      ensures if cleared then memory.s.At(self) == Idle(0) && old(memory.s).At(self).nonce in memory.s.clears else memory.s.At(self).Draining?
      ensures Silent(others) ==>
                var was, me := old(memory.s), old(memory.s).At(self);
                memory.s == if cleared then SetProc(was.(clears := was.clears[me.nonce := Clear(was.now, me.ends, me.since)]), self, Idle(0))
                            else SetProc(was, self, Draining(me.nonce, me.ends, me.since, was.now))
    {
      hide Run, Inv, Found;
      ghost var start := memory.s;
      var nonce := memory.s.At(self).nonce;
      var seen, _ := memory.Access(Release(self), others, Start, start, self);
      h := After(Start, Act(Release(self)), self);
      cleared := seen == nonce;
      if cleared {
        var _, _ := memory.Access(ReleaseStore(self), others, h, start, self);
        h := After(h, Act(ReleaseStore(self)), self);
      }
      WeaveInv(start, h, others, memory.b);
    }
  }
}
