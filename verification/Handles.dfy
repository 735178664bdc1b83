/**
 What names and handles are worth over every run of `Registry`. A guard taken through a handle names its domain until
 it ends exactly when its peer participates in the domain, has its pin on it, and has no leave of it under way; and
 that is so unless a leave of the same peer overlaps the guard's way from its participation check to its pin
 (src/core/algo/peer.cpp, src/core/algo/lifecycle.cpp, src/core/runtime/local_peer_state.cpp, src/shared.cpp).
 */
module Handles {
  import opened Basics
  import opened Registry

  // ---------- names and incarnations ----------

  /** No two active slots ever share a name. */
  lemma ActiveNamesAreUnique(events: seq<Event>, c: nat, d: nat)
    requires var s := Run(Init(), events); s.At(c).active && s.At(d).active && s.At(c).name == s.At(d).name
    ensures c == d
  {
    RunInv(Init(), events);
  }

  /** A slot moves on, stays, or is freed. */
  predicate SlotMoves(s: Slot, s': Slot) {
    s'.generation >= s.generation && (s'.generation == s.generation && s'.active ==> s.active && s'.name == s.name)
  }

  lemma SlotChanges(s: State, e: Event, d: nat)
    requires OfKeeper(e)
    ensures SlotMoves(s.At(d), Next(s, e).At(d))
  {
  }

  lemma SlotStays(s: State, e: Event, d: nat)
    requires !OfKeeper(e) && !OfLocker(e)
    ensures SlotMoves(s.At(d), Next(s, e).At(d))
  {
  }

  lemma SlotIsLocked(s: State, e: Event, d: nat)
    requires OfLocker(e)
    ensures SlotMoves(s.At(d), Next(s, e).At(d))
  {
    LockerSpares(s, e, d);
  }

  lemma SlotStep(s: State, e: Event, d: nat)
    ensures SlotMoves(s.At(d), Next(s, e).At(d))
  {
    if OfKeeper(e) {
      SlotChanges(s, e, d);
    } else if OfLocker(e) {
      SlotIsLocked(s, e, d);
    } else {
      SlotStays(s, e, d);
    }
  }

  /** An incarnation names one domain for ever: a slot found active at the same generation was never freed or renamed in between. */
  lemma {:induction false} IncarnationIsIdentity(s: State, events: seq<Event>, d: nat)
    ensures Run(s, events).At(d).generation >= s.At(d).generation
    ensures Run(s, events).At(d).generation == s.At(d).generation && Run(s, events).At(d).active ==>
              s.At(d).active && Run(s, events).At(d).name == s.At(d).name
    decreases |events|
  {
    if events != [] {
      SlotStep(s, events[0], d);
      IncarnationIsIdentity(Next(s, events[0]), events[1..], d);
    }
  }

  // ---------- guards ----------

  /** A leave of `d` by `p` is past its pin check and has not retracted yet. */
  predicate Leaving(s: State, p: nat, d: nat) {
    s.control == Peer(p) && s.change.Leaves(d)
  }

  /** No leave of `d` by `p` is under way while `p`'s thread goes from its participation check to its pin. */
  ghost predicate Orderly(s: State, events: seq<Event>, p: nat, d: nat)
    decreases |events|
  {
    !(s.Thread(p, d).Admitted? && Leaving(s, p, d)) && (events == [] || Orderly(Next(s, events[0]), events[1..], p, d))
  }

  /** A thread past its participation check participates, one past its pin has it, and neither is being left. */
  ghost predicate Anchored(s: State, p: nat, d: nat) {
    var t := s.Thread(p, d);
    p !in s.dead ==>
      && (t.Admitted? || t.Pins() ==> d in s.Member(p) || (s.change == Deleting(d) && s.control == Peer(p)))
      && (t.Pins() ==> (p, d) in s.pins && !Leaving(s, p, d))
      && (t.Guarding? ==> Names(s, d, t.generation))
  }

  /** All that a locker's event leaves alone. */
  lemma LockerSpares(s: State, e: Event, d: nat)
    requires OfLocker(e)
    ensures var s' := NextAsLocker(s, e);
            && s'.members == s.members && s'.change == s.change && s'.control == s.control && s'.dead == s.dead
            && s'.At(d) == s.At(d).(holder := s'.At(d).holder)
  {
  }

  lemma ThreadElsewhere(s: State, e: Event, p: nat, d: nat)
    requires OfLocker(e) && (e.peer, e.slot) != (p, d)
    ensures NextAsLocker(s, e).Thread(p, d) == s.Thread(p, d)
  {
  }

  lemma PinElsewhere(s: State, e: Event, p: nat, d: nat)
    requires OfLocker(e) && (e.peer, e.slot) != (p, d)
    ensures (p, d) in NextAsLocker(s, e).pins <==> (p, d) in s.pins
  {
  }

  /** What the facts below say of one peer and slot, but for its thread. */
  ghost predicate SameAround(s: State, s': State, p: nat, d: nat) {
    && s'.members == s.members && s'.change == s.change && s'.control == s.control && s'.dead == s.dead
    && s'.At(d) == s.At(d).(holder := s'.At(d).holder) && ((p, d) in s'.pins <==> (p, d) in s.pins)
    && s'.Thread(p, d) == s.Thread(p, d)
  }

  lemma LockedElsewhere(s: State, e: Event, p: nat, d: nat)
    requires OfLocker(e) && (e.peer, e.slot) != (p, d)
    ensures SameAround(s, NextAsLocker(s, e), p, d)
  {
    LockerSpares(s, e, d);
    ThreadElsewhere(s, e, p, d);
    PinElsewhere(s, e, p, d);
  }

  lemma AnchoredAround(s: State, s': State, p: nat, d: nat)
    requires Anchored(s, p, d) && SameAround(s, s', p, d)
    ensures Anchored(s', p, d)
  {
  }

  lemma AnchoredByItself(s: State, e: Event, p: nat, d: nat)
    requires Anchored(s, p, d) && OfLocker(e) && e.peer == p && e.slot == d && !(s.Thread(p, d).Admitted? && Leaving(s, p, d))
    ensures Anchored(NextAsLocker(s, e), p, d)
  {
    assert NextAsLocker(s, e).members == s.members;
  }

  lemma AnchoredAsLocker(s: State, e: Event, p: nat, d: nat)
    requires Anchored(s, p, d) && OfLocker(e) && !(s.Thread(p, d).Admitted? && Leaving(s, p, d))
    ensures Anchored(NextAsLocker(s, e), p, d)
  {
    if e.peer == p && e.slot == d {
      AnchoredByItself(s, e, p, d);
    } else {
      LockedElsewhere(s, e, p, d);
      AnchoredAround(s, NextAsLocker(s, e), p, d);
    }
  }

  lemma AnchoredAsKeeper(s: State, e: Event, p: nat, d: nat)
    requires Inv(s) && Anchored(s, p, d) && OfKeeper(e)
    ensures Anchored(NextAsKeeper(s, e), p, d)
  {
  }

  lemma AnchoredAsLeaver(s: State, e: Event, p: nat, d: nat)
    requires Inv(s) && Anchored(s, p, d) && OfLeaver(e) && !(s.Thread(p, d).Admitted? && Leaving(s, p, d))
    ensures Anchored(NextAsLeaver(s, e), p, d)
  {
  }

  /** Deaths, recoveries and guarded transfers. */
  lemma AnchoredMeanwhile(s: State, e: Event, p: nat, d: nat)
    requires Inv(s) && Anchored(s, p, d) && (e.Die? || e.Recover? || e.HandOver?)
    ensures Anchored(Next(s, e), p, d)
  {
  }

  lemma AnchoredActs(s: State, e: Event, p: nat, d: nat)
    requires Inv(s) && Anchored(s, p, d) && !(s.Thread(p, d).Admitted? && Leaving(s, p, d)) && (OfKeeper(e) || OfLeaver(e)) && e.peer !in s.dead
    ensures Anchored(Next(s, e), p, d)
  {
    if OfKeeper(e) {
      AnchoredAsKeeper(s, e, p, d);
    } else {
      AnchoredAsLeaver(s, e, p, d);
    }
  }

  lemma AnchoredLocks(s: State, e: Event, p: nat, d: nat)
    requires Inv(s) && Anchored(s, p, d) && !(s.Thread(p, d).Admitted? && Leaving(s, p, d)) && OfLocker(e) && e.peer !in s.dead
    ensures Anchored(Next(s, e), p, d)
  {
    AnchoredAsLocker(s, e, p, d);
  }

  lemma AnchoredStep(s: State, e: Event, p: nat, d: nat)
    requires Inv(s) && Anchored(s, p, d) && !(s.Thread(p, d).Admitted? && Leaving(s, p, d))
    ensures Anchored(Next(s, e), p, d)
  {
    if e.Die? || e.Recover? || e.HandOver? {
      AnchoredMeanwhile(s, e, p, d);
    } else if e.peer in s.dead {
    } else if OfLocker(e) {
      AnchoredLocks(s, e, p, d);
    } else {
      AnchoredActs(s, e, p, d);
    }
  }

  lemma {:induction false} AnchoredRun(s: State, events: seq<Event>, p: nat, d: nat)
    requires Inv(s) && Anchored(s, p, d) && Orderly(s, events, p, d)
    ensures Inv(Run(s, events)) && Anchored(Run(s, events), p, d)
    decreases |events|
  {
    if events != [] {
      AnchoredStep(s, events[0], p, d);
      NextInv(s, events[0]);
      AnchoredRun(Next(s, events[0]), events[1..], p, d);
    }
  }

  /** Participates, is pinned, and no leave will take that away: a leave that finds no other participant gives up. */
  predicate Secure(s: State, p: nat, d: nat) {
    d in s.Member(p) && (p, d) in s.pins && (Leaving(s, p, d) ==> s.change.PinsChecked? && !s.OthersIn(p, d))
  }

  /** In an orderly run whoever guards a domain does so securely, and the domain is the one its handle was resolved at. */
  lemma StaleHandlesNeverGuard(events: seq<Event>, p: nat, d: nat)
    requires Orderly(Init(), events, p, d)
    requires p !in Run(Init(), events).dead && Run(Init(), events).Thread(p, d).Guarding?
    ensures var s := Run(Init(), events); Names(s, d, s.Thread(p, d).generation) && Secure(s, p, d)
  {
    AnchoredRun(Init(), events, p, d);
  }

  // ---------- exactly which guards last ----------

  predicate KeepsGuard(events: seq<Event>, p: nat, d: nat) {
    forall i | 0 <= i < |events| :: events[i] != Unlock(p, d)
  }

  /** Unless the peer is dead, it guards the domain of its handle. */
  predicate GuardsIt(s: State, p: nat, d: nat, g: nat) {
    p !in s.dead ==> s.Thread(p, d) == Guarding(g) && Names(s, d, g)
  }

  /** What keeps a guard. */
  ghost predicate Held(s: State, p: nat, d: nat, g: nat) {
    p !in s.dead ==> s.Thread(p, d) == Guarding(g) && Names(s, d, g) && Secure(s, p, d)
  }

  lemma HeldAsKeeper(s: State, e: Event, p: nat, d: nat, g: nat)
    requires Inv(s) && Held(s, p, d, g) && OfKeeper(e)
    ensures Held(NextAsKeeper(s, e), p, d, g)
  {
  }

  lemma HeldAsLeaver(s: State, e: Event, p: nat, d: nat, g: nat)
    requires Inv(s) && Held(s, p, d, g) && OfLeaver(e)
    ensures Held(NextAsLeaver(s, e), p, d, g)
  {
  }

  lemma HeldAsLocker(s: State, e: Event, p: nat, d: nat, g: nat)
    requires Held(s, p, d, g) && OfLocker(e) && e != Unlock(p, d)
    ensures Held(NextAsLocker(s, e), p, d, g)
  {
    if e.peer == p && e.slot == d {
      assert p !in s.dead ==> NextAsLocker(s, e) == s;
    } else {
      LockedElsewhere(s, e, p, d);
    }
  }

  lemma HeldMeanwhile(s: State, e: Event, p: nat, d: nat, g: nat)
    requires Inv(s) && Held(s, p, d, g) && (e.Die? || e.Recover? || e.HandOver?)
    ensures Held(Next(s, e), p, d, g)
  {
  }

  lemma HeldActs(s: State, e: Event, p: nat, d: nat, g: nat)
    requires Inv(s) && e != Unlock(p, d) && Held(s, p, d, g) && (OfKeeper(e) || OfLeaver(e)) && e.peer !in s.dead
    ensures Held(Next(s, e), p, d, g)
  {
    if OfKeeper(e) {
      HeldAsKeeper(s, e, p, d, g);
    } else {
      HeldAsLeaver(s, e, p, d, g);
    }
  }

  lemma HeldLocks(s: State, e: Event, p: nat, d: nat, g: nat)
    requires Inv(s) && e != Unlock(p, d) && Held(s, p, d, g) && OfLocker(e) && e.peer !in s.dead
    ensures Held(Next(s, e), p, d, g)
  {
    HeldAsLocker(s, e, p, d, g);
  }

  lemma HeldStep(s: State, e: Event, p: nat, d: nat, g: nat)
    requires Inv(s) && e != Unlock(p, d) && Held(s, p, d, g)
    ensures Held(Next(s, e), p, d, g)
  {
    if e.Die? || e.Recover? || e.HandOver? {
      HeldMeanwhile(s, e, p, d, g);
    } else if e.peer in s.dead {
    } else if OfLocker(e) {
      HeldLocks(s, e, p, d, g);
    } else {
      HeldActs(s, e, p, d, g);
    }
  }

  lemma {:induction false} HeldRun(s: State, events: seq<Event>, p: nat, d: nat, g: nat)
    requires Inv(s) && KeepsGuard(events, p, d) && Held(s, p, d, g)
    ensures GuardsIt(Run(s, events), p, d, g)
    decreases |events|
  {
    if events != [] {
      assert events[0] != Unlock(p, d);
      HeldStep(s, events[0], p, d, g);
      NextInv(s, events[0]);
      HeldRun(Next(s, events[0]), events[1..], p, d, g);
    }
  }

  /** A live guard of the domain its handle names. */
  ghost predicate Live(s: State, p: nat, d: nat, g: nat) {
    Inv(s) && p !in s.dead && s.Thread(p, d) == Guarding(g) && Names(s, d, g)
  }

  /** Still guarding, but not what the handle named. */
  predicate GuardsAnother(s: State, p: nat, d: nat, g: nat) {
    p !in s.dead && s.Thread(p, d) == Guarding(g) && !Names(s, d, g)
  }

  ghost predicate MayFail(s: State, p: nat, d: nat, g: nat) {
    exists events | KeepsGuard(events, p, d) :: GuardsAnother(Run(s, events), p, d, g)
  }

  lemma FailsAfter(s: State, e: Event, p: nat, d: nat, g: nat)
    requires e != Unlock(p, d) && MayFail(Next(s, e), p, d, g)
    ensures MayFail(s, p, d, g)
  {
    var events :| KeepsGuard(events, p, d) && GuardsAnother(Run(Next(s, e), events), p, d, g);
    assert ([e] + events)[1..] == events;
    assert KeepsGuard([e] + events, p, d);
    assert Run(s, [e] + events) == Run(Next(s, e), events);
  }

  lemma FreedIsGone(s: State, p: nat, d: nat, g: nat)
    requires Live(s, p, d, g) && s.control == Peer(p) && s.change == Reclaiming(d)
    ensures MayFail(s, p, d, g)
  {
    var freed := Next(s, Free(p));
    assert Run(freed, []) == freed && GuardsAnother(freed, p, d, g) && KeepsGuard([], p, d);
    FailsAfter(s, Free(p), p, d, g);
  }

  lemma SweptAway(s: State, p: nat, d: nat, g: nat)
    requires Live(s, p, d, g) && Controls(s, p) && d !in s.Member(p) && MayFree(s, p, d)
    ensures MayFail(s, p, d, g)
  {
    NextInv(s, Sweep(p, d));
    FreedIsGone(Next(s, Sweep(p, d)), p, d, g);
    FailsAfter(s, Sweep(p, d), p, d, g);
  }

  function Others(s: State, p: nat, d: nat): set<nat> {
    set q | q in s.members && q != p && d in s.members[q]
  }

  lemma StillLive(s: State, e: Event, p: nat, d: nat, g: nat)
    requires Live(s, p, d, g) && (e.Die? || e.Recover?) && e.peer != p
    ensures Live(Next(s, e), p, d, g) && Next(s, e).Member(p) == s.Member(p) && Next(s, e).pins == s.pins
    ensures s.control == Peer(p) ==> Next(s, e).control == s.control && Next(s, e).change == s.change
  {
    NextInv(s, e);
  }

  lemma Inherited(s: State, q: nat, p: nat, d: nat)
    requires p !in s.dead && q != p
    ensures var s' := Next(Next(s, Die(q)), Recover(p, q));
            && s'.At(d).holder == (if s.At(d).holder == Peer(q) then Peer(p) else s.At(d).holder)
            && Others(s', p, d) == Others(s, p, d) - {q}
            && (s.control == Peer(q) ==> s'.control == Nobody)
  {
    var died := Next(s, Die(q));
    assert q in died.dead && died.slots == s.slots && died.members == s.members && died.control == s.control;
  }

  /** Another peer dies and this one recovers it. */
  lemma Inherit(s: State, q: nat, p: nat, d: nat, g: nat) returns (s': State)
    requires Live(s, p, d, g) && q != p
    ensures Live(s', p, d, g) && s'.Member(p) == s.Member(p) && s'.pins == s.pins && (MayFail(s', p, d, g) ==> MayFail(s, p, d, g))
    ensures s.control == Peer(p) ==> s'.control == s.control && s'.change == s.change
    ensures s.control == Peer(q) ==> s'.control == Nobody
    ensures s'.At(d).holder == if s.At(d).holder == Peer(q) then Peer(p) else s.At(d).holder
    ensures Others(s', p, d) == Others(s, p, d) - {q}
  {
    var died := Next(s, Die(q));
    s' := Next(died, Recover(p, q));
    StillLive(s, Die(q), p, d, g);
    StillLive(died, Recover(p, q), p, d, g);
    Inherited(s, q, p, d);
    if MayFail(s', p, d, g) {
      FailsAfter(died, Recover(p, q), p, d, g);
      FailsAfter(s, Die(q), p, d, g);
    }
  }

  /** Every other participant can die and be recovered by this one, whose sweep then frees the domain it guards. */
  lemma {:induction false} OneByOne(s: State, p: nat, d: nat, g: nat)
    requires Live(s, p, d, g) && Controls(s, p) && d !in s.Member(p) && s.At(d).holder in {Peer(p), Nobody}
    ensures MayFail(s, p, d, g)
    decreases |Others(s, p, d)|
  {
    if Others(s, p, d) == {} {
      assert forall q | q in s.members && q != p && d in s.members[q] :: q in Others(s, p, d);
      SweptAway(s, p, d, g);
    } else {
      var q :| q in Others(s, p, d);
      var s' := Inherit(s, q, p, d, g);
      OneByOne(s', p, d, g);
    }
  }

  lemma HolderFirst(s: State, p: nat, d: nat, g: nat)
    requires Live(s, p, d, g) && Controls(s, p) && d !in s.Member(p)
    ensures MayFail(s, p, d, g)
  {
    if s.At(d).holder in {Peer(p), Nobody} {
      OneByOne(s, p, d, g);
    } else {
      var s' := Inherit(s, s.At(d).holder.id, p, d, g);
      OneByOne(s', p, d, g);
    }
  }

  // ---------- a registry change of the peer's own comes to its end ----------

  function Rank(c: Change): nat {
    match c
    case NoChange => 0
    case PinsChecked(_) => 4
    case HandingOff(_, _) => 3
    case Unpinning(_) => 2
    case _ => 1
  }

  /** The next step of the control holder's change; a scan answers a participant where there is one. */
  function Proceed(s: State, p: nat, to: nat): Event {
    match s.change
    case Created(_) => JoinCreated(p)
    case PinsChecked(_) => ScanLeave(p, to)
    case HandingOff(_, _) => HandOff(p)
    case Unpinning(_) => ResetPins(p)
    case Retracting(_) => Retract(p)
    case _ => Free(p)
  }

  lemma SomeOther(s: State, p: nat, d: nat) returns (to: nat)
    ensures s.OthersIn(p, d) ==> to != p && d in s.Member(to)
  {
    if s.OthersIn(p, d) {
      to :| to in s.members && to != p && d in s.members[to];
    } else {
      to := p;
    }
  }

  lemma Proceeds(s: State, p: nat, d: nat, g: nat) returns (e: Event)
    requires Live(s, p, d, g) && s.control == Peer(p) && s.change != NoChange && s.change != Reclaiming(d)
    ensures e != Unlock(p, d) && Live(Next(s, e), p, d, g) && Next(s, e).control == Peer(p) && Rank(Next(s, e).change) < Rank(s.change)
    ensures d !in s.Member(p) ==> d !in Next(s, e).Member(p)
    ensures !s.change.Leaves(d) ==> Next(s, e).Member(p) >= s.Member(p) * {d} && !Next(s, e).change.Leaves(d)
    ensures !s.change.Leaves(d) ==> (p, d) !in s.pins ==> (p, d) !in Next(s, e).pins
    ensures s.change.Leaves(d) && (s.change.PinsChecked? ==> s.OthersIn(p, d) && d in s.Member(p)) ==>
              if s.change.Retracting? then d !in Next(s, e).Member(p)
              else Next(s, e).change.Leaves(d) && !Next(s, e).change.PinsChecked?
    ensures s.change == PinsChecked(d) && !s.OthersIn(p, d) ==> Next(s, e).change == NoChange && Next(s, e).Member(p) == s.Member(p) && Next(s, e).pins == s.pins
  {
    var to := SomeOther(s, p, if s.change.PinsChecked? then s.change.slot else d);
    e := Proceed(s, p, to);
    NextInv(s, e);
    assert s.change.Created? ==> Behind(s, p, s.change.slot);
  }

  // ---------- a guard outside the participants ----------

  lemma {:induction false} OutsideInControl(s: State, p: nat, d: nat, g: nat)
    requires Live(s, p, d, g) && s.control == Peer(p) && d !in s.Member(p)
    ensures MayFail(s, p, d, g)
    decreases Rank(s.change)
  {
    if s.change == NoChange {
      HolderFirst(s, p, d, g);
    } else if s.change == Reclaiming(d) {
      FreedIsGone(s, p, d, g);
    } else {
      var e := Proceeds(s, p, d, g);
      OutsideInControl(Next(s, e), p, d, g);
      FailsAfter(s, e, p, d, g);
    }
  }

  lemma TakesControl(s: State, p: nat, d: nat, g: nat)
    requires Live(s, p, d, g) && s.control == Nobody
    ensures Next(s, TakeControl(p)) == s.(control := Peer(p)) && Live(s.(control := Peer(p)), p, d, g) && s.change == NoChange
  {
    NextInv(s, TakeControl(p));
  }

  lemma OutsideFails(s: State, p: nat, d: nat, g: nat)
    requires Live(s, p, d, g) && d !in s.Member(p)
    ensures MayFail(s, p, d, g)
  {
    if s.control == Peer(p) {
      OutsideInControl(s, p, d, g);
    } else {
      var s' := s;
      if s.control != Nobody {
        s' := Inherit(s, s.control.id, p, d, g);
      }
      TakesControl(s', p, d, g);
      OutsideInControl(s'.(control := Peer(p)), p, d, g);
      FailsAfter(s', TakeControl(p), p, d, g);
    }
  }

  // ---------- a guard whose peer is leaving ----------

  /** A leave under way that finds a successor, or has one. */
  predicate Doomed(s: State, p: nat, d: nat) {
    Leaving(s, p, d) && (s.change.PinsChecked? ==> s.OthersIn(p, d))
  }

  lemma {:induction false} LeavingFails(s: State, p: nat, d: nat, g: nat)
    requires Live(s, p, d, g) && Doomed(s, p, d)
    ensures MayFail(s, p, d, g)
    decreases Rank(s.change)
  {
    if d !in s.Member(p) {
      OutsideFails(s, p, d, g);
    } else {
      var e := Proceeds(s, p, d, g);
      if s.change.Retracting? {
        OutsideFails(Next(s, e), p, d, g);
      } else {
        LeavingFails(Next(s, e), p, d, g);
      }
      FailsAfter(s, e, p, d, g);
    }
  }

  // ---------- a guard whose pin an earlier leave has reset ----------

  /** Any other peer can take control and join. */
  lemma SomebodyJoins(s: State, p: nat, d: nat, g: nat) returns (s': State)
    requires Live(s, p, d, g) && s.control == Nobody
    ensures Live(s', p, d, g) && s'.control == Nobody && s'.Member(p) == s.Member(p) && s'.pins == s.pins && s'.OthersIn(p, d)
    ensures MayFail(s', p, d, g) ==> MayFail(s, p, d, g)
  {
    var q := FreshExists(s.dead + {p});
    assert q !in s.dead && q != p;
    var took := s.(control := Peer(q));
    var joined := SetMember(took, q, s.Member(q) + {d});
    s' := joined.(control := Nobody);
    NextInv(s, TakeControl(q));
    assert s.change == NoChange && Next(s, TakeControl(q)) == took && Next(took, Join(q, d)) == joined && Next(joined, DropControl(q)) == s';
    NextInv(took, Join(q, d));
    NextInv(joined, DropControl(q));
    assert q in s'.members && d in s'.members[q];
    if MayFail(s', p, d, g) {
      FailsAfter(joined, DropControl(q), p, d, g);
      FailsAfter(took, Join(q, d), p, d, g);
      FailsAfter(s, TakeControl(q), p, d, g);
    }
  }

  lemma UnpinnedLeaves(s: State, p: nat, d: nat, g: nat)
    requires Live(s, p, d, g) && s.control == Nobody && (p, d) !in s.pins && s.OthersIn(p, d)
    ensures MayFail(s, p, d, g)
  {
    TakesControl(s, p, d, g);
    var took := s.(control := Peer(p));
    var begun := Next(took, BeginLeave(p, d));
    NextInv(took, BeginLeave(p, d));
    LeavingFails(begun, p, d, g);
    FailsAfter(took, BeginLeave(p, d), p, d, g);
    FailsAfter(s, TakeControl(p), p, d, g);
  }

  lemma UnpinnedUncontrolled(s: State, p: nat, d: nat, g: nat)
    requires Live(s, p, d, g) && s.control == Nobody && (p, d) !in s.pins
    ensures MayFail(s, p, d, g)
  {
    var s' := SomebodyJoins(s, p, d, g);
    UnpinnedLeaves(s', p, d, g);
  }

  lemma {:induction false} UnpinnedInControl(s: State, p: nat, d: nat, g: nat)
    requires Live(s, p, d, g) && s.control == Peer(p) && (p, d) !in s.pins
    ensures MayFail(s, p, d, g)
    decreases Rank(s.change)
  {
    if s.change == NoChange {
      NextInv(s, DropControl(p));
      UnpinnedUncontrolled(Next(s, DropControl(p)), p, d, g);
      FailsAfter(s, DropControl(p), p, d, g);
    } else if s.change == Reclaiming(d) {
      FreedIsGone(s, p, d, g);
    } else if Doomed(s, p, d) {
      LeavingFails(s, p, d, g);
    } else {
      var e := Proceeds(s, p, d, g);
      UnpinnedInControl(Next(s, e), p, d, g);
      FailsAfter(s, e, p, d, g);
    }
  }

  lemma UnpinnedFails(s: State, p: nat, d: nat, g: nat)
    requires Live(s, p, d, g) && (p, d) !in s.pins
    ensures MayFail(s, p, d, g)
  {
    if s.control == Peer(p) {
      UnpinnedInControl(s, p, d, g);
    } else if s.control == Nobody {
      UnpinnedUncontrolled(s, p, d, g);
    } else {
      var s' := Inherit(s, s.control.id, p, d, g);
      UnpinnedUncontrolled(s', p, d, g);
    }
  }

  lemma InsecureFails(s: State, p: nat, d: nat, g: nat)
    requires Live(s, p, d, g) && !Secure(s, p, d)
    ensures MayFail(s, p, d, g)
  {
    if d !in s.Member(p) {
      OutsideFails(s, p, d, g);
    } else if (p, d) !in s.pins {
      UnpinnedFails(s, p, d, g);
    } else {
      LeavingFails(s, p, d, g);
    }
  }

  /**
   A guard is good until it ends, whatever anybody does, exactly when its peer participates in the domain, has its pin
   on it, and has no leave of it under way that will find a successor.
   */
  lemma GuardLastsExactly(before: seq<Event>, p: nat, d: nat, g: nat)
    requires var s := Run(Init(), before); p !in s.dead && s.Thread(p, d) == Guarding(g) && Names(s, d, g)
    ensures var s := Run(Init(), before);
            (forall events | KeepsGuard(events, p, d) :: GuardsIt(Run(s, events), p, d, g)) <==> Secure(s, p, d)
  {
    var s := Run(Init(), before);
    RunInv(Init(), before);
    if Secure(s, p, d) {
      forall events | KeepsGuard(events, p, d)
        ensures GuardsIt(Run(s, events), p, d, g)
      {
        HeldRun(s, events, p, d, g);
      }
    } else {
      InsecureFails(s, p, d, g);
    }
  }
}
