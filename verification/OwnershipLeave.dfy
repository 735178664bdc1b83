/**
 The one transfer that takes no latch: the hand-off of a leave (src/core/algo/lifecycle.cpp), added to `Ownership`.
 It finds no pins, reads the record, and from there on publishes whatever the peer's workers and its poll thread do.
 `Rules` says what may overlap it: pins of the peer's own workers, and guarded transfers of its poll thread.

 A leave nobody overlaps is a guarded transfer: every run of this machine without overlaps is a run of `Ownership`.
 */
module OwnershipLeave {
  import opened Basics
  import opened Ownership
  import opened OwnershipSafety

  datatype Rules = Rules(pins: bool, transfers: bool)

  datatype Leave =
    | Staying
    | PinsChecked(to: nat)              // found no pins, about to read the record
    | Held(to: nat)                     // the record names this peer, about to read it again to publish
    | Letting(to: nat, base: nat)       // about to drop the belief
    | Shading(to: nat, base: nat)       // about to store the shadow
    | Publishing(to: nat, base: nat)    // about to store the truth
    | Resetting                         // about to reset the pins

  datatype Extended = Extended(core: State, leaves: map<nat, Leave>) {
    function At(p: nat): Leave {
      if p in leaves then leaves[p] else Staying
    }
  }

  datatype Action =
    | Do(event: Event)
    | BeginLeave(peer: nat, to: nat)
    | CarryLeave(peer: nat)

  function Start(groupSize: Positive, created: Record, leftover: map<nat, Record>): Extended {
    Extended(Init(groupSize, created, leftover), map[])
  }

  function Move(s: Extended, core: State, p: nat, leave: Leave): Extended {
    Extended(core, s.leaves[p := leave])
  }

  /** What a leave under way leaves of an event of its own peer; joins wait for the control lock it has. */
  predicate Admits(s: Extended, e: Event, r: Rules) {
    s.At(e.peer) == Staying || (!e.Sync? && (e.Pin? ==> r.pins) && (e.Begin? ==> r.transfers))
  }

  function NextLeave(s: Extended, p: nat): Extended {
    var c, l := s.core, s.core.At(p);
    match s.At(p)
    case Staying => s
    case PinsChecked(to) => Move(s, c, p, if c.truth.holder == p then Held(to) else Resetting)
    case Held(to) => Move(s, c, p, if c.truth.holder == p then Letting(to, c.truth.epoch) else Resetting)
    case Letting(to, base) => Move(s, With(c, p, l.(belief := false)), p, Shading(to, base))
    case Shading(to, base) => Move(s, StoreShadow(c, Record(to, base + 1)), p, Publishing(to, base))
    case Publishing(to, base) => Move(s, StoreTruth(c, Record(to, base + 1)), p, Resetting)
    case Resetting => Move(s, With(c, p, l.(pin := Count(0))), p, Staying)
  }

  /** A death between the two stores of a leave leaves an orphaned shadow, as a transfer's does. */
  function Orphaned(s: Extended, e: Event, c: State): State {
    if e.Die? && s.core.Alive(e.peer) && s.At(e.peer).Publishing?
    then c.(orphans := c.orphans + {Record(s.At(e.peer).to, s.At(e.peer).base + 1)}) else c
  }

  function Acted(s: Extended, a: Action, r: Rules): Extended {
    match a
    case Do(e) => if Admits(s, e, r) then s.(core := Orphaned(s, e, Ownership.Next(s.core, e))) else s
    case BeginLeave(p, to) =>
      var l := s.core.At(p);
      if l.alive && s.At(p) == Staying && to != p && (l.pin == Count(0) || (l.pin == Transferring && r.transfers))
      then Move(s, s.core, p, PinsChecked(to)) else s
    case CarryLeave(p) => if s.core.Alive(p) then NextLeave(s, p) else s
  }

  function Played(s: Extended, actions: seq<Action>, r: Rules): Extended
    decreases |actions|
  {
    if actions == [] then s else Played(Acted(s, actions[0], r), actions[1..], r)
  }

  // ---------- a leave nobody overlaps is a guarded transfer ----------

  const STRICT := Rules(false, false)

  function AsTransfer(leave: Leave): Transfer {
    match leave
    case Staying => Idle
    case PinsChecked(to) => Checking(to)
    case Held(to) => Checking(to)
    case Letting(to, base) => Losing(to, base)
    case Shading(to, base) => Shadowing(to, base)
    case Publishing(to, base) => Truthing(to, base)
    case Resetting => Ending
  }

  function AsLatched(l: Local, leave: Leave): Local {
    if leave == Staying then l else l.(pin := Transferring, transfer := AsTransfer(leave))
  }

  /** `t` is the same system with every leave under way as a latched transfer. */
  ghost predicate Refines(s: Extended, t: State) {
    && SameLines(s.core, t) && forall p: nat :: t.At(p) == AsLatched(s.core.At(p), s.At(p))
  }

  ghost predicate SameLines(s: State, t: State) {
    && s.groupSize == t.groupSize && s.truth == t.truth && s.shadows == t.shadows && s.seizure == t.seizure
    && s.history == t.history && s.orphans == t.orphans
  }

  /** A leaver has no worker inside and no transfer of its own. */
  ghost predicate Clear(s: Extended, p: nat) {
    s.At(p) != Staying ==> s.core.At(p).pin == Count(0) && s.core.At(p).transfer == Idle && s.core.At(p).Inside() == {}
  }

  ghost predicate Agree(s: Extended, t: State) {
    Refines(s, t) && Ownership.Inv(t) && forall p: nat :: Clear(s, p)
  }

  /** One peer's local view and leave move, and the shared lines alike. */
  lemma OneMoves(s: Extended, s': Extended, t: State, t': State, p: nat)
    requires Refines(s, t) && SameLines(s'.core, t') && t'.At(p) == AsLatched(s'.core.At(p), s'.At(p)) && Clear(s', p)
    requires forall q: nat | q != p :: s'.core.At(q) == s.core.At(q) && s'.At(q) == s.At(q) && t'.At(q) == t.At(q)
    requires forall q: nat :: Clear(s, q)
    ensures Refines(s', t') && forall q: nat :: Clear(s', q)
  {
    forall q: nat | q != p
      ensures t'.At(q) == AsLatched(s'.core.At(q), s'.At(q)) && Clear(s', q)
    {
      assert t.At(q) == AsLatched(s.core.At(q), s.At(q)) && Clear(s, q);
    }
  }

  // ---------- the two systems step together ----------

  /** The next access of a leave is the next access of the transfer, but for the first of its two reads. */
  lemma CarryTogether(s: Extended, t: State, p: nat) returns (t': State)
    requires Agree(s, t) && s.core.Alive(p)
    ensures t' == t || t' == Ownership.Next(t, Carry(p))
    ensures Agree(NextLeave(s, p), t')
  {
    var s' := NextLeave(s, p);
    assert Clear(s, p) && t.At(p) == AsLatched(s.core.At(p), s.At(p));
    t' := if s.At(p) == Staying || (s.At(p).PinsChecked? && s.core.truth.holder == p) then t else Ownership.Next(t, Carry(p));
    if s.At(p) != Staying {
      CarryOne(s, t, t', p);
      OneMoves(s, s', t, t', p);
      Ownership.NextInv(t, Carry(p));
    }
  }

  lemma CarryOne(s: Extended, t: State, t': State, p: nat)
    requires SameLines(s.core, t) && t.At(p) == AsLatched(s.core.At(p), s.At(p)) && Clear(s, p) && s.core.Alive(p) && s.At(p) != Staying
    requires t' == if s.At(p).PinsChecked? && s.core.truth.holder == p then t else NextTransfer(t, p)
    ensures var s' := NextLeave(s, p);
            && SameLines(s'.core, t') && t'.At(p) == AsLatched(s'.core.At(p), s'.At(p)) && Clear(s', p)
            && forall q: nat | q != p :: s'.core.At(q) == s.core.At(q) && s'.At(q) == s.At(q) && t'.At(q) == t.At(q)
  {
  }

  lemma BeginTogether(s: Extended, t: State, p: nat, to: nat) returns (t': State)
    requires Agree(s, t)
    ensures t' == t || t' == Ownership.Next(t, Begin(p, to))
    ensures Agree(Acted(s, BeginLeave(p, to), STRICT), t')
  {
    var s' := Acted(s, BeginLeave(p, to), STRICT);
    t' := t;
    if s' != s {
      assert Clear(s, p) && t.At(p) == AsLatched(s.core.At(p), s.At(p)) && LocalOk(t, p);
      t' := Ownership.Next(t, Begin(p, to));
      OneMoves(s, s', t, t', p);
      Ownership.NextInv(t, Begin(p, to));
    }
  }

  /** What one step of each system makes of the peer it is a step of. */
  ghost predicate InStep(s: Extended, s': Extended, t: State, t': State, p: nat) {
    && SameLines(s'.core, t') && t'.At(p) == AsLatched(s'.core.At(p), s'.At(p)) && Clear(s', p) && s'.leaves == s.leaves
    && forall q: nat | q != p :: s'.core.At(q) == s.core.At(q) && t'.At(q) == t.At(q)
  }

  /** One local view is set on either side. */
  lemma SetInStep(s: Extended, t: State, p: nat, l: Local)
    requires SameLines(s.core, t) && (s.At(p) != Staying ==> l.pin == Count(0) && l.transfer == Idle && l.Inside() == {})
    ensures InStep(s, s.(core := With(s.core, p, l)), t, With(t, p, AsLatched(l, s.At(p))), p)
  {
  }

  lemma StepInStep(s: Extended, t: State, p: nat, w: nat)
    requires SameLines(s.core, t) && s.At(p) == Staying && t.At(p) == s.core.At(p)
    ensures InStep(s, s.(core := NextWorker(s.core, p, w)), t, NextWorker(t, p, w), p)
  {
    var c, l := s.core, s.core.At(p);
    match l.At(w)
    case Pinned => SetInStep(s, t, p, WithWorker(l, w, if l.belief then Resident else Waiting));
    case Resident => SetInStep(s, t, p, WithWorker(l, w, if c.truth.holder == p then Using else Disproved));
    case Disproved => SetInStep(s, t, p, WithWorker(l, w, Waiting).(belief := false));
    case Waiting =>
      assert c.Shadow(p) == t.Shadow(p);
      SetInStep(s, t, p, WithWorker(l, w, Confirming));
    case Confirming => SetInStep(s, t, p, WithWorker(l, w, if c.truth.holder == p then Adopting(c.truth.epoch) else Waiting));
    case Adopting(epoch) => SetInStep(s, t, p, WithWorker(l, w, Using).(belief := true, baseline := Larger(epoch, l.baseline)));
    case _ =>
  }

  /** A worker of a peer that stays. */
  lemma WorkerInStep(s: Extended, t: State, e: Event)
    requires SameLines(s.core, t) && s.At(e.peer) == Staying && t.At(e.peer) == s.core.At(e.peer) && s.core.Alive(e.peer)
    requires e.Sync? || e.Pin? || e.Step? || e.Again? || e.Expire? || e.Unpin?
    ensures InStep(s, s.(core := Ownership.Next(s.core, e)), t, Ownership.Next(t, e), e.peer)
  {
    var p, l := e.peer, s.core.At(e.peer);
    match e
    case Sync(_) => SetInStep(s, t, p, l.(belief := s.core.truth.holder == p, baseline := s.core.truth.epoch));
    case Pin(_, w) => if l.pin.Count? { SetInStep(s, t, p, WithWorker(l, w, Pinned).(pin := Count(l.pin.pins + 1))); }
    case Step(_, w) => StepInStep(s, t, p, w);
    case Again(_, w) => SetInStep(s, t, p, WithWorker(l, w, Pinned));
    case Expire(_, w) => SetInStep(s, t, p, WithWorker(l, w, GivingUp));
    case Unpin(_, w) => if l.pin.Count? && l.pin.pins > 0 { SetInStep(s, t, p, WithWorker(l, w, Away).(pin := Count(l.pin.pins - 1))); }
  }

  /** A transfer of a peer that stays. */
  lemma TransferInStep(s: Extended, t: State, p: nat)
    requires SameLines(s.core, t) && s.At(p) == Staying && t.At(p) == s.core.At(p)
    ensures InStep(s, s.(core := NextTransfer(s.core, p)), t, NextTransfer(t, p), p)
  {
    var c, l := s.core, s.core.At(p);
    match l.transfer
    case Idle =>
    case Checking(to) => SetInStep(s, t, p, l.(transfer := if c.truth.holder == p then Losing(to, c.truth.epoch) else Ending));
    case Losing(to, base) => SetInStep(s, t, p, l.(belief := false, transfer := Shadowing(to, base)));
    case Shadowing(to, base) =>
      var r := Record(to, base + 1);
      SetInStep(s.(core := StoreShadow(c, r)), StoreShadow(t, r), p, l.(transfer := Truthing(to, base)));
    case Truthing(to, base) =>
      var r := Record(to, base + 1);
      SetInStep(s.(core := StoreTruth(c, r)), StoreTruth(t, r), p, l.(transfer := Ending));
    case Ending => SetInStep(s, t, p, l.(transfer := Idle, pin := Count(0)));
  }

  lemma BeginInStep(s: Extended, t: State, p: nat, to: nat)
    requires SameLines(s.core, t) && s.At(p) == Staying && t.At(p) == s.core.At(p) && s.core.Alive(p)
    ensures InStep(s, s.(core := Ownership.Next(s.core, Begin(p, to))), t, Ownership.Next(t, Begin(p, to)), p)
  {
    SetInStep(s, t, p, s.core.At(p).(pin := Transferring, transfer := Checking(to)));
  }

  /** A change of belief or baseline, or a reconcile step. */
  lemma BeliefInStep(s: Extended, t: State, p: nat, belief: bool, baseline: nat, reconcile: Reconcile)
    requires SameLines(s.core, t) && t.At(p) == AsLatched(s.core.At(p), s.At(p)) && Clear(s, p)
    ensures var l := s.core.At(p).(belief := belief, baseline := baseline, reconcile := reconcile);
            var lt := t.At(p).(belief := belief, baseline := baseline, reconcile := reconcile);
            InStep(s, s.(core := With(s.core, p, l)), t, With(t, p, lt), p)
  {
    var l := s.core.At(p).(belief := belief, baseline := baseline, reconcile := reconcile);
    assert l.Inside() == s.core.At(p).Inside();
    SetInStep(s, t, p, l);
  }

  lemma PollInStep(s: Extended, t: State, p: nat)
    requires SameLines(s.core, t) && t.At(p) == AsLatched(s.core.At(p), s.At(p)) && Clear(s, p)
    ensures InStep(s, s.(core := NextReconcile(s.core, p)), t, NextReconcile(t, p), p)
  {
    var c, l := s.core, s.core.At(p);
    match l.reconcile
    case Rested =>
      if c.truth.holder == p {
        BeliefInStep(s, t, p, true, l.baseline, Rested);
      } else {
        BeliefInStep(s, t, p, l.belief, l.baseline, Reconcile.Dropping);
      }
    case Dropping => BeliefInStep(s, t, p, false, l.baseline, Rechecking);
    case Rechecking => BeliefInStep(s, t, p, l.belief || c.truth.holder == p, l.baseline, Rested);
  }

  /** The shared lines change alike, and nobody's view. */
  lemma LinesInStep(s: Extended, c: State, t: State, t': State, p: nat)
    requires SameLines(c, t') && c.locals == s.core.locals && t'.locals == t.locals
    requires t.At(p) == AsLatched(s.core.At(p), s.At(p)) && Clear(s, p)
    ensures InStep(s, s.(core := c), t, t', p)
  {
  }

  lemma PressInStep(s: Extended, t: State, p: nat)
    requires SameLines(s.core, t) && t.At(p) == AsLatched(s.core.At(p), s.At(p)) && Clear(s, p)
    ensures InStep(s, s.(core := NextSeizure(s.core, p)), t, NextSeizure(t, p), p)
  {
    match s.core.seizure
    case Taken(a, epoch) =>
      if a == p {
        AdoptInStep(s, t, p, epoch);
      }
    case _ => LinesInStep(s, NextSeizure(s.core, p), t, NextSeizure(t, p), p);
  }

  lemma AdoptInStep(s: Extended, t: State, p: nat, epoch: nat)
    requires SameLines(s.core, t) && t.At(p) == AsLatched(s.core.At(p), s.At(p)) && Clear(s, p) && s.core.seizure == Taken(p, epoch)
    ensures InStep(s, s.(core := NextSeizure(s.core, p)), t, NextSeizure(t, p), p)
  {
    var l := s.core.At(p);
    var none, rest := s.(core := s.core.(seizure := NoSeizure)), t.(seizure := NoSeizure);
    BeliefInStep(none, rest, p, true, Larger(epoch, l.baseline), l.reconcile);
  }

  lemma DieInStep(s: Extended, t: State, p: nat)
    requires SameLines(s.core, t) && t.At(p) == AsLatched(s.core.At(p), s.At(p)) && Clear(s, p) && s.core.Alive(p)
    ensures InStep(s, s.(core := Orphaned(s, Die(p), Ownership.Next(s.core, Die(p)))), t, Ownership.Next(t, Die(p)), p)
  {
    var l := s.core.At(p).(alive := false);
    assert l.Inside() == s.core.At(p).Inside();
  }

  /** What the other threads of any peer do, leaving or not. */
  lemma OtherInStep(s: Extended, t: State, e: Event)
    requires SameLines(s.core, t) && t.At(e.peer) == AsLatched(s.core.At(e.peer), s.At(e.peer)) && s.core.Alive(e.peer) && Clear(s, e.peer)
    requires t.Alive(t.truth.holder) == s.core.Alive(s.core.truth.holder)
    requires e.Poll? || e.Seize? || e.Press?
    ensures InStep(s, s.(core := Ownership.Next(s.core, e)), t, Ownership.Next(t, e), e.peer)
  {
    if e.Poll? {
      PollInStep(s, t, e.peer);
    } else if e.Press? {
      PressInStep(s, t, e.peer);
    }
  }

  /** A leaver's workers are all away, and its own transfer is idle. */
  lemma LeaverRests(s: Extended, t: State, e: Event)
    requires s.At(e.peer) != Staying && t.At(e.peer) == AsLatched(s.core.At(e.peer), s.At(e.peer)) && Clear(s, e.peer)
    requires e.Step? || e.Again? || e.Expire? || e.Unpin?
    ensures Ownership.Next(s.core, e) == s.core && Ownership.Next(t, e) == t
  {
    var l := s.core.At(e.peer);
    assert l.At(e.worker) == Away by {
      assert e.worker !in l.Inside();
    }
    assert t.At(e.peer).At(e.worker) == Away;
  }

  lemma StepTogether(s: Extended, t: State, e: Event)
    requires SameLines(s.core, t) && t.At(e.peer) == AsLatched(s.core.At(e.peer), s.At(e.peer)) && s.core.Alive(e.peer) && Clear(s, e.peer)
    requires t.Alive(t.truth.holder) == s.core.Alive(s.core.truth.holder)
    requires s.At(e.peer) == Staying || e.Poll? || e.Seize? || e.Press? || e.Die?
    ensures InStep(s, s.(core := Orphaned(s, e, Ownership.Next(s.core, e))), t, Ownership.Next(t, e), e.peer)
  {
    if e.Die? {
      DieInStep(s, t, e.peer);
    } else if e.Poll? || e.Seize? || e.Press? {
      OtherInStep(s, t, e);
    } else if e.Begin? {
      BeginInStep(s, t, e.peer, e.to);
    } else if e.Carry? {
      TransferInStep(s, t, e.peer);
    } else {
      WorkerInStep(s, t, e);
    }
  }

  lemma DoTogether(s: Extended, t: State, e: Event) returns (t': State)
    requires Agree(s, t) && Admits(s, e, STRICT)
    ensures t' == t || t' == Ownership.Next(t, e)
    ensures Agree(Acted(s, Do(e), STRICT), t')
  {
    var p := e.peer;
    var s' := Acted(s, Do(e), STRICT);
    assert Clear(s, p) && t.At(p) == AsLatched(s.core.At(p), s.At(p));
    assert t.At(t.truth.holder) == AsLatched(s.core.At(t.truth.holder), s.At(t.truth.holder));
    t' := t;
    if s.core.Alive(p) {
      Ownership.NextInv(t, e);
      if s.At(p) != Staying && (e.Step? || e.Again? || e.Expire? || e.Unpin?) {
        LeaverRests(s, t, e);
      } else if s.At(p) != Staying && e.Carry? {
        assert Ownership.Next(s.core, e) == s.core;
      } else {
        t' := Ownership.Next(t, e);
        StepTogether(s, t, e);
        OneMoves(s, s', t, t', p);
      }
    }
  }

  // ---------- every run ----------

  lemma ActedTogether(s: Extended, t: State, a: Action) returns (t': State)
    requires Agree(s, t) && Reachable(t)
    ensures Agree(Acted(s, a, STRICT), t') && Reachable(t')
  {
    t' := t;
    match a
    case Do(e) =>
      if Admits(s, e, STRICT) {
        t' := DoTogether(s, t, e);
        ReachableNext(t, e);
      }
    case BeginLeave(p, to) =>
      t' := BeginTogether(s, t, p, to);
      ReachableNext(t, Begin(p, to));
    case CarryLeave(p) =>
      if s.core.Alive(p) {
        t' := CarryTogether(s, t, p);
        ReachableNext(t, Carry(p));
      }
  }

  lemma {:induction false} PlayedTogether(s: Extended, t: State, actions: seq<Action>) returns (t': State)
    requires Agree(s, t) && Reachable(t)
    ensures Agree(Played(s, actions, STRICT), t') && Reachable(t')
    decreases |actions|
  {
    if actions == [] {
      t' := t;
    } else {
      var mid := ActedTogether(s, t, actions[0]);
      t' := PlayedTogether(Acted(s, actions[0], STRICT), mid, actions[1..]);
    }
  }

  /** Every run in which nothing overlaps a leave is a run of guarded transfers, step for step. */
  lemma LeaveIsATransfer(groupSize: Positive, created: Record, leftover: map<nat, Record>, actions: seq<Action>) returns (t: State)
    ensures Reachable(t) && Refines(Played(Start(groupSize, created, leftover), actions, STRICT), t)
  {
    var init := Init(groupSize, created, leftover);
    InitInv(groupSize, created, leftover);
    assert Ownership.Run(init, []) == init;
    t := PlayedTogether(Start(groupSize, created, leftover), init, actions);
  }
}
