/**
 The domain registry and handles (src/core/algo/lifecycle.cpp, src/core/algo/peer.cpp, src/shared.cpp): slots are
 created, deleted, reclaimed and reused under the control lock, and a handle pairs a slot with the incarnation it
 was resolved at.

 A domain's lock and the control lock are exclusive locks here, which `Ownership` and `Tournament` establish for
 the policies behind them, until a leave hands the domain on. Each peer locks or deletes one domain from one thread
 at a time; its joins, leaves and sweeps may come from others. Looking at the participation, pinning and acquiring are
 steps of their own, and so are a leave's pin check, its scan, its hand-off, the reset of the pins and the retraction.
 A peer can die anywhere; its participation, its locks and its holdings stand until it is recovered.
 */
module Registry {

  datatype Holder = Nobody | Peer(id: nat)

  datatype Slot = Slot(active: bool, generation: nat, name: string, holder: Holder)

  /** What one peer's thread is doing with one domain. */
  datatype Thread =
    | Resting
    | Checked(generation: nat)                  // the handle passed the first check, about to look at the participation
    | Admitted(generation: nat, deletes: bool)  // participates, about to pin
    | Pinned(generation: nat, deletes: bool)    // pinned, waiting for the lock
    | Acquired(generation: nat)                 // has the lock, about to check the handle again
    | Guarding(generation: nat)
    | DeleteLocked(generation: nat)             // deleting, zero when any incarnation will do: has the domain's lock
  {
    predicate HasLock() {
      Acquired? || Guarding? || DeleteLocked?
    }

    predicate Pins() {
      Pinned? || HasLock()
    }

    /** Past the participation check of a lock by handle. */
    predicate ByHandle() {
      (Admitted? && !deletes) || (Pinned? && !deletes) || Acquired? || Guarding?
    }
  }

  /** The registry change the control holder is in the middle of. */
  datatype Change =
    | NoChange
    | Created(slot: nat)            // record written, about to join
    | Deleting(slot: nat)           // participation retracted, about to free the record
    | Reclaiming(slot: nat)         // found orphaned, about to free the record
    | PinsChecked(slot: nat)        // leaving: found no pins, about to look for a successor
    | HandingOff(slot: nat, to: nat)// leaving: held, about to publish the successor
    | Unpinning(slot: nat)          // leaving: about to reset the pins
    | Retracting(slot: nat)         // leaving: about to clear the participation
  {
    predicate Leaves(d: nat) {
      (PinsChecked? || HandingOff? || Unpinning? || Retracting?) && slot == d
    }
  }

  datatype State = State(
    slots: map<nat, Slot>,
    members: map<nat, set<nat>>,              // the slots each peer participates in
    threads: map<(nat, nat), Thread>,         // by peer and slot
    pins: set<(nat, nat)>,                    // by peer and slot
    locked: map<nat, nat>,                    // who has each domain's lock
    control: Holder,
    change: Change,
    dead: set<nat>)
  {
    function At(d: nat): Slot {
      if d in slots then slots[d] else Slot(false, 0, "", Nobody)
    }

    function Member(p: nat): set<nat> {
      if p in members then members[p] else {}
    }

    function Thread(p: nat, d: nat): Thread {
      if (p, d) in threads then threads[(p, d)] else Resting
    }

    /** Whether any peer but `p` participates in `d`. */
    predicate OthersIn(p: nat, d: nat) {
      exists q | q in members :: q != p && d in members[q]
    }

    predicate NameTaken(name: string) {
      exists d | d in slots :: slots[d].active && slots[d].name == name
    }
  }

  function Init(): State {
    State(map[], map[], map[], {}, map[], Nobody, NoChange, {})
  }

  datatype Event =
    | TakeControl(peer: nat)
    | DropControl(peer: nat)
    | Create(peer: nat, slot: nat, name: string)
    | JoinCreated(peer: nat)
    | Join(peer: nat, slot: nat)
    | BeginLeave(peer: nat, slot: nat)                    // the pin check of leaveDomain
    | ScanLeave(peer: nat, to: nat)                       // the successor scan and the read of the record
    | HandOff(peer: nat)                                  // the store that names the successor
    | ResetPins(peer: nat)
    | Retract(peer: nat)                                  // the participation goes
    | Check(peer: nat, slot: nat, generation: nat)        // the first look of lockByHandle
    | Admit(peer: nat, slot: nat)                         // the participation check of lock
    | AdmitDelete(peer: nat, slot: nat, generation: nat)  // the same, for a delete
    | PinDown(peer: nat, slot: nat)
    | Lock(peer: nat, slot: nat)
    | GiveUp(peer: nat, slot: nat)
    | Recheck(peer: nat, slot: nat)
    | Unlock(peer: nat, slot: nat)
    | CheckDelete(peer: nat, slot: nat)
    | Sweep(peer: nat, slot: nat)                         // reclaimOrphansLocked looks at one slot
    | Free(peer: nat)                                     // the store that frees the record
    | HandOver(peer: nat, slot: nat, to: nat)
    | Die(peer: nat)
    | Recover(authority: nat, peer: nat)

  function SetThread(s: State, p: nat, d: nat, t: Thread): State {
    s.(threads := s.threads[(p, d) := t])
  }

  function SetMember(s: State, p: nat, slots: set<nat>): State {
    s.(members := s.members[p := slots])
  }

  /** The thread rests; its pin and its lock go, if they are still its own. */
  function LetGo(s: State, p: nat, d: nat): State {
    SetThread(s, p, d, Resting).(pins := s.pins - {(p, d)},
                                 locked := if d in s.locked && s.locked[d] == p then s.locked - {d} else s.locked)
  }

  function SetHolder(s: State, d: nat, h: Holder): State {
    s.(slots := s.slots[d := s.At(d).(holder := h)])
  }

  predicate Controls(s: State, p: nat) {
    s.control == Peer(p) && s.change == NoChange
  }

  /** The handle names the domain now in the slot. */
  predicate Names(s: State, d: nat, generation: nat) {
    generation != 0 && s.At(d).active && s.At(d).generation == generation
  }

  predicate OfLocker(e: Event) {
    e.Check? || e.Admit? || e.AdmitDelete? || e.PinDown? || e.Lock? || e.GiveUp? || e.Recheck? || e.Unlock?
  }

  function NextAsLocker(s: State, e: Event): State
    requires OfLocker(e)
  {
    var p, d := e.peer, e.slot;
    var t := s.Thread(p, d);
    match e
    case Check(_, _, g) => if t == Resting && Names(s, d, g) then SetThread(s, p, d, Checked(g)) else s
    case Admit(_, _) => if t.Checked? && d in s.Member(p) then SetThread(s, p, d, Admitted(t.generation, false)) else s
    case AdmitDelete(_, _, g) => if t == Resting && d in s.Member(p) then SetThread(s, p, d, Admitted(g, true)) else s
    case PinDown(_, _) =>
      if t.Admitted? then SetThread(s, p, d, Pinned(t.generation, t.deletes)).(pins := s.pins + {(p, d)}) else s
    case Lock(_, _) =>
      if t.Pinned? && d !in s.locked then
        SetThread(SetHolder(s, d, Peer(p)), p, d, if t.deletes then DeleteLocked(t.generation) else Acquired(t.generation)).(
          locked := s.locked[d := p])
      else s
    case GiveUp(_, _) =>
      if t.Checked? || t.Admitted? then SetThread(s, p, d, Resting) else if t.Pinned? then LetGo(s, p, d) else s
    case Recheck(_, _) =>
      if t.Acquired? then
        if Names(s, d, t.generation) then SetThread(s, p, d, Guarding(t.generation))
        else LetGo(s, p, d)
      else s
    case Unlock(_, _) => if t.Guarding? then LetGo(s, p, d) else s
  }

  /** `deleteDomainLocked` up to the retraction: the record is still active, ours or nobody's, and nobody else is in. */
  predicate MayFree(s: State, p: nat, d: nat) {
    s.At(d).active && (s.At(d).holder == Peer(p) || s.At(d).holder == Nobody) && !s.OthersIn(p, d)
  }

  predicate OfKeeper(e: Event) {
    e.TakeControl? || e.DropControl? || e.Create? || e.JoinCreated? || e.Join? || e.CheckDelete? || e.Sweep? || e.Free?
  }

  function NextAsKeeper(s: State, e: Event): State
    requires OfKeeper(e)
  {
    var p := e.peer;
    match e
    case TakeControl(_) => if s.control == Nobody then s.(control := Peer(p)) else s
    case DropControl(_) => if Controls(s, p) then s.(control := Nobody) else s
    case Create(_, d, name) =>
      if Controls(s, p) && !s.NameTaken(name) && !s.At(d).active then
        s.(slots := s.slots[d := Slot(true, s.At(d).generation + 1, name, Peer(p))], change := Created(d))
      else s
    case JoinCreated(_) =>
      if s.control == Peer(p) && s.change.Created?
      then SetMember(s, p, s.Member(p) + {s.change.slot}).(change := NoChange) else s
    case Join(_, d) =>
      if Controls(s, p) && s.At(d).active then SetMember(s, p, s.Member(p) + {d}) else s
    case CheckDelete(_, d) =>
      if Controls(s, p) && s.Thread(p, d).DeleteLocked? then
        if (s.Thread(p, d).generation == 0 || Names(s, d, s.Thread(p, d).generation)) && MayFree(s, p, d)
        then SetMember(s, p, s.Member(p) - {d}).(change := Deleting(d))
        else LetGo(s, p, d)
      else s
    case Sweep(_, d) =>
      if Controls(s, p) && d !in s.Member(p) && MayFree(s, p, d) then s.(change := Reclaiming(d)) else s
    case Free(_) =>
      if s.control == Peer(p) && (s.change.Deleting? || s.change.Reclaiming?) then
        var d := s.change.slot;
        var freed := s.(slots := s.slots[d := Slot(false, s.At(d).generation, "", Nobody)], change := NoChange);
        if s.change.Deleting? then LetGo(freed, p, d) else freed.(pins := s.pins - {(p, d)})
      else s
  }

  predicate OfLeaver(e: Event) {
    e.BeginLeave? || e.ScanLeave? || e.HandOff? || e.ResetPins? || e.Retract?
  }

  /** A leave under the control lock. The hand-off takes no latch: whoever has the domain's lock, it passes on. */
  function NextAsLeaver(s: State, e: Event): State
    requires OfLeaver(e)
  {
    var p := e.peer;
    if e.BeginLeave? then (if Controls(s, p) && (p, e.slot) !in s.pins then s.(change := PinsChecked(e.slot)) else s)
    else if s.control != Peer(p) then s
    else match e
      case ScanLeave(_, to) =>
        if s.change.PinsChecked? then
          var d := s.change.slot;
          if d !in s.Member(p) || !s.OthersIn(p, d) then s.(change := NoChange)
          else if to == p || d !in s.Member(to) then s
          else s.(change := if s.At(d).holder == Peer(p) then HandingOff(d, to) else Unpinning(d))
        else s
      case HandOff(_) =>
        if s.change.HandingOff? then
          SetHolder(s, s.change.slot, Peer(s.change.to)).(locked := s.locked - {s.change.slot}, change := Unpinning(s.change.slot))
        else s
      case ResetPins(_) =>
        if s.change.Unpinning? then s.(pins := s.pins - {(p, s.change.slot)}, change := Retracting(s.change.slot)) else s
      case Retract(_) =>
        if s.change.Retracting? then SetMember(s, p, s.Member(p) - {s.change.slot}).(change := NoChange) else s
  }

  /** The authority inherits what a dead peer held; its participation and its locks end. */
  function Recovered(s: State, a: nat, p: nat): State {
    s.(slots := map d | d in s.slots :: if s.slots[d].holder == Peer(p) then s.slots[d].(holder := Peer(a)) else s.slots[d],
       members := s.members[p := {}],
       locked := map d | d in s.locked && s.locked[d] != p :: s.locked[d],
       control := if s.control == Peer(p) then Nobody else s.control)
  }

  function Next(s: State, e: Event): State {
    if e.Recover? then (if e.peer in s.dead && e.authority !in s.dead then Recovered(s, e.authority, e.peer) else s)
    else if e.peer in s.dead then s
    else if e.Die? then s.(dead := s.dead + {e.peer}, change := if s.control == Peer(e.peer) then NoChange else s.change)
    else if e.HandOver? then
      if (e.peer, e.slot) !in s.pins && s.At(e.slot).holder == Peer(e.peer) && e.slot in s.Member(e.to)
      then SetHolder(s, e.slot, Peer(e.to)).(locked := s.locked - {e.slot}) else s
    else if OfLocker(e) then NextAsLocker(s, e)
    else if OfLeaver(e) then NextAsLeaver(s, e)
    else NextAsKeeper(s, e)
  }

  function Run(s: State, events: seq<Event>): State
    decreases |events|
  {
    if events == [] then s else Run(Next(s, events[0]), events[1..])
  }

  // ---------- the invariant ----------

  ghost predicate MembersOk(s: State) {
    forall p: nat, d: nat | d in s.Member(p) :: s.At(d).active
  }

  ghost predicate NoneIn(s: State, d: nat) {
    forall p: nat :: d !in s.Member(p)
  }

  /** A lock by handle that is past the participation check is for an earlier incarnation. */
  ghost predicate Behind(s: State, p: nat, d: nat) {
    s.Thread(p, d).ByHandle() ==> s.Thread(p, d).generation < s.At(d).generation
  }

  ghost predicate ChangeOk(s: State) {
    match s.change
    case Created(d) => s.At(d).active && NoneIn(s, d) && forall p: nat :: Behind(s, p, d)
    case Deleting(d) => s.control.Peer? && s.At(d).active && NoneIn(s, d) && s.Thread(s.control.id, d).DeleteLocked?
    case Reclaiming(d) => s.At(d).active && NoneIn(s, d)
    case _ => true
  }

  /** A handle under way is no newer than its slot. */
  ghost predicate ThreadOk(s: State, p: nat, d: nat) {
    var t := s.Thread(p, d);
    t.Checked? || t.ByHandle() ==> 0 < t.generation <= s.At(d).generation
  }

  ghost predicate NamesOk(s: State) {
    forall c: nat, d: nat | s.At(c).active && s.At(d).active && s.At(c).name == s.At(d).name :: c == d
  }

  ghost predicate ControlOk(s: State) {
    s.change != NoChange ==> s.control.Peer? && s.control.id !in s.dead
  }

  ghost predicate Inv(s: State) {
    MembersOk(s) && ChangeOk(s) && NamesOk(s) && ControlOk(s) && forall p: nat, d: nat :: ThreadOk(s, p, d)
  }

  lemma StillBehind(s: State, s': State, d: nat)
    requires (forall p: nat :: Behind(s, p, d)) && s'.At(d).generation == s.At(d).generation
    requires forall p: nat | s'.Thread(p, d).ByHandle() :: s.Thread(p, d).ByHandle() && s'.Thread(p, d).generation == s.Thread(p, d).generation
    ensures forall p: nat :: Behind(s', p, d)
  {
    forall p: nat
      ensures Behind(s', p, d)
    {
      assert Behind(s, p, d);
    }
  }

  /** Records but for their holders, participation and changes stand; one thread may move. */
  lemma LockerFrame(s: State, s': State, p: nat, d: nat)
    requires Inv(s) && p !in s.dead
    requires s'.members == s.members && s'.change == s.change && s'.control == s.control && s'.dead == s.dead
    requires forall c: nat :: s'.At(c) == s.At(c).(holder := s'.At(c).holder)
    requires forall q: nat, c: nat | (q, c) != (p, d) :: s'.Thread(q, c) == s.Thread(q, c)
    requires s.change == Deleting(d) && s.control == Peer(p) ==> s'.Thread(p, d) == s.Thread(p, d)
    requires s.change == Created(d) ==> Behind(s', p, d)
    requires ThreadOk(s', p, d)
    ensures Inv(s')
  {
    assert forall q: nat :: s'.Member(q) == s.Member(q);
    forall q: nat, c: nat
      ensures ThreadOk(s', q, c)
    {
      assert ThreadOk(s, q, c);
    }
    if s.change.Created? {
      forall q: nat
        ensures Behind(s', q, s.change.slot)
      {
        assert Behind(s, q, s.change.slot);
      }
    }
  }

  /** What a locker's event makes of its thread. */
  lemma LockerThread(s: State, e: Event)
    requires OfLocker(e) && e.peer !in s.dead && MembersOk(s) && ThreadOk(s, e.peer, e.slot)
    requires s.change == Created(e.slot) ==> NoneIn(s, e.slot) && Behind(s, e.peer, e.slot)
    ensures var s', p, d := NextAsLocker(s, e), e.peer, e.slot;
            ThreadOk(s', p, d) && (s.change == Created(d) ==> Behind(s', p, d))
  {
  }

  lemma LockerInv(s: State, e: Event)
    requires Inv(s) && e.peer !in s.dead && OfLocker(e)
    ensures Inv(NextAsLocker(s, e))
  {
    var p, d := e.peer, e.slot;
    var s' := NextAsLocker(s, e);
    assert ThreadOk(s, p, d);
    if s' != s {
      LockerThread(s, e);
      LockerFrame(s, s', p, d);
    }
  }

  /** Threads stand, and records but for one that a fresh incarnation may fill. */
  lemma ThreadsStand(s: State, s': State)
    requires forall q: nat, c: nat :: ThreadOk(s, q, c)
    requires forall q: nat, c: nat :: s'.Thread(q, c) == s.Thread(q, c) || s'.Thread(q, c) == Resting
    requires forall c: nat :: s'.At(c).generation >= s.At(c).generation
    ensures forall q: nat, c: nat :: ThreadOk(s', q, c)
  {
    forall q: nat, c: nat
      ensures ThreadOk(s', q, c)
    {
      assert ThreadOk(s, q, c);
    }
  }

  lemma CreateInv(s: State, p: nat, d: nat, name: string)
    requires Inv(s) && p !in s.dead && Controls(s, p) && !s.NameTaken(name) && !s.At(d).active
    ensures Inv(NextAsKeeper(s, Create(p, d, name)))
  {
    var s' := NextAsKeeper(s, Create(p, d, name));
    assert forall c: nat | c != d :: s'.At(c) == s.At(c);
    assert forall c: nat | s.At(c).active :: s.At(c).name != name by {
      assert forall c | c in s.slots && s.slots[c].active :: s.slots[c].name != name;
    }
    assert forall q: nat :: s'.Member(q) == s.Member(q);
    forall q: nat
      ensures Behind(s', q, d)
    {
      assert ThreadOk(s, q, d) && s'.Thread(q, d) == s.Thread(q, d);
    }
    assert forall q: nat :: d !in s.Member(q);
    ThreadsStand(s, s');
  }

  /** The control holder with no change in progress, or ending one, changes its participation. */
  lemma MemberInv(s: State, p: nat, slots: set<nat>)
    requires Inv(s) && p !in s.dead && s.control == Peer(p)
    requires forall d | d in slots :: s.At(d).active
    ensures Inv(SetMember(s, p, slots).(change := NoChange))
  {
    var s' := SetMember(s, p, slots).(change := NoChange);
    assert forall c: nat :: s'.At(c) == s.At(c);
    assert forall q: nat :: s'.Member(q) == if q == p then slots else s.Member(q);
    ThreadsStand(s, s');
  }

  lemma RetractInv(s: State, p: nat, d: nat)
    requires Inv(s) && p !in s.dead && Controls(s, p) && s.Thread(p, d).DeleteLocked? && MayFree(s, p, d)
    ensures Inv(SetMember(s, p, s.Member(p) - {d}).(change := Deleting(d)))
  {
    var s' := SetMember(s, p, s.Member(p) - {d}).(change := Deleting(d));
    assert forall c: nat :: s'.At(c) == s.At(c);
    assert forall q: nat :: s'.Member(q) == if q == p then s.Member(p) - {d} else s.Member(q);
    assert forall q: nat | q != p :: d !in s.Member(q);
    ThreadsStand(s, s');
  }

  lemma AbortDeleteInv(s: State, p: nat, d: nat)
    requires Inv(s) && p !in s.dead && Controls(s, p)
    ensures Inv(LetGo(s, p, d))
  {
    LockerFrame(s, LetGo(s, p, d), p, d);
  }

  lemma SweepInv(s: State, p: nat, d: nat)
    requires Inv(s) && p !in s.dead && Controls(s, p) && d !in s.Member(p) && MayFree(s, p, d)
    ensures Inv(s.(change := Reclaiming(d)))
  {
    var s' := s.(change := Reclaiming(d));
    assert forall c: nat :: s'.At(c) == s.At(c);
    assert forall q: nat :: s'.Member(q) == s.Member(q);
    assert forall q: nat | q != p :: d !in s.Member(q);
    ThreadsStand(s, s');
  }

  /** The store that frees a record nobody participates in. */
  lemma FreeInv(s: State, p: nat)
    requires Inv(s) && p !in s.dead && s.control == Peer(p) && (s.change.Deleting? || s.change.Reclaiming?)
    ensures Inv(NextAsKeeper(s, Free(p)))
  {
    var s' := NextAsKeeper(s, Free(p));
    var d := s.change.slot;
    assert forall c: nat | c != d :: s'.At(c) == s.At(c);
    assert forall q: nat :: s'.Member(q) == s.Member(q);
    ThreadsStand(s, s');
  }

  lemma KeeperInv(s: State, e: Event)
    requires Inv(s) && e.peer !in s.dead && OfKeeper(e)
    ensures Inv(NextAsKeeper(s, e))
  {
    var p := e.peer;
    var s' := NextAsKeeper(s, e);
    match e
    case TakeControl(_) => QuietInv(s, s');
    case DropControl(_) => QuietInv(s, s');
    case Create(_, d, name) => if s' != s { CreateInv(s, p, d, name); }
    case JoinCreated(_) => if s.control == Peer(p) && s.change.Created? { MemberInv(s, p, s.Member(p) + {s.change.slot}); }
    case Join(_, d) => if Controls(s, p) && s.At(d).active { MemberInv(s, p, s.Member(p) + {d}); }
    case CheckDelete(_, d) =>
      if Controls(s, p) && s.Thread(p, d).DeleteLocked? {
        if MayFree(s, p, d) { RetractInv(s, p, d); }
        AbortDeleteInv(s, p, d);
      }
    case Sweep(_, d) => if Controls(s, p) && d !in s.Member(p) && MayFree(s, p, d) { SweepInv(s, p, d); }
    case Free(_) => if s.control == Peer(p) && (s.change.Deleting? || s.change.Reclaiming?) { FreeInv(s, p); }
  }

  /** No change in progress but a leave, before and after; holders, locks, pins and control may move. */
  lemma QuietInv(s: State, s': State)
    requires Inv(s) && s'.members == s.members && s'.threads == s.threads && s'.dead == s.dead
    requires s' == s || (s'.change == NoChange || exists d :: s'.change.Leaves(d))
    requires s'.change != NoChange ==> s'.control.Peer? && s'.control.id !in s'.dead
    requires forall c: nat :: s'.At(c) == s.At(c).(holder := s'.At(c).holder)
    ensures Inv(s')
  {
    assert forall q: nat :: s'.Member(q) == s.Member(q);
    assert forall q: nat, c: nat :: s'.Thread(q, c) == s.Thread(q, c);
    ThreadsStand(s, s');
  }

  lemma LeaverInv(s: State, e: Event)
    requires Inv(s) && e.peer !in s.dead && OfLeaver(e)
    ensures Inv(NextAsLeaver(s, e))
  {
    var s' := NextAsLeaver(s, e);
    if e.Retract? {
      if s.control == Peer(e.peer) && s.change.Retracting? {
        MemberInv(s, e.peer, s.Member(e.peer) - {s.change.slot});
      }
    } else {
      assert s' != s && s'.change != NoChange ==> s'.change.Leaves(s'.change.slot);
      QuietInv(s, s');
    }
  }

  lemma DieInv(s: State, p: nat)
    requires Inv(s) && p !in s.dead
    ensures Inv(Next(s, Die(p)))
  {
    var s' := Next(s, Die(p));
    assert forall c: nat :: s'.At(c) == s.At(c);
    assert forall q: nat :: s'.Member(q) == s.Member(q);
    if s.change.Created? {
      StillBehind(s, s', s.change.slot);
    }
    ThreadsStand(s, s');
  }

  lemma RecoverInv(s: State, a: nat, p: nat)
    requires Inv(s) && p in s.dead && a !in s.dead
    ensures Inv(Recovered(s, a, p))
  {
    var s' := Recovered(s, a, p);
    assert forall c: nat :: s'.At(c) == s.At(c).(holder := if s.At(c).holder == Peer(p) then Peer(a) else s.At(c).holder);
    assert forall q: nat :: s'.Member(q) == if q == p then {} else s.Member(q);
    if s.change.Created? {
      StillBehind(s, s', s.change.slot);
    }
    ThreadsStand(s, s');
  }

  lemma HandOverInv(s: State, d: nat, to: nat)
    requires Inv(s)
    ensures Inv(SetHolder(s, d, Peer(to)).(locked := s.locked - {d}))
  {
    var s' := SetHolder(s, d, Peer(to)).(locked := s.locked - {d});
    assert forall c: nat :: s'.At(c) == s.At(c).(holder := s'.At(c).holder);
    assert forall q: nat :: s'.Member(q) == s.Member(q);
    if s.change.Created? {
      StillBehind(s, s', s.change.slot);
    }
    ThreadsStand(s, s');
  }

  lemma NextInv(s: State, e: Event)
    requires Inv(s)
    ensures Inv(Next(s, e))
  {
    if e.Recover? {
      if e.peer in s.dead && e.authority !in s.dead {
        RecoverInv(s, e.authority, e.peer);
      }
    } else if e.peer !in s.dead {
      if e.Die? {
        DieInv(s, e.peer);
      } else if e.HandOver? {
        HandOverInv(s, e.slot, e.to);
      } else if OfLocker(e) {
        LockerInv(s, e);
      } else if OfLeaver(e) {
        LeaverInv(s, e);
      } else {
        KeeperInv(s, e);
      }
    }
  }

  lemma {:induction false} RunInv(s: State, events: seq<Event>)
    requires Inv(s)
    ensures Inv(Run(s, events))
    decreases |events|
  {
    if events != [] {
      NextInv(s, events[0]);
      RunInv(Next(s, events[0]), events[1..]);
    }
  }
}
