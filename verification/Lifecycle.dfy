/**
 The scans of src/core/algo/lifecycle.cpp as the loops the source runs: finding a name, finding an empty slot,
 creating, deleting and reclaiming domains under the control lock. Each method's effect is a run of `Registry`
 events of the peer that has the control lock, and its answer is what the scanned records call for.

 Slot 0 is the control domain and no data slot, so it serves as the answer for no domain.
 */
module Lifecycle {
  import opened Registry

  datatype CreateResult = CreateOk(slot: nat, generation: nat) | DuplicateName | NoFreeSlot

  datatype DeleteResult = DeleteOk | NotHolder | NotSoleParticipant

  datatype LeaveResult = LeaveOk | NotParticipating | SoleParticipant

  const NO_DOMAIN: nat := 0

  /** The `k`-th peer after `p` around the ring. */
  function RingAfter(p: nat, k: nat, peers: nat): nat
    requires p < peers && k <= peers
  {
    if p + k < peers then p + k else p + k - peers
  }

  /** `to` is the first participant after `p` around the ring. */
  ghost predicate IsSuccessor(s: State, p: nat, d: nat, to: nat, peers: nat)
    requires p < peers
  {
    exists k :: 1 <= k < peers && to == RingAfter(p, k, peers) && d in s.Member(to)
                && forall i | 1 <= i < k :: d !in s.Member(RingAfter(p, i, peers))
  }

  /** A record `p` holds names the successor, and nobody has the domain locked any more. */
  function HandedOn(s: State, p: nat, d: nat, to: nat): State {
    if s.At(d).holder == Peer(p) then s.(slots := s.slots[d := s.At(d).(holder := Peer(to))], locked := s.locked - {d}) else s
  }

  /** What a leave leaves. */
  function Departed(s: State, p: nat, d: nat, to: nat): State {
    HandedOn(s, p, d, to).(pins := s.pins - {(p, d)}, members := s.members[p := s.Member(p) - {d}], change := NoChange)
  }

  /** The data slots below `bound` a sweep of `p` may free. */
  function Orphans(s: State, p: nat, bound: nat): set<nat> {
    set d | 1 <= d < bound && IsOrphan(s, p, d)
  }

  predicate IsOrphan(s: State, p: nat, d: nat) {
    d !in s.Member(p) && MayFree(s, p, d)
  }

  /** What a sweep of `p` leaves of slot `d`. */
  ghost predicate Swept(was: State, s: State, p: nat, d: nat) {
    if IsOrphan(was, p, d) then !s.At(d).active else s.At(d) == was.At(d)
  }

  /** Every slot below `bound` is swept, and every other as it was. */
  ghost predicate SweptBelow(was: State, s: State, p: nat, bound: nat) {
    && (forall d: nat | d < bound :: Swept(was, s, p, d))
    && (forall d: nat | d >= bound :: s.At(d) == was.At(d))
  }

  lemma SweptFurther(was: State, before: State, s: State, p: nat, d: nat)
    requires SweptBelow(was, before, p, d) && Swept(was, s, p, d)
    requires forall c: nat | c != d :: s.At(c) == before.At(c)
    ensures SweptBelow(was, s, p, d + 1)
  {
    forall c: nat | c < d + 1
      ensures Swept(was, s, p, c)
    {
      assert c < d ==> Swept(was, before, p, c);
    }
  }

  lemma SameOrphan(was: State, s: State, p: nat, d: nat)
    requires s.members == was.members && s.At(d) == was.At(d)
    ensures IsOrphan(s, p, d) == IsOrphan(was, p, d)
  {
  }

  lemma OrphansGrow(s: State, p: nat, d: nat)
    requires d >= 1
    ensures Orphans(s, p, d + 1) == Orphans(s, p, d) + (if IsOrphan(s, p, d) then {d} else {})
    ensures |Orphans(s, p, d + 1)| == |Orphans(s, p, d)| + (if IsOrphan(s, p, d) then 1 else 0)
  {
    assert Orphans(s, p, d + 1) == Orphans(s, p, d) + (if IsOrphan(s, p, d) then {d} else {});
  }

  class Region {
    const domainCount: nat
    const peerCount: nat
    var slots: map<nat, Slot>
    var members: map<nat, set<nat>>
    var threads: map<(nat, nat), Thread>
    var pins: set<(nat, nat)>
    var locked: map<nat, nat>
    var control: Holder
    var change: Change
    var dead: set<nat>

    function Model(): State
      reads this
    {
      State(slots, members, threads, pins, locked, control, change, dead)
    }

    /** Records lie in the data range and members in the peer range. */
    ghost predicate Valid()
      reads this
    {
      && Inv(Model())
      && (forall d | d in slots :: 1 <= d <= domainCount)
      && (forall p | p in members :: p < peerCount)
    }

    constructor (domainCount: nat, peerCount: nat)
      ensures Valid() && Model() == Init()
      ensures this.domainCount == domainCount && this.peerCount == peerCount
    {
      this.domainCount, this.peerCount := domainCount, peerCount;
      slots, members, threads, pins, locked, control, change, dead := map[], map[], map[], {}, map[], Nobody, NoChange, {};
    }

    /** The one active slot of that name with its incarnation, or none when there is none. */
    method FindDataDomainByName(name: string) returns (found: nat, generation: nat)
      requires Valid()
      ensures found == NO_DOMAIN <==> !Model().NameTaken(name)
      ensures found != NO_DOMAIN ==> Model().At(found).active && Model().At(found).name == name
      ensures found != NO_DOMAIN ==> generation == Model().At(found).generation
      ensures forall d: nat | Model().At(d).active && Model().At(d).name == name :: d == found
    {
      for d := 1 to domainCount + 1
        invariant forall c | c in slots && c < d :: !slots[c].active || slots[c].name != name
      {
        var record := Model().At(d);
        if record.active && record.name == name {
          assert d in slots;
          return d, record.generation;
        }
      }
      return NO_DOMAIN, 0;
    }

    /** The first slot that holds no domain. */
    method FindEmptyDataDomain() returns (found: nat)
      requires Valid()
      ensures found != NO_DOMAIN ==> 1 <= found <= domainCount && !Model().At(found).active
      ensures forall d | 1 <= d <= domainCount && (found == NO_DOMAIN || d < found) :: Model().At(d).active
    {
      for d := 1 to domainCount + 1
        invariant forall c | 1 <= c < d :: Model().At(c).active
      {
        if !Model().At(d).active {
          return d;
        }
      }
      return NO_DOMAIN;
    }

    /** Whether any peer but `p` participates. */
    method HasOtherParticipant(p: nat, d: nat) returns (other: bool)
      requires Valid()
      ensures other == Model().OthersIn(p, d)
    {
      for q := 0 to peerCount
        invariant forall r | r in members && r < q :: r == p || d !in members[r]
      {
        if q != p && d in Model().Member(q) {
          assert q in members && d in members[q];
          return true;
        }
      }
      return false;
    }

    /** The next participant around the ring, if this peer is not the only one. */
    method GetSuccessorOnLeave(p: nat, d: nat) returns (found: bool, to: nat)
      requires Valid() && p < peerCount
      ensures found <==> Model().OthersIn(p, d)
      ensures found ==> to != p && IsSuccessor(Model(), p, d, to, peerCount)
    {
      for k := 1 to peerCount
        invariant forall i | 1 <= i < k :: d !in Model().Member(RingAfter(p, i, peerCount))
      {
        to := RingAfter(p, k, peerCount);
        if d in Model().Member(to) {
          assert to in members && d in members[to];
          return true, to;
        }
      }
      forall q | q in members && q != p
        ensures d !in members[q]
      {
        assert q == RingAfter(p, if q > p then q - p else q - p + peerCount, peerCount);
      }
      return false, p;
    }

    /**
     The caller has found no pins. A participant that is not the only one hands the domain on if it holds it, and goes;
     everything else is left as it was.
     */
    method LeaveDomain(p: nat, d: nat) returns (result: LeaveResult)
      requires Valid() && control == Peer(p) && change == PinsChecked(d) && p !in dead && p < peerCount
      modifies this
      ensures Valid() && Controls(Model(), p)
      ensures result == NotParticipating <==> d !in old(Model()).Member(p)
      ensures result == SoleParticipant <==> d in old(Model()).Member(p) && !old(Model()).OthersIn(p, d)
      ensures result != LeaveOk ==> Model() == old(Model()).(change := NoChange)
      ensures result == LeaveOk ==>
                exists to :: IsSuccessor(old(Model()), p, d, to, peerCount) && Model() == Departed(old(Model()), p, d, to)
      ensures result == LeaveOk ==> Model().Member(p) == old(Model()).Member(p) - {d} && (p, d) !in pins
      ensures result == LeaveOk && old(Model()).At(d).holder == Peer(p) ==>
                Model().At(d).holder.Peer? && Model().At(d).holder.id != p && d in Model().Member(Model().At(d).holder.id)
      ensures result == LeaveOk && old(Model()).At(d).holder != Peer(p) ==> Model().At(d) == old(Model()).At(d)
      ensures forall c: nat | c != d :: Model().At(c) == old(Model()).At(c)
    {
      var found, to := GetSuccessorOnLeave(p, d);
      if d !in Model().Member(p) || !found {
        result := if d !in Model().Member(p) then NotParticipating else SoleParticipant;
        RefuseLeave(p, d);
        return;
      }
      HandOn(p, d, to);
      ResetPinWord(p, d);
      RetractParticipation(p, d);
      assert Model() == Departed(old(Model()), p, d, to);
      return LeaveOk;
    }

    /** A record this peer holds is published for the successor; any other is left alone. */
    method HandOn(p: nat, d: nat, to: nat)
      requires Valid() && control == Peer(p) && change == PinsChecked(d) && p !in dead
      requires d in Model().Member(p) && Model().OthersIn(p, d) && to != p && d in Model().Member(to)
      modifies this`slots, this`locked, this`change
      ensures Valid() && Model() == HandedOn(old(Model()), p, d, to).(change := Unpinning(d))
      ensures Model().At(d) == if old(Model()).At(d).holder == Peer(p) then old(Model()).At(d).(holder := Peer(to)) else old(Model()).At(d)
      ensures forall c: nat | c != d :: Model().At(c) == old(Model()).At(c)
    {
      NextInv(Model(), ScanLeave(p, to));
      assert d in slots;
      change := if Model().At(d).holder == Peer(p) then HandingOff(d, to) else Unpinning(d);
      if change.HandingOff? {
        TransferOwnership(p, d, to);
      }
    }

    method TransferOwnership(p: nat, d: nat, to: nat)
      requires Valid() && control == Peer(p) && change == HandingOff(d, to) && p !in dead && 1 <= d <= domainCount
      modifies this`slots, this`locked, this`change
      ensures Valid() && Model() == Next(old(Model()), HandOff(p)) && change == Unpinning(d)
      ensures Model().At(d) == old(Model()).At(d).(holder := Peer(to)) && forall c: nat | c != d :: Model().At(c) == old(Model()).At(c)
    {
      NextInv(Model(), HandOff(p));
      slots := slots[d := Model().At(d).(holder := Peer(to))];
      locked := locked - {d};
      change := Unpinning(d);
    }

    method RefuseLeave(p: nat, d: nat)
      requires Valid() && control == Peer(p) && change == PinsChecked(d) && p !in dead
      requires d !in Model().Member(p) || !Model().OthersIn(p, d)
      modifies this`change
      ensures Valid() && change == NoChange
    {
      NextInv(Model(), ScanLeave(p, p));
      change := NoChange;
    }

    method ResetPinWord(p: nat, d: nat)
      requires Valid() && control == Peer(p) && change == Unpinning(d) && p !in dead
      modifies this`pins, this`change
      ensures Valid() && change == Retracting(d) && pins == old(pins) - {(p, d)}
    {
      NextInv(Model(), ResetPins(p));
      pins := pins - {(p, d)};
      change := Retracting(d);
    }

    method RetractParticipation(p: nat, d: nat)
      requires Valid() && control == Peer(p) && change == Retracting(d) && p !in dead && p < peerCount
      modifies this`members, this`change
      ensures Valid() && change == NoChange
      ensures members == old(members)[p := old(Model()).Member(p) - {d}]
    {
      NextInv(Model(), Retract(p));
      members := members[p := Model().Member(p) - {d}];
      change := NoChange;
    }

    /** Refuses a taken name before it looks for a slot; a new domain carries an incarnation no handle has. */
    method CreateDomainLocked(p: nat, name: string) returns (result: CreateResult)
      requires Valid() && Controls(Model(), p) && p !in dead && p < peerCount
      modifies this
      ensures Valid() && Controls(Model(), p)
      ensures result == DuplicateName <==> old(Model()).NameTaken(name)
      ensures result == NoFreeSlot <==> !old(Model()).NameTaken(name) && forall d | 1 <= d <= domainCount :: old(Model()).At(d).active
      ensures !result.CreateOk? ==> Model() == old(Model())
      ensures result.CreateOk? ==>
                var d := result.slot;
                && 1 <= d <= domainCount && (forall c | 1 <= c < d :: old(Model()).At(c).active)
                && !old(Model()).At(d).active && result.generation == old(Model()).At(d).generation + 1
                && Names(Model(), d, result.generation) && Model().At(d).name == name
                && d in Model().Member(p) && Model().At(d).holder == Peer(p)
                && Model() == NextAsKeeper(NextAsKeeper(old(Model()), Create(p, d, name)), JoinCreated(p))
    {
      var taken, _ := FindDataDomainByName(name);
      if taken != NO_DOMAIN {
        return DuplicateName;
      }
      var d := FindEmptyDataDomain();
      if d == NO_DOMAIN {
        return NoFreeSlot;
      }
      var generation := WriteRecord(p, d, name);
      JoinNew(p, d);
      return CreateOk(d, generation);
    }

    method JoinNew(p: nat, d: nat)
      requires Valid() && control == Peer(p) && change == Created(d) && p !in dead && p < peerCount
      modifies this`members, this`change
      ensures Valid() && Model() == NextAsKeeper(old(Model()), JoinCreated(p)) && change == NoChange
      ensures d in Model().Member(p)
    {
      KeeperInv(Model(), JoinCreated(p));
      members := members[p := Model().Member(p) + {d}];
      change := NoChange;
    }

    method WriteRecord(p: nat, d: nat, name: string) returns (generation: nat)
      requires Valid() && Controls(Model(), p) && p !in dead && 1 <= d <= domainCount && !Model().At(d).active
      requires !Model().NameTaken(name)
      modifies this
      ensures Valid() && Model() == NextAsKeeper(old(Model()), Create(p, d, name)) && change == Created(d)
      ensures generation == old(Model()).At(d).generation + 1 && Model().At(d) == Slot(true, generation, name, Peer(p))
      ensures members == old(members) && control == old(control) && dead == old(dead)
    {
      KeeperInv(Model(), Create(p, d, name));
      generation := Model().At(d).generation + 1;
      slots := slots[d := Slot(true, generation, name, Peer(p))];
      change := Created(d);
    }

    /**
     Frees the record when it is ours or nobody's and nobody else participates, and says which check failed
     otherwise; a record already free is left at that. The caller has refused a replaced domain.
     */
    method DeleteDomainLocked(p: nat, d: nat) returns (result: DeleteResult)
      requires Valid() && Controls(Model(), p) && p !in dead && p < peerCount && Model().Thread(p, d).DeleteLocked?
      requires var t := Model().Thread(p, d); t.generation == 0 || !Model().At(d).active || Names(Model(), d, t.generation)
      modifies this
      ensures Valid()
      ensures result == DeleteOk <==> !old(Model()).At(d).active || MayFree(old(Model()), p, d)
      ensures result == NotHolder <==>
                old(Model()).At(d).active && old(Model()).At(d).holder != Peer(p) && old(Model()).At(d).holder != Nobody
      ensures result == DeleteOk ==> !Model().At(d).active
      ensures MayFree(old(Model()), p, d) ==> Model() == NextAsKeeper(NextAsKeeper(old(Model()), CheckDelete(p, d)), Free(p))
      ensures !MayFree(old(Model()), p, d) ==> Model() == old(Model())
    {
      var record := Model().At(d);
      if !record.active {
        return DeleteOk;
      }
      if record.holder != Peer(p) && record.holder != Nobody {
        return NotHolder;
      }
      var other := HasOtherParticipant(p, d);
      if other {
        return NotSoleParticipant;
      }
      RetractForDelete(p, d);
      FreeRecord(p, d);
      return DeleteOk;
    }

    method RetractForDelete(p: nat, d: nat)
      requires Valid() && Controls(Model(), p) && p !in dead && p < peerCount && Model().Thread(p, d).DeleteLocked?
      requires (Model().Thread(p, d).generation == 0 || Names(Model(), d, Model().Thread(p, d).generation))
      requires MayFree(Model(), p, d)
      modifies this
      ensures Valid() && Model() == NextAsKeeper(old(Model()), CheckDelete(p, d)) && change == Deleting(d)
      ensures control == old(control) && dead == old(dead)
    {
      KeeperInv(Model(), CheckDelete(p, d));
      members := members[p := Model().Member(p) - {d}];
      change := Deleting(d);
    }

    method FreeRecord(p: nat, d: nat)
      requires Valid() && control == Peer(p) && p !in dead && (change == Deleting(d) || change == Reclaiming(d))
      modifies this
      ensures Valid() && Model() == NextAsKeeper(old(Model()), Free(p)) && !Model().At(d).active
      ensures control == old(control) && dead == old(dead) && change == NoChange && members == old(members)
      ensures pins == old(pins) - {(p, d)} && (old(change).Reclaiming? ==> threads == old(threads) && locked == old(locked))
      ensures forall c: nat | c != d :: Model().At(c) == old(Model()).At(c)
    {
      KeeperInv(Model(), Free(p));
      assert d in slots;
      slots := slots[d := Slot(false, Model().At(d).generation, "", Nobody)];
      pins := pins - {(p, d)};
      if change.Deleting? {
        threads := threads[(p, d) := Resting];
        locked := if d in locked && locked[d] == p then locked - {d} else locked;
      }
      change := NoChange;
    }

    /** Sweeps every data slot: exactly the orphans of this peer are freed, and nothing this peer participates in. */
    method ReclaimOrphansLocked(p: nat) returns (freed: nat)
      requires Valid() && Controls(Model(), p) && p !in dead && p < peerCount
      modifies this
      ensures Valid() && Controls(Model(), p)
      ensures members == old(members) && dead == old(dead) && threads == old(threads) && locked == old(locked)
      ensures forall q: nat, d: nat :: (q, d) in pins <==> (q, d) in old(pins) && !(q == p && d in Orphans(old(Model()), p, domainCount + 1))
      ensures freed == |Orphans(old(Model()), p, domainCount + 1)|
      ensures SweptBelow(old(Model()), Model(), p, domainCount + 1)
    {
      freed := 0;
      for d := 1 to domainCount + 1
        invariant Valid() && Controls(Model(), p) && p !in dead && members == old(members) && dead == old(dead)
        invariant threads == old(threads) && locked == old(locked)
        invariant forall q: nat, c: nat :: (q, c) in pins <==> (q, c) in old(pins) && !(q == p && c in Orphans(old(Model()), p, d))
        invariant freed == |Orphans(old(Model()), p, d)|
        invariant SweptBelow(old(Model()), Model(), p, d)
      {
        SameOrphan(old(Model()), Model(), p, d);
        OrphansGrow(old(Model()), p, d);
        ghost var before := Model();
        var swept := ReclaimOne(p, d);
        SweptFurther(old(Model()), before, Model(), p, d);
        freed := if swept then freed + 1 else freed;
      }
    }

    method ReclaimOne(p: nat, d: nat) returns (swept: bool)
      requires Valid() && Controls(Model(), p) && p !in dead && p < peerCount
      modifies this
      ensures Valid() && Controls(Model(), p) && members == old(members) && dead == old(dead)
      ensures threads == old(threads) && locked == old(locked) && pins == if swept then old(pins) - {(p, d)} else old(pins)
      ensures swept <==> IsOrphan(old(Model()), p, d)
      ensures swept ==> !Model().At(d).active
      ensures !swept ==> Model().At(d) == old(Model()).At(d)
      ensures forall c: nat | c != d :: Model().At(c) == old(Model()).At(c)
    {
      if d in Model().Member(p) || !Model().At(d).active {
        return false;
      }
      var record := Model().At(d);
      var other := HasOtherParticipant(p, d);
      swept := (record.holder == Peer(p) || record.holder == Nobody) && !other;
      if swept {
        KeeperInv(Model(), Sweep(p, d));
        change := Reclaiming(d);
        FreeRecord(p, d);
      }
    }
  }
}
