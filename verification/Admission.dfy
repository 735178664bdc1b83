/**
 Peer-slot admission under the lease (src/admission/claim.cpp): reserve the lowest free member slot, then
 rewrite the scan bound from a scan of the whole table.

 One joiner at a time runs these (`StakeClaim.SerialCommits`), while peers leave and recovery frees the slots of
 dead peers before any of its accesses; `others(h)` is what happens once the joiner has made the accesses `h`. Only
 admission takes a slot out of `None`.
 */
module Admission {
  import opened Histories

  datatype Status = None | Active | Recovering | Leaving

  datatype Option<T> = Nothing | Some(value: T)

  /** What happens to the table outside admission. */
  datatype Change =
    | Depart(peer: nat)                  // a live peer's last write frees its own slot
    | Die(peer: nat)                     // a live peer is gone and its slot stays taken
    | Finish(slot: nat)                  // recovery frees the slot of a peer that is gone
    | Restamp(slot: nat, status: Status) // a taken slot changes status and stays taken

  /** What a joiner does to it. */
  datatype Access =
    | Read(slot: nat)
    | Take(slot: nat)
    | Store(bound: nat)

  /** `holders` are the live peers and the slots they hold. */
  datatype State = State(members: seq<Status>, scanBound: nat, holders: map<nat, nat>) {
    predicate Taken(slot: nat) {
      slot < |members| && members[slot] != None
    }
  }

  function Apply(s: State, c: Change): State {
    match c
    case Depart(p) =>
      if p in s.holders && s.holders[p] < |s.members|
      then s.(members := s.members[s.holders[p] := None], holders := s.holders - {p}) else s
    case Die(p) => s.(holders := s.holders - {p})
    case Finish(slot) =>
      if slot < |s.members| && slot !in s.holders.Values then s.(members := s.members[slot := None]) else s
    case Restamp(slot, status) => if s.Taken(slot) && status != None then s.(members := s.members[slot := status]) else s
  }

  function Run(s: State, changes: seq<Change>): State
    decreases |changes|
  {
    if changes == [] then s else Run(Apply(s, changes[0]), changes[1..])
  }

  function Next(s: State, joiner: nat, a: Access): State {
    match a
    case Read(_) => s
    case Take(slot) =>
      if slot < |s.members| then s.(members := s.members[slot := Active], holders := s.holders[joiner := slot]) else s
    case Store(bound) => s.(scanBound := bound)
  }

  type Interference = History<Access> -> seq<Change>

  predicate Touches(c: Change, peer: nat) {
    (c.Depart? || c.Die?) && c.peer == peer
  }

  /** The joiner does not leave while it joins. */
  ghost predicate Spares(others: Interference, joiner: nat) {
    forall h: History<Access>, c: Change | c in others(h) :: !Touches(c, joiner)
  }

  ghost predicate Silent(others: Interference) {
    forall h: History<Access> :: others(h) == []
  }

  function Weave(s: State, joiner: nat, own: History<Access>, others: Interference): State {
    match own
    case Start => s
    case Then(past, a) => Next(Run(Weave(s, joiner, past, others), others(past)), joiner, a)
  }

  /** What the access after `past` finds. */
  function Found(s: State, joiner: nat, past: History<Access>, others: Interference): State {
    Run(Weave(s, joiner, past, others), others(past))
  }

  /** Live peers hold distinct slots, none of them free. */
  ghost predicate Valid(s: State) {
    && (forall p | p in s.holders :: s.Taken(s.holders[p]))
    && (forall p, q | p in s.holders && q in s.holders && p != q :: s.holders[p] != s.holders[q])
  }

  /** The scan bound exceeds every slot that is not free. */
  ghost predicate Covered(s: State) {
    forall slot: nat | s.Taken(slot) :: slot < s.scanBound
  }

  /** Whatever is taken in `s'` was taken in `s`, and whoever holds a slot in `s'` held it in `s`. */
  ghost predicate OnlyFreed(s: State, s': State) {
    && |s'.members| == |s.members| && s'.scanBound == s.scanBound
    && (forall slot: nat | s'.Taken(slot) :: s.Taken(slot))
    && (forall p | p in s'.holders :: p in s.holders && s'.holders[p] == s.holders[p])
  }

  lemma OneChange(s: State, c: Change, joiner: nat)
    requires Valid(s)
    ensures Valid(Apply(s, c)) && OnlyFreed(s, Apply(s, c))
    ensures !Touches(c, joiner) && joiner in s.holders ==> joiner in Apply(s, c).holders
  {
  }

  /** Outside admission slots are only ever freed, and no live peer's slot is freed under it. */
  lemma {:induction false} ManyChanges(s: State, changes: seq<Change>, joiner: nat)
    requires Valid(s)
    ensures Valid(Run(s, changes)) && OnlyFreed(s, Run(s, changes))
    ensures (forall c | c in changes :: !Touches(c, joiner)) && joiner in s.holders ==> joiner in Run(s, changes).holders
    decreases |changes|
  {
    if changes != [] {
      OneChange(s, changes[0], joiner);
      ManyChanges(Apply(s, changes[0]), changes[1..], joiner);
    }
  }

  /** The recovery of a dead peer leaves the table as its departure would have: its slot free, and no other. */
  lemma RecoveredAsDeparted(s: State, p: nat, slot: nat)
    requires Valid(s) && p in s.holders
    ensures var dead, gone := Apply(s, Die(p)), Apply(s, Depart(p));
            && (dead.Taken(slot) <==> s.Taken(slot)) && Apply(dead, Finish(s.holders[p])) == gone
            && (gone.Taken(slot) <==> s.Taken(slot) && slot != s.holders[p])
  {
    var dead := Apply(s, Die(p));
    assert forall q | q in dead.holders :: q in s.holders && q != p && dead.holders[q] == s.holders[q];
    assert s.holders[p] !in dead.holders.Values;
  }

  lemma RestampShows(s: State, slot: nat, status: Status)
    requires s.Taken(slot) && status != None
    ensures Apply(s, Restamp(slot, status)) == s.(members := s.members[slot := status])
  {
  }

  /** The reads of the slots below `n`, lowest first. */
  function ReadsUpTo(n: nat): History<Access> {
    if n == 0 then Start else Then(ReadsUpTo(n - 1), Read(n - 1))
  }

  /** What the read of `slot` finds in the search for a free one. */
  predicate SeenFree(s: State, joiner: nat, others: Interference, slot: nat) {
    !Found(s, joiner, ReadsUpTo(slot), others).Taken(slot)
  }

  /** A slot taken for the joiner. */
  function Admitted(s: State, joiner: nat, slot: nat): State
    requires slot < |s.members|
  {
    s.(members := s.members[slot := Active], holders := s.holders[joiner := slot])
  }

  /** `bound` is the least that lies above every taken slot and above `mine`. */
  ghost predicate Tight(s: State, mine: nat, bound: nat) {
    && (forall slot: nat | s.Taken(slot) :: slot < bound) && mine < bound
    && (bound == mine + 1 || s.Taken(bound - 1))
  }

  /** Slots freed since a scan leave its bound above every taken one. */
  lemma BoundStillCovers(s: State, s': State, mine: nat, bound: nat)
    requires OnlyFreed(s, s') && Tight(s, mine, bound)
    ensures Covered(s'.(scanBound := bound))
  {
    forall slot: nat | s'.(scanBound := bound).Taken(slot)
      ensures slot < bound
    {
      assert s'.Taken(slot);
    }
  }

  lemma SameSlots(s: State, bound: nat)
    requires Valid(s)
    ensures Valid(s.(scanBound := bound))
  {
    assert forall slot: nat :: s.(scanBound := bound).Taken(slot) == s.Taken(slot);
  }

  /** A joiner's accesses `h` have given it a slot or found none; if it dies it does so right after. */
  ghost predicate JoinedBy(s: State, s': State, joiner: nat, dies: bool, others: Interference, h: History<Access>) {
    var after := Weave(s, joiner, h, others);
    && (joiner in after.holders || forall slot: nat | slot < |s.members| :: s.Taken(slot))
    && s' == if dies then Apply(after, Die(joiner)) else after
  }

  /** One join: what happens before it, and then the joiner's accesses woven with what happens meanwhile. */
  ghost predicate Joined(s: State, s': State, joiner: nat, dies: bool, between: seq<Change>, others: Interference) {
    var before := Run(s, between);
    if joiner in before.holders then s' == before else exists h :: JoinedBy(before, s', joiner, dies, others, h)
  }

  lemma OneByOne(s: State, c: Change)
    ensures Run(s, [c]) == Apply(s, c)
  {
    assert [c][1..] == [];
  }

  class Table {
    var members: seq<Status>
    var scanBound: nat
    var holders: map<nat, nat>

    function Model(): State
      reads this
    {
      State(members, scanBound, holders)
    }

    constructor (peerCount: nat)
      ensures |members| == peerCount && scanBound == 0 && holders == map[] && Valid(Model()) && Covered(Model())
    {
      members := seq(peerCount, _ => None);
      scanBound, holders := 0, map[];
    }

    /** The rest of the system runs. */
    method Happen(changes: seq<Change>, ghost joiner: nat)
      requires Valid(Model())
      modifies this`members, this`holders
      ensures Model() == Run(old(Model()), changes) && Valid(Model()) && OnlyFreed(old(Model()), Model())
      ensures (forall c | c in changes :: !Touches(c, joiner)) && joiner in old(holders) ==> joiner in holders
      ensures changes == [] ==> Model() == old(Model())
    {
      ManyChanges(Model(), changes, joiner);
      var s := Model();
      for i := 0 to |changes|
        invariant Run(s, changes[i..]) == Run(old(Model()), changes)
      {
        assert changes[i..][1..] == changes[i + 1..];
        s := Apply(s, changes[i]);
      }
      assert changes[|changes|..] == [];
      members, holders := s.members, s.holders;
    }

    /** What the rest of the system does until the joiner's next access. */
    method Others(others: Interference, past: History<Access>, ghost start: State, joiner: nat)
      requires Valid(Model()) && Model() == Weave(start, joiner, past, others) && Spares(others, joiner)
      modifies this`members, this`holders
      ensures Model() == Found(start, joiner, past, others) && Valid(Model()) && OnlyFreed(old(Model()), Model())
      ensures joiner in old(holders) ==> joiner in holders
      ensures Silent(others) ==> Model() == old(Model())
    {
      hide Run, Apply, Weave;
      Happen(others(past), joiner);
    }

    /** Reserve the lowest free slot; fails only when every slot was found taken. */
    method ReserveMemberSlot(joiner: nat, others: Interference) returns (slot: Option<nat>, h: History<Access>)
      requires Valid(Model()) && joiner !in holders && Spares(others, joiner)
      modifies this`members, this`holders
      ensures Valid(Model()) && |members| == old(|members|) && scanBound == old(scanBound)
      ensures Model() == Weave(old(Model()), joiner, h, others)
      ensures slot.Some? ==> slot.value < |members| && joiner in holders && holders[joiner] == slot.value
      ensures slot.Some? ==>
                h == Then(ReadsUpTo(slot.value + 1), Take(slot.value)) && SeenFree(old(Model()), joiner, others, slot.value)
                && !Found(old(Model()), joiner, h.past, others).Taken(slot.value)
      ensures slot.Nothing? ==> h == ReadsUpTo(|members|) && joiner !in holders
      ensures forall i: nat | i < |members| && (slot.Some? ==> i < slot.value) ::
                !SeenFree(old(Model()), joiner, others, i) && old(Model()).Taken(i)
      ensures forall i: nat | Model().Taken(i) :: old(Model()).Taken(i) || slot == Some(i)
      ensures forall p | p in holders && p != joiner :: p in old(holders) && holders[p] == old(holders)[p]
      ensures Silent(others) ==>
                && (slot.Some? ==> !old(Model()).Taken(slot.value))
                && Model() == if slot.Some? then Admitted(old(Model()), joiner, slot.value) else old(Model())
    {
      hide Run, Apply;
      h := Start;
      var i := 0;
      while i < |members|
        invariant 0 <= i <= |members| && Valid(Model()) && joiner !in holders && OnlyFreed(old(Model()), Model())
        invariant h == ReadsUpTo(i) && Model() == Weave(old(Model()), joiner, h, others)
        invariant forall k: nat | k < i :: !SeenFree(old(Model()), joiner, others, k) && old(Model()).Taken(k)
        invariant Silent(others) ==> Model() == old(Model())
      {
        var member;
        member, h := ReadSlot(joiner, i, others, h, old(Model()));
        if member == None {
          h := TakeSlot(joiner, i, others, h, old(Model()));
          return Some(i), h;
        }
        assert old(Model()).Taken(i);
        i := i + 1;
      }
      slot := Nothing;
    }

    /** The write of a slot just read free: it is free still. */
    method TakeSlot(joiner: nat, slot: nat, others: Interference, past: History<Access>, ghost start: State)
      returns (h: History<Access>)
      requires Valid(Model()) && joiner !in holders && Spares(others, joiner)
      requires Model() == Weave(start, joiner, past, others)
      requires slot < |members| && members[slot] == None
      modifies this`members, this`holders
      ensures h == Then(past, Take(slot)) && Model() == Weave(start, joiner, h, others)
      ensures var found := Found(start, joiner, past, others);
              OnlyFreed(old(Model()), found) && !found.Taken(slot) && slot < |found.members| && Model() == Admitted(found, joiner, slot)
      ensures Valid(Model()) && (Silent(others) ==> Model() == Admitted(old(Model()), joiner, slot))
    {
      hide Run, Apply;
      Others(others, past, start, joiner);
      assert !Model().Taken(slot);
      TakenApart(Model(), joiner, slot);
      members := members[slot := Active];
      holders := holders[joiner := slot];
      h := Then(past, Take(slot));
    }

    lemma TakenApart(s: State, joiner: nat, slot: nat)
      requires Valid(s) && slot < |s.members| && !s.Taken(slot)
      ensures Valid(Admitted(s, joiner, slot))
    {
      var s' := Admitted(s, joiner, slot);
      forall p | p in s'.holders
        ensures s'.Taken(s'.holders[p])
      {
        assert p != joiner ==> s.Taken(s.holders[p]);
      }
    }

    /** The highest taken slot above `mine`, as a bound. Slots read free stay free, since only the lease holder takes one. */
    method ScanDown(joiner: nat, mine: nat, others: Interference, past: History<Access>, ghost start: State)
      returns (bound: nat, h: History<Access>)
      requires Valid(Model()) && joiner in holders && holders[joiner] == mine && Spares(others, joiner)
      requires Model() == Weave(start, joiner, past, others)
      modifies this`members, this`holders
      ensures Valid(Model()) && OnlyFreed(old(Model()), Model()) && Model() == Weave(start, joiner, h, others)
      ensures joiner in holders && Tight(Model(), mine, bound)
      ensures Silent(others) ==> Model() == old(Model())
    {
      hide Run, Apply, Weave;
      h, bound := past, mine + 1;
      var slotsAbove := |members|;
      while slotsAbove > bound
        invariant mine < slotsAbove <= |members| && bound == mine + 1 && Valid(Model()) && OnlyFreed(old(Model()), Model())
        invariant joiner in holders && Model() == Weave(start, joiner, h, others)
        invariant forall k: nat | slotsAbove <= k < |members| :: !Model().Taken(k)
        invariant Silent(others) ==> Model() == old(Model())
      {
        var member;
        member, h := ReadSlot(joiner, slotsAbove - 1, others, h, start);
        if member != None {
          return slotsAbove, h;
        }
        slotsAbove := slotsAbove - 1;
      }
    }

    method ReadSlot(joiner: nat, slot: nat, others: Interference, past: History<Access>, ghost start: State)
      returns (member: Status, h: History<Access>)
      requires Valid(Model()) && Spares(others, joiner) && slot < |members| && Model() == Weave(start, joiner, past, others)
      modifies this`members, this`holders
      ensures Valid(Model()) && OnlyFreed(old(Model()), Model()) && (joiner in old(holders) ==> joiner in holders)
      ensures h == Then(past, Read(slot))
      ensures Model() == Weave(start, joiner, h, others) == Found(start, joiner, past, others)
      ensures slot < |members| && member == members[slot]
      ensures Silent(others) ==> Model() == old(Model())
    {
      hide Run, Apply;
      Others(others, past, start, joiner);
      member := members[slot];
      h := Then(past, Read(slot));
    }

    /** Rewrites the bound: one above the highest taken slot, found by scanning down to the own slot. */
    method AdjustPeerScanBound(joiner: nat, mine: nat, others: Interference, past: History<Access>, ghost start: State)
      returns (h: History<Access>)
      requires Valid(Model()) && joiner in holders && holders[joiner] == mine && Spares(others, joiner)
      requires Model() == Weave(start, joiner, past, others)
      modifies this
      ensures Valid(Model()) && Covered(Model()) && |members| == old(|members|)
      ensures Model() == Weave(start, joiner, h, others)
      ensures joiner in holders && holders[joiner] == mine && OnlyFreed(old(Model()), Model().(scanBound := old(scanBound)))
      ensures mine < scanBound && (scanBound == mine + 1 || old(Model()).Taken(scanBound - 1))
      ensures Silent(others) ==> Tight(old(Model()), mine, scanBound) && Model() == old(Model()).(scanBound := scanBound)
    {
      hide Run, Apply, Weave;
      var bound;
      bound, h := ScanDown(joiner, mine, others, past, start);
      h := StoreBound(joiner, mine, bound, others, h, start);
    }

    method StoreBound(joiner: nat, ghost mine: nat, bound: nat, others: Interference, past: History<Access>, ghost start: State)
      returns (h: History<Access>)
      requires Valid(Model()) && joiner in holders && Spares(others, joiner) && Tight(Model(), mine, bound)
      requires Model() == Weave(start, joiner, past, others)
      modifies this
      ensures h == Then(past, Store(bound)) && Model() == Weave(start, joiner, h, others) && scanBound == bound
      ensures Valid(Model()) && Covered(Model()) && joiner in holders
      ensures OnlyFreed(old(Model()), Model().(scanBound := old(scanBound)))
      ensures Silent(others) ==> Model() == old(Model()).(scanBound := bound)
    {
      hide Run, Apply;
      Others(others, past, start, joiner);
      BoundStillCovers(old(Model()), Model(), mine, bound);
      ghost var found := Model();
      if scanBound != bound {
        scanBound := bound;
      }
      assert Model() == found.(scanBound := bound);
      SameSlots(found, bound);
      h := Then(past, Store(bound));
    }

    /**
     The whole commit. Whatever state an earlier holder died in, a completed commit leaves the bound above
     every taken slot, and the joiner on a slot no other live peer holds.
     */
    method ClaimPeerSlot(joiner: nat, others: Interference) returns (slot: Option<nat>, h: History<Access>)
      requires Valid(Model()) && joiner !in holders && Spares(others, joiner)
      modifies this
      ensures Valid(Model()) && |members| == old(|members|) && Model() == Weave(old(Model()), joiner, h, others)
      ensures slot.Some? ==> Covered(Model()) && joiner in holders && holders[joiner] == slot.value && slot.value < |members|
      ensures slot.Nothing? ==>
                joiner !in holders && (forall i: nat | i < |members| :: old(Model()).Taken(i)) && (old(Covered(Model())) ==> Covered(Model()))
      ensures forall p | p in holders && p != joiner :: p in old(holders) && holders[p] == old(holders)[p]
      ensures Silent(others) ==>
                && (forall i: nat | i < |members| && (slot.Some? ==> i < slot.value) :: old(Model()).Taken(i))
                && (slot.Nothing? ==> Model() == old(Model()))
                && (slot.Some? ==>
                      && !old(Model()).Taken(slot.value) && Tight(Admitted(old(Model()), joiner, slot.value), slot.value, scanBound)
                      && Model() == Admitted(old(Model()), joiner, slot.value).(scanBound := scanBound))
    {
      hide Run, Apply, Weave;
      slot, h := ReserveMemberSlot(joiner, others);
      if slot.Some? {
        h := AdjustPeerScanBound(joiner, slot.value, others, h, old(Model()));
      }
    }

    /**
     Any number of joins, with departures, deaths and recoveries before, during and after each, where a joiner may
     die between taking its slot and rewriting the bound. `states` are the tables before, between and after the joins.
     Live peers hold distinct slots throughout, and the bound covers every taken slot unless the last slot taken was
     left so.
     */
    method Admissions(joiners: seq<nat>, dies: nat -> bool, between: nat -> seq<Change>, others: nat -> Interference)
      returns (covers: bool, states: seq<State>)
      requires Valid(Model()) && Covered(Model()) && forall k: nat | k < |joiners| :: Spares(others(k), joiners[k])
      modifies this
      ensures |states| == |joiners| + 1 && states[0] == old(Model()) && states[|joiners|] == Model()
      ensures forall k: nat | k < |joiners| :: Joined(states[k], states[k + 1], joiners[k], dies(k), between(k), others(k))
      ensures forall k: nat | k <= |joiners| :: Valid(states[k]) && |states[k].members| == |states[0].members|
      ensures covers ==> Covered(Model())
      ensures covers || exists k: nat | k < |joiners| :: dies(k)
      ensures var last := |joiners| - 1;
              last >= 0 && !dies(last) && joiners[last] in holders && joiners[last] !in Run(states[last], between(last)).holders ==> covers
    {
      hide Run, Apply, Weave, Found, Valid;
      covers, states := true, [Model()];
      for k := 0 to |joiners|
        invariant |states| == k + 1 && states[0] == old(Model()) && states[k] == Model()
        invariant forall i: nat | i < k :: Joined(states[i], states[i + 1], joiners[i], dies(i), between(i), others(i))
        invariant forall i: nat | i <= k :: Valid(states[i]) && |states[i].members| == |states[0].members|
        invariant covers ==> Covered(Model())
        invariant covers || exists i: nat | i < k :: dies(i)
        invariant k > 0 ==>
                    !dies(k - 1) && joiners[k - 1] in holders && joiners[k - 1] !in Run(states[k - 1], between(k - 1)).holders ==> covers
      {
        ghost var s := Model();
        var reserved := JoinOne(joiners[k], dies(k), between(k), others(k));
        covers := if dies(k) then covers && !reserved else covers || reserved;
        states := states + [Model()];
        assert Joined(s, states[k + 1], joiners[k], dies(k), between(k), others(k));
      }
    }

    /** One join; true if the joiner took a slot. */
    method JoinOne(joiner: nat, dies: bool, between: seq<Change>, others: Interference) returns (reserved: bool)
      requires Valid(Model()) && Spares(others, joiner)
      modifies this
      ensures Valid(Model()) && |members| == old(|members|) && Joined(old(Model()), Model(), joiner, dies, between, others)
      ensures !dies ==> (reserved <==> joiner in holders && joiner !in Run(old(Model()), between).holders)
      ensures if reserved then !dies ==> Covered(Model()) else old(Covered(Model())) ==> Covered(Model())
    {
      hide Run, Apply, Weave, Found, Valid;
      Happen(between, joiner);
      reserved := false;
      if joiner !in holders {
        ghost var s := Model();
        var slot, h;
        if dies {
          slot, h := ReserveMemberSlot(joiner, others);
          ghost var taken := Model();
          Happen([Die(joiner)], joiner);
          OneByOne(taken, Die(joiner));
        } else {
          slot, h := ClaimPeerSlot(joiner, others);
        }
        reserved := slot.Some?;
        assert JoinedBy(s, Model(), joiner, dies, others, h);
      }
    }
  }
}
