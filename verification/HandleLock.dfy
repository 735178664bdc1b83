/**
 `lockByHandle`, `tryLockByHandle`, the way of a delete to its domain's lock, and the end of a guard, as the statements
 the source runs (src/shared.cpp, src/core/algo/peer.cpp), with everybody else and the other threads of the peer
 running between any two of their steps.

 `Region` holds a state of the `Registry` machine; `others(h)` is what the rest does once this thread has taken the
 steps `h`. What a method leaves is its own steps woven with `others` and no more.
 */
module HandleLock {
  import opened Histories
  import opened Registry

  type Interference = History<Event> -> seq<Event>

  datatype Outcome = Locked | Stale | NotParticipating | TimedOut

  /** Not a step of this thread, nor its peer's death. */
  predicate SparesThread(e: Event, p: nat, d: nat) {
    e != Die(p) && ((OfLocker(e) || e.CheckDelete?) ==> (e.peer, e.slot) != (p, d))
  }

  ghost predicate ThreadAlone(others: Interference, p: nat, d: nat) {
    forall h: History<Event>, e: Event | e in others(h) :: SparesThread(e, p, d)
  }

  ghost predicate Silent(others: Interference) {
    forall h: History<Event> :: others(h) == []
  }

  function Weave(s: State, own: History<Event>, others: Interference): State {
    match own
    case Start => s
    case Then(past, e) => Next(Run(Weave(s, past, others), others(past)), e)
  }

  /** What the step after `past` finds. */
  function Found(s: State, past: History<Event>, others: Interference): State {
    Run(Weave(s, past, others), others(past))
  }

  lemma {:induction false} WeaveInv(s: State, own: History<Event>, others: Interference)
    requires Inv(s)
    ensures Inv(Weave(s, own, others)) && Inv(Found(s, own, others))
    decreases own
  {
    hide Next, Run, Inv;
    if own.Then? {
      WeaveInv(s, own.past, others);
      NextInv(Found(s, own.past, others), own.event);
    }
    RunInv(Weave(s, own, others), others(own));
  }

  lemma LockersKeep(s: State, e: Event, p: nat, d: nat)
    requires OfLocker(e) && (e.peer, e.slot) != (p, d)
    ensures NextAsLocker(s, e).Thread(p, d) == s.Thread(p, d) && NextAsLocker(s, e).dead == s.dead
  {
  }

  lemma KeepersKeep(s: State, e: Event, p: nat, d: nat)
    requires OfKeeper(e) && (e.CheckDelete? ==> (e.peer, e.slot) != (p, d))
    requires e.Free? && s.change.Deleting? && s.control == Peer(e.peer) && e.peer == p ==> s.change.slot != d
    ensures NextAsKeeper(s, e).Thread(p, d) == s.Thread(p, d) && NextAsKeeper(s, e).dead == s.dead
  {
  }

  lemma ThreadKept(s: State, e: Event, p: nat, d: nat)
    requires Inv(s) && SparesThread(e, p, d) && !s.Thread(p, d).DeleteLocked?
    ensures Next(s, e).Thread(p, d) == s.Thread(p, d) && (p in Next(s, e).dead <==> p in s.dead)
  {
    hide NextAsLocker, NextAsKeeper;
    if OfLocker(e) {
      LockersKeep(s, e, p, d);
    } else if OfKeeper(e) {
      assert ChangeOk(s);
      KeepersKeep(s, e, p, d);
    }
  }

  lemma {:induction false} ThreadKeptOverRun(s: State, events: seq<Event>, p: nat, d: nat)
    requires Inv(s) && !s.Thread(p, d).DeleteLocked? && forall e | e in events :: SparesThread(e, p, d)
    ensures Run(s, events).Thread(p, d) == s.Thread(p, d) && (p in Run(s, events).dead <==> p in s.dead)
    decreases |events|
  {
    if events != [] {
      hide Inv, Next;
      assert SparesThread(events[0], p, d);
      ThreadKept(s, events[0], p, d);
      NextInv(s, events[0]);
      ThreadKeptOverRun(Next(s, events[0]), events[1..], p, d);
    }
  }

  // ---------- what a lock comes to ----------

  /** The handle checked, the participation checked, and the pin down. */
  function PinSteps(admission: History<Event>, p: nat, d: nat): History<Event> {
    Then(admission, PinDown(p, d))
  }

  function HandleSteps(p: nat, d: nat, g: nat): History<Event> {
    PinSteps(Then(Then(Start, Check(p, d, g)), Admit(p, d)), p, d)
  }

  /** The first of at most `patience` tries that finds the lock free gets it. */
  ghost predicate Tried(s: State, past: History<Event>, others: Interference, p: nat, d: nat, patience: nat, tries: nat) {
    && tries <= patience
    && (forall j: nat | j < tries :: d in Found(s, Times(past, Lock(p, d), j), others).locked)
    && (tries < patience ==> d !in Found(s, Times(past, Lock(p, d), tries), others).locked)
  }

  /** What each step finds settles the answer; the handle is looked at again under the lock. */
  ghost predicate Decided(s: State, others: Interference, p: nat, d: nat, g: nat, patience: nat, tries: nat, outcome: Outcome) {
    if !Names(Found(s, Start, others), d, g) then outcome == Stale
    else if d !in Found(s, Then(Start, Check(p, d, g)), others).Member(p) then outcome == NotParticipating
    else
      && Tried(s, HandleSteps(p, d, g), others, p, d, patience, tries)
      && if tries == patience then outcome == TimedOut
         else if Names(Found(s, Times(HandleSteps(p, d, g), Lock(p, d), tries + 1), others), d, g) then outcome == Locked
         else outcome == Stale
  }

  /** The domain's lock taken by `p`, whose thread is then at `t`. */
  function Taken(s: State, p: nat, d: nat, t: Thread): State {
    SetThread(SetHolder(s, d, Peer(p)), p, d, t).(pins := s.pins + {(p, d)}, locked := s.locked[d := p])
  }

  /** An undisturbed lock. */
  ghost predicate Undisturbed(s: State, s': State, p: nat, d: nat, g: nat, patience: nat, outcome: Outcome) {
    if !Names(s, d, g) then outcome == Stale && s' == s
    else if d !in s.Member(p) then outcome == NotParticipating && s' == SetThread(s, p, d, Resting)
    else if d in s.locked || patience == 0 then outcome == TimedOut && s' == LetGo(s, p, d)
    else outcome == Locked && s' == Taken(s, p, d, Guarding(g))
  }

  /** A guard that ends gives back what its lock took, but for the record, which goes on naming the peer. */
  lemma UnlockUndoesLock(s: State, p: nat, d: nat, g: nat)
    requires (p, d) !in s.pins && d !in s.locked
    ensures LetGo(Taken(s, p, d, Guarding(g)), p, d) == SetThread(SetHolder(s, d, Peer(p)), p, d, Resting)
  {
    assert s.pins + {(p, d)} - {(p, d)} == s.pins;
    assert s.locked[d := p] - {d} == s.locked;
    assert s.threads[(p, d) := Guarding(g)][(p, d) := Resting] == s.threads[(p, d) := Resting];
  }

  lemma ThreadTwice(s: State, p: nat, d: nat, a: Thread, b: Thread)
    ensures SetThread(SetThread(s, p, d, a), p, d, b) == SetThread(s, p, d, b)
  {
    assert s.threads[(p, d) := a][(p, d) := b] == s.threads[(p, d) := b];
  }

  class Region {
    var s: State

    constructor ()
      ensures s == Init() && Inv(s)
    {
      s := Init();
    }

    /** In the middle of a call that found `start` and has taken the steps `past`. */
    ghost predicate Going(start: State, past: History<Event>, others: Interference, p: nat, d: nat)
      reads this
    {
      Inv(start) && s == Weave(start, past, others) && ThreadAlone(others, p, d) && p !in s.dead
    }

    /** The rest runs until this thread's next step. */
    method Beside(others: Interference, past: History<Event>, ghost start: State, ghost p: nat, ghost d: nat)
      requires Going(start, past, others, p, d) && !s.Thread(p, d).DeleteLocked?
      modifies this
      ensures s == Found(start, past, others) && (Silent(others) ==> s == old(s))
      ensures s.Thread(p, d) == old(s).Thread(p, d) && p !in s.dead
    {
      hide Next, Weave, Inv;
      WeaveInv(start, past, others);
      ThreadKeptOverRun(s, others(past), p, d);
      for i := 0 to |others(past)|
        invariant Run(s, others(past)[i..]) == Run(old(s), others(past))
      {
        assert others(past)[i..][1..] == others(past)[i + 1..];
        s := Next(s, others(past)[i]);
      }
      assert others(past)[|others(past)|..] == [];
    }

    /** One step of this thread. */
    method Put(e: Event, next: State, others: Interference, past: History<Event>, ghost start: State, ghost p: nat, ghost d: nat)
      returns (h: History<Event>)
      requires s == Found(start, past, others) && Inv(start) && ThreadAlone(others, p, d)
      requires Next(s, e) == next && p !in next.dead
      modifies this
      ensures h == Then(past, e) && Going(start, h, others, p, d) && s == next
    {
      hide Next, Run, Inv;
      s := next;
      h := Then(past, e);
    }

    /** The lock of the domain, for at most `patience` tries; without it the pin goes again. */
    method AwaitLock(p: nat, d: nat, patience: nat, others: Interference, past: History<Event>, ghost start: State)
      returns (tries: nat, h: History<Event>)
      requires Going(start, past, others, p, d) && s.Thread(p, d).Pinned?
      modifies this
      ensures Going(start, h, others, p, d) && Tried(start, past, others, p, d, patience, tries)
      ensures h == if tries < patience then Times(past, Lock(p, d), tries + 1) else Then(Times(past, Lock(p, d), tries), GiveUp(p, d))
      ensures var t := old(s).Thread(p, d);
              s.Thread(p, d) == if tries == patience then Resting
                                else if t.deletes then DeleteLocked(t.generation) else Acquired(t.generation)
      ensures Silent(others) ==>
                && (tries < patience <==> patience > 0 && d !in old(s).locked)
                && s == if tries < patience
                        then SetThread(SetHolder(old(s), d, Peer(p)), p, d, s.Thread(p, d)).(locked := old(s).locked[d := p])
                        else LetGo(old(s), p, d)
    {
      hide Run, Weave, Found, Inv, Next;
      tries, h := 0, past;
      while tries < patience
        invariant tries <= patience && h == Times(past, Lock(p, d), tries) && Going(start, h, others, p, d)
        invariant s.Thread(p, d) == old(s).Thread(p, d)
        invariant forall j: nat | j < tries :: d in Found(start, Times(past, Lock(p, d), j), others).locked
        invariant Silent(others) ==> s == old(s) && (tries > 0 ==> d in old(s).locked)
      {
        var got;
        got, h := TryLock(p, d, others, h, start);
        if got {
          return;
        }
        tries := tries + 1;
      }
      h := LeaveOff(p, d, others, h, start);
    }

    method TryLock(p: nat, d: nat, others: Interference, past: History<Event>, ghost start: State)
      returns (got: bool, h: History<Event>)
      requires Going(start, past, others, p, d) && s.Thread(p, d).Pinned?
      modifies this
      ensures Going(start, h, others, p, d) && h == Then(past, Lock(p, d)) && (got <==> d !in Found(start, past, others).locked)
      ensures var t := old(s).Thread(p, d);
              s.Thread(p, d) == if !got then t else if t.deletes then DeleteLocked(t.generation) else Acquired(t.generation)
      ensures Silent(others) ==>
                && (got <==> d !in old(s).locked)
                && s == if got then SetThread(SetHolder(old(s), d, Peer(p)), p, d, s.Thread(p, d)).(locked := old(s).locked[d := p])
                        else old(s)
    {
      hide Run, Inv;
      Beside(others, past, start, p, d);
      got := d !in s.locked;
      var t := s.Thread(p, d);
      if got {
        var t' := if t.deletes then DeleteLocked(t.generation) else Acquired(t.generation);
        h := Put(Lock(p, d), SetThread(SetHolder(s, d, Peer(p)), p, d, t').(locked := s.locked[d := p]), others, past, start, p, d);
      } else {
        h := Put(Lock(p, d), s, others, past, start, p, d);
      }
    }

    /** A call that gets no further: the thread rests, and a pin it has goes. */
    method LeaveOff(p: nat, d: nat, others: Interference, past: History<Event>, ghost start: State)
      returns (h: History<Event>)
      requires Going(start, past, others, p, d) && (s.Thread(p, d).Checked? || s.Thread(p, d).Pinned?)
      modifies this
      ensures Going(start, h, others, p, d) && h == Then(past, GiveUp(p, d)) && s.Thread(p, d) == Resting
      ensures Silent(others) ==> s == if old(s).Thread(p, d).Pinned? then LetGo(old(s), p, d) else SetThread(old(s), p, d, Resting)
    {
      hide Run, Inv, Weave, Found;
      Beside(others, past, start, p, d);
      h := Put(GiveUp(p, d), if s.Thread(p, d).Pinned? then LetGo(s, p, d) else SetThread(s, p, d, Resting), others, past, start, p, d);
    }

    method PutPin(p: nat, d: nat, others: Interference, past: History<Event>, ghost start: State)
      returns (h: History<Event>)
      requires Going(start, past, others, p, d) && s.Thread(p, d).Admitted?
      modifies this
      ensures Going(start, h, others, p, d) && h == PinSteps(past, p, d)
      ensures var t := old(s).Thread(p, d); s.Thread(p, d) == Pinned(t.generation, t.deletes)
      ensures Silent(others) ==> s == SetThread(old(s), p, d, s.Thread(p, d)).(pins := old(s).pins + {(p, d)})
    {
      hide Run, Inv, Weave, Found;
      Beside(others, past, start, p, d);
      var t := s.Thread(p, d);
      h := Put(PinDown(p, d), SetThread(s, p, d, Pinned(t.generation, t.deletes)).(pins := s.pins + {(p, d)}), others, past, start, p, d);
    }

    /**
     A guard by handle: the handle is checked, the participation, and the handle again once the lock is had. It is given
     exactly when every one of these finds what it needs.
     */
    method LockByHandle(p: nat, d: nat, g: nat, patience: nat, others: Interference)
      returns (outcome: Outcome, tries: nat, h: History<Event>)
      requires Inv(s) && p !in s.dead && s.Thread(p, d) == Resting && ThreadAlone(others, p, d)
      modifies this
      ensures Inv(s) && s == Weave(old(s), h, others)
      ensures s.Thread(p, d) == if outcome == Locked then Guarding(g) else Resting
      ensures Decided(old(s), others, p, d, g, patience, tries, outcome)
      ensures outcome == Locked ==> Names(s, d, g)
      ensures Silent(others) ==> Undisturbed(old(s), s, p, d, g, patience, outcome)
    {
      hide Run, Inv, Weave, Found, Next;
      ghost var start := s;
      NothingYet(others);
      tries := 0;
      var named;
      named, h := CheckHandle(p, d, g, others);
      if !named {
        outcome := Stale;
      } else {
        var member;
        member, h := CheckMember(p, d, others, h, start);
        if !member {
          outcome := NotParticipating;
          h := LeaveOff(p, d, others, h, start);
          ThreadTwice(start, p, d, Checked(g), Resting);
        } else {
          outcome, tries, h := LockAdmitted(p, d, patience, others, h, start);
          AdmittedSteps(start, p, d, g);
        }
      }
      WeaveInv(start, h, others);
    }

    lemma NothingYet(others: Interference)
      ensures Weave(s, Start, others) == s
    {
    }

    method CheckHandle(p: nat, d: nat, g: nat, others: Interference) returns (named: bool, h: History<Event>)
      requires Going(s, Start, others, p, d) && s.Thread(p, d) == Resting
      modifies this
      ensures Going(old(s), h, others, p, d) && h == Then(Start, Check(p, d, g))
      ensures (named <==> Names(Found(old(s), Start, others), d, g)) && s.Thread(p, d) == if named then Checked(g) else Resting
      ensures Silent(others) ==> (named <==> Names(old(s), d, g)) && s == if named then SetThread(old(s), p, d, Checked(g)) else old(s)
    {
      hide Run, Inv;
      ghost var start := s;
      Beside(others, Start, start, p, d);
      named := Names(s, d, g);
      h := Put(Check(p, d, g), if named then SetThread(s, p, d, Checked(g)) else s, others, Start, start, p, d);
    }

    method CheckMember(p: nat, d: nat, others: Interference, past: History<Event>, ghost start: State)
      returns (member: bool, h: History<Event>)
      requires Going(start, past, others, p, d) && s.Thread(p, d).Checked?
      modifies this
      ensures Going(start, h, others, p, d) && h == Then(past, Admit(p, d)) && (member <==> d in Found(start, past, others).Member(p))
      ensures s.Thread(p, d) == if member then Admitted(old(s).Thread(p, d).generation, false) else old(s).Thread(p, d)
      ensures Silent(others) ==>
                (member <==> d in old(s).Member(p)) && s == if member then SetThread(old(s), p, d, s.Thread(p, d)) else old(s)
    {
      hide Run, Inv, Weave;
      Beside(others, past, start, p, d);
      member := d in s.Member(p);
      h := Put(Admit(p, d), if member then SetThread(s, p, d, Admitted(s.Thread(p, d).generation, false)) else s, others, past, start, p, d);
    }

    /** From the participation check on. */
    method LockAdmitted(p: nat, d: nat, patience: nat, others: Interference, past: History<Event>, ghost start: State)
      returns (outcome: Outcome, tries: nat, h: History<Event>)
      requires Going(start, past, others, p, d) && s.Thread(p, d).Admitted? && !s.Thread(p, d).deletes
      modifies this
      ensures Going(start, h, others, p, d) && Tried(start, PinSteps(past, p, d), others, p, d, patience, tries)
      ensures var g := old(s).Thread(p, d).generation;
              && outcome == (if tries == patience then TimedOut
                             else if Names(Found(start, Times(PinSteps(past, p, d), Lock(p, d), tries + 1), others), d, g) then Locked
                             else Stale)
              && s.Thread(p, d) == (if outcome == Locked then Guarding(g) else Resting)
              && (outcome == Locked ==> Names(s, d, g))
      ensures Silent(others) ==>
                var g := old(s).Thread(p, d).generation;
                var pinned := SetThread(old(s), p, d, Pinned(g, false)).(pins := old(s).pins + {(p, d)});
                if d in old(s).locked || patience == 0 then outcome == TimedOut && s == LetGo(pinned, p, d)
                else Names(old(s), d, g) ==> outcome == Locked && s == Rechecked(pinned, p, d, g)
    {
      hide Run, Inv, Weave, Found, Next;
      h := PutPin(p, d, others, past, start);
      tries, h := AwaitLock(p, d, patience, others, h, start);
      outcome := TimedOut;
      if tries < patience {
        var named;
        named, h := Recheck(p, d, others, h, start);
        outcome := if named then Locked else Stale;
      }
    }

    method Recheck(p: nat, d: nat, others: Interference, past: History<Event>, ghost start: State)
      returns (named: bool, h: History<Event>)
      requires Going(start, past, others, p, d) && s.Thread(p, d).Acquired?
      modifies this
      ensures Going(start, h, others, p, d) && h == Then(past, Event.Recheck(p, d))
      ensures var g := old(s).Thread(p, d).generation;
              && (named <==> Names(Found(start, past, others), d, g)) && (named ==> Names(s, d, g))
              && s.Thread(p, d) == (if named then Guarding(g) else Resting)
      ensures Silent(others) ==>
                var g := old(s).Thread(p, d).generation;
                (named <==> Names(old(s), d, g)) && s == if named then SetThread(old(s), p, d, Guarding(g)) else LetGo(old(s), p, d)
    {
      hide Run, Inv, Weave;
      Beside(others, past, start, p, d);
      var g := s.Thread(p, d).generation;
      named := Names(s, d, g);
      h := Put(Event.Recheck(p, d), if named then SetThread(s, p, d, Guarding(g)) else LetGo(s, p, d), others, past, start, p, d);
    }

    /** The end of a guard. */
    method Unlock(p: nat, d: nat, others: Interference) returns (h: History<Event>)
      requires Inv(s) && p !in s.dead && s.Thread(p, d).Guarding? && ThreadAlone(others, p, d)
      modifies this
      ensures Inv(s) && s == Weave(old(s), h, others) && h == Then(Start, Event.Unlock(p, d))
      ensures s == LetGo(Found(old(s), Start, others), p, d)
      ensures Silent(others) ==> s == LetGo(old(s), p, d)
    {
      hide Run, Inv;
      ghost var start := s;
      Beside(others, Start, start, p, d);
      h := Put(Event.Unlock(p, d), LetGo(s, p, d), others, Start, start, p, d);
      WeaveInv(start, h, others);
    }

    /** A delete on its way to the lock of its domain, of incarnation `g` or, with zero, of any. */
    method LockForDelete(p: nat, d: nat, g: nat, patience: nat, others: Interference)
      returns (outcome: Outcome, tries: nat, h: History<Event>)
      requires Inv(s) && p !in s.dead && s.Thread(p, d) == Resting && ThreadAlone(others, p, d)
      modifies this
      ensures Inv(s) && s == Weave(old(s), h, others)
      ensures s.Thread(p, d) == if outcome == Locked then DeleteLocked(g) else Resting
      ensures if d !in Found(old(s), Start, others).Member(p) then outcome == NotParticipating
              else Tried(old(s), PinSteps(Then(Start, AdmitDelete(p, d, g)), p, d), others, p, d, patience, tries)
                   && outcome == if tries < patience then Locked else TimedOut
      ensures Silent(others) ==>
                if d !in old(s).Member(p) then outcome == NotParticipating && s == old(s)
                else if d in old(s).locked || patience == 0 then outcome == TimedOut && s == LetGo(old(s), p, d)
                else outcome == Locked && s == Taken(old(s), p, d, DeleteLocked(g))
    {
      hide Run, Inv, Weave, Found, Next;
      ghost var start := s;
      NothingYet(others);
      tries := 0;
      var member;
      member, h := CheckMemberToDelete(p, d, g, others);
      if !member {
        outcome := NotParticipating;
      } else {
        h := PutPin(p, d, others, h, start);
        tries, h := AwaitLock(p, d, patience, others, h, start);
        outcome := if tries < patience then Locked else TimedOut;
        DeleteSteps(start, p, d, g);
      }
      WeaveInv(start, h, others);
    }

    method CheckMemberToDelete(p: nat, d: nat, g: nat, others: Interference) returns (member: bool, h: History<Event>)
      requires Going(s, Start, others, p, d) && s.Thread(p, d) == Resting
      modifies this
      ensures Going(old(s), h, others, p, d) && h == Then(Start, AdmitDelete(p, d, g))
      ensures (member <==> d in Found(old(s), Start, others).Member(p)) && s.Thread(p, d) == if member then Admitted(g, true) else Resting
      ensures Silent(others) ==>
                (member <==> d in old(s).Member(p)) && s == if member then SetThread(old(s), p, d, Admitted(g, true)) else old(s)
    {
      hide Run, Inv;
      ghost var start := s;
      Beside(others, Start, start, p, d);
      member := d in s.Member(p);
      h := Put(AdmitDelete(p, d, g), if member then SetThread(s, p, d, Admitted(g, true)) else s, others, Start, start, p, d);
    }
  }

  /** Under the lock, and the handle found good again. */
  function Rechecked(pinned: State, p: nat, d: nat, g: nat): State {
    SetThread(SetThread(SetHolder(pinned, d, Peer(p)), p, d, Acquired(g)).(locked := pinned.locked[d := p]), p, d, Guarding(g))
  }

  lemma AdmittedSteps(s: State, p: nat, d: nat, g: nat)
    ensures var admitted := SetThread(SetThread(s, p, d, Checked(g)), p, d, Admitted(g, false));
            var pinned := SetThread(admitted, p, d, Pinned(g, false)).(pins := s.pins + {(p, d)});
            LetGo(pinned, p, d) == LetGo(s, p, d) && Rechecked(pinned, p, d, g) == Taken(s, p, d, Guarding(g))
  {
    assert s.pins + {(p, d)} - {(p, d)} == s.pins - {(p, d)};
    ThreadTwice(s, p, d, Checked(g), Admitted(g, false));
    ThreadTwice(s, p, d, Admitted(g, false), Pinned(g, false));
    ThreadTwice(s, p, d, Pinned(g, false), Resting);
    ThreadTwice(s, p, d, Pinned(g, false), Acquired(g));
    ThreadTwice(s, p, d, Acquired(g), Guarding(g));
  }

  lemma DeleteSteps(s: State, p: nat, d: nat, g: nat)
    ensures var pinned := SetThread(SetThread(s, p, d, Admitted(g, true)), p, d, Pinned(g, true)).(pins := s.pins + {(p, d)});
            && LetGo(pinned, p, d) == LetGo(s, p, d)
            && SetThread(SetHolder(pinned, d, Peer(p)), p, d, DeleteLocked(g)).(locked := pinned.locked[d := p])
               == Taken(s, p, d, DeleteLocked(g))
  {
    assert s.pins + {(p, d)} - {(p, d)} == s.pins - {(p, d)};
    ThreadTwice(s, p, d, Admitted(g, true), Pinned(g, true));
    ThreadTwice(s, p, d, Pinned(g, true), Resting);
    ThreadTwice(s, p, d, Pinned(g, true), DeleteLocked(g));
  }
}
