/**
 Two runs of `Registry` after which a peer guards what its handle never named. In the first its own leave falls
 between the participation check and the pin of its lock; in the second the leave has found no pins before the lock
 begins, the lock is taken whole, and the leave goes on to retract.
 */
module HandleRuns {
  import opened Registry
  import opened Handles

  ghost predicate Reachable(s: State) {
    exists events :: s == Run(Init(), events)
  }

  lemma {:induction false} RunThen(s: State, events: seq<Event>, more: seq<Event>)
    ensures Run(s, events + more) == Run(Run(s, events), more)
    decreases |events|
  {
    if events == [] {
      assert [] + more == more;
    } else {
      assert (events + more)[1..] == events[1..] + more;
      RunThen(Next(s, events[0]), events[1..], more);
    }
  }

  lemma Step(s: State, e: Event) returns (s': State)
    requires Reachable(s)
    ensures s' == Next(s, e) && Reachable(s')
  {
    var events :| s == Run(Init(), events);
    RunThen(Init(), events, [e]);
    s' := Next(s, e);
  }

  /** From an insecure guard the run goes on to a guard of something else. */
  lemma GoesWrong(s: State, p: nat, d: nat, g: nat)
    requires Reachable(s) && p !in s.dead && s.Thread(p, d) == Guarding(g) && Names(s, d, g) && !Secure(s, p, d)
    ensures exists t :: Reachable(t) && GuardsAnother(t, p, d, g)
  {
    var before :| s == Run(Init(), before);
    RunInv(Init(), before);
    InsecureFails(s, p, d, g);
    var events :| KeepsGuard(events, p, d) && GuardsAnother(Run(s, events), p, d, g);
    RunThen(Init(), before, events);
    assert Reachable(Run(s, events));
  }

  /** Slot 1 holds a domain with this holder, peers 1 and 2 participate as given, and peer 1's thread is at `t`. */
  function Shared(holder: nat, one: set<nat>, t: Thread, pins: set<(nat, nat)>, control: Holder, change: Change): State {
    State(map[1 := Slot(true, 1, "a", Peer(holder))], map[1 := one, 2 := {1}], map[(1, 1) := t], pins, map[], control, change, {})
  }

  lemma Recorded() returns (s: State)
    ensures Reachable(s) && s == State(map[1 := Slot(true, 1, "a", Peer(1))], map[], map[], {}, map[], Peer(1), Created(1), {})
  {
    assert Run(Init(), []) == Init();
    s := Step(Init(), TakeControl(1));
    assert s == Init().(control := Peer(1));
    s := Step(s, Create(1, 1, "a"));
  }

  lemma Alone() returns (s: State)
    ensures Reachable(s) && s == State(map[1 := Slot(true, 1, "a", Peer(1))], map[1 := {1}], map[], {}, map[], Nobody, NoChange, {})
  {
    s := Recorded();
    assert s.Member(1) + {1} == {1};
    s := Step(s, JoinCreated(1));
    assert s.members == map[1 := {1}];
    s := Step(s, DropControl(1));
  }

  lemma Joining() returns (s: State)
    ensures Reachable(s) && s == State(map[1 := Slot(true, 1, "a", Peer(1))], map[1 := {1}, 2 := {1}], map[], {}, map[], Peer(2), NoChange, {})
  {
    s := Alone();
    s := Step(s, TakeControl(2));
    assert s.Member(2) + {1} == {1};
    s := Step(s, Join(2, 1));
    assert s.members == map[1 := {1}, 2 := {1}];
  }

  /** Peer 1 has created the domain and peer 2 has joined. */
  lemma Joined() returns (s: State)
    ensures Reachable(s) && s == State(map[1 := Slot(true, 1, "a", Peer(1))], map[1 := {1}, 2 := {1}], map[], {}, map[], Nobody, NoChange, {})
  {
    s := Joining();
    s := Step(s, DropControl(2));
  }

  // ---------- a leave between the check and the pin ----------

  lemma CheckedIn() returns (s: State)
    ensures Reachable(s) && s == Shared(1, {1}, Admitted(1, false), {}, Nobody, NoChange)
  {
    s := Joined();
    s := Step(s, Check(1, 1, 1));
    assert s == Shared(1, {1}, Checked(1), {}, Nobody, NoChange);
    s := Step(s, Admit(1, 1));
    assert s == Shared(1, {1}, Admitted(1, false), {}, Nobody, NoChange);
  }

  lemma LeaveBegins() returns (s: State)
    ensures Reachable(s) && s == Shared(1, {1}, Admitted(1, false), {}, Peer(1), PinsChecked(1))
  {
    s := CheckedIn();
    s := Step(s, TakeControl(1));
    s := Step(s, BeginLeave(1, 1));
  }

  lemma Scanned() returns (s: State)
    ensures Reachable(s) && s == Shared(1, {1}, Admitted(1, false), {}, Peer(1), HandingOff(1, 2))
  {
    s := LeaveBegins();
    assert s.OthersIn(1, 1) by {
      assert 2 in s.members && 1 in s.members[2];
    }
    s := Step(s, ScanLeave(1, 2));
  }

  lemma HandedOff() returns (s: State)
    ensures Reachable(s) && s == Shared(2, {1}, Admitted(1, false), {}, Peer(1), Retracting(1))
  {
    s := Scanned();
    s := Step(s, HandOff(1));
    assert s == Shared(2, {1}, Admitted(1, false), {}, Peer(1), Unpinning(1)) by {
      assert s.locked == map[];
    }
    s := Step(s, ResetPins(1));
    assert s.pins == {};
  }

  lemma Left() returns (s: State)
    ensures Reachable(s) && s == Shared(2, {}, Admitted(1, false), {}, Nobody, NoChange)
  {
    s := HandedOff();
    assert s.Member(1) - {1} == {};
    s := Step(s, Retract(1));
    assert s == Shared(2, {}, Admitted(1, false), {}, Peer(1), NoChange);
    s := Step(s, DropControl(1));
  }

  /** The lock goes on to a guard of a domain its peer does not participate in. */
  lemma GuardOfNothing() returns (s: State)
    ensures Reachable(s) && 1 !in s.dead && s.Thread(1, 1) == Guarding(1) && Names(s, 1, 1) && 1 !in s.Member(1)
    ensures exists t :: Reachable(t) && GuardsAnother(t, 1, 1, 1)
  {
    s := Left();
    s := Step(s, PinDown(1, 1));
    assert s == Shared(2, {}, Pinned(1, false), {(1, 1)}, Nobody, NoChange) by {
      assert {} + {(1, 1)} == {(1, 1)};
    }
    s := Acquires(s, {}, Nobody, NoChange, 2);
    GoesWrong(s, 1, 1, 1);
  }

  /** A pinned thread acquires the free lock and finds its handle good. */
  lemma Acquires(s0: State, one: set<nat>, control: Holder, change: Change, holder: nat) returns (s: State)
    requires Reachable(s0) && s0 == Shared(holder, one, Pinned(1, false), {(1, 1)}, control, change)
    ensures Reachable(s) && s == Shared(1, one, Guarding(1), {(1, 1)}, control, change).(locked := map[1 := 1])
  {
    s := Step(s0, Lock(1, 1));
    assert s == Shared(1, one, Acquired(1), {(1, 1)}, control, change).(locked := map[1 := 1]);
    s := Step(s, Recheck(1, 1));
    assert s == Shared(1, one, Guarding(1), {(1, 1)}, control, change).(locked := map[1 := 1]);
  }

  // ---------- a lock between a leave's pin check and its retraction ----------

  lemma LeaveBegun() returns (s: State)
    ensures Reachable(s) && s == State(map[1 := Slot(true, 1, "a", Peer(1))], map[1 := {1}, 2 := {1}], map[], {}, map[], Peer(1), PinsChecked(1), {})
  {
    s := Joined();
    s := Step(s, TakeControl(1));
    s := Step(s, BeginLeave(1, 1));
  }

  lemma PinnedMeanwhile() returns (s: State)
    ensures Reachable(s) && s == Shared(1, {1}, Pinned(1, false), {(1, 1)}, Peer(1), PinsChecked(1))
  {
    s := LeaveBegun();
    s := Step(s, Check(1, 1, 1));
    assert s == Shared(1, {1}, Checked(1), {}, Peer(1), PinsChecked(1));
    s := Step(s, Admit(1, 1));
    assert s == Shared(1, {1}, Admitted(1, false), {}, Peer(1), PinsChecked(1));
    s := Step(s, PinDown(1, 1));
    assert s.threads == map[(1, 1) := Pinned(1, false)] && {} + {(1, 1)} == {(1, 1)};
  }

  /** The guard participates and is pinned, and the leave under way undoes both. */
  lemma GuardUndone() returns (s: State)
    ensures Reachable(s) && 1 !in s.dead && s.Thread(1, 1) == Guarding(1) && Names(s, 1, 1) && 1 in s.Member(1) && (1, 1) in s.pins
    ensures exists t :: Reachable(t) && GuardsAnother(t, 1, 1, 1)
  {
    s := PinnedMeanwhile();
    s := Acquires(s, {1}, Peer(1), PinsChecked(1), 1);
    assert s.OthersIn(1, 1) by {
      assert 2 in s.members && 1 in s.members[2];
    }
    GoesWrong(s, 1, 1, 1);
  }
}
