/**
 `PetersonPolicy::lock` and `unlock` as the statements the source runs (src/core/policy/successor_peterson.cpp,
 src/core/algo/ownership_transfer.cpp), with every thread of every other peer running between any two of their
 accesses. Threads of the same peer wait for the climb mutex meanwhile.

 `Model` is a state of the `PetersonPolicy` machine; `others(h)` is what the other peers do once this thread has made
 the steps `h`. A method answers its steps, and what it leaves is those woven with `others` and no more.
 */
module PetersonLock {
  import opened Histories
  import opened TreeGeometry
  import T = Tournament
  import C = Climb
  import opened PetersonPolicy

  type Interference = History<Event> -> seq<Event>

  ghost predicate Foreign(others: Interference, p: nat) {
    forall h: History<Event>, e: Event | e in others(h) :: e.peer != p
  }

  ghost predicate Silent(others: Interference) {
    forall h: History<Event> :: others(h) == []
  }

  function Weave(s: State, own: History<Event>, others: Interference): State {
    match own
    case Start => s
    case Then(past, e) => Run(Next(Weave(s, past, others), e), others(own))
  }

  /** Whether the steps contain the end of a deadline. */
  predicate Expired(h: History<Event>) {
    h.Then? && (h.event.Expire? || Expired(h.past))
  }

  /** How many probes of the tree have failed. */
  function Failures(s: State, own: History<Event>, others: Interference, p: nat): nat {
    match own
    case Start => 0
    case Then(past, e) =>
      Failures(s, past, others, p) + if (e.Work? || e.Expire?) && Weave(s, past, others).tree.Phase(p).Losing? then 1 else 0
  }

  lemma {:induction false} WeaveInv(s: State, own: History<Event>, others: Interference)
    requires Inv(s)
    ensures Inv(Weave(s, own, others)) && Weave(s, own, others).tree.maxPeers == s.tree.maxPeers
    decreases own
  {
    if own.Then? {
      WeaveInv(s, own.past, others);
      var t := Weave(s, own.past, others);
      NextInv(t, own.event);
      NextKeepsSize(t, own.event);
      RunInv(Next(t, own.event), others(own));
      RunKeepsSize(Next(t, own.event), others(own));
    }
  }

  lemma ForeignSide(s: State, e: Event, p: nat)
    requires e.peer != p
    ensures Next(s, e).At(p) == s.At(p)
  {
    hide T.Next;
  }

  lemma ForeignKeeps(s: State, e: Event, p: nat)
    requires e.peer != p
    ensures Next(s, e).At(p) == s.At(p) && Next(s, e).tree.Phase(p) == s.tree.Phase(p)
    ensures Next(s, e).tree.maxPeers == s.tree.maxPeers
  {
    hide Next;
    NextKeepsSize(s, e);
    ForeignPhase(s, e, p);
    ForeignSide(s, e, p);
  }

  lemma ForeignPhase(s: State, e: Event, p: nat)
    requires e.peer != p
    ensures Next(s, e).tree.Phase(p) == s.tree.Phase(p)
  {
    forall f: T.Event | f.peer != p
      ensures T.Next(s.tree, f).Phase(p) == s.tree.Phase(p)
    {
      OthersPhase(s.tree, f, p);
    }
  }

  lemma {:induction false} ForeignRunKeeps(s: State, events: seq<Event>, p: nat)
    requires forall e | e in events :: e.peer != p
    ensures Run(s, events).At(p) == s.At(p) && Run(s, events).tree.Phase(p) == s.tree.Phase(p)
    ensures Run(s, events).tree.maxPeers == s.tree.maxPeers
    decreases |events|
  {
    if events != [] {
      ForeignKeeps(s, events[0], p);
      ForeignRunKeeps(Next(s, events[0]), events[1..], p);
    }
  }

  // ---------- a climb nobody disturbs ----------

  /** Every line opposite to the levels below `level` was idle. */
  ghost predicate ClearBelow(s: T.State, p: nat, level: nat) {
    forall j: nat | j < level && j < s.Depth() :: s.Line(C.Rival(s.maxPeers, p, j)) == T.NoPeer
  }

  /** What the tree looked like at the start decides every probe. */
  ghost predicate OnCourse(s0: T.State, s: T.State, p: nat) {
    && C.Spared(s0, s, p)
    && match s.Phase(p)
       case Announcing(k) => k < s.Depth() && ClearBelow(s0, p, k)
       case Yielding(k) => k < s.Depth() && ClearBelow(s0, p, k)
       case ReadingOther(k) => k < s.Depth() && ClearBelow(s0, p, k) && Yielded(s, p, k)
       case ReadingTurn(k, idle) => k < s.Depth() && ClearBelow(s0, p, k) && Yielded(s, p, k) && (idle <==> RivalIdle(s0, p, k))
       case Losing(k) => k < s.Depth() && ClearBelow(s0, p, k) && Yielded(s, p, k) && !RivalIdle(s0, p, k)
       case Inside => C.PathClear(s0, p)
       case Retreating(standing, _) => 0 < standing <= s.Depth() && !C.PathClear(s0, p)
       case Outside => !C.PathClear(s0, p)
       case _ => false
  }

  predicate RivalIdle(s: T.State, p: nat, k: nat)
    requires k < s.Depth()
  {
    s.Line(C.Rival(s.maxPeers, p, k)) == T.NoPeer
  }

  predicate Yielded(s: T.State, p: nat, k: nat)
    requires k < s.Depth()
  {
    var step := StepAt(s.maxPeers, p, k);
    s.Turn(step.node) == step.role.Other()
  }

  lemma SparedSelf(s: T.State, p: nat)
    ensures C.Spared(s, s, p)
  {
  }

  lemma SparedStep(s0: T.State, s: T.State, e: T.Event, p: nat)
    requires T.Inv(s0) && T.Inv(s) && C.Spared(s0, s, p) && e.peer == p
    ensures T.Inv(T.Next(s, e)) && C.Spared(s0, T.Next(s, e), p)
  {
    T.NextInv(s, e);
    C.OwnStepSpares(s, e, p);
    C.LinesSpared(s0, T.Next(s, e), p);
  }

  lemma RivalAsAtStart(s0: T.State, s: T.State, p: nat, k: nat)
    requires T.Inv(s0) && T.Inv(s) && C.Spared(s0, s, p) && k < s.Depth()
    ensures RivalIdle(s, p, k) <==> RivalIdle(s0, p, k)
  {
    C.RivalIsNotOwn(s0, p, k);
    C.RivalIsNotOwn(s, p, k);
    assert C.OtherOwner(s, C.Rival(s.maxPeers, p, k), p) == C.OtherOwner(s0, C.Rival(s.maxPeers, p, k), p);
  }

  /** What stood opposite at the start decides the probe. */
  lemma CourseProbe(s0: T.State, s: T.State, p: nat)
    requires T.Inv(s0) && T.Inv(s) && p < s.maxPeers && OnCourse(s0, s, p) && (s.Phase(p).ReadingOther? || s.Phase(p).ReadingTurn?)
    ensures OnCourse(s0, T.Next(s, T.Access(p)), p)
  {
    SparedStep(s0, s, T.Access(p), p);
    hide T.Inv, C.Spared, C.PathClear;
    if s.Phase(p).ReadingOther? {
      RivalAsAtStart(s0, s, p, s.Phase(p).level);
    } else if s.Phase(p).sawIdle {
      ClearFurther(s0, p, s.Phase(p).level);
    }
  }

  lemma ClearFurther(s0: T.State, p: nat, k: nat)
    requires k < s0.Depth() && ClearBelow(s0, p, k) && RivalIdle(s0, p, k)
    ensures ClearBelow(s0, p, k + 1) && (k + 1 == s0.Depth() ==> C.PathClear(s0, p))
  {
  }

  lemma CourseAccess(s0: T.State, s: T.State, p: nat)
    requires T.Inv(s0) && T.Inv(s) && p < s.maxPeers && OnCourse(s0, s, p)
    ensures T.Inv(T.Next(s, T.Access(p))) && OnCourse(s0, T.Next(s, T.Access(p)), p)
  {
    SparedStep(s0, s, T.Access(p), p);
    if s.Phase(p).ReadingOther? || s.Phase(p).ReadingTurn? {
      CourseProbe(s0, s, p);
    } else {
      hide T.Inv, C.Spared, C.PathClear, ClearBelow, RivalIdle;
    }
  }

  lemma CourseExpire(s0: T.State, s: T.State, p: nat)
    requires T.Inv(s0) && T.Inv(s) && p < s.maxPeers && OnCourse(s0, s, p) && s.Phase(p).Losing?
    ensures T.Inv(T.Next(s, T.Expire(p))) && OnCourse(s0, T.Next(s, T.Expire(p)), p)
  {
    SparedStep(s0, s, T.Expire(p), p);
  }

  lemma CourseBegin(s: T.State, p: nat)
    requires T.Inv(s) && p < s.maxPeers && s.Phase(p) == T.Outside
    ensures T.Inv(T.Next(s, T.Begin(p))) && OnCourse(s, T.Next(s, T.Begin(p)), p)
  {
    SparedStep(s, s, T.Begin(p), p);
  }

  // ---------- how far a climb has to go ----------

  function Rest(phase: T.Phase, depth: nat): nat {
    match phase
    case Retreating(_, _) => 0
    case Announcing(level) => 1 + (if level < depth then depth - level else 0)
    case Yielding(level) => 1 + (if level < depth then depth - level else 0)
    case ReadingOther(level) => 1 + (if level < depth then depth - level else 0)
    case ReadingTurn(level, _) => 1 + (if level < depth then depth - level else 0)
    case Losing(level) => 1 + (if level < depth then depth - level else 0)
    case _ => 0
  }

  function Place(phase: T.Phase): nat {
    match phase
    case Announcing(_) => 5
    case Yielding(_) => 4
    case ReadingOther(_) => 3
    case ReadingTurn(_, _) => 2
    case Losing(_) => 1
    case Retreating(standing, _) => standing
    case _ => 0
  }

  predicate UnderWay(phase: T.Phase) {
    phase != T.Inside && phase != T.Outside
  }

  /** The phases a climb or a release passes through. */
  predicate Sound(phase: T.Phase) {
    !phase.Dead? && (phase.Retreating? ==> phase.standing > 0)
  }

  function TreeEvent(p: nat, expires: bool): T.Event {
    if expires then T.Expire(p) else T.Access(p)
  }

  function PolicyEvent(p: nat, expires: bool): Event {
    if expires then Event.Expire(p) else Work(p)
  }

  /** An access of a climb under way brings it nearer to its end, but for the one that starts a new probe. */
  lemma AccessProgress(s: T.State, p: nat, expires: bool)
    requires p < s.maxPeers && T.PhaseOk(s, p) && UnderWay(s.Phase(p)) && Sound(s.Phase(p)) && (expires ==> s.Phase(p).Losing?)
    ensures var was, phase := s.Phase(p), T.Next(s, TreeEvent(p, expires)).Phase(p);
            && Sound(phase)
            && (expires || was.Retreating? ==> phase.Retreating? || phase == T.Outside)
            && (!expires && !was.Retreating? ==> !phase.Retreating? && phase != T.Outside)
            && (if was.Losing? && !expires then phase == T.ReadingOther(was.level) && Rest(phase, s.Depth()) == Rest(was, s.Depth()) else
                  Rest(phase, s.Depth()) < Rest(was, s.Depth()) ||
                  (Rest(phase, s.Depth()) == Rest(was, s.Depth()) && Place(phase) < Place(was)))
  {
  }

  lemma CourseStep(s0: T.State, s: T.State, p: nat, expires: bool)
    requires T.Inv(s0) && T.Inv(s) && p < s.maxPeers && OnCourse(s0, s, p) && (expires ==> s.Phase(p).Losing?)
    ensures OnCourse(s0, T.Next(s, TreeEvent(p, expires)), p)
  {
    if expires { CourseExpire(s0, s, p); } else { CourseAccess(s0, s, p); }
  }

  /** What a reachable state says of the tree position of `p`. */
  lemma Position(start: State, h: History<Event>, others: Interference, p: nat)
    requires Inv(start) && p < start.tree.maxPeers
    ensures var s := Weave(start, h, others);
            && T.Inv(start.tree) && T.Inv(s.tree) && s.tree.maxPeers == start.tree.maxPeers
            && T.PhaseOk(s.tree, p) && PeerOk(s.At(p), s.tree.Phase(p))
  {
    WeaveInv(start, h, others);
    var s := Weave(start, h, others);
    assert PeerOk(s.At(p), s.tree.Phase(p));
  }

  lemma AtRest(s: State, p: nat)
    requires Inv(s) && p < s.tree.maxPeers
    ensures T.Inv(s.tree) && PeerOk(s.At(p), s.tree.Phase(p))
    ensures s.At(p).work == Free ==> (s.record.holder == T.Named(p) <==> s.tree.Phase(p) == T.Inside)
  {
    assert PeerOk(s.At(p), s.tree.Phase(p));
  }

  lemma BeginClimb(s: T.State, p: nat)
    requires T.Inv(s) && p < s.maxPeers && s.Phase(p) == T.Outside
    ensures T.Next(s, T.Begin(p)).Phase(p) == T.Climbed(s, 0) && OnCourse(s, T.Next(s, T.Begin(p)), p)
  {
    CourseBegin(s, p);
  }

  lemma BesideSelf(s: State, p: nat)
    ensures Beside(s, s, p)
  {
  }

  lemma BesideTrans(a: State, b: State, c: State, p: nat)
    requires Beside(a, b, p) && Beside(b, c, p)
    ensures Beside(a, c, p)
  {
  }

  /** Every event is one of `p`. */
  predicate Own(h: History<Event>, p: nat) {
    h.Start? || (h.event.peer == p && Own(h.past, p))
  }

  function After(h: History<Event>, e: Event): (r: History<Event>)
    ensures Own(r, e.peer) <==> Own(h, e.peer)
    ensures Expired(r) <==> e.Expire? || Expired(h)
  {
    Then(h, e)
  }

  /** A lock by a peer that has the win already: the mutex, the pin, a look at the flag, and the return. */
  function JoinSteps(p: nat, t: nat): History<Event> {
    Then(Then(Then(Then(Start, Event.Lock(p, t)), Work(p)), Work(p)), Work(p))
  }

  /** An unlock beside another guard of the same peer: the mutex, a look at the pins, and one pin less. */
  function PassSteps(p: nat, t: nat): History<Event> {
    Then(Then(Then(Start, Event.Unlock(p, t)), Work(p)), Work(p))
  }

  lemma LastUser(users: set<nat>, t: nat)
    requires t in users
    ensures users == {t} <==> |users| == 1
  {
    assert |users - {t}| == |users| - 1;
    assert users == {t} <==> users - {t} == {};
  }

  /** The record, the shadows and every other peer's side stand. */
  ghost predicate Beside(s: State, s': State, p: nat) {
    s'.record == s.record && s'.shadows == s.shadows && SidesBeside(s, s', p)
  }

  ghost predicate SidesBeside(s: State, s': State, p: nat) {
    forall q: nat | q != p :: s'.At(q) == s.At(q)
  }

  /** Undisturbed, nothing but the side of `p` has moved. */
  ghost predicate Quiet(s: State, s': State, p: nat, others: Interference) {
    s'.tree.maxPeers == s.tree.maxPeers && (Silent(others) ==> s'.tree == s.tree && Beside(s, s', p))
  }

  class Domain {
    var tree: T.State
    var sides: map<nat, Side>
    var record: Record
    var shadows: map<nat, Record>

    function Model(): State
      reads this
    {
      State(tree, sides, record, shadows)
    }

    constructor (maxPeers: nat)
      ensures Model() == Init(maxPeers) && Inv(Model())
    {
      tree, sides, record, shadows := T.Init(maxPeers), map[], Record(T.NoPeer, 0), map[];
      new;
      InitInv(maxPeers);
    }

    /** The other peers run. */
    method Others(events: seq<Event>, ghost p: nat)
      requires forall e | e in events :: e.peer != p
      modifies this
      ensures Model() == Run(old(Model()), events)
      ensures Model().At(p) == old(Model()).At(p) && tree.Phase(p) == old(tree).Phase(p)
      ensures tree.maxPeers == old(tree).maxPeers
      ensures events == [] ==> Model() == old(Model())
    {
      hide Next;
      ForeignRunKeeps(Model(), events, p);
      var s := Model();
      for i := 0 to |events|
        invariant Run(s, events[i..]) == Run(old(Model()), events)
      {
        assert events[i..][1..] == events[i + 1..];
        s := Next(s, events[i]);
      }
      assert events[|events|..] == [];
      tree, sides, record, shadows := s.tree, s.sides, s.record, s.shadows;
    }

    /** One step of `p` that moves its side and, perhaps, the tree and the record; then everybody else. */
    method Step(e: Event, p: nat, side: Side, tree': T.State, record': Record, shadows': map<nat, Record>, others: Interference,
                past: History<Event>, ghost start: State)
      requires Foreign(others, p) && Model() == Weave(start, past, others)
      requires Next(Model(), e) == State(tree', sides[p := side], record', shadows')
      modifies this
      ensures Model() == Weave(start, Then(past, e), others)
      ensures Model().At(p) == side && tree.Phase(p) == tree'.Phase(p) && tree.maxPeers == tree'.maxPeers
      ensures others(Then(past, e)) == [] ==>
                tree == tree' && record == record' && shadows == shadows' && sides == old(sides)[p := side]
    {
      tree, sides, record, shadows := tree', sides[p := side], record', shadows';
      Others(others(Then(past, e)), p);
    }

    // ---------- lock ----------

    method Enter(p: nat, t: nat, others: Interference)
      requires p < tree.maxPeers && Foreign(others, p) && Model().At(p).work == Free && t !in Model().At(p).users
      modifies this
      ensures Model() == Weave(old(Model()), Then(Start, Event.Lock(p, t)), others)
      ensures Quiet(old(Model()), Model(), p, others)
      ensures Model().At(p) == old(Model()).At(p).(work := Entering(t)) && tree.Phase(p) == old(tree).Phase(p)
    {
      Step(Event.Lock(p, t), p, Model().At(p).(work := Entering(t)), tree, record, shadows, others, Start, Model());
    }

    method Pin(p: nat, t: nat, others: Interference, past: History<Event>, ghost start: State)
      requires p < tree.maxPeers && Foreign(others, p) && Model() == Weave(start, past, others)
      requires Model().At(p).work == Entering(t)
      modifies this
      ensures Model() == Weave(start, Then(past, Work(p)), others) && Quiet(old(Model()), Model(), p, others)
      ensures var was := old(Model()).At(p); Model().At(p) == was.(work := Pinned(t), pins := was.pins + 1)
      ensures tree.Phase(p) == old(tree).Phase(p)
    {
      var side := Model().At(p);
      Step(Work(p), p, side.(work := Pinned(t), pins := side.pins + 1), tree, record, shadows, others, past, start);
    }

    method EnterAndPin(p: nat, t: nat, others: Interference) returns (h: History<Event>)
      requires p < tree.maxPeers && Foreign(others, p) && Model().At(p).work == Free && t !in Model().At(p).users
      modifies this
      ensures h == Then(Then(Start, Event.Lock(p, t)), Work(p)) && Own(h, p) && !Expired(h)
      ensures !old(tree).Phase(p).Losing? ==> Failures(old(Model()), h, others, p) == 0
      ensures Model() == Weave(old(Model()), h, others) && Quiet(old(Model()), Model(), p, others)
      ensures var was := old(Model()).At(p); Model().At(p) == was.(work := Pinned(t), pins := was.pins + 1)
      ensures tree.Phase(p) == old(tree).Phase(p)
    {
      hide Weave, Next, Run;
      Enter(p, t, others);
      h := After(Start, Event.Lock(p, t));
      assert Failures(old(Model()), h, others, p) == 0;
      Pin(p, t, others, h, old(Model()));
      h := After(h, Work(p));
    }

    /** The win is this peer's already, or the climb begins. */
    method LookAtWon(p: nat, t: nat, others: Interference, past: History<Event>, ghost start: State) returns (mine: bool)
      requires p < tree.maxPeers && Foreign(others, p) && Model() == Weave(start, past, others)
      requires Model().At(p).work == Pinned(t)
      modifies this
      ensures Model() == Weave(start, Then(past, Work(p)), others) && mine == old(Model()).At(p).won
      ensures tree.maxPeers == old(tree).maxPeers
      ensures Model().At(p) == old(Model()).At(p).(work := if mine then Arriving(t) else Climbing(t))
      ensures tree.Phase(p) == (if mine then old(tree) else T.Next(old(tree), T.Begin(p))).Phase(p)
      ensures mine ==> Quiet(old(Model()), Model(), p, others)
      ensures !old(tree).Phase(p).Losing? ==> Failures(start, Then(past, Work(p)), others, p) == Failures(start, past, others, p)
      ensures !mine && Silent(others) ==> tree == T.Next(old(tree), T.Begin(p)) && Beside(old(Model()), Model(), p)
    {
      mine := Model().At(p).won;
      var climbs := if mine then tree else T.Next(tree, T.Begin(p));
      T.RunKeepsSize(tree, [T.Begin(p)]);
      assert T.Run(tree, [T.Begin(p)]) == T.Next(tree, T.Begin(p));
      Step(Work(p), p, Model().At(p).(work := if mine then Arriving(t) else Climbing(t)), climbs, record, shadows, others, past, start);
    }

    /** One access of the climb or of the release, or the end of the deadline. */
    method TreeAccess(p: nat, expires: bool, others: Interference, past: History<Event>, ghost start: State)
      requires p < tree.maxPeers && Foreign(others, p) && Model() == Weave(start, past, others) && UnderWay(tree.Phase(p))
      requires Model().At(p).work.Climbing? || (Model().At(p).work.Releasing? && !expires)
      modifies this
      ensures tree.Phase(p) == T.Next(old(tree), TreeEvent(p, expires)).Phase(p) && tree.maxPeers == old(tree).maxPeers
      ensures Silent(others) ==> tree == T.Next(old(tree), TreeEvent(p, expires)) && Beside(old(Model()), Model(), p)
      ensures Model() == Weave(start, Then(past, PolicyEvent(p, expires)), others)
      ensures Model().At(p) == old(Model()).At(p)
    {
      hide Run, T.NextAccess;
      T.RunKeepsSize(tree, [TreeEvent(p, expires)]);
      assert T.Run(tree, [TreeEvent(p, expires)]) == T.Next(tree, TreeEvent(p, expires));
      tree := T.Next(tree, TreeEvent(p, expires));
      Others(others(Then(past, PolicyEvent(p, expires))), p);
    }

    /**
     `acquire` on the policy's side: accesses until the climb has ended one way or the other. `patience` failed probes
     are tolerated; the one after is found past the deadline.
     */
    method ClimbTree(p: nat, t: nat, patience: nat, others: Interference, past: History<Event>, ghost start: State)
      returns (won: bool, h: History<Event>)
      requires Inv(start) && p < start.tree.maxPeers && Foreign(others, p) && Model() == Weave(start, past, others)
      requires !Expired(past) && Own(past, p) && Model().At(p).work == Climbing(t) && tree.Phase(p) == T.Climbed(tree, 0)
      modifies this
      ensures Model() == Weave(start, h, others) && Own(h, p) && (won <==> !Expired(h))
      ensures !won ==> Failures(start, h, others, p) == Failures(start, past, others, p) + patience + 1
      ensures Model().At(p) == old(Model()).At(p) && tree.Phase(p) == if won then T.Inside else T.Outside
      ensures Silent(others) && OnCourse(start.tree, old(tree), p) ==>
                OnCourse(start.tree, tree, p) && Beside(old(Model()), Model(), p)
    {
      hide Weave, Next, Run, Inv, OnCourse, T.Inv, T.Next, Beside, PeerOk, T.PhaseOk, Foreign, Rest, Place;
      h := past;
      var failures := 0;
      Position(start, h, others, p);
      BesideSelf(Model(), p);
      while UnderWay(tree.Phase(p))
        invariant Model() == Weave(start, h, others) && Own(h, p) && tree.maxPeers == start.tree.maxPeers
        invariant Model().At(p) == old(Model()).At(p) && failures <= patience && Sound(tree.Phase(p))
        invariant Failures(start, h, others, p) == Failures(start, past, others, p) + (if Expired(h) then patience + 1 else failures)
        invariant if Expired(h) then tree.Phase(p).Retreating? || tree.Phase(p) == T.Outside
                  else !tree.Phase(p).Retreating? && tree.Phase(p) != T.Outside
        invariant Silent(others) && OnCourse(start.tree, old(tree), p) ==>
                    OnCourse(start.tree, tree, p) && Beside(old(Model()), Model(), p)
        decreases Rest(tree.Phase(p), tree.Depth()), patience - failures, Place(tree.Phase(p))
      {
        var losing := tree.Phase(p).Losing?;
        var expires := losing && failures == patience;
        ghost var before := Model();
        Position(start, h, others, p);
        AccessProgress(tree, p, expires);
        TreeAccess(p, expires, others, h, start);
        if Silent(others) && OnCourse(start.tree, old(tree), p) {
          CourseStep(start.tree, before.tree, p, expires);
          BesideTrans(old(Model()), before, Model(), p);
        }
        h := Then(h, PolicyEvent(p, expires));
        failures := if losing && !expires then failures + 1 else failures;
      }
      won := tree.Phase(p) == T.Inside;
    }

    /** An access that moves nothing but the side of `p`. */
    method Turn(p: nat, side: Side, others: Interference, past: History<Event>, ghost start: State)
      requires Foreign(others, p) && Model() == Weave(start, past, others)
      requires Next(Model(), Work(p)) == SetSide(Model(), p, side)
      modifies this
      ensures Model() == Weave(start, Then(past, Work(p)), others) && Quiet(old(Model()), Model(), p, others)
      ensures Model().At(p) == side && tree.Phase(p) == old(tree).Phase(p)
    {
      hide Next, Run;
      Step(Work(p), p, side, tree, record, shadows, others, past, start);
    }

    method Arrive(p: nat, t: nat, others: Interference, past: History<Event>, ghost start: State)
      requires p < tree.maxPeers && Foreign(others, p) && Model() == Weave(start, past, others)
      requires Model().At(p).work == Arriving(t)
      modifies this
      ensures Model() == Weave(start, Then(past, Work(p)), others) && Quiet(old(Model()), Model(), p, others)
      ensures var was := old(Model()).At(p); Model().At(p) == was.(work := Free, users := was.users + {t})
      ensures tree.Phase(p) == old(tree).Phase(p)
    {
      var side := Model().At(p);
      Turn(p, side.(work := Free, users := side.users + {t}), others, past, start);
    }

    /** Out of time: the climb has rolled back, and the pin goes. */
    method GiveUp(p: nat, t: nat, others: Interference, past: History<Event>, ghost start: State)
      returns (h: History<Event>)
      requires p < tree.maxPeers && Foreign(others, p) && Model() == Weave(start, past, others)
      requires Model().At(p).work == Climbing(t) && tree.Phase(p) == T.Outside
      modifies this
      ensures (Own(h, p) <==> Own(past, p)) && (Expired(h) <==> Expired(past))
      ensures Failures(start, h, others, p) == Failures(start, past, others, p)
      ensures Model() == Weave(start, h, others) && Quiet(old(Model()), Model(), p, others)
      ensures var was := old(Model()).At(p); Model().At(p) == was.(work := Free, pins := Less(was.pins))
      ensures tree.Phase(p) == T.Outside
    {
      hide Weave, Run;
      var side := Model().At(p);
      Turn(p, side.(work := Failing(t)), others, past, start);
      h := After(past, Work(p));
      Turn(p, side.(work := Free, pins := Less(side.pins)), others, h, start);
      h := After(h, Work(p));
    }

    /** The copy for recovery first, then the record itself. */
    method StoreShadow(p: nat, t: nat, base: Record, others: Interference, past: History<Event>, ghost start: State)
      requires p < tree.maxPeers && Foreign(others, p) && Model() == Weave(start, past, others)
      requires Model().At(p).work == Shadowing(t, base)
      modifies this
      ensures Model() == Weave(start, Then(past, Work(p)), others) && tree.maxPeers == old(tree).maxPeers
      ensures Model().At(p) == old(Model()).At(p).(work := Stamping(t, base)) && tree.Phase(p) == old(tree).Phase(p)
      ensures Silent(others) ==>
                && tree == old(tree) && record == old(record) && SidesBeside(old(Model()), Model(), p)
                && shadows == old(shadows)[p := Record(T.Named(p), base.epoch + 1)]
    {
      hide Run;
      var stamp := Record(T.Named(p), base.epoch + 1);
      Step(Work(p), p, Model().At(p).(work := Stamping(t, base)), tree, record, shadows[p := stamp], others, past, start);
    }

    method StoreTruth(p: nat, t: nat, base: Record, others: Interference, past: History<Event>, ghost start: State)
      requires p < tree.maxPeers && Foreign(others, p) && Model() == Weave(start, past, others)
      requires Model().At(p).work == Stamping(t, base)
      modifies this
      ensures Model() == Weave(start, Then(past, Work(p)), others) && tree.maxPeers == old(tree).maxPeers
      ensures Model().At(p) == old(Model()).At(p).(work := Arriving(t)) && tree.Phase(p) == old(tree).Phase(p)
      ensures Silent(others) ==>
                && tree == old(tree) && record == Record(T.Named(p), base.epoch + 1) && shadows == old(shadows)
                && SidesBeside(old(Model()), Model(), p)
    {
      hide Run;
      var stamp := Record(T.Named(p), base.epoch + 1);
      Step(Work(p), p, Model().At(p).(work := Arriving(t)), tree, stamp, shadows, others, past, start);
    }

    /** `takeoverOwnership` from the record itself: one epoch up, the shadow before the truth. */
    method TakeOver(p: nat, t: nat, others: Interference, past: History<Event>, ghost start: State)
      returns (h: History<Event>)
      requires p < tree.maxPeers && Foreign(others, p) && Model() == Weave(start, past, others)
      requires Model().At(p).work == Climbing(t) && tree.Phase(p) == T.Inside
      modifies this
      ensures Model() == Weave(start, h, others) && tree.maxPeers == old(tree).maxPeers
      ensures (Own(h, p) <==> Own(past, p)) && (Expired(h) <==> Expired(past))
      ensures Model().At(p) == old(Model()).At(p).(work := Arriving(t), won := true) && tree.Phase(p) == T.Inside
      ensures Silent(others) ==>
                && tree == old(tree) && SidesBeside(old(Model()), Model(), p)
                && record == Record(T.Named(p), old(record).epoch + 1) && shadows == old(shadows)[p := record]
    {
      hide Weave, Run;
      var side := Model().At(p).(work := Loading(t), won := true);
      Turn(p, side, others, past, start);
      h := After(past, Work(p));
      var base := record;
      Turn(p, side.(work := Shadowing(t, base)), others, h, start);
      h := After(h, Work(p));
      StoreShadow(p, t, base, others, h, start);
      h := After(h, Work(p));
      StoreTruth(p, t, base, others, h, start);
      h := After(h, Work(p));
    }

    /**
     `PetersonPolicy::lock`. Undisturbed, it arrives exactly when this peer has the win already or nothing stands
     opposite to its path, and then the record has moved up one epoch and names it; a lock that does not arrive has
     found its deadline past, or never got the climb mutex, and has left its pins and its win as they were.
     */
    method Lock(p: nat, t: nat, patience: nat, others: Interference) returns (arrived: bool, h: History<Event>)
      requires Inv(Model()) && p < tree.maxPeers && Foreign(others, p) && t !in Model().At(p).users
      modifies this
      ensures Inv(Model()) && Model() == Weave(old(Model()), h, others) && Own(h, p)
      ensures old(Model()).At(p).work != Free ==> !arrived && h == Start
      ensures old(Model()).At(p).work == Free ==>
                var was := old(Model()).At(p);
                && (arrived <==> !Expired(h)) && (!arrived ==> Failures(old(Model()), h, others, p) == patience + 1)
                && Model().At(p) == (if arrived then Side(Free, true, was.pins + 1, was.users + {t}) else was)
                && (arrived ==> record.holder == T.Named(p) && tree.Phase(p) == T.Inside)
                && (!arrived ==> tree.Phase(p) == T.Outside)
                && (was.won ==> arrived && h == JoinSteps(p, t))
      ensures old(Model()).At(p).work == Free && Silent(others) ==>
                var was := old(Model()).At(p);
                && (arrived <==> was.won || C.PathClear(old(tree), p)) && (C.Alone(old(tree), p) ==> arrived)
                && SidesBeside(old(Model()), Model(), p) && C.Spared(old(tree), tree, p)
                && (was.won ==> tree == old(tree))
                && (was.won || !arrived ==> record == old(record) && shadows == old(shadows))
                && (!was.won && arrived ==>
                      record == Record(T.Named(p), old(record).epoch + 1) && shadows == old(shadows)[p := record])
    {
      hide Next, Run, Inv, T.Inv, T.Next, PeerOk, C.Spared, C.PathClear, C.Alone;
      AtRest(Model(), p);
      if C.Alone(tree, p) {
        C.AloneIsClear(tree, p);
      }
      if Model().At(p).work != Free {
        return false, Start;
      }
      arrived, h := LockFree(p, t, patience, others);
      WeaveInv(old(Model()), h, others);
      AtRest(Model(), p);
    }

    method ClimbOrFail(p: nat, t: nat, patience: nat, others: Interference, past: History<Event>, ghost start: State)
      returns (arrived: bool, h: History<Event>)
      requires Inv(start) && p < start.tree.maxPeers && Foreign(others, p) && Model() == Weave(start, past, others)
      requires !Expired(past) && Own(past, p) && Model().At(p).work == Climbing(t) && tree.Phase(p) == T.Climbed(tree, 0)
      modifies this
      ensures Model() == Weave(start, h, others) && Own(h, p) && (arrived <==> !Expired(h))
      ensures !arrived ==> Failures(start, h, others, p) == Failures(start, past, others, p) + patience + 1
      ensures var was := old(Model()).At(p);
              Model().At(p) == if arrived then was.(work := Free, won := true, users := was.users + {t})
                               else was.(work := Free, pins := Less(was.pins))
      ensures tree.Phase(p) == if arrived then T.Inside else T.Outside
      ensures Silent(others) && OnCourse(start.tree, old(tree), p) ==>
                && (arrived <==> C.PathClear(start.tree, p))
                && SidesBeside(old(Model()), Model(), p) && C.Spared(start.tree, tree, p)
                && (!arrived ==> record == old(record) && shadows == old(shadows))
                && (arrived ==> record == Record(T.Named(p), old(record).epoch + 1) && shadows == old(shadows)[p := record])
    {
      hide Weave, Next, Run, Inv, T.Inv, T.Next;
      arrived, h := ClimbTree(p, t, patience, others, past, start);
      Position(start, h, others, p);
      if arrived {
        h := TakeOver(p, t, others, h, start);
        Arrive(p, t, others, h, start);
        h := After(h, Work(p));
      } else {
        h := GiveUp(p, t, others, h, start);
      }
    }

    method LockFree(p: nat, t: nat, patience: nat, others: Interference) returns (arrived: bool, h: History<Event>)
      requires Inv(Model()) && p < tree.maxPeers && Foreign(others, p) && t !in Model().At(p).users
      requires Model().At(p).work == Free
      modifies this
      ensures Model() == Weave(old(Model()), h, others) && Own(h, p)
      ensures (arrived <==> !Expired(h)) && (!arrived ==> Failures(old(Model()), h, others, p) == patience + 1)
      ensures var was := old(Model()).At(p);
              && Model().At(p) == (if arrived then Side(Free, true, was.pins + 1, was.users + {t}) else was)
              && tree.Phase(p) == (if arrived then T.Inside else T.Outside)
              && (was.won ==> arrived && h == JoinSteps(p, t))
      ensures Silent(others) ==>
                var was := old(Model()).At(p);
                && (arrived <==> was.won || C.PathClear(old(tree), p))
                && SidesBeside(old(Model()), Model(), p) && C.Spared(old(tree), tree, p)
                && (was.won ==> tree == old(tree))
                && (was.won || !arrived ==> record == old(record) && shadows == old(shadows))
                && (!was.won && arrived ==>
                      record == Record(T.Named(p), old(record).epoch + 1) && shadows == old(shadows)[p := record])
    {
      hide Weave, Next, Run, Inv, OnCourse, T.Inv, T.Next, C.PathClear, C.Spared, Failures;
      SparedSelf(tree, p);
      AtRest(Model(), p);
      h := EnterAndPin(p, t, others);
      ghost var low := tree;
      Position(old(Model()), h, others, p);
      var mine := LookAtWon(p, t, others, h, old(Model()));
      h := After(h, Work(p));
      if mine {
        Arrive(p, t, others, h, old(Model()));
        h := After(h, Work(p));
        arrived := true;
      } else {
        BeginClimb(low, p);
        arrived, h := ClimbOrFail(p, t, patience, others, h, old(Model()));
      }
    }

    // ---------- unlock ----------

    method EnterToLeave(p: nat, t: nat, others: Interference)
      requires p < tree.maxPeers && Foreign(others, p) && Model().At(p).work == Free && t in Model().At(p).users
      modifies this
      ensures Model() == Weave(old(Model()), Then(Start, Event.Unlock(p, t)), others)
      ensures Quiet(old(Model()), Model(), p, others)
      ensures Model().At(p) == old(Model()).At(p).(work := Leaving(t)) && tree.Phase(p) == old(tree).Phase(p)
    {
      hide Run;
      Step(Event.Unlock(p, t), p, Model().At(p).(work := Leaving(t)), tree, record, shadows, others, Start, Model());
    }

    method ReadPins(p: nat, t: nat, others: Interference, past: History<Event>, ghost start: State) returns (last: bool)
      requires p < tree.maxPeers && Foreign(others, p) && Model() == Weave(start, past, others)
      requires Model().At(p).work == Leaving(t) && Model().At(p).pins > 0
      modifies this
      ensures Model() == Weave(start, Then(past, Work(p)), others) && Quiet(old(Model()), Model(), p, others)
      ensures last <==> old(Model()).At(p).pins == 1
      ensures Model().At(p) == old(Model()).At(p).(work := if last then Vacating(t) else Dropping(t))
      ensures tree.Phase(p) == old(tree).Phase(p)
    {
      hide Run;
      var side := Model().At(p);
      last := side.pins == 1;
      Turn(p, side.(work := if last then Vacating(t) else Dropping(t)), others, past, start);
    }

    /** `vacateOwnership`: nobody, one epoch up; the tree is left only after that. */
    method Vacate(p: nat, t: nat, others: Interference, past: History<Event>, ghost start: State)
      returns (h: History<Event>)
      requires p < tree.maxPeers && Foreign(others, p) && Model() == Weave(start, past, others)
      requires Model().At(p).work == Vacating(t) && tree.Phase(p) == T.Inside
      modifies this
      ensures Model() == Weave(start, h, others) && tree.maxPeers == old(tree).maxPeers && (Own(h, p) <==> Own(past, p))
      ensures Model().At(p) == old(Model()).At(p).(work := Releasing(t))
      ensures tree.Phase(p) == T.Retreat(tree.Depth(), tree.Depth())
      ensures Silent(others) ==>
                && tree == T.Next(old(tree), T.Leave(p)) && record == Record(T.NoPeer, old(record).epoch + 1)
                && shadows == old(shadows) && SidesBeside(old(Model()), Model(), p)
    {
      hide Weave, Run;
      var side := Model().At(p);
      var base := record;
      Turn(p, side.(work := VacateStore(t, base)), others, past, start);
      h := After(past, Work(p));
      Step(Work(p), p, side.(work := Releasing(t)), T.Next(tree, T.Leave(p)), Record(T.NoPeer, base.epoch + 1), shadows,
           others, h, start);
      h := After(h, Work(p));
    }

    /** `release`: the lines of the path, root side first. */
    method ReleaseTree(p: nat, t: nat, others: Interference, past: History<Event>, ghost start: State)
      returns (h: History<Event>)
      requires Inv(start) && p < start.tree.maxPeers && Foreign(others, p) && Model() == Weave(start, past, others)
      requires Own(past, p) && Model().At(p).work == Releasing(t) && Sound(tree.Phase(p))
      modifies this
      ensures Model() == Weave(start, h, others) && Own(h, p)
      ensures Model().At(p) == old(Model()).At(p) && tree.Phase(p) == T.Outside
      ensures Silent(others) && C.Spared(start.tree, old(tree), p) ==>
                C.Spared(start.tree, tree, p) && Beside(old(Model()), Model(), p)
    {
      hide Weave, Next, Run, Inv, T.Inv, T.Next, Beside;
      h := past;
      Position(start, h, others, p);
      BesideSelf(Model(), p);
      while UnderWay(tree.Phase(p))
        invariant Model() == Weave(start, h, others) && Own(h, p) && tree.maxPeers == start.tree.maxPeers
        invariant Model().At(p) == old(Model()).At(p) && Sound(tree.Phase(p)) && (tree.Phase(p).Retreating? || tree.Phase(p) == T.Outside)
        invariant Silent(others) && C.Spared(start.tree, old(tree), p) ==>
                    C.Spared(start.tree, tree, p) && Beside(old(Model()), Model(), p)
        decreases Rest(tree.Phase(p), tree.Depth()), Place(tree.Phase(p))
      {
        ghost var before := Model();
        Position(start, h, others, p);
        AccessProgress(tree, p, false);
        TreeAccess(p, false, others, h, start);
        if Silent(others) && C.Spared(start.tree, old(tree), p) {
          SparedStep(start.tree, before.tree, T.Access(p), p);
          BesideTrans(old(Model()), before, Model(), p);
        }
        h := After(h, Work(p));
      }
    }

    /** The win is given up once the tree is left. */
    method DropWin(p: nat, t: nat, others: Interference, past: History<Event>, ghost start: State)
      requires p < tree.maxPeers && Foreign(others, p) && Model() == Weave(start, past, others)
      requires Model().At(p).work == Releasing(t) && tree.Phase(p) == T.Outside
      modifies this
      ensures Model() == Weave(start, Then(past, Work(p)), others) && Quiet(old(Model()), Model(), p, others)
      ensures Model().At(p) == old(Model()).At(p).(work := Dropping(t), won := false) && tree.Phase(p) == T.Outside
    {
      hide Run;
      Turn(p, Model().At(p).(work := Dropping(t), won := false), others, past, start);
    }

    method Unpin(p: nat, t: nat, others: Interference, past: History<Event>, ghost start: State)
      requires p < tree.maxPeers && Foreign(others, p) && Model() == Weave(start, past, others)
      requires Model().At(p).work == Dropping(t)
      modifies this
      ensures Model() == Weave(start, Then(past, Work(p)), others) && Quiet(old(Model()), Model(), p, others)
      ensures var was := old(Model()).At(p);
              Model().At(p) == was.(work := Free, pins := Less(was.pins), users := was.users - {t})
      ensures tree.Phase(p) == old(tree).Phase(p)
    {
      hide Run;
      var side := Model().At(p);
      Turn(p, side.(work := Free, pins := Less(side.pins), users := side.users - {t}), others, past, start);
    }

    /** The outermost unlock: the record, then the tree, then the win. */
    method LeaveTree(p: nat, t: nat, others: Interference, past: History<Event>, ghost start: State)
      returns (h: History<Event>)
      requires Inv(start) && p < start.tree.maxPeers && Foreign(others, p) && Model() == Weave(start, past, others)
      requires Own(past, p) && Model().At(p).work == Vacating(t) && tree.Phase(p) == T.Inside
      modifies this
      ensures Model() == Weave(start, h, others) && Own(h, p)
      ensures Model().At(p) == old(Model()).At(p).(work := Dropping(t), won := false) && tree.Phase(p) == T.Outside
      ensures Silent(others) && C.Spared(start.tree, old(tree), p) ==>
                && C.Spared(start.tree, tree, p) && record == Record(T.NoPeer, old(record).epoch + 1)
                && shadows == old(shadows) && SidesBeside(old(Model()), Model(), p)
    {
      hide Weave, Next, Run, Inv, T.Inv, T.Next, PeerOk;
      Position(start, past, others, p);
      if C.Spared(start.tree, tree, p) {
        SparedStep(start.tree, tree, T.Leave(p), p);
      }
      h := Vacate(p, t, others, past, start);
      h := ReleaseTree(p, t, others, h, start);
      Position(start, h, others, p);
      DropWin(p, t, others, h, start);
      h := After(h, Work(p));
    }

    /**
     `PetersonPolicy::unlock`. The outermost one vacates the record, one epoch up, and leaves the tree; while another
     thread of the peer still has a guard, an unlock takes three steps, none of which touches tree or record.
     */
    method Unlock(p: nat, t: nat, others: Interference) returns (h: History<Event>)
      requires Inv(Model()) && p < tree.maxPeers && Foreign(others, p)
      requires Model().At(p).work == Free && t in Model().At(p).users
      modifies this
      ensures Inv(Model()) && Model() == Weave(old(Model()), h, others) && Own(h, p)
      ensures var was := old(Model()).At(p);
              && Model().At(p) == Side(Free, was.users != {t}, was.pins - 1, was.users - {t})
              && (was.users == {t} ==> record.holder != T.Named(p) && tree.Phase(p) == T.Outside)
              && (was.users != {t} ==> record.holder == T.Named(p) && h == PassSteps(p, t))
      ensures Silent(others) ==>
                var was := old(Model()).At(p);
                && SidesBeside(old(Model()), Model(), p) && C.Spared(old(tree), tree, p) && shadows == old(shadows)
                && (was.users == {t} ==> record == Record(T.NoPeer, old(record).epoch + 1))
                && (was.users != {t} ==> record == old(record) && tree == old(tree))
    {
      hide Weave, Next, Run, Inv, T.Inv, T.Next;
      AtRest(Model(), p);
      LastUser(Model().At(p).users, t);
      EnterToLeave(p, t, others);
      h := After(Start, Event.Unlock(p, t));
      Position(old(Model()), h, others, p);
      var last := ReadPins(p, t, others, h, old(Model()));
      h := After(h, Work(p));
      if last {
        h := LeaveTree(p, t, others, h, old(Model()));
      }
      Position(old(Model()), h, others, p);
      Unpin(p, t, others, h, old(Model()));
      h := After(h, Work(p));
      WeaveInv(old(Model()), h, others);
      AtRest(Model(), p);
    }
  }
}
