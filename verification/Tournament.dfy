/**
 The tournament-Peterson lock of one domain as a state machine over its shared lines
 (src/core/policy/successor_peterson.cpp).

 One event is one whole-line access by one peer, so events of different peers interleave freely. A peer
 may give up at any level, crash at any point, be scrubbed by a recovery authority and be admitted
 again. `Next` is total: an event that is not enabled changes nothing.
 */
module Tournament {
  import opened TreeGeometry

  /** What a peer line holds. */
  datatype Owner = NoPeer | Named(peer: nat)

  /** Where one peer is in `acquire` and `release`. */
  datatype Phase =
    | Outside
    | Announcing(level: nat)                     // about to store its id in the line of this level
    | Yielding(level: nat)                       // announced, about to store the turn
    | ReadingOther(level: nat)                   // about to read the opposing line
    | ReadingTurn(level: nat, sawIdle: bool)     // about to read the turn
    | Losing(level: nat)                         // probe failed, about to look at the deadline
    | Inside                                     // past the root
    | Retreating(standing: nat, won: nat)        // clearing its lines, root side first
    | Dead(standing: nat, won: nat)              // crashed with this residue

  /** The scrub of a dead peer; levels at and above `level` are done. */
  datatype Scrub = Unscrubbed | Scrubbing(level: nat, found: bool) | Scrubbed

  datatype State = State(
    maxPeers: nat,
    lines: map<ClimbStep, Owner>,
    turns: map<nat, Role>,
    phases: map<nat, Phase>,
    scrubs: map<nat, Scrub>)
  {
    function Depth(): nat { TreeGeometry.Depth(maxPeers) }

    function Line(step: ClimbStep): Owner {
      if step in lines then lines[step] else NoPeer
    }

    function Turn(node: nat): Role {
      if node in turns then turns[node] else Peer0
    }

    function Phase(p: nat): Phase {
      if p in phases then phases[p] else Outside
    }

    function Scrub(p: nat): Scrub {
      if p in scrubs then scrubs[p] else Unscrubbed
    }

    /** How many levels of its path, counted from the leaf, carry the id of `p`. */
    function Standing(p: nat): nat {
      match Phase(p)
      case Outside => 0
      case Announcing(level) => level
      case Yielding(level) => level + 1
      case ReadingOther(level) => level + 1
      case ReadingTurn(level, _) => level + 1
      case Losing(level) => level + 1
      case Inside => Depth()
      case Retreating(standing, _) => standing
      case Dead(standing, _) => standing
    }

    /** How many levels `p` has won and not given back. A climber that saw the other line idle has won. */
    function Won(p: nat): nat {
      match Phase(p)
      case Outside => 0
      case Announcing(level) => level
      case Yielding(level) => level
      case ReadingOther(level) => level
      case ReadingTurn(level, sawIdle) => if sawIdle then level + 1 else level
      case Losing(level) => level
      case Inside => Depth()
      case Retreating(_, won) => won
      case Dead(_, won) => won
    }

    /** Whether `p` has yielded the turn at `level` and may still read it. */
    predicate Waiting(p: nat, level: nat) {
      Phase(p) == ReadingOther(level) || Phase(p) == ReadingTurn(level, false) || Phase(p) == Losing(level)
    }
  }

  function Init(maxPeers: nat): State {
    State(maxPeers, map[], map[], map[], map[])
  }

  datatype Event =
    | Begin(peer: nat)         // a climb starts
    | Access(peer: nat)        // the peer's next access to a shared line
    | Expire(peer: nat)        // the deadline is found expired after a failed probe
    | Leave(peer: nat)         // the holder starts its release
    | Crash(peer: nat)
    | ScrubBegin(peer: nat)    // the authority starts scrubbing this dead peer
    | ScrubAccess(peer: nat)   // the authority's next access
    | ScrubAbort(peer: nat)    // the authority died or was deposed
    | Readmit(peer: nat)       // the freed id joins again

  function SetLine(s: State, step: ClimbStep, owner: Owner): State {
    s.(lines := s.lines[step := owner])
  }

  function SetPhase(s: State, p: nat, phase: Phase): State {
    s.(phases := s.phases[p := phase])
  }

  function SetScrub(s: State, p: nat, scrub: Scrub): State {
    s.(scrubs := s.scrubs[p := scrub])
  }

  function Min(a: nat, b: nat): nat { if a < b then a else b }

  /** The phase after `level` levels are won. */
  function Climbed(s: State, level: nat): Phase {
    if level == s.Depth() then Inside else Announcing(level)
  }

  function Retreat(standing: nat, won: nat): Phase {
    if standing == 0 then Outside else Retreating(standing, won)
  }

  /** The next access of a live peer. Levels out of range do not occur in a reachable state. */
  function NextAccess(s: State, p: nat): State {
    match s.Phase(p)
    case Announcing(level) =>
      if level >= s.Depth() then s else
      SetPhase(SetLine(s, StepAt(s.maxPeers, p, level), Named(p)), p, Yielding(level))
    case Yielding(level) =>
      if level >= s.Depth() then s else
      var step := StepAt(s.maxPeers, p, level);
      SetPhase(s.(turns := s.turns[step.node := step.role.Other()]), p, ReadingOther(level))
    case ReadingOther(level) =>
      if level >= s.Depth() then s else
      var step := StepAt(s.maxPeers, p, level);
      SetPhase(s, p, ReadingTurn(level, s.Line(ClimbStep(step.node, step.role.Other())) == NoPeer))
    case ReadingTurn(level, sawIdle) =>
      if level >= s.Depth() then s else
      var step := StepAt(s.maxPeers, p, level);
      SetPhase(s, p, if sawIdle || s.Turn(step.node) != step.role.Other() then Climbed(s, level + 1) else Losing(level))
    case Losing(level) => SetPhase(s, p, ReadingOther(level))
    case Retreating(standing, won) =>
      if standing == 0 || standing > s.Depth() then s else
      SetPhase(SetLine(s, StepAt(s.maxPeers, p, standing - 1), NoPeer), p, Retreat(standing - 1, Min(won, standing - 1)))
    case _ => s
  }

  /** The next access of the scrub of `p`: read a line, and clear it when it names `p`. */
  function NextScrub(s: State, p: nat): State {
    match (s.Phase(p), s.Scrub(p))
    case (Dead(_, won), Scrubbing(level, found)) =>
      if level == 0 then SetScrub(s, p, Scrubbed)
      else if level > s.Depth() then s
      else if found then
        SetPhase(SetScrub(SetLine(s, StepAt(s.maxPeers, p, level - 1), NoPeer), p, Scrubbing(level - 1, false)),
                 p, Dead(level - 1, Min(won, level - 1)))
      else if s.Line(StepAt(s.maxPeers, p, level - 1)) == Named(p) then SetScrub(s, p, Scrubbing(level, true))
      else SetScrub(s, p, Scrubbing(level - 1, false))
    case _ => s
  }

  function Next(s: State, e: Event): State {
    if e.peer >= s.maxPeers then s else
    var p := e.peer;
    match e
    case Begin(_) => if s.Phase(p) == Outside then SetPhase(s, p, Climbed(s, 0)) else s
    case Access(_) => NextAccess(s, p)
    case Expire(_) =>
      if s.Phase(p).Losing? then SetPhase(s, p, Retreating(s.Phase(p).level + 1, s.Phase(p).level)) else s
    case Leave(_) => if s.Phase(p) == Inside then SetPhase(s, p, Retreat(s.Depth(), s.Depth())) else s
    case Crash(_) =>
      if s.Phase(p).Dead? then s else SetPhase(SetScrub(s, p, Unscrubbed), p, Dead(s.Standing(p), s.Won(p)))
    case ScrubBegin(_) =>
      if s.Phase(p).Dead? && s.Scrub(p) == Unscrubbed then SetScrub(s, p, Scrubbing(s.Depth(), false)) else s
    case ScrubAccess(_) => NextScrub(s, p)
    case ScrubAbort(_) => if s.Scrub(p).Scrubbing? then SetScrub(s, p, Unscrubbed) else s
    case Readmit(_) => if s.Phase(p).Dead? && s.Scrub(p) == Scrubbed then SetPhase(s, p, Outside) else s
  }

  function Run(s: State, events: seq<Event>): State
    decreases |events|
  {
    if events == [] then s else Run(Next(s, events[0]), events[1..])
  }

  // ---------- the invariant ----------

  ghost predicate PhaseOk(s: State, p: nat) {
    && s.Won(p) <= s.Standing(p) <= s.Won(p) + 1
    && s.Standing(p) <= s.Depth()
    && (s.Phase(p).Announcing? ==> s.Phase(p).level < s.Depth())
  }

  ghost predicate ScrubOk(s: State, p: nat) {
    match (s.Phase(p), s.Scrub(p))
    case (Dead(standing, _), Scrubbing(level, found)) =>
      standing <= level <= s.Depth() && (found ==> standing == level > 0)
    case (Dead(standing, _), Scrubbed) => standing == 0
    case _ => true
  }

  /** The id of a peer stands on a leaf-side prefix of its own path. */
  ghost predicate PrefixStands(s: State) {
    forall p: nat, k: nat | p < s.maxPeers && k < s.Standing(p) && k < s.Depth() :: s.Line(StepAt(s.maxPeers, p, k)) == Named(p)
  }

  /** `step` is one of the lines `q` has standing. */
  ghost predicate StandsAt(s: State, q: nat, step: ClimbStep) {
    q < s.maxPeers && exists k: nat | k < s.Standing(q) && k < s.Depth() :: StepAt(s.maxPeers, q, k) == step
  }

  /** A line that names a peer is one of the lines that peer has standing. */
  ghost predicate LinesOwned(s: State) {
    forall step: ClimbStep | s.Line(step).Named? :: StandsAt(s, s.Line(step).peer, step)
  }

  /** At most one peer at a time has won its way up to a given position. */
  ghost predicate Exclusive(s: State) {
    forall p: nat, q: nat, k: nat | p < s.maxPeers && q < s.maxPeers && p != q && k <= s.Depth()
      && At(s.maxPeers, p, k) == At(s.maxPeers, q, k) ::
      !(s.Won(p) >= k && s.Won(q) >= k)
  }

  /** The turn of a node stands with its winner while the other side waits for it. */
  ghost predicate TurnHeld(s: State) {
    forall p: nat, q: nat, k: nat | p < s.maxPeers && q < s.maxPeers && p != q && k < s.Depth()
      && At(s.maxPeers, p, k + 1) == At(s.maxPeers, q, k + 1) && s.Won(p) > k && s.Waiting(q, k) ::
      s.Turn(StepAt(s.maxPeers, p, k).node) == StepAt(s.maxPeers, p, k).role
  }

  ghost predicate Inv(s: State) {
    && (forall p: nat | p < s.maxPeers :: PhaseOk(s, p) && ScrubOk(s, p))
    && PrefixStands(s)
    && LinesOwned(s)
    && Exclusive(s)
    && TurnHeld(s)
  }

  lemma InitInv(maxPeers: nat)
    ensures Inv(Init(maxPeers))
  {
    var s := Init(maxPeers);
    forall p: nat, q: nat, k: nat | p < maxPeers && q < maxPeers && p != q && k <= s.Depth()
      && At(s.maxPeers, p, k) == At(s.maxPeers, q, k)
      ensures !(s.Won(p) >= k && s.Won(q) >= k)
    {
      LeavesDistinct(maxPeers, p, q);
    }
  }

  // ---------- geometry facts in terms of a state ----------

  /** Two climbs use the same line only on the same level and from the same position. */
  lemma SameLine(s: State, p: nat, i: nat, q: nat, j: nat)
    requires i < s.Depth() && j < s.Depth() && StepAt(s.maxPeers, p, i) == StepAt(s.maxPeers, q, j)
    ensures i == j && At(s.maxPeers, p, i) == At(s.maxPeers, q, j)
  {
    AtInRange(s.maxPeers, p, i);
    AtInRange(s.maxPeers, q, j);
    Pow2Monotone(1, s.Depth() - i);
    Pow2Monotone(1, s.Depth() - j);
    StepOfInjective(At(s.maxPeers, p, i), At(s.maxPeers, q, j));
    UpLevelsDiffer(Leaf(s.maxPeers, p), Leaf(s.maxPeers, q), s.Depth(), i, j);
  }

  /** Two climbs use the same node only on the same level, just below a common position. */
  lemma SameNode(s: State, p: nat, i: nat, q: nat, j: nat)
    requires i < s.Depth() && j < s.Depth() && StepAt(s.maxPeers, p, i).node == StepAt(s.maxPeers, q, j).node
    ensures i == j && At(s.maxPeers, p, i + 1) == At(s.maxPeers, q, j + 1)
  {
    assert At(s.maxPeers, p, i + 1) == At(s.maxPeers, p, i) / 2 && At(s.maxPeers, q, j + 1) == At(s.maxPeers, q, j) / 2;
    UpLevelsDiffer(Leaf(s.maxPeers, p), Leaf(s.maxPeers, q), s.Depth(), i + 1, j + 1);
  }

  /** Below a common position, two climbs meet in one node, from one position or in opposite roles. */
  lemma CommonParent(s: State, p: nat, q: nat, k: nat)
    requires k < s.Depth() && At(s.maxPeers, p, k + 1) == At(s.maxPeers, q, k + 1)
    ensures StepAt(s.maxPeers, p, k).node == StepAt(s.maxPeers, q, k).node
    ensures At(s.maxPeers, p, k) == At(s.maxPeers, q, k) <==> StepAt(s.maxPeers, p, k).role == StepAt(s.maxPeers, q, k).role
    ensures At(s.maxPeers, p, k) != At(s.maxPeers, q, k) ==>
              StepAt(s.maxPeers, q, k) == ClimbStep(StepAt(s.maxPeers, p, k).node, StepAt(s.maxPeers, p, k).role.Other())
  {
    assert At(s.maxPeers, p, k + 1) == At(s.maxPeers, p, k) / 2 && At(s.maxPeers, q, k + 1) == At(s.maxPeers, q, k) / 2;
  }

  // ---------- one event keeps the invariant ----------

  /** Everything a lemma about an event of `p` needs from the phases of the other peers. */
  ghost predicate OthersSame(s: State, s': State, p: nat) {
    && s'.maxPeers == s.maxPeers
    && (forall q: nat | q != p :: s'.Phase(q) == s.Phase(q) && s'.Scrub(q) == s.Scrub(q))
  }

  lemma OthersOk(s: State, s': State, p: nat)
    requires Inv(s) && OthersSame(s, s', p) && PhaseOk(s', p) && ScrubOk(s', p)
    ensures forall q: nat | q < s'.maxPeers :: PhaseOk(s', q) && ScrubOk(s', q)
    ensures forall q: nat | q != p :: s'.Standing(q) == s.Standing(q) && s'.Won(q) == s.Won(q)
    ensures forall q: nat, k: nat | q != p :: s'.Waiting(q, k) == s.Waiting(q, k)
  {
    forall q: nat | q < s'.maxPeers
      ensures PhaseOk(s', q) && ScrubOk(s', q)
    {
      if q != p {
        assert PhaseOk(s, q) && ScrubOk(s, q);
      }
    }
  }

  /** Won counts that do not rise keep exclusivity. */
  lemma ExclusiveKept(s: State, s': State)
    requires Exclusive(s) && s'.maxPeers == s.maxPeers && (forall q: nat | q < s.maxPeers :: s'.Won(q) <= s.Won(q))
    ensures Exclusive(s')
  {
  }

  /** No new winner, no new waiter and no turn written: the turn invariant carries over. */
  lemma TurnKept(s: State, s': State)
    requires TurnHeld(s) && s'.maxPeers == s.maxPeers && s'.turns == s.turns
    requires forall q: nat | q < s.maxPeers :: s'.Won(q) <= s.Won(q)
    requires forall q: nat, k: nat | q < s.maxPeers && s'.Waiting(q, k) :: s.Waiting(q, k)
    ensures TurnHeld(s')
  {
  }

  lemma AnnounceInv(s: State, p: nat, k: nat)
    requires Inv(s) && p < s.maxPeers && s.Phase(p) == Announcing(k)
    ensures Inv(Next(s, Access(p)))
  {
    var s' := Next(s, Access(p));
    assert PhaseOk(s, p);
    OthersOk(s, s', p);
    ExclusiveKept(s, s');
    TurnKept(s, s');
    forall q: nat, j: nat | q < s.maxPeers && j < s'.Standing(q) && j < s.Depth()
      ensures s'.Line(StepAt(s'.maxPeers, q, j)) == Named(q)
    {
      if StepAt(s.maxPeers, q, j) == StepAt(s.maxPeers, p, k) {
        SameLine(s, q, j, p, k);
        assert PhaseOk(s, q);
      }
    }
    forall step: ClimbStep | s'.Line(step).Named?
      ensures StandsAt(s', s'.Line(step).peer, step)
    {
      if step != StepAt(s.maxPeers, p, k) {
        assert StandsAt(s, s.Line(step).peer, step);
      }
    }
  }

  lemma YieldInv(s: State, p: nat, k: nat)
    requires Inv(s) && p < s.maxPeers && s.Phase(p) == Yielding(k)
    ensures Inv(Next(s, Access(p)))
  {
    var s' := Next(s, Access(p));
    assert PhaseOk(s, p);
    OthersOk(s, s', p);
    forall a: nat, b: nat, j: nat | a < s.maxPeers && b < s.maxPeers && a != b && j < s.Depth()
      && At(s.maxPeers, a, j + 1) == At(s.maxPeers, b, j + 1) && s'.Won(a) > j && s'.Waiting(b, j)
      ensures s'.Turn(StepAt(s.maxPeers, a, j).node) == StepAt(s.maxPeers, a, j).role
    {
      if StepAt(s.maxPeers, a, j).node == StepAt(s.maxPeers, p, k).node {
        // The winner stands on the other side from p, or p would share its side with it.
        SameNode(s, a, j, p, k);
        CommonParent(s, p, a, k);
        assert At(s.maxPeers, a, k) != At(s.maxPeers, p, k);
      } else {
        assert b != p;
      }
    }
    ExclusiveKept(s, s');
    LinesKept(s, s', p);
  }

  /** Lines and standing counts unchanged: the two line invariants carry over. */
  lemma LinesKept(s: State, s': State, p: nat)
    requires Inv(s) && OthersSame(s, s', p) && s'.lines == s.lines && s'.Standing(p) == s.Standing(p)
    ensures PrefixStands(s') && LinesOwned(s')
  {
    assert forall q: nat :: s'.Standing(q) == s.Standing(q);
    forall q: nat, j: nat | q < s.maxPeers && j < s'.Standing(q) && j < s.Depth()
      ensures s'.Line(StepAt(s'.maxPeers, q, j)) == Named(q)
    {
      assert s.Line(StepAt(s.maxPeers, q, j)) == Named(q);
    }
    forall step: ClimbStep | s'.Line(step).Named?
      ensures StandsAt(s', s'.Line(step).peer, step)
    {
      assert StandsAt(s, s.Line(step).peer, step);
    }
  }

  /**
   `p` passes from `k` to `k + 1` won levels: sound when no rival below the same position has won this
   level, and the turn stands with `p` for every rival that waits.
   */
  lemma WinInv(s: State, s': State, p: nat, k: nat)
    requires Inv(s) && p < s.maxPeers && k < s.Depth() && s.Won(p) == k && s.Standing(p) == k + 1
    requires s' == SetPhase(s, p, s'.Phase(p)) && s'.Won(p) == s'.Standing(p) == k + 1
    requires PhaseOk(s', p) && ScrubOk(s', p) && (forall j: nat :: !s'.Waiting(p, j))
    requires forall q: nat | q < s.maxPeers && q != p && At(s.maxPeers, q, k + 1) == At(s.maxPeers, p, k + 1) ::
               s.Won(q) <= k && (s.Waiting(q, k) ==> s.Turn(StepAt(s.maxPeers, p, k).node) == StepAt(s.maxPeers, p, k).role)
    ensures Inv(s')
  {
    OthersOk(s, s', p);
    LinesKept(s, s', p);
    WinExclusive(s, s', p, k);
    WinTurn(s, s', p, k);
  }

  lemma WinExclusive(s: State, s': State, p: nat, k: nat)
    requires Exclusive(s) && s'.maxPeers == s.maxPeers && s.Won(p) == k && s'.Won(p) == k + 1
    requires forall q: nat | q != p :: s'.Won(q) == s.Won(q)
    requires forall q: nat | q < s.maxPeers && q != p && At(s.maxPeers, q, k + 1) == At(s.maxPeers, p, k + 1) ::
               s.Won(q) <= k
    ensures Exclusive(s')
  {
  }

  lemma WinTurn(s: State, s': State, p: nat, k: nat)
    requires TurnHeld(s) && s'.maxPeers == s.maxPeers && s.Won(p) == k && s'.Won(p) == k + 1
    requires s'.turns == s.turns && (forall j: nat :: !s'.Waiting(p, j))
    requires forall q: nat | q != p :: s'.Won(q) == s.Won(q)
    requires forall q: nat, j: nat | q != p :: s'.Waiting(q, j) == s.Waiting(q, j)
    requires k < s.Depth() && p < s.maxPeers
    requires forall q: nat | q < s.maxPeers && q != p && At(s.maxPeers, q, k + 1) == At(s.maxPeers, p, k + 1)
               && s.Waiting(q, k) ::
               s.Turn(StepAt(s.maxPeers, p, k).node) == StepAt(s.maxPeers, p, k).role
    ensures TurnHeld(s')
  {
    forall a: nat, b: nat, j: nat | a < s.maxPeers && b < s.maxPeers && a != b && j < s.Depth()
      && At(s.maxPeers, a, j + 1) == At(s.maxPeers, b, j + 1) && s'.Won(a) > j && s'.Waiting(b, j)
      ensures s'.Turn(StepAt(s.maxPeers, a, j).node) == StepAt(s.maxPeers, a, j).role
    {
      if a == p && j == k {
        assert At(s.maxPeers, b, k + 1) == At(s.maxPeers, p, k + 1);
      }
    }
  }

  lemma ReadOtherInv(s: State, p: nat, k: nat)
    requires Inv(s) && p < s.maxPeers && s.Phase(p) == ReadingOther(k)
    ensures Inv(Next(s, Access(p)))
  {
    var s' := Next(s, Access(p));
    assert PhaseOk(s, p);
    if s'.Phase(p) == ReadingTurn(k, true) {
      forall q: nat | q < s.maxPeers && q != p && At(s.maxPeers, q, k + 1) == At(s.maxPeers, p, k + 1)
        ensures s.Won(q) <= k && !s.Waiting(q, k)
      {
        // A rival on the other side would show in the line just read; one on this side is excluded.
        CommonParent(s, p, q, k);
        assert PhaseOk(s, q);
        var theirs := StepAt(s.maxPeers, q, k);
        assert s.Standing(q) > k ==> s.Line(theirs) == Named(q);
      }
      WinInv(s, s', p, k);
    } else {
      PhaseOnlyInv(s, s', p);
    }
  }

  lemma ReadTurnInv(s: State, p: nat, k: nat, sawIdle: bool)
    requires Inv(s) && p < s.maxPeers && s.Phase(p) == ReadingTurn(k, sawIdle)
    ensures Inv(Next(s, Access(p)))
  {
    var s' := Next(s, Access(p));
    assert PhaseOk(s, p);
    if !sawIdle && !s'.Phase(p).Losing? {
      forall q: nat | q < s.maxPeers && q != p && At(s.maxPeers, q, k + 1) == At(s.maxPeers, p, k + 1)
        ensures s.Won(q) <= k
      {
        // A winner on the other side would hold the turn.
        CommonParent(s, p, q, k);
        assert s.Waiting(p, k);
      }
      WinInv(s, s', p, k);
    } else {
      PhaseOnlyInv(s, s', p);
    }
  }

  /** Taking the topmost line of `p` down. */
  lemma ClearInv(s: State, s': State, p: nat, k: nat)
    requires Inv(s) && p < s.maxPeers && OthersSame(s, s', p) && s.Standing(p) == k + 1 <= s.Depth()
    requires s'.turns == s.turns && s'.lines == s.lines[StepAt(s.maxPeers, p, k) := NoPeer]
    requires s'.Standing(p) == k && s'.Won(p) == Min(s.Won(p), k)
    requires PhaseOk(s', p) && ScrubOk(s', p) && (forall j: nat :: !s'.Waiting(p, j))
    ensures Inv(s')
  {
    OthersOk(s, s', p);
    ExclusiveKept(s, s');
    TurnKept(s, s');
    ClearPrefix(s, s', p, k);
    ClearOwned(s, s', p, k);
  }

  lemma ClearPrefix(s: State, s': State, p: nat, k: nat)
    requires PrefixStands(s) && p < s.maxPeers && s'.maxPeers == s.maxPeers && k < s.Standing(p) && k < s.Depth()
    requires s'.lines == s.lines[StepAt(s.maxPeers, p, k) := NoPeer]
    requires s'.Standing(p) == k && (forall q: nat | q != p :: s'.Standing(q) == s.Standing(q))
    ensures PrefixStands(s')
  {
    assert s.Line(StepAt(s.maxPeers, p, k)) == Named(p);
    forall q: nat, j: nat | q < s.maxPeers && j < s'.Standing(q) && j < s.Depth()
      ensures s'.Line(StepAt(s'.maxPeers, q, j)) == Named(q)
    {
      assert s.Line(StepAt(s.maxPeers, q, j)) == Named(q);
      if StepAt(s.maxPeers, q, j) == StepAt(s.maxPeers, p, k) {
        SameLine(s, q, j, p, k);
      }
    }
  }

  lemma ClearOwned(s: State, s': State, p: nat, k: nat)
    requires LinesOwned(s) && s'.maxPeers == s.maxPeers && s.Standing(p) == k + 1 && k < s.Depth()
    requires s'.lines == s.lines[StepAt(s.maxPeers, p, k) := NoPeer]
    requires s'.Standing(p) == k && (forall q: nat | q != p :: s'.Standing(q) == s.Standing(q))
    ensures LinesOwned(s')
  {
    forall step: ClimbStep | s'.Line(step).Named?
      ensures StandsAt(s', s'.Line(step).peer, step)
    {
      var q := s.Line(step).peer;
      assert StandsAt(s, q, step);
      var j: nat :| j < s.Standing(q) && j < s.Depth() && StepAt(s.maxPeers, q, j) == step;
      assert j < s'.Standing(q);
    }
  }

  /** A line on the path of `q` that names `p` is a line `p` has standing on that level. */
  lemma OwnerStands(s: State, p: nat, q: nat, k: nat)
    requires LinesOwned(s) && k < s.Depth() && s.Line(StepAt(s.maxPeers, q, k)) == Named(p)
    ensures p < s.maxPeers && k < s.Standing(p) && At(s.maxPeers, p, k) == At(s.maxPeers, q, k)
  {
    var step := StepAt(s.maxPeers, q, k);
    assert StandsAt(s, p, step);
    var j: nat :| j < s.Standing(p) && j < s.Depth() && StepAt(s.maxPeers, p, j) == step;
    SameLine(s, p, j, q, k);
  }

  /** Only the phase of `p` changes, its counts stay and it waits for nothing new. */
  lemma PhaseOnlyInv(s: State, s': State, p: nat)
    requires Inv(s) && p < s.maxPeers && OthersSame(s, s', p) && s'.lines == s.lines && s'.turns == s.turns
    requires s'.Standing(p) == s.Standing(p) && s'.Won(p) == s.Won(p) && PhaseOk(s', p) && ScrubOk(s', p)
    requires forall j: nat :: s'.Waiting(p, j) ==> s.Waiting(p, j)
    ensures Inv(s')
  {
    OthersOk(s, s', p);
    LinesKept(s, s', p);
    ExclusiveKept(s, s');
    TurnKept(s, s');
  }

  lemma AccessInv(s: State, p: nat)
    requires Inv(s) && p < s.maxPeers
    ensures Inv(Next(s, Access(p)))
  {
    assert PhaseOk(s, p) && ScrubOk(s, p);
    match s.Phase(p)
    case Announcing(k) => AnnounceInv(s, p, k);
    case Yielding(k) => YieldInv(s, p, k);
    case ReadingOther(k) => ReadOtherInv(s, p, k);
    case ReadingTurn(k, sawIdle) => ReadTurnInv(s, p, k, sawIdle);
    case Losing(k) => PhaseOnlyInv(s, Next(s, Access(p)), p);
    case Retreating(standing, won) =>
      if standing > 0 {
        ClearInv(s, Next(s, Access(p)), p, standing - 1);
      }
    case _ =>
  }

  lemma ScrubInv(s: State, p: nat)
    requires Inv(s) && p < s.maxPeers
    ensures Inv(Next(s, ScrubAccess(p)))
  {
    assert PhaseOk(s, p) && ScrubOk(s, p);
    var s' := Next(s, ScrubAccess(p));
    match (s.Phase(p), s.Scrub(p))
    case (Dead(standing, _), Scrubbing(level, found)) =>
      if level > 0 && found {
        ClearInv(s, s', p, level - 1);
      } else {
        if level > 0 && standing == level {
          assert s.Line(StepAt(s.maxPeers, p, level - 1)) == Named(p);
        }
        if level > 0 && s.Line(StepAt(s.maxPeers, p, level - 1)) == Named(p) {
          OwnerStands(s, p, p, level - 1);
        }
        PhaseOnlyInv(s, s', p);
      }
    case _ =>
  }

  /** `e` moves the phase of its peer without changing what that peer holds. */
  ghost predicate HoldsSame(s: State, e: Event) {
    var s', p := Next(s, e), e.peer;
    && OthersSame(s, s', p) && s'.lines == s.lines && s'.turns == s.turns
    && PhaseOk(s', p) && ScrubOk(s', p)
    && s'.Standing(p) == s.Standing(p) && s'.Won(p) == s.Won(p)
    && (forall j: nat :: s'.Waiting(p, j) ==> s.Waiting(p, j))
  }

  lemma PeerStep(s: State, e: Event)
    requires e.peer < s.maxPeers && PhaseOk(s, e.peer) && ScrubOk(s, e.peer)
    requires e.Begin? || e.Expire? || e.Leave?
    ensures HoldsSame(s, e)
  {
    var s', p := Next(s, e), e.peer;
    assert s' == s || s' == SetPhase(s, p, s'.Phase(p));
    assert OthersSame(s, s', p);
  }

  lemma CrashStep(s: State, e: Event)
    requires e.peer < s.maxPeers && PhaseOk(s, e.peer) && ScrubOk(s, e.peer) && e.Crash?
    ensures HoldsSame(s, e)
  {
  }

  lemma ScrubStep(s: State, e: Event)
    requires e.peer < s.maxPeers && PhaseOk(s, e.peer) && ScrubOk(s, e.peer)
    requires e.ScrubBegin? || e.ScrubAbort? || e.Readmit?
    ensures HoldsSame(s, e)
  {
  }

  lemma LocalInv(s: State, e: Event)
    requires Inv(s) && e.peer < s.maxPeers && !e.Access? && !e.ScrubAccess?
    ensures Inv(Next(s, e))
  {
    assert PhaseOk(s, e.peer) && ScrubOk(s, e.peer);
    if e.Begin? || e.Expire? || e.Leave? {
      PeerStep(s, e);
    } else if e.Crash? {
      CrashStep(s, e);
    } else {
      ScrubStep(s, e);
    }
    PhaseOnlyInv(s, Next(s, e), e.peer);
  }

  lemma NextInv(s: State, e: Event)
    requires Inv(s)
    ensures Inv(Next(s, e))
  {
    if e.peer < s.maxPeers {
      match e
      case Access(p) => AccessInv(s, p);
      case ScrubAccess(p) => ScrubInv(s, p);
      case _ => LocalInv(s, e);
    }
  }

  lemma {:induction false} RunInv(s: State, events: seq<Event>)
    requires Inv(s)
    ensures Inv(Run(s, events))
    decreases |events|
  {
    if events != [] {
      NextInv(s, events[0]);
      RunInv(Next(s, events[0]), events[1..]);
    }
  }

  lemma ReachableInv(maxPeers: nat, events: seq<Event>)
    ensures Inv(Run(Init(maxPeers), events))
  {
    InitInv(maxPeers);
    RunInv(Init(maxPeers), events);
  }

  lemma {:induction false} RunKeepsSize(s: State, events: seq<Event>)
    ensures Run(s, events).maxPeers == s.maxPeers
    decreases |events|
  {
    if events != [] {
      RunKeepsSize(Next(s, events[0]), events[1..]);
    }
  }

  // ---------- main theorems ----------

  /**
   Mutual exclusion, for any number of peers and any run: while one peer is past the root, no other peer
   holds the root in any form, whether it is inside, still releasing or dead with its residue standing.
   */
  lemma MutualExclusion(maxPeers: nat, events: seq<Event>, p: nat, q: nat)
    requires p < maxPeers && q < maxPeers && p != q
    requires Run(Init(maxPeers), events).Phase(p) == Inside
    ensures Run(Init(maxPeers), events).Won(q) < Depth(maxPeers)
    ensures Run(Init(maxPeers), events).Phase(q) != Inside
  {
    var s := Run(Init(maxPeers), events);
    ReachableInv(maxPeers, events);
    RunKeepsSize(Init(maxPeers), events);
    AtRoot(maxPeers, p);
    AtRoot(maxPeers, q);
    assert !(s.Won(p) >= s.Depth() && s.Won(q) >= s.Depth());
  }

  /** At every point of every run, a crash included, the id of `p` stands on exactly a leaf-side prefix of its path. */
  lemma StandsOnPrefix(maxPeers: nat, events: seq<Event>, p: nat, k: nat)
    requires p < maxPeers && k < Depth(maxPeers)
    ensures var s := Run(Init(maxPeers), events);
            s.Line(StepAt(maxPeers, p, k)) == Named(p) <==> k < s.Standing(p)
  {
    ReachableInv(maxPeers, events);
    RunKeepsSize(Init(maxPeers), events);
    var s := Run(Init(maxPeers), events);
    if s.Line(StepAt(s.maxPeers, p, k)) == Named(p) {
      OwnerStands(s, p, p, k);
    }
  }

  /** A scrub of `p` changes no line but those that name `p`, so it never takes a live announcement down. */
  lemma ScrubSparesOthers(maxPeers: nat, events: seq<Event>, p: nat, step: ClimbStep)
    ensures var s := Run(Init(maxPeers), events);
            Next(s, ScrubAccess(p)).Line(step) != s.Line(step) ==> s.Line(step) == Named(p)
  {
    ReachableInv(maxPeers, events);
    RunKeepsSize(Init(maxPeers), events);
    var s := Run(Init(maxPeers), events);
    if p < maxPeers && s.Phase(p).Dead? && s.Scrub(p).Scrubbing? && s.Scrub(p).found {
      assert ScrubOk(s, p) && PhaseOk(s, p);
      var level := s.Scrub(p).level;
      assert s.Line(StepAt(s.maxPeers, p, level - 1)) == Named(p);
    }
  }

  /** A finished scrub leaves no line naming the dead peer. */
  lemma ScrubIsComplete(maxPeers: nat, events: seq<Event>, p: nat, step: ClimbStep)
    requires p < maxPeers
    requires var s := Run(Init(maxPeers), events); s.Phase(p).Dead? && s.Scrub(p) == Scrubbed
    ensures Run(Init(maxPeers), events).Line(step) != Named(p)
  {
    ReachableInv(maxPeers, events);
    RunKeepsSize(Init(maxPeers), events);
    var s := Run(Init(maxPeers), events);
    assert ScrubOk(s, p);
    assert s.Line(step) == Named(p) ==> StandsAt(s, p, step);
  }

  /** Whether a probe of `p` started now, with nobody else moving, wins its level. */
  predicate ProbeWins(s: State, p: nat)
    requires s.Phase(p).ReadingOther? && s.Phase(p).level < s.Depth()
  {
    var step := StepAt(s.maxPeers, p, s.Phase(p).level);
    s.Line(ClimbStep(step.node, step.role.Other())) == NoPeer || s.Turn(step.node) != step.role.Other()
  }

  lemma {:induction false} HighestClimber(s: State, bound: nat) returns (top: nat)
    requires exists p: nat | p < bound :: s.Phase(p).ReadingOther?
    ensures top < bound && s.Phase(top).ReadingOther?
    ensures forall q: nat | q < bound && s.Phase(q).ReadingOther? :: s.Phase(q).level <= s.Phase(top).level
  {
    if exists p: nat | p < bound - 1 :: s.Phase(p).ReadingOther? {
      top := HighestClimber(s, bound - 1);
      if s.Phase(bound - 1).ReadingOther? && s.Phase(bound - 1).level > s.Phase(top).level {
        top := bound - 1;
      }
    } else {
      top := bound - 1;
    }
  }

  /**
   No deadlock: when every peer in the tree is waiting for a level and at least one is, some waiter's
   probe wins. Nobody outside the tree, alive or dead, can hold the climbers up.
   */
  lemma NoDeadlock(maxPeers: nat, events: seq<Event>) returns (winner: nat)
    requires var s := Run(Init(maxPeers), events);
             && (forall p: nat | p < maxPeers :: s.Phase(p).ReadingOther? || s.Standing(p) == 0)
             && (exists p: nat | p < maxPeers :: s.Phase(p).ReadingOther?)
    ensures var s := Run(Init(maxPeers), events);
            && winner < maxPeers && s.Phase(winner).ReadingOther? && s.Phase(winner).level < s.Depth()
            && ProbeWins(s, winner)
  {
    ReachableInv(maxPeers, events);
    RunKeepsSize(Init(maxPeers), events);
    var s := Run(Init(maxPeers), events);
    winner := HighestClimber(s, maxPeers);
    assert PhaseOk(s, winner);
    var k := s.Phase(winner).level;
    if !ProbeWins(s, winner) {
      // The turn lets the rival pass, and the rival is on the same level, or it would be the highest.
      winner := RivalOf(s, winner, k);
    }
  }

  /** The peer standing on the other line of a node where `p` is the highest climber. */
  lemma RivalOf(s: State, p: nat, k: nat) returns (q: nat)
    requires Inv(s) && p < s.maxPeers && s.Phase(p) == ReadingOther(k) && k < s.Depth() && !ProbeWins(s, p)
    requires forall r: nat | r < s.maxPeers :: s.Phase(r).ReadingOther? || s.Standing(r) == 0
    requires forall r: nat | r < s.maxPeers && s.Phase(r).ReadingOther? :: s.Phase(r).level <= k
    ensures q < s.maxPeers && s.Phase(q) == ReadingOther(k) && ProbeWins(s, q)
  {
    var step := StepAt(s.maxPeers, p, k);
    var rivalLine := ClimbStep(step.node, step.role.Other());
    q := s.Line(rivalLine).peer;
    assert StandsAt(s, q, rivalLine);
    var j: nat :| j < s.Standing(q) && j < s.Depth() && StepAt(s.maxPeers, q, j) == rivalLine;
    SameNode(s, p, k, q, j);
    assert PhaseOk(s, q);
  }

  // ---------- a peer dies and comes back ----------

  /** `n` accesses of the scrub of `p`. */
  function Scrubs(s: State, p: nat, n: nat): State
    decreases n
  {
    if n == 0 then s else Scrubs(Next(s, ScrubAccess(p)), p, n - 1)
  }

  /** A scrub under way comes to its end, and moves nobody else. */
  lemma {:induction false} ScrubEnds(s: State, p: nat) returns (n: nat)
    requires Inv(s) && p < s.maxPeers && s.Phase(p).Dead? && s.Scrub(p).Scrubbing?
    ensures var s' := Scrubs(s, p, n);
            Inv(s') && s'.maxPeers == s.maxPeers && s'.Phase(p).Dead? && s'.Scrub(p) == Scrubbed && OthersStand(s, s', p)
    decreases s.Scrub(p).level, !s.Scrub(p).found
  {
    var s1 := Next(s, ScrubAccess(p));
    NextInv(s, ScrubAccess(p));
    ScrubAdvances(s, p);
    if s1.Scrub(p) == Scrubbed {
      n := 1;
      assert Scrubs(s, p, 1) == Scrubs(s1, p, 0);
    } else {
      var rest := ScrubEnds(s1, p);
      n := rest + 1;
    }
  }

  ghost predicate OthersStand(s: State, s': State, p: nat) {
    forall q: nat | q < s.maxPeers && q != p :: s'.Phase(q) == s.Phase(q) && s'.Scrub(q) == s.Scrub(q)
  }

  lemma ScrubAdvances(s: State, p: nat)
    requires Inv(s) && p < s.maxPeers && s.Phase(p).Dead? && s.Scrub(p).Scrubbing?
    ensures var s' := Next(s, ScrubAccess(p));
            && s'.maxPeers == s.maxPeers && s'.Phase(p).Dead? && OthersStand(s, s', p)
            && match s'.Scrub(p)
               case Unscrubbed => false
               case Scrubbed => true
               case Scrubbing(level, found) => level < s.Scrub(p).level || (level == s.Scrub(p).level && found && !s.Scrub(p).found)
  {
    assert ScrubOk(s, p);
  }

  /**
   From anywhere in its climb a peer can die, be scrubbed, even after a scrub that broke off, and come back outside the
   tree with no line naming it, while nobody else moves.
   */
  lemma DeadPeerReturns(s: State, p: nat, step: ClimbStep) returns (n: nat)
    requires Inv(s) && p < s.maxPeers
    ensures var begun := Next(Next(Next(s, Crash(p)), ScrubAbort(p)), ScrubBegin(p));
            var s' := Next(Scrubs(begun, p, n), Readmit(p));
            Inv(s') && s'.Phase(p) == Outside && s'.Line(step) != Named(p) && OthersStand(s, s', p)
  {
    hide Next, Inv;
    var dead := Next(s, Crash(p));
    var broken := Next(dead, ScrubAbort(p));
    var begun := Next(broken, ScrubBegin(p));
    NextInv(s, Crash(p));
    NextInv(dead, ScrubAbort(p));
    NextInv(broken, ScrubBegin(p));
    Dies(s, p);
    BreaksOff(dead, p);
    BeginsScrub(broken, p);
    n := 0;
    if begun.Scrub(p) != Scrubbed {
      n := ScrubEnds(begun, p);
    }
    Readmits(Scrubs(begun, p, n), p, step);
  }

  lemma Dies(s: State, p: nat)
    requires p < s.maxPeers
    ensures var s' := Next(s, Crash(p)); s'.maxPeers == s.maxPeers && s'.Phase(p).Dead? && OthersStand(s, s', p)
  {
    hide NextAccess, NextScrub;
  }

  lemma BreaksOff(s: State, p: nat)
    requires p < s.maxPeers && s.Phase(p).Dead?
    ensures var s' := Next(s, ScrubAbort(p));
            s'.maxPeers == s.maxPeers && s'.Phase(p).Dead? && !s'.Scrub(p).Scrubbing? && OthersStand(s, s', p)
  {
    hide NextAccess, NextScrub;
  }

  lemma BeginsScrub(s: State, p: nat)
    requires p < s.maxPeers && s.Phase(p).Dead? && !s.Scrub(p).Scrubbing?
    ensures var s' := Next(s, ScrubBegin(p));
            && s'.maxPeers == s.maxPeers && s'.Phase(p).Dead? && OthersStand(s, s', p)
            && (s'.Scrub(p) == Scrubbed || s'.Scrub(p).Scrubbing?)
  {
    hide NextAccess, NextScrub;
  }

  lemma Readmits(s: State, p: nat, step: ClimbStep)
    requires Inv(s) && p < s.maxPeers && s.Phase(p).Dead? && s.Scrub(p) == Scrubbed
    ensures var s' := Next(s, Readmit(p));
            Inv(s') && s'.maxPeers == s.maxPeers && s'.Phase(p) == Outside && s'.Line(step) != Named(p) && OthersStand(s, s', p)
  {
    hide NextAccess, NextScrub;
    NextInv(s, Readmit(p));
    assert ScrubOk(s, p);
    assert s.Line(step) == Named(p) ==> StandsAt(s, p, step);
  }
}
