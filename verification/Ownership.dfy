/**
 Ownership of one domain on the guarded path (src/core/algo/ownership_transfer.cpp,
 src/core/runtime/local_domain_view.cpp, src/core/policy/successor_request.cpp, src/core/algo/recovery.cpp):
 a truth record and per-group shadow copies, a pin word with a transfer latch in every peer, a holder belief
 that may be stale, crashes at any point, and the seizure of a dead holder's domain.

 One event is one access to a shared line or to the pin word. Peers and workers are unbounded in number. A
 peer that dies takes no further step; only dead peers are seized from, by one authority at a time.
 */
module Ownership {
  import opened Basics

  /** What one seizure adds to the epoch: the configured gap, and the one every takeover adds. */
  const SEIZE_EPOCH_GAP: nat := 8

  datatype Record = Record(holder: nat, epoch: nat)

  datatype Worker =
    | Away
    | Pinned                    // about to look at the belief
    | Resident                  // believed holder, about to read the truth
    | Disproved                 // about to drop the belief
    | Waiting                   // about to read the group shadow
    | Confirming                // the shadow showed a new edge, about to read the truth
    | Adopting(epoch: nat)      // the truth names this peer, about to adopt
    | Using
    | GivingUp                  // about to unpin

  datatype Pin = Count(pins: nat) | Transferring

  /** The one guarded transfer a peer can have in flight. */
  datatype Transfer =
    | Idle
    | Checking(to: nat)                 // latched, about to read the truth
    | Losing(to: nat, base: nat)        // about to drop the belief
    | Shadowing(to: nat, base: nat)     // about to store the shadow
    | Truthing(to: nat, base: nat)      // about to store the truth
    | Ending                            // about to open the latch

  /** The poll thread's belief pass. */
  datatype Reconcile = Rested | Dropping | Rechecking

  datatype Local = Local(
    alive: bool,
    pin: Pin,
    belief: bool,
    baseline: nat,
    workers: map<nat, Worker>,
    transfer: Transfer,
    reconcile: Reconcile)
  {
    function At(w: nat): Worker {
      if w in workers then workers[w] else Away
    }

    function Inside(): set<nat> {
      set w | w in workers && workers[w] != Away
    }

    predicate Uses(w: nat) {
      At(w).Adopting? || At(w) == Using
    }
  }

  const FRESH := Local(true, Count(0), false, 0, map[], Idle, Rested)

  /** The recovery authority's seizure in flight, if any. */
  datatype Seizure =
    | NoSeizure
    | Read(authority: nat, base: Record)       // about to store its shadow
    | Stored(authority: nat, base: Record)     // about to store the truth
    | Taken(authority: nat, epoch: nat)        // about to adopt

  datatype State = State(
    groupSize: Positive,
    truth: Record,
    shadows: map<nat, Record>,
    locals: map<nat, Local>,
    seizure: Seizure,
    history: seq<Record>,     // every truth so far, the latest last
    orphans: set<Record>)     // shadows whose ordinary transfer died before its truth store
  {
    function At(p: nat): Local {
      if p in locals then locals[p] else FRESH
    }

    function Group(p: nat): nat {
      p / groupSize
    }

    function Shadow(p: nat): Record {
      if Group(p) in shadows then shadows[Group(p)] else Record(0, 0)
    }

    predicate Alive(p: nat) {
      At(p).alive
    }
  }

  /** A domain just created: whatever its slot held before stands in the other groups' shadows. */
  function Init(groupSize: Positive, created: Record, leftover: map<nat, Record>): State {
    State(groupSize, created, leftover[created.holder / groupSize := created], map[], NoSeizure, [created], {})
  }

  datatype Event =
    | Sync(peer: nat)                           // joins the domain: baseline and belief from the truth
    | Pin(peer: nat, worker: nat)
    | Step(peer: nat, worker: nat)              // the worker's next access
    | Again(peer: nat, worker: nat)             // a second wait starts over at the belief
    | Expire(peer: nat, worker: nat)
    | Unpin(peer: nat, worker: nat)
    | Begin(peer: nat, to: nat)                 // tries the transfer latch
    | Carry(peer: nat)                          // the transfer's next access
    | Poll(peer: nat)                           // the belief pass's next access
    | Seize(peer: nat)                          // the authority reads a truth that names a dead peer
    | Press(peer: nat)                          // the seizure's next access
    | Die(peer: nat)

  function With(s: State, p: nat, l: Local): State {
    s.(locals := s.locals[p := l])
  }

  function WithWorker(l: Local, w: nat, phase: Worker): Local {
    l.(workers := l.workers[w := phase])
  }

  function StoreShadow(s: State, r: Record): State {
    s.(shadows := s.shadows[s.Group(r.holder) := r])
  }

  function StoreTruth(s: State, r: Record): State {
    s.(truth := r, history := s.history + [r])
  }

  function Larger(a: nat, b: nat): nat {
    if a < b then b else a
  }

  function NextWorker(s: State, p: nat, w: nat): State {
    var l := s.At(p);
    match l.At(w)
    case Pinned => With(s, p, WithWorker(l, w, if l.belief then Resident else Waiting))
    case Resident => With(s, p, WithWorker(l, w, if s.truth.holder == p then Using else Disproved))
    case Disproved => With(s, p, WithWorker(l, w, Waiting).(belief := false))
    case Waiting =>
      if s.Shadow(p).holder == p && s.Shadow(p).epoch > l.baseline then With(s, p, WithWorker(l, w, Confirming)) else s
    case Confirming => With(s, p, WithWorker(l, w, if s.truth.holder == p then Adopting(s.truth.epoch) else Waiting))
    case Adopting(epoch) => With(s, p, WithWorker(l, w, Using).(belief := true, baseline := Larger(epoch, l.baseline)))
    case _ => s
  }

  function NextTransfer(s: State, p: nat): State {
    var l := s.At(p);
    match l.transfer
    case Idle => s
    case Checking(to) =>
      With(s, p, l.(transfer := if s.truth.holder == p then Losing(to, s.truth.epoch) else Ending))
    case Losing(to, base) => With(s, p, l.(belief := false, transfer := Shadowing(to, base)))
    case Shadowing(to, base) => With(StoreShadow(s, Record(to, base + 1)), p, l.(transfer := Truthing(to, base)))
    case Truthing(to, base) => With(StoreTruth(s, Record(to, base + 1)), p, l.(transfer := Ending))
    case Ending => With(s, p, l.(transfer := Idle, pin := Count(0)))
  }

  function NextReconcile(s: State, p: nat): State {
    var l := s.At(p);
    match l.reconcile
    case Rested => if s.truth.holder == p then With(s, p, l.(belief := true)) else With(s, p, l.(reconcile := Dropping))
    case Dropping => With(s, p, l.(belief := false, reconcile := Rechecking))
    case Rechecking => With(s, p, l.(belief := l.belief || s.truth.holder == p, reconcile := Rested))
  }

  function Seized(authority: nat, base: Record): Record {
    Record(authority, base.epoch + SEIZE_EPOCH_GAP + 1)
  }

  function NextSeizure(s: State, a: nat): State {
    match s.seizure
    case NoSeizure => s
    case Read(authority, base) =>
      if authority == a then StoreShadow(s, Seized(a, base)).(seizure := Stored(a, base)) else s
    case Stored(authority, base) =>
      if authority == a then StoreTruth(s, Seized(a, base)).(seizure := Taken(a, Seized(a, base).epoch)) else s
    case Taken(authority, epoch) =>
      if authority == a
      then With(s, a, s.At(a).(belief := true, baseline := Larger(epoch, s.At(a).baseline))).(seizure := NoSeizure)
      else s
  }

  function Next(s: State, e: Event): State {
    var p := e.peer;
    var l := s.At(p);
    if !l.alive then s else
    match e
    case Sync(_) =>
      if l.Inside() == {} && l.pin == Count(0)
      then With(s, p, l.(belief := s.truth.holder == p, baseline := s.truth.epoch)) else s
    case Pin(_, w) =>
      if l.pin.Count? && l.At(w) == Away then With(s, p, WithWorker(l, w, Pinned).(pin := Count(l.pin.pins + 1))) else s
    case Step(_, w) => NextWorker(s, p, w)
    case Again(_, w) => if l.At(w) == Waiting then With(s, p, WithWorker(l, w, Pinned)) else s
    case Expire(_, w) => if l.At(w) == Waiting then With(s, p, WithWorker(l, w, GivingUp)) else s
    case Unpin(_, w) =>
      if (l.At(w) == Using || l.At(w) == GivingUp) && l.pin.Count? && l.pin.pins > 0
      then With(s, p, WithWorker(l, w, Away).(pin := Count(l.pin.pins - 1))) else s
    case Begin(_, to) =>
      if l.pin == Count(0) && to != p then With(s, p, l.(pin := Transferring, transfer := Checking(to))) else s
    case Carry(_) => NextTransfer(s, p)
    case Poll(_) => NextReconcile(s, p)
    case Seize(_) =>
      if s.seizure == NoSeizure && !s.Alive(s.truth.holder) then s.(seizure := Read(p, s.truth)) else s
    case Press(_) => NextSeizure(s, p)
    case Die(_) =>
      With(s, p, l.(alive := false)).(
        seizure := if s.seizure != NoSeizure && s.seizure.authority == p then NoSeizure else s.seizure,
        orphans := if l.transfer.Truthing? then s.orphans + {Record(l.transfer.to, l.transfer.base + 1)} else s.orphans)
  }

  function Run(s: State, events: seq<Event>): State
    decreases |events|
  {
    if events == [] then s else Run(Next(s, events[0]), events[1..])
  }

  // ---------- the invariant ----------

  /** The pin word counts the workers inside, and the latch excludes them. */
  ghost predicate PinOk(l: Local) {
    match l.pin
    case Count(pins) => pins == |l.Inside()| && l.transfer == Idle
    case Transferring => l.Inside() == {} && l.transfer != Idle
  }

  /** A transfer past its check works from the current truth, which names its peer. */
  ghost predicate TransferOk(s: State, p: nat) {
    match s.At(p).transfer
    case Losing(_, base) => s.truth == Record(p, base)
    case Shadowing(_, base) => s.truth == Record(p, base)
    case Truthing(to, base) => s.truth == Record(p, base) && s.Shadow(to) == Record(to, base + 1)
    case _ => true
  }

  ghost predicate WorkersOk(s: State, p: nat) {
    forall w: nat | s.At(p).Uses(w) ::
      s.truth.holder == p && (s.At(p).At(w).Adopting? ==> s.At(p).At(w).epoch <= s.truth.epoch)
  }

  ghost predicate LocalOk(s: State, p: nat) {
    s.Alive(p) ==> PinOk(s.At(p)) && TransferOk(s, p) && WorkersOk(s, p) && s.At(p).baseline <= s.truth.epoch
  }

  ghost predicate SeizureOk(s: State) {
    match s.seizure
    case NoSeizure => true
    case Read(a, base) => s.truth == base && !s.Alive(base.holder)
    case Stored(a, base) => s.truth == base && !s.Alive(base.holder) && s.Shadow(a) == Seized(a, base)
    case Taken(a, epoch) => epoch <= s.truth.epoch
  }

  /** A live holder's group shadow agrees with the truth, unless that holder is between its two stores. */
  ghost predicate ShadowOk(s: State) {
    s.Alive(s.truth.holder) ==> s.Shadow(s.truth.holder) == s.truth || s.At(s.truth.holder).transfer.Truthing?
  }

  ghost predicate HistoryOk(s: State) {
    && |s.history| > 0 && s.history[|s.history| - 1] == s.truth
    && forall i, j | 0 <= i < j < |s.history| :: s.history[i].epoch < s.history[j].epoch
  }

  ghost predicate OrphanOk(s: State, o: Record) {
    && o.epoch <= s.truth.epoch + 1 && (o.epoch == s.truth.epoch + 1 ==> !s.Alive(s.truth.holder))
    && forall i | 0 <= i < |s.history| :: s.history[i].epoch != o.epoch
  }

  ghost predicate Shared(s: State) {
    SeizureOk(s) && ShadowOk(s) && HistoryOk(s) && forall o | o in s.orphans :: OrphanOk(s, o)
  }

  ghost predicate Inv(s: State) {
    Shared(s) && forall p: nat :: LocalOk(s, p)
  }

  lemma InitInv(groupSize: Positive, created: Record, leftover: map<nat, Record>)
    ensures Inv(Init(groupSize, created, leftover))
  {
  }

  // ---------- steps that leave the shared lines alone ----------

  lemma InsideAfter(l: Local, w: nat, phase: Worker)
    ensures WithWorker(l, w, phase).Inside() == if phase == Away then l.Inside() - {w} else l.Inside() + {w}
  {
    var l' := WithWorker(l, w, phase);
    assert forall v: nat :: v in l'.Inside() <==> if v == w then phase != Away else v in l.Inside();
  }

  lemma WorkerAfter(l: Local, w: nat, phase: Worker, v: nat)
    ensures WithWorker(l, w, phase).At(v) == if v == w then phase else l.At(v)
    ensures w in l.Inside() <==> l.At(w) != Away
  {
  }

  /** A new local view of a live peer, kept alive, with the shared lines as they were. */
  lemma PrivateStep(s: State, p: nat, l: Local)
    requires Inv(s) && s.Alive(p) && l.alive && LocalOk(With(s, p, l), p)
    requires l.transfer.Truthing? == s.At(p).transfer.Truthing?
    ensures Inv(With(s, p, l))
  {
    var s' := With(s, p, l);
    forall q: nat
      ensures LocalOk(s', q)
    {
      assert LocalOk(s, q);
    }
    assert forall q: nat :: s'.Alive(q) == s.Alive(q);
    assert forall o | o in s.orphans :: OrphanOk(s, o) && OrphanOk(s', o);
  }

  /** One worker moves; what its new phase claims must be true. */
  lemma WorkerMoves(s: State, p: nat, w: nat, phase: Worker, belief: bool, baseline: nat)
    requires Inv(s) && s.Alive(p) && s.At(p).At(w) != Away && phase != Away && baseline <= s.truth.epoch
    requires phase.Adopting? || phase == Using ==> s.truth.holder == p
    requires phase.Adopting? ==> phase.epoch <= s.truth.epoch
    ensures Inv(With(s, p, WithWorker(s.At(p), w, phase).(belief := belief, baseline := baseline)))
  {
    var l := s.At(p);
    var l' := WithWorker(l, w, phase).(belief := belief, baseline := baseline);
    var s' := With(s, p, l');
    assert LocalOk(s, p);
    assert l'.Inside() == l.Inside() by {
      InsideAfter(l, w, phase);
      WorkerAfter(l, w, phase, w);
      assert l'.Inside() == WithWorker(l, w, phase).Inside();
    }
    assert WorkersOk(s', p) by {
      forall v: nat | l'.Uses(v)
        ensures s'.truth.holder == p && (l'.At(v).Adopting? ==> l'.At(v).epoch <= s'.truth.epoch)
      {
        WorkerAfter(l, w, phase, v);
        assert v != w ==> l.Uses(v);
      }
    }
    PrivateStep(s, p, l');
  }

  lemma StepInv(s: State, p: nat, w: nat)
    requires Inv(s) && s.Alive(p)
    ensures Inv(Next(s, Step(p, w)))
  {
    var l := s.At(p);
    assert LocalOk(s, p);
    match l.At(w)
    case Pinned => WorkerMoves(s, p, w, if l.belief then Resident else Waiting, l.belief, l.baseline);
    case Resident => WorkerMoves(s, p, w, if s.truth.holder == p then Using else Disproved, l.belief, l.baseline);
    case Disproved => WorkerMoves(s, p, w, Waiting, false, l.baseline);
    case Waiting => WorkerMoves(s, p, w, Confirming, l.belief, l.baseline);
    case Confirming =>
      WorkerMoves(s, p, w, if s.truth.holder == p then Adopting(s.truth.epoch) else Waiting, l.belief, l.baseline);
    case Adopting(epoch) =>
      assert l.Uses(w);
      WorkerMoves(s, p, w, Using, true, Larger(epoch, l.baseline));
    case _ =>
  }

  lemma PinCounts(l: Local, w: nat)
    requires PinOk(l) && l.pin.Count? && l.At(w) == Away
    ensures PinOk(WithWorker(l, w, Pinned).(pin := Count(l.pin.pins + 1)))
  {
    var l' := WithWorker(l, w, Pinned).(pin := Count(l.pin.pins + 1));
    InsideAfter(l, w, Pinned);
    assert l'.Inside() == WithWorker(l, w, Pinned).Inside() == l.Inside() + {w};
    assert w !in l.Inside();
  }

  lemma PinInv(s: State, p: nat, w: nat)
    requires Inv(s) && s.Alive(p) && s.At(p).pin.Count? && s.At(p).At(w) == Away
    ensures Inv(Next(s, Pin(p, w)))
  {
    var l := s.At(p);
    var l' := WithWorker(l, w, Pinned).(pin := Count(l.pin.pins + 1));
    assert LocalOk(s, p);
    PinCounts(l, w);
    forall v: nat | l'.Uses(v)
      ensures l.Uses(v) && l'.At(v) == l.At(v)
    {
      WorkerAfter(l, w, Pinned, v);
    }
    PrivateStep(s, p, l');
  }

  lemma UnpinInv(s: State, p: nat, w: nat)
    requires Inv(s) && s.Alive(p) && s.At(p).pin.Count? && s.At(p).pin.pins > 0
    requires s.At(p).At(w) == Using || s.At(p).At(w) == GivingUp
    ensures Inv(Next(s, Unpin(p, w)))
  {
    var l := s.At(p);
    var l' := WithWorker(l, w, Away).(pin := Count(l.pin.pins - 1));
    assert LocalOk(s, p);
    InsideAfter(l, w, Away);
    assert l'.Inside() == WithWorker(l, w, Away).Inside() == l.Inside() - {w};
    assert w in l.Inside();
    forall v: nat | l'.Uses(v)
      ensures l.Uses(v) && l'.At(v) == l.At(v)
    {
      WorkerAfter(l, w, Away, v);
    }
    PrivateStep(s, p, l');
  }

  lemma BeginInv(s: State, p: nat, to: nat)
    requires Inv(s) && s.Alive(p) && s.At(p).pin == Count(0) && to != p
    ensures Inv(Next(s, Begin(p, to)))
  {
    var l := s.At(p);
    var l' := l.(pin := Transferring, transfer := Checking(to));
    assert LocalOk(s, p);
    assert l'.Inside() == l.Inside() == {};
    assert forall v: nat :: l'.At(v) == l.At(v) && (l.Uses(v) ==> v in l.Inside());
    PrivateStep(s, p, l');
  }

  /** A change of belief or baseline, or a reconcile step, touches nothing the invariant rests on. */
  lemma BeliefInv(s: State, p: nat, belief: bool, baseline: nat, reconcile: Reconcile)
    requires Inv(s) && s.Alive(p) && baseline <= s.truth.epoch
    ensures Inv(With(s, p, s.At(p).(belief := belief, baseline := baseline, reconcile := reconcile)))
  {
    var l := s.At(p);
    var l' := l.(belief := belief, baseline := baseline, reconcile := reconcile);
    assert LocalOk(s, p);
    assert l'.Inside() == l.Inside();
    assert forall v: nat :: l'.At(v) == l.At(v) && l'.Uses(v) == l.Uses(v);
    PrivateStep(s, p, l');
  }

  /** The transfer's private steps. */
  lemma TransferMoves(s: State, p: nat, transfer: Transfer, belief: bool)
    requires Inv(s) && s.Alive(p) && s.At(p).transfer != Idle && transfer != Idle
    requires !transfer.Truthing? && !s.At(p).transfer.Truthing?
    requires transfer.Losing? || transfer.Shadowing? ==> s.truth == Record(p, transfer.base)
    ensures Inv(With(s, p, s.At(p).(belief := belief, transfer := transfer)))
  {
    var l := s.At(p);
    var l' := l.(belief := belief, transfer := transfer);
    assert LocalOk(s, p);
    assert l'.Inside() == l.Inside();
    assert forall v: nat :: l'.At(v) == l.At(v) && l'.Uses(v) == l.Uses(v);
    PrivateStep(s, p, l');
  }

  lemma EndingInv(s: State, p: nat)
    requires Inv(s) && s.Alive(p) && s.At(p).transfer == Ending
    ensures Inv(Next(s, Carry(p)))
  {
    var l := s.At(p);
    var l' := l.(transfer := Idle, pin := Count(0));
    assert LocalOk(s, p);
    assert l'.Inside() == l.Inside() == {};
    assert forall v: nat :: l'.At(v) == l.At(v) && l'.Uses(v) == l.Uses(v);
    PrivateStep(s, p, l');
  }

  // ---------- the stores ----------

  lemma ShadowAfter(s: State, r: Record, p: nat)
    ensures StoreShadow(s, r).Shadow(p) == if s.Group(p) == s.Group(r.holder) then r else s.Shadow(p)
  {
  }

  lemma ShadowStoreInv(s: State, p: nat)
    requires Inv(s) && s.Alive(p) && s.At(p).transfer.Shadowing?
    ensures Inv(Next(s, Carry(p)))
  {
    var l := s.At(p);
    var to, base := l.transfer.to, l.transfer.base;
    var s' := Next(s, Carry(p));
    assert LocalOk(s, p);
    ShadowAfter(s, Record(to, base + 1), to);
    forall q: nat
      ensures LocalOk(s', q)
    {
      assert LocalOk(s, q);
      if q == p {
        assert s'.At(p).Inside() == l.Inside();
        assert forall v: nat :: s'.At(p).At(v) == l.At(v) && s'.At(p).Uses(v) == l.Uses(v);
      }
    }
    assert forall o | o in s.orphans :: OrphanOk(s, o) && OrphanOk(s', o);
  }

  /** While the latch is closed no worker of the peer uses the domain. */
  lemma LatchedUsesNothing(l: Local, w: nat)
    requires PinOk(l) && l.pin == Transferring
    ensures !l.Uses(w)
  {
    assert l.At(w) != Away ==> w in l.Inside();
  }

  /** Nobody else has a claim on a truth that names `p`. */
  lemma OnlyNamed(s: State, q: nat, w: nat)
    requires LocalOk(s, q) && s.Alive(q) && s.truth.holder != q
    ensures !s.At(q).Uses(w) && !s.At(q).transfer.Losing? && !s.At(q).transfer.Shadowing? && !s.At(q).transfer.Truthing?
  {
  }

  lemma HistoryAfter(s: State, r: Record)
    requires HistoryOk(s) && r.epoch > s.truth.epoch
    ensures HistoryOk(StoreTruth(s, r))
  {
    var n := |s.history|;
    assert forall i | 0 <= i < n - 1 :: s.history[i].epoch < s.history[n - 1].epoch;
  }

  lemma OrphanAfter(s: State, s': State, r: Record, o: Record)
    requires OrphanOk(s, o) && s'.truth == r && s'.history == s.history + [r]
    requires r.epoch > s.truth.epoch + 1 || (r.epoch == s.truth.epoch + 1 && s.Alive(s.truth.holder))
    ensures OrphanOk(s', o)
  {
    forall i | 0 <= i < |s'.history|
      ensures s'.history[i].epoch != o.epoch
    {
      assert i < |s.history| ==> s'.history[i] == s.history[i];
    }
  }

  lemma TruthStoreInv(s: State, p: nat)
    requires Inv(s) && s.Alive(p) && s.At(p).transfer.Truthing?
    ensures Inv(Next(s, Carry(p)))
  {
    var l := s.At(p);
    var r := Record(l.transfer.to, l.transfer.base + 1);
    var s' := Next(s, Carry(p));
    assert LocalOk(s, p);
    forall q: nat
      ensures LocalOk(s', q)
    {
      assert LocalOk(s, q);
      if s.Alive(q) {
        if q == p {
          assert s'.At(p).Inside() == l.Inside();
          assert PinOk(s'.At(p));
          forall w: nat
            ensures !s'.At(p).Uses(w)
          {
            LatchedUsesNothing(s'.At(p), w);
          }
        } else {
          forall w: nat
            ensures !s'.At(q).Uses(w)
          {
            OnlyNamed(s, q, w);
          }
        }
      }
    }
    HistoryAfter(s, r);
    assert HistoryOk(s');
    forall o | o in s'.orphans
      ensures OrphanOk(s', o)
    {
      OrphanAfter(s, s', r, o);
    }
    assert s'.Shadow(r.holder) == r;
  }

  lemma SeizureAside(s: State, z: Seizure, q: nat)
    requires LocalOk(s, q)
    ensures LocalOk(s.(seizure := z), q)
  {
    assert s.(seizure := z).At(q) == s.At(q);
  }

  lemma SeizeInv(s: State, a: nat)
    requires Inv(s) && s.Alive(a)
    ensures Inv(Next(s, Seize(a)))
  {
    var s' := Next(s, Seize(a));
    forall q: nat
      ensures LocalOk(s', q)
    {
      SeizureAside(s, s'.seizure, q);
    }
    assert forall o | o in s.orphans :: OrphanOk(s, o) && OrphanOk(s', o);
  }

  lemma SeizeShadowInv(s: State, a: nat)
    requires Inv(s) && s.Alive(a) && s.seizure.Read? && s.seizure.authority == a
    ensures Inv(Next(s, Press(a)))
  {
    var s' := Next(s, Press(a));
    ShadowAfter(s, Seized(a, s.seizure.base), a);
    forall q: nat
      ensures LocalOk(s', q)
    {
      assert LocalOk(s, q);
      if s.Alive(q) {
        OnlyNamed(s, q, 0);
      }
    }
    assert forall o | o in s.orphans :: OrphanOk(s, o) && OrphanOk(s', o);
  }

  lemma SeizeTruthInv(s: State, a: nat)
    requires Inv(s) && s.Alive(a) && s.seizure.Stored? && s.seizure.authority == a
    ensures Inv(Next(s, Press(a)))
  {
    var r := Seized(a, s.seizure.base);
    var s' := Next(s, Press(a));
    forall q: nat
      ensures LocalOk(s', q)
    {
      assert LocalOk(s, q);
      if s.Alive(q) {
        forall w: nat
          ensures !s'.At(q).Uses(w)
        {
          OnlyNamed(s, q, w);
        }
        OnlyNamed(s, q, 0);
      }
    }
    HistoryAfter(s, r);
    assert HistoryOk(s');
    forall o | o in s'.orphans
      ensures OrphanOk(s', o)
    {
      OrphanAfter(s, s', r, o);
    }
    assert s'.Shadow(a) == r;
  }

  lemma SeizeAdoptInv(s: State, a: nat)
    requires Inv(s) && s.Alive(a) && s.seizure.Taken? && s.seizure.authority == a
    ensures Inv(Next(s, Press(a)))
  {
    assert LocalOk(s, a);
    BeliefInv(s, a, true, Larger(s.seizure.epoch, s.At(a).baseline), s.At(a).reconcile);
    var t := With(s, a, s.At(a).(belief := true, baseline := Larger(s.seizure.epoch, s.At(a).baseline)));
    var s' := Next(s, Press(a));
    assert s' == t.(seizure := NoSeizure);
    forall q: nat
      ensures LocalOk(s', q)
    {
      SeizureAside(t, NoSeizure, q);
    }
    assert forall o | o in s.orphans :: OrphanOk(t, o) && OrphanOk(s', o);
  }

  lemma DieInv(s: State, p: nat)
    requires Inv(s) && s.Alive(p)
    ensures Inv(Next(s, Die(p)))
  {
    var s' := Next(s, Die(p));
    assert LocalOk(s, p);
    forall q: nat
      ensures LocalOk(s', q)
    {
      assert LocalOk(s, q);
    }
    forall o | o in s'.orphans
      ensures OrphanOk(s', o)
    {
      if o in s.orphans {
        assert OrphanOk(s, o);
      } else {
        assert o.epoch == s.truth.epoch + 1 && s.truth.holder == p;
        var n := |s.history|;
        assert forall i | 0 <= i < n :: i < n - 1 ==> s.history[i].epoch < s.history[n - 1].epoch;
      }
    }
  }

  lemma CarryInv(s: State, p: nat)
    requires Inv(s) && s.Alive(p)
    ensures Inv(Next(s, Carry(p)))
  {
    var l := s.At(p);
    assert LocalOk(s, p);
    match l.transfer
    case Idle =>
    case Checking(to) => TransferMoves(s, p, if s.truth.holder == p then Losing(to, s.truth.epoch) else Ending, l.belief);
    case Losing(to, base) => TransferMoves(s, p, Shadowing(to, base), false);
    case Shadowing(_, _) => ShadowStoreInv(s, p);
    case Truthing(_, _) => TruthStoreInv(s, p);
    case Ending => EndingInv(s, p);
  }

  lemma PollInv(s: State, p: nat)
    requires Inv(s) && s.Alive(p)
    ensures Inv(Next(s, Poll(p)))
  {
    var l := s.At(p);
    assert LocalOk(s, p);
    match l.reconcile
    case Rested =>
      if s.truth.holder == p {
        BeliefInv(s, p, true, l.baseline, Rested);
      } else {
        BeliefInv(s, p, l.belief, l.baseline, Dropping);
      }
    case Dropping => BeliefInv(s, p, false, l.baseline, Rechecking);
    case Rechecking => BeliefInv(s, p, l.belief || s.truth.holder == p, l.baseline, Rested);
  }

  lemma PressInv(s: State, a: nat)
    requires Inv(s) && s.Alive(a)
    ensures Inv(Next(s, Press(a)))
  {
    match s.seizure
    case NoSeizure =>
    case Read(authority, _) => if authority == a { SeizeShadowInv(s, a); }
    case Stored(authority, _) => if authority == a { SeizeTruthInv(s, a); }
    case Taken(authority, _) => if authority == a { SeizeAdoptInv(s, a); }
  }

  lemma NextInv(s: State, e: Event)
    requires Inv(s)
    ensures Inv(Next(s, e))
  {
    var p := e.peer;
    var l := s.At(p);
    if l.alive {
      match e
      case Sync(_) => BeliefInv(s, p, s.truth.holder == p, s.truth.epoch, l.reconcile);
      case Pin(_, w) => if l.pin.Count? && l.At(w) == Away { PinInv(s, p, w); }
      case Step(_, w) => StepInv(s, p, w);
      case Again(_, w) => if l.At(w) == Waiting { assert LocalOk(s, p); WorkerMoves(s, p, w, Pinned, l.belief, l.baseline); }
      case Expire(_, w) => if l.At(w) == Waiting { assert LocalOk(s, p); WorkerMoves(s, p, w, GivingUp, l.belief, l.baseline); }
      case Unpin(_, w) =>
        if (l.At(w) == Using || l.At(w) == GivingUp) && l.pin.Count? && l.pin.pins > 0 { UnpinInv(s, p, w); }
      case Begin(_, to) => if l.pin == Count(0) && to != p { BeginInv(s, p, to); }
      case Carry(_) => CarryInv(s, p);
      case Poll(_) => PollInv(s, p);
      case Seize(_) => SeizeInv(s, p);
      case Press(_) => PressInv(s, p);
      case Die(_) => DieInv(s, p);
    }
  }

  lemma {:induction false} RunInv(s: State, events: seq<Event>)
    requires Inv(s)
    ensures Inv(Run(s, events))
    decreases |events|
  {
    if events != [] {
      NextInv(s, events[0]);
      RunInv(Next(s, events[0]), events[1..]);
    }
  }
}
