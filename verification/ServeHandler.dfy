/**
 One pass of `runDispatcher` and `assign` as the statements the source runs (daemon/daemon/serve/handler.cpp,
 daemon/daemon/serve/workers.cpp), with requesters ringing and workers working between any two of its accesses.

 `Model` is a state of the `Dispatcher` machine; `others(h)` is what the rest does once the dispatcher has made the
 accesses `h`. What a method leaves is its own accesses woven with `others` and no more.
 */
module ServeHandler {
  import opened Histories
  import opened Dispatcher

  type Interference = History<Event> -> seq<Event>

  predicate Outside(e: Event) {
    e.Ring? || e.Knock? || e.Work?
  }

  ghost predicate DispatcherAlone(others: Interference) {
    forall h: History<Event>, e: Event | e in others(h) :: Outside(e)
  }

  ghost predicate Silent(others: Interference) {
    forall h: History<Event> :: others(h) == []
  }

  function Weave(s: State, own: History<Event>, others: Interference): State {
    match own
    case Start => s
    case Then(past, e) => Next(Run(Weave(s, past, others), others(past)), e)
  }

  /** What the access after `past` finds. */
  function Found(s: State, past: History<Event>, others: Interference): State {
    Run(Weave(s, past, others), others(past))
  }

  lemma NextInv(s: State, e: Event)
    requires Inv(s)
    ensures Inv(Next(s, e))
  {
    RunInv(s, [e]);
    assert Run(Next(s, e), [e][1..]) == Next(s, e);
  }

  lemma {:induction false} WeaveInv(s: State, own: History<Event>, others: Interference)
    requires Inv(s)
    ensures Inv(Weave(s, own, others)) && Inv(Found(s, own, others))
    decreases own
  {
    hide Next, Run, Inv;
    if own.Then? {
      WeaveInv(s, own.past, others);
      NextInv(Found(s, own.past, others), own.event);
    }
    RunInv(Weave(s, own, others), others(own));
  }

  lemma OutsideKeeps(s: State, e: Event)
    requires Outside(e) && !s.dispatcher.Asleep?
    ensures Next(s, e).dispatcher == s.dispatcher && s.pending <= Next(s, e).pending && s.idle <= Next(s, e).idle
  {
  }

  /** Ringing and working leave an awake dispatcher where it is, and take no bit and no seat away. */
  lemma {:induction false} RunOutside(s: State, events: seq<Event>)
    requires !s.dispatcher.Asleep? && forall e | e in events :: Outside(e)
    ensures var s' := Run(s, events); s'.dispatcher == s.dispatcher && s.pending <= s'.pending && s.idle <= s'.idle
    decreases |events|
  {
    if events != [] {
      assert Outside(events[0]);
      OutsideKeeps(s, events[0]);
      RunOutside(Next(s, events[0]), events[1..]);
    }
  }

  // ---------- what an undisturbed pass comes to ----------

  predicate IsLeast(ids: set<nat>, low: nat) {
    low in ids && forall d | d in ids :: low <= d
  }

  /** The least element, as `popLowest` and `takeLowest` pick it. */
  function Least(ids: set<nat>): (low: nat)
    requires ids != {}
    ensures IsLeast(ids, low)
  {
    LowestExists(ids);
    var low: nat :| IsLeast(ids, low);
    low
  }

  lemma {:induction false} LowestExists(ids: set<nat>)
    requires ids != {}
    ensures exists low: nat :: IsLeast(ids, low)
    decreases |ids|
  {
    var d: nat :| d in ids;
    if ids == {d} {
      assert IsLeast(ids, d);
    } else {
      var rest := ids - {d};
      assert rest != {};
      LowestExists(rest);
      var low: nat :| IsLeast(rest, low);
      var least := if d < low then d else low;
      assert forall e | e in ids :: e == d || e in rest;
      assert IsLeast(ids, least);
    }
  }

  /** One bit decided: to the lowest idle seat, or back up. */
  function Decide(s: State): (s': State)
    requires s.dispatcher.Picking? && s.dispatcher.pass.left != {}
    ensures s'.dispatcher.Picking? && s'.dispatcher.pass.left < s.dispatcher.pass.left
  {
    var pass, d := s.dispatcher.pass, Least(s.dispatcher.pass.left);
    var rest := pass.(left := pass.left - {d});
    if d in s.inFlight || s.idle == {} then s.(pending := s.pending + {d}, dispatcher := Picking(rest.(back := pass.back + {d})))
    else
      var seat := Least(s.idle);
      s.(inFlight := s.inFlight + {d}, idle := s.idle - {seat}, slots := s.slots[seat := d],
         dispatcher := Picking(rest.(handed := pass.handed + {d})))
  }

  function DecideAll(s: State): State
    requires s.dispatcher.Picking?
    decreases s.dispatcher.pass.left
  {
    if s.dispatcher.pass.left == {} then s else DecideAll(Decide(s))
  }

  /** The bits nobody holds, taken down and about to be handed out. */
  function Taken(s: State): State {
    var taken := s.pending - s.inFlight;
    s.(pending := s.pending - taken, dispatcher := Picking(Pass(s.doorbell, s.pending * s.inFlight, taken, taken, {}, {})))
  }

  /** Every bit left is handed out or back up. */
  lemma {:induction false} Decided(s: State)
    requires s.dispatcher.Picking?
    ensures var was, s' := s.dispatcher.pass, DecideAll(s);
            && s'.dispatcher.Picking? && s'.doorbell == s.doorbell && s'.dispatcher.pass.seen == was.seen
            && s'.dispatcher.pass.skipped == was.skipped
            && s'.dispatcher.pass.handed + s'.dispatcher.pass.back == was.handed + was.back + was.left
    decreases s.dispatcher.pass.left
  {
    var was := s.dispatcher.pass;
    if was.left == {} {
      assert was.handed + was.back == was.handed + was.back + was.left;
    } else {
      Decided(Decide(s));
      var pass := Decide(s).dispatcher.pass;
      assert pass.handed + pass.back + pass.left == was.handed + was.back + was.left;
    }
  }

  /** What one undisturbed pass leaves: asleep exactly if there was no bit up at all. */
  function Passed(s: State): State {
    if s.pending == {} then s.(dispatcher := Asleep(s.doorbell)) else DecideAll(Taken(s)).(dispatcher := Reading)
  }

  /** `s'` has handed out as many of the bits left as there were idle seats, the lowest first; the others are up again. */
  ghost predicate HandedLowest(s: State, s': State)
    requires s.dispatcher.Picking?
  {
    && s.inFlight <= s'.inFlight && s'.idle <= s.idle
    && Shared(s.dispatcher.pass.left, s'.inFlight - s.inFlight, s.idle - s'.idle, s'.idle)
    && s'.pending == s.pending + (s.dispatcher.pass.left - (s'.inFlight - s.inFlight))
  }

  /** `out` of the bits `left` have found the seats `used`, the lowest first, as far as the seats went. */
  ghost predicate Shared(left: set<nat>, out: set<nat>, used: set<nat>, unused: set<nat>) {
    && out <= left && |out| == |used| && (out < left ==> unused == {})
    && forall a, b | a in out && b in left - out :: a < b
  }

  lemma SharedOneMore(left: set<nat>, out: set<nat>, used: set<nat>, unused: set<nat>, d: nat, seat: nat)
    requires IsLeast(left, d) && d !in out && seat !in used && Shared(left - {d}, out, used, unused)
    ensures Shared(left, out + {d}, used + {seat}, unused)
  {
    assert left - (out + {d}) == left - {d} - out;
  }

  /** Each bit handed out is in the slot of a worker that was idle, and no other slot has changed. */
  ghost predicate HandedToSeats(s: State, s': State) {
    && (forall d | d in s'.inFlight - s.inFlight :: exists w :: w in s.idle - s'.idle && InSlot(s', w, d))
    && (forall w: nat, d: nat | w !in s.idle - s'.idle :: InSlot(s', w, d) <==> InSlot(s, w, d))
  }

  lemma {:induction false} LowestFirst(s: State)
    requires s.dispatcher.Picking? && s.dispatcher.pass.left !! s.inFlight
    ensures HandedLowest(s, DecideAll(s)) && HandedToSeats(s, DecideAll(s))
    decreases s.dispatcher.pass.left
  {
    var left := s.dispatcher.pass.left;
    if left == {} {
      assert s.inFlight - s.inFlight == {} && s.idle - s.idle == {};
    } else if s.idle == {} {
      NoSeatLeft(s);
      assert s.inFlight - s.inFlight == {} && left - {} == left && s.idle - s.idle == {};
    } else {
      LowestFirst(Decide(s));
      OneMoreHanded(s, DecideAll(s));
      OneMoreSeat(s, DecideAll(s));
    }
  }

  lemma OneMoreHanded(s: State, s': State)
    requires s.dispatcher.Picking? && s.dispatcher.pass.left !! s.inFlight && s.dispatcher.pass.left != {} && s.idle != {}
    requires HandedLowest(Decide(s), s')
    ensures HandedLowest(s, s')
  {
    hide Shared;
    var left, d, seat := s.dispatcher.pass.left, Least(s.dispatcher.pass.left), Least(s.idle);
    SharedOneMore(left, s'.inFlight - (s.inFlight + {d}), s.idle - {seat} - s'.idle, s'.idle, d, seat);
    OneLess(s'.inFlight, s.inFlight, d);
    OneMore(s.idle, s'.idle, seat);
    Remaining(left, s'.inFlight - (s.inFlight + {d}), d);
  }

  lemma OneLess(big: set<nat>, small: set<nat>, d: nat)
    requires d in big && d !in small
    ensures big - small == big - (small + {d}) + {d}
  {
  }

  lemma OneMore(big: set<nat>, small: set<nat>, d: nat)
    requires d in big && d !in small
    ensures big - small == big - {d} - small + {d}
  {
  }

  lemma Remaining(left: set<nat>, out: set<nat>, d: nat)
    ensures left - (out + {d}) == left - {d} - out
  {
  }

  lemma OneMoreSeat(s: State, s': State)
    requires s.dispatcher.Picking? && s.dispatcher.pass.left !! s.inFlight && s.dispatcher.pass.left != {} && s.idle != {}
    requires HandedLowest(Decide(s), s') && HandedToSeats(Decide(s), s')
    ensures HandedToSeats(s, s')
  {
    var d, seat, t := Least(s.dispatcher.pass.left), Least(s.idle), Decide(s);
    assert InSlot(t, seat, d) && seat !in t.idle;
    assert InSlot(s', seat, d);
    forall c | c in s'.inFlight - s.inFlight
      ensures exists w :: w in s.idle - s'.idle && InSlot(s', w, c)
    {
      if c != d {
        assert c in s'.inFlight - t.inFlight;
      }
    }
  }

  lemma {:induction false} NoSeatLeft(s: State)
    requires s.dispatcher.Picking? && s.idle == {}
    ensures var s' := DecideAll(s);
            s'.pending == s.pending + s.dispatcher.pass.left && s'.inFlight == s.inFlight && s'.idle == {} && s'.slots == s.slots
    decreases s.dispatcher.pass.left
  {
    if s.dispatcher.pass.left != {} {
      NoSeatLeft(Decide(s));
      var d := Least(s.dispatcher.pass.left);
      assert s.pending + {d} + (s.dispatcher.pass.left - {d}) == s.pending + s.dispatcher.pass.left;
    }
  }

  /** A dispatcher whose sleep has run out looks again. */
  function Awake(s: State): State {
    Next(s, WakeUp)
  }

  /** The bits nobody holds that go before `d`. */
  function Before(s: State, d: nat): set<nat> {
    set c | c in s.pending - s.inFlight && c < d
  }

  /**
   A bit that is up and that nobody holds is served after one undisturbed pass, unless as many lower bits are up as there
   are idle seats: the pass puts it into the slot of an idle worker, and that worker has it within three accesses. This
   needs no wake, since a sleep that runs out starts a pass as well.
   */
  lemma PendingIsServed(s: State, d: nat) returns (w: nat, n: nat)
    requires s.dispatcher == Reading || s.dispatcher.Asleep?
    requires d in s.pending - s.inFlight && |Before(s, d)| < |s.idle|
    ensures var served := Works(Passed(Awake(s)), w, n);
            1 <= n <= 3 && w in s.idle && served.WorkerAt(w) == Serving(d) && d !in Next(served, Work(w)).inFlight
  {
    var awake := Awake(s);
    w := SeatFound(awake, d);
    var passed := Passed(awake);
    n := HandedIsServed(passed, w);
    ServedIsDone(Works(passed, w, n), w, d);
  }

  /** So a ring is served: the bit goes up, the doorbell moves, the dispatcher wakes, and the pass hands the bit out. */
  lemma RungIsServed(s: State, r: nat, d: nat) returns (w: nat, n: nat)
    requires s.RingerAt(r) == Quiet && (s.dispatcher == Reading || s.dispatcher.Asleep?)
    requires d !in s.inFlight && |Before(s, d)| < |s.idle|
    ensures var rung := Next(Next(Next(s, Ring(r, d)), Knock(r)), Knock(r));
            && rung.dispatcher == Reading && rung.doorbell == s.doorbell + 1 && rung.RingerAt(r) == Quiet
            && 1 <= n <= 3 && w in s.idle && Works(Passed(rung), w, n).WorkerAt(w) == Serving(d)
  {
    hide Passed, Works;
    RingWakes(s, r, d);
    var rung := Next(Next(Next(s, Ring(r, d)), Knock(r)), Knock(r));
    assert Before(rung, d) == Before(s, d);
    assert Awake(rung) == rung;
    w, n := PendingIsServed(rung, d);
  }

  /** Were it passed over, the lower bits would have filled every seat. */
  lemma SeatFound(s: State, d: nat) returns (w: nat)
    requires s.dispatcher == Reading && d in s.pending - s.inFlight && |Before(s, d)| < |s.idle|
    ensures w in s.idle && InSlot(Passed(s), w, d)
  {
    hide DecideAll;
    var after := DecideAll(Taken(s));
    LowestFirst(Taken(s));
    var out := after.inFlight - s.inFlight;
    if d !in out {
      NotPassedOver(s.pending - s.inFlight, out, s.idle - after.idle, after.idle, s.idle, d);
      assert false;
    }
    w :| w in s.idle - after.idle && InSlot(after, w, d);
  }

  lemma NotPassedOver(left: set<nat>, out: set<nat>, used: set<nat>, unused: set<nat>, seats: set<nat>, d: nat)
    requires Shared(left, out, used, unused) && used == seats - unused && d in left && d !in out
    ensures |set c | c in left && c < d| >= |seats|
  {
    assert seats - {} == seats;
    assert d in left - out;
    assert forall a | a in out :: a in left && a < d;
    Fewer(out, set c | c in left && c < d);
  }

  lemma {:induction false} Fewer(small: set<nat>, big: set<nat>)
    requires small <= big
    ensures |small| <= |big|
    decreases small
  {
    if small != {} {
      var c :| c in small;
      Fewer(small - {c}, big - {c});
    }
  }

  class Handler {
    var pending: set<nat>
    var doorbell: nat
    var inFlight: set<nat>
    var idle: set<nat>
    var slots: map<nat, nat>
    var workers: map<nat, Worker>
    var ringers: map<nat, Ringer>
    var dispatcher: Phase

    function Model(): State
      reads this
    {
      State(pending, doorbell, inFlight, idle, slots, workers, ringers, dispatcher)
    }

    constructor ()
      ensures Model() == Init() && Inv(Model())
    {
      pending, doorbell, inFlight, idle, slots, workers, ringers, dispatcher := {}, 0, {}, {}, map[], map[], map[], Reading;
    }

    /** In the middle of a pass that found `start` and has made the accesses `past`. */
    ghost predicate Going(start: State, past: History<Event>, others: Interference)
      reads this
    {
      Inv(start) && Model() == Weave(start, past, others) && DispatcherAlone(others)
    }

    /** Requesters and workers run until the dispatcher's next access. */
    method Meanwhile(others: Interference, past: History<Event>, ghost start: State)
      requires Going(start, past, others) && !dispatcher.Asleep?
      modifies this
      ensures Model() == Found(start, past, others) && (Silent(others) ==> Model() == old(Model()))
      ensures dispatcher == old(dispatcher) && old(pending) <= pending && old(idle) <= idle
    {
      hide Next, Weave, Inv;
      RunOutside(Model(), others(past));
      var s := Model();
      for i := 0 to |others(past)|
        invariant Run(s, others(past)[i..]) == Run(old(Model()), others(past))
      {
        assert others(past)[i..][1..] == others(past)[i + 1..];
        s := Next(s, others(past)[i]);
      }
      assert others(past)[|others(past)|..] == [];
      pending, doorbell, inFlight, idle := s.pending, s.doorbell, s.inFlight, s.idle;
      slots, workers, ringers, dispatcher := s.slots, s.workers, s.ringers, s.dispatcher;
    }

    /** One access of the dispatcher. */
    method Set(e: Event, dispatcher': Phase, pending': set<nat>, inFlight': set<nat>, idle': set<nat>, slots': map<nat, nat>,
               others: Interference, past: History<Event>, ghost start: State)
      returns (h: History<Event>)
      requires Model() == Found(start, past, others) && Inv(start) && DispatcherAlone(others)
      requires Next(Model(), e) ==
               Model().(dispatcher := dispatcher', pending := pending', inFlight := inFlight', idle := idle', slots := slots')
      modifies this
      ensures h == Then(past, e) && Going(start, h, others)
      ensures Model() == old(Model()).(dispatcher := dispatcher', pending := pending', inFlight := inFlight', idle := idle', slots := slots')
    {
      hide Next, Run, Inv;
      dispatcher, pending, inFlight, idle, slots := dispatcher', pending', inFlight', idle', slots';
      h := Then(past, e);
    }

    /** Claims the domain in flight, then takes the lowest idle seat; without either the domain is refused and no claim stays. */
    method Assign(others: Interference, past: History<Event>, ghost start: State)
      returns (accepted: bool, h: History<Event>)
      requires Going(start, past, others) && dispatcher.Claiming?
      modifies this
      ensures Going(start, h, others) && old(pending) <= pending
      ensures var pass, d := old(dispatcher).pass, old(dispatcher).domain;
              dispatcher == if accepted then Picking(pass.(handed := pass.handed + {d})) else Returning(pass, d)
      ensures accepted ==> exists w :: InSlot(Model(), w, old(dispatcher).domain)
      ensures accepted <==> old(dispatcher).domain !in Found(start, past, others).inFlight
                            && Found(start, Then(past, Dispatch), others).idle != {}
      ensures Silent(others) ==>
                var d := old(dispatcher).domain;
                && (accepted <==> d !in old(inFlight) && old(idle) != {})
                && Model() == if accepted then old(Model()).(dispatcher := dispatcher, inFlight := old(inFlight) + {d},
                                                             idle := old(idle) - {Least(old(idle))}, slots := old(slots)[Least(old(idle)) := d])
                              else old(Model()).(dispatcher := dispatcher)
    {
      hide Run, Weave, Found, Inv;
      var pass, d := dispatcher.pass, dispatcher.domain;
      Meanwhile(others, past, start);
      if d in inFlight {
        h := Set(Dispatch, Returning(pass, d), pending, inFlight, idle, slots, others, past, start);
        return false, h;
      }
      h := Set(Dispatch, Seating(pass, d), pending, inFlight + {d}, idle, slots, others, past, start);
      accepted, h := FindSeat(pass, d, others, h, start);
      assert Silent(others) ==> old(inFlight) + {d} - {d} == old(inFlight);
    }

    method FindSeat(pass: Pass, d: nat, others: Interference, past: History<Event>, ghost start: State)
      returns (accepted: bool, h: History<Event>)
      requires Going(start, past, others) && dispatcher == Seating(pass, d)
      modifies this
      ensures Going(start, h, others) && old(pending) <= pending
      ensures dispatcher == if accepted then Picking(pass.(handed := pass.handed + {d})) else Returning(pass, d)
      ensures accepted ==> exists w :: InSlot(Model(), w, d)
      ensures accepted <==> Found(start, past, others).idle != {}
      ensures Silent(others) ==>
                && (accepted <==> old(idle) != {})
                && Model() == if accepted then old(Model()).(dispatcher := dispatcher, idle := old(idle) - {Least(old(idle))},
                                                             slots := old(slots)[Least(old(idle)) := d])
                              else old(Model()).(dispatcher := dispatcher, inFlight := old(inFlight) - {d})
    {
      hide Run, Weave, Found, Inv;
      Meanwhile(others, past, start);
      accepted := idle != {};
      if !accepted {
        h := Set(NoSeat, Unclaiming(pass, d), pending, inFlight, idle, slots, others, past, start);
        Meanwhile(others, h, start);
        h := Set(Dispatch, Returning(pass, d), pending, inFlight - {d}, idle, slots, others, h, start);
        return;
      }
      var seat := Least(idle);
      h := Set(Seat(seat), Storing(pass, d, seat), pending, inFlight, idle - {seat}, slots, others, past, start);
      Meanwhile(others, h, start);
      h := Set(Dispatch, Picking(pass.(handed := pass.handed + {d})), pending, inFlight, idle, slots[seat := d], others, h, start);
      assert InSlot(Model(), seat, d);
    }

    /** One bit: the lowest left is offered, and what nobody accepts goes back up. */
    method HandOne(others: Interference, past: History<Event>, ghost start: State) returns (h: History<Event>)
      requires Going(start, past, others) && dispatcher.Picking? && dispatcher.pass.left != {}
      modifies this
      ensures Going(start, h, others) && dispatcher.Picking?
      ensures var was, d := old(dispatcher).pass, Least(old(dispatcher).pass.left);
              || dispatcher.pass == was.(left := was.left - {d}, handed := was.handed + {d})
              || (dispatcher.pass == was.(left := was.left - {d}, back := was.back + {d}) && d in pending)
      ensures Silent(others) ==> Model() == Decide(old(Model()))
    {
      hide Run, Weave, Found, Inv;
      Meanwhile(others, past, start);
      var pass := dispatcher.pass;
      var d := Least(pass.left);
      h := Set(Pick(d), Claiming(pass.(left := pass.left - {d}), d), pending, inFlight, idle, slots, others, past, start);
      var accepted;
      accepted, h := Assign(others, h, start);
      if !accepted {
        Meanwhile(others, h, start);
        var refused := dispatcher.pass;
        h := Set(Dispatch, Picking(refused.(back := refused.back + {d})), pending + {d}, inFlight, idle, slots, others, h, start);
      }
    }

    /** Hands out every bit taken; what nobody accepts goes back up. */
    method HandOut(others: Interference, past: History<Event>, ghost start: State) returns (h: History<Event>)
      requires Going(start, past, others) && dispatcher.Picking?
      modifies this
      ensures Going(start, h, others) && dispatcher.Picking? && dispatcher.pass.left == {}
      ensures var was, pass := old(dispatcher).pass, dispatcher.pass;
              pass.seen == was.seen && pass.skipped == was.skipped && pass.taken == was.taken
      ensures forall d | d in dispatcher.pass.taken :: d in dispatcher.pass.handed || d in pending
      ensures Silent(others) ==> Model() == DecideAll(old(Model()))
    {
      hide Run, Weave, Found, Inv, Next, Decide;
      h := past;
      while dispatcher.pass.left != {}
        invariant Going(start, h, others) && dispatcher.Picking?
        invariant var was, pass := old(dispatcher).pass, dispatcher.pass;
                  pass.seen == was.seen && pass.skipped == was.skipped && pass.taken == was.taken
        invariant Silent(others) ==> DecideAll(Model()) == DecideAll(old(Model()))
        decreases dispatcher.pass.left
      {
        h := HandOne(others, h, start);
      }
      WeaveInv(start, h, others);
      AllDecided(Model());
    }

    lemma AllDecided(s: State)
      requires Inv(s) && s.dispatcher.Picking? && s.dispatcher.pass.left == {}
      ensures forall d | d in s.dispatcher.pass.taken :: d in s.dispatcher.pass.handed || d in s.pending
    {
    }

    /** The doorbell, the domains in flight, the bits; then the chosen bits come down. */
    method TakeBits(others: Interference, ghost start: State) returns (h: History<Event>)
      requires Going(start, Start, others) && dispatcher == Reading
      modifies this
      ensures Going(start, h, others) && h == Times(Start, Dispatch, 4) && dispatcher.Picking?
      ensures var held, bits := Found(start, Times(Start, Dispatch, 1), others).inFlight, Found(start, Times(Start, Dispatch, 2), others).pending;
              dispatcher.pass == Pass(Found(start, Start, others).doorbell, bits * held, bits - held, bits - held, {}, {})
      ensures old(pending) <= dispatcher.pass.taken + pending
      ensures Silent(others) ==> Model() == Taken(old(Model()))
    {
      hide Run, Weave, Found, Inv;
      Meanwhile(others, Start, start);
      h := Set(Dispatch, Marking(doorbell), pending, inFlight, idle, slots, others, Start, start);
      assert h == Times(Start, Dispatch, 1);
      Meanwhile(others, h, start);
      h := Set(Dispatch, Taking(dispatcher.seen, inFlight), pending, inFlight, idle, slots, others, h, start);
      assert h == Times(Start, Dispatch, 2);
      h := DropBits(others, h, start);
    }

    method DropBits(others: Interference, past: History<Event>, ghost start: State) returns (h: History<Event>)
      requires Going(start, past, others) && dispatcher.Taking?
      modifies this
      ensures Going(start, h, others) && h == Then(Then(past, Dispatch), Dispatch) && dispatcher.Picking?
      ensures var held, bits := old(dispatcher).held, Found(start, past, others).pending;
              dispatcher.pass == Pass(old(dispatcher).seen, bits * held, bits - held, bits - held, {}, {})
      ensures old(pending) <= dispatcher.pass.taken + pending
      ensures Silent(others) ==>
                var held := old(dispatcher).held;
                var taken := old(pending) - held;
                Model() == old(Model()).(pending := old(pending) - taken,
                                         dispatcher := Picking(Pass(old(dispatcher).seen, old(pending) * held, taken, taken, {}, {})))
    {
      hide Run, Weave, Found, Inv;
      Meanwhile(others, past, start);
      var taking := pending - dispatcher.held;
      h := Set(Dispatch, Dropping(Pass(dispatcher.seen, pending * dispatcher.held, taking, taking, {}, {})),
               pending, inFlight, idle, slots, others, past, start);
      Meanwhile(others, h, start);
      h := Set(Dispatch, Picking(dispatcher.pass), pending - taking, inFlight, idle, slots, others, h, start);
    }

    /**
     One pass. It sleeps only when it took nothing, skipped nothing and the doorbell has not moved since it was read.
     Undisturbed, it sleeps exactly if no bit was up, and else fills the idle seats with the lowest bits nobody holds.
     */
    method RunPass(others: Interference) returns (slept: bool, h: History<Event>)
      requires Inv(Model()) && dispatcher == Reading && DispatcherAlone(others)
      modifies this
      ensures Inv(Model()) && Model() == Weave(old(Model()), h, others) && (if slept then dispatcher.Asleep? else dispatcher == Reading)
      ensures slept ==> forall d | d in pending :: Due(Model(), d)
      ensures Silent(others) ==> (slept <==> old(pending) == {}) && Model() == Passed(old(Model()))
    {
      hide Run, Found, Inv, Next, Weave;
      ghost var s := Model();
      NothingYet(others);
      h := TakeBits(others, s);
      h := HandOut(others, h, s);
      slept, h := Settle(others, h, s);
      WeaveInv(s, h, others);
      if slept {
        SleepsOnNothing(Model());
      }
      Decided(Taken(s));
      assert s.pending - s.inFlight == {} && s.pending * s.inFlight == {} ==> s.pending == {};
      assert s.pending - {} == s.pending;
    }

    lemma NothingYet(others: Interference)
      ensures Weave(Model(), Start, others) == Model()
    {
    }

    lemma SleepsOnNothing(s: State)
      requires Inv(s) && s.dispatcher.Asleep? && s.doorbell == s.dispatcher.seen
      ensures forall d | d in s.pending :: Due(s, d)
    {
    }

    method Settle(others: Interference, past: History<Event>, ghost start: State) returns (slept: bool, h: History<Event>)
      requires Going(start, past, others) && dispatcher.Picking? && dispatcher.pass.left == {}
      modifies this
      ensures Going(start, h, others) && (if slept then dispatcher.Asleep? && doorbell == dispatcher.seen else dispatcher == Reading)
      ensures var pass := old(dispatcher).pass;
              slept <==> pass.handed == pass.skipped == pass.back == {} && Found(start, Then(past, Dispatch), others).doorbell == pass.seen
      ensures Silent(others) ==>
                var pass := old(dispatcher).pass;
                && (slept <==> pass.handed == pass.skipped == pass.back == {} && old(doorbell) == pass.seen)
                && Model() == old(Model()).(dispatcher := if slept then Asleep(pass.seen) else Reading)
    {
      hide Run, Weave, Found, Inv;
      Meanwhile(others, past, start);
      var pass := dispatcher.pass;
      if pass.handed != {} || pass.skipped != {} || pass.back != {} {
        h := Set(Dispatch, Reading, pending, inFlight, idle, slots, others, past, start);
        return false, h;
      }
      h := Set(Dispatch, Comparing(pass.seen), pending, inFlight, idle, slots, others, past, start);
      Meanwhile(others, h, start);
      slept := doorbell == pass.seen;
      h := Set(Dispatch, if slept then Asleep(pass.seen) else Reading, pending, inFlight, idle, slots, others, h, start);
    }
  }
}
