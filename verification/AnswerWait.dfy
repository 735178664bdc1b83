/**
 `publish`, `wakeRequester` and `awaitState` on one request line (daemon/shared/protocol/shared_area.hpp): the
 answer is stored, then the sequence word is bumped, then the sleeper is woken; the waiter reads the sequence
 word before the state and sleeps only if the sequence word has not moved.

 Publishes come one at a time, since the daemon publishes under its local domain.
 */
module AnswerWait {
  import opened TurnHandshake

  datatype Publisher = Rest | Bump | Wake

  datatype Waiter =
    | ReadSeq
    | ReadState(seen: nat)
    | Compare(seen: nat)         // read a state that ends no wait
    | Asleep(seen: nat)
    | Answered(answer: RequestState)

  datatype Line = Line(request: RequestState, stamp: nat, publisher: Publisher, waiter: Waiter)

  /** A requester that has just asked. */
  function Asked(start: nat): Line {
    Line(LockRequested, start, Rest, ReadSeq)
  }

  datatype Access = Publish(next: RequestState) | Follow | Await | Wakened

  predicate IsAnswer(state: RequestState) {
    state == LockHeld || state == Error
  }

  function NextAwait(l: Line): Line {
    match l.waiter
    case ReadSeq => l.(waiter := ReadState(l.stamp))
    case ReadState(seen) => l.(waiter := if IsAnswer(l.request) then Answered(l.request) else Compare(seen))
    case Compare(seen) => l.(waiter := if l.stamp == seen then Asleep(seen) else ReadSeq)
    case Asleep(_) => l
    case Answered(_) => l
  }

  function NextLine(l: Line, e: Access): Line {
    match e
    case Publish(next) => if l.publisher == Rest then l.(request := next, publisher := Bump) else l
    case Follow =>
      (match l.publisher
       case Rest => l
       case Bump => l.(stamp := l.stamp + 1, publisher := Wake)
       case Wake => l.(publisher := Rest, waiter := if l.waiter.Asleep? then ReadSeq else l.waiter))
    case Await => NextAwait(l)
    case Wakened => if l.waiter.Asleep? then l.(waiter := ReadSeq) else l
  }

  function RunLine(l: Line, events: seq<Access>): Line
    decreases |events|
  {
    if events == [] then l else RunLine(NextLine(l, events[0]), events[1..])
  }

  /** An answer stored after the waiter's look has moved the sequence word, or is about to. */
  predicate LineOk(l: Line) {
    match l.waiter
    case ReadState(seen) => seen <= l.stamp
    case Compare(seen) => seen <= l.stamp && (IsAnswer(l.request) && l.stamp == seen ==> l.publisher == Bump)
    case Asleep(seen) =>
      seen <= l.stamp && (IsAnswer(l.request) && l.stamp == seen ==> l.publisher == Bump) && (l.stamp != seen ==> l.publisher == Wake)
    case _ => true
  }

  lemma {:induction false} LineInv(l: Line, events: seq<Access>)
    requires LineOk(l)
    ensures LineOk(RunLine(l, events))
    decreases |events|
  {
    if events != [] {
      LineInv(NextLine(l, events[0]), events[1..]);
    }
  }

  /** A requester asleep on a published answer is about to be woken: it never sleeps past one. */
  lemma NeverSleepsPastAnAnswer(start: nat, events: seq<Access>)
    requires var l := RunLine(Asked(start), events); l.waiter.Asleep? && IsAnswer(l.request)
    ensures RunLine(Asked(start), events).publisher != Rest
    ensures var l := RunLine(Asked(start), events); l.publisher == Wake ==> NextLine(l, Follow).waiter == ReadSeq
  {
    LineInv(Asked(start), events);
  }

  /** Once an answer has been published, a requester that has not got one gets this one with its next three accesses. */
  lemma AnswerIsSeen(start: nat, events: seq<Access>)
    requires var l := RunLine(Asked(start), events); IsAnswer(l.request) && l.publisher == Rest && !l.waiter.Answered?
    ensures var l := RunLine(Asked(start), events);
            NextAwait(NextAwait(NextAwait(l))) == l.(waiter := Answered(l.request))
  {
    LineInv(Asked(start), events);
  }

  /** And it gets no other: what a waiter answers stood in the word when it looked. */
  lemma NothingElseIsSeen(l: Line, e: Access)
    requires !l.waiter.Answered? && NextLine(l, e).waiter.Answered?
    ensures NextLine(l, e).waiter.answer == l.request && IsAnswer(l.request)
  {
  }

  /** An answer published at any time reaches a requester that has none: the store, the bump, the wake, and its own next accesses. */
  lemma PublishedIsSeen(start: nat, events: seq<Access>, answer: RequestState)
    requires var l := RunLine(Asked(start), events); l.publisher == Rest && !l.waiter.Answered? && IsAnswer(answer)
    ensures var l := RunLine(Asked(start), events);
            var published := NextLine(NextLine(NextLine(l, Publish(answer)), Follow), Follow);
            NextLine(NextLine(NextLine(published, Await), Await), Await).waiter == Answered(answer)
  {
    LineInv(Asked(start), events);
  }

  /** A sleep that ends for no reason starts the look again. */
  lemma WakenedLooksAgain(l: Line)
    requires l.waiter.Asleep?
    ensures NextLine(l, Wakened) == l.(waiter := ReadSeq)
  {
  }
}
