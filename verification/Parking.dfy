/** Journeys that block in waitForDone until another journey wakes them through a doer, with no raise
    events.  Mutex, Channel and Completer2 are built on this. */
module Parking {
  import opened JourneyWord
  import opened JourneyStateObject
  import opened Journey

  /** What a DetachableDoer remembers of the word when it is made. */
  datatype Doer = Doer(counter: nat, enabled: bool)

  type JId = nat

  /** A journey's doer in a queue of waiters. */
  datatype Waiter = Waiter(j: JId, d: Doer)

  datatype Phase =
    | Busy               // not waiting
    | Parked(d: Doer)    // its doer is queued, and it is on its way into waitForDone or suspended
    | Taken(d: Doer)     // its doer was acquired
    | Woken              // its doer was done; waitForDone has not returned yet

  datatype Guest = Guest(g: System, phase: Phase)

  /** Steps the journey takes by itself. */
  predicate Inner(h: Guest, a: Action) {
    && Enabled(h.g, a)
    && (a.Schedule? || a.Resume? || a.Reset? || a.Advance? || (h.phase == Busy && (a.Disable? || a.Enable?)))
  }

  /** `DetachableDoer::acquire` on the current word. */
  predicate Acquires(w: Word<nat>, d: Doer) {
    !d.enabled || w.counter == d.counter
  }

  function Names(ws: seq<Waiter>): seq<JId> {
    seq(|ws|, i requires 0 <= i < |ws| => ws[i].j)
  }

  /** The first waiter whose doer can still be acquired, given the words of the waiting journeys. */
  function FirstReady(ws: seq<Waiter>, words: map<JId, Word<nat>>): (i: nat)
    ensures i <= |ws|
    ensures forall k :: 0 <= k < i ==> ws[k].j in words && !Acquires(words[ws[k].j], ws[k].d)
    ensures i < |ws| && ws[i].j in words ==> Acquires(words[ws[i].j], ws[i].d)
  {
    if ws == [] || ws[0].j !in words || Acquires(words[ws[0].j], ws[0].d) then 0 else 1 + FirstReady(ws[1..], words)
  }

  /** The acquire of this waiter's doer would succeed. */
  predicate Acquirable(w: Waiter, words: map<JId, Word<nat>>)
    requires w.j in words
  {
    Acquires(words[w.j], w.d)
  }

  /** Waiters that cannot be acquired are passed over, up to the first that can. */
  lemma FirstReadyIs(ws: seq<Waiter>, words: map<JId, Word<nat>>, i: nat)
    requires i <= |ws| && forall k :: 0 <= k < |ws| ==> ws[k].j in words
    requires forall k :: 0 <= k < i ==> !Acquirable(ws[k], words)
    requires i < |ws| ==> Acquirable(ws[i], words)
    ensures FirstReady(ws, words) == i
  {
    var r := FirstReady(ws, words);
    assert forall k :: 0 <= k < r ==> !Acquirable(ws[k], words);
    assert r < |ws| ==> Acquirable(ws[r], words);
  }

  predicate InUserCode(h: Guest) {
    h.g.owner == User && Here(h.g, 0)
  }

  function NewDoer(h: Guest): Doer {
    Doer(h.g.word.counter, h.g.word.enabled)
  }

  /** Make a doer, then call waitForDone. */
  function Park(h: Guest): Guest
    requires InUserCode(h)
  {
    Guest(Do(h.g, Call(0, Plain)), Parked(NewDoer(h)))
  }

  function Take(h: Guest): Guest
    requires h.phase.Parked? && Acquires(h.g.word, h.phase.d)
  {
    Guest(if h.phase.d.enabled then Do(h.g, Acquire(h.phase.d.counter)) else h.g, Taken(h.phase.d))
  }

  /** `releaseAndDone` of a detachable doer made with events enabled, else `done`. */
  function Wake(h: Guest, release: bool): Guest {
    Guest(Do(h.g, if release then Release else Done), Woken)
  }

  function Return(h: Guest): Guest {
    h.(phase := Busy)
  }

  predicate GoingToSleep(g: System) {
    && (g.owner == Check(Plain) || g.owner == Yielding(Plain) || g.owner == Waiting(Plain))
    && (g.owner.Waiting? && |g.tokens| == 1 ==> g.tokens[0] == Returned || g.tokens[0].Looping?)
  }

  ghost predicate Ok(h: Guest) {
    var g := h.g;
    && TokenInv(g) && !Raised(g.word)
    && match h.phase
       case Busy => !g.word.done && (g.owner == NotStarted || g.owner == User)
       case Parked(d) => !g.word.done && GoingToSleep(g) && d == NewDoer(h)
       case Taken(d) => !g.word.done && GoingToSleep(g) && !g.word.enabled
       case Woken =>
         if g.word.done
         then g.owner in {Check(Plain), Yielding(Plain), Waiting(Plain), Handling(false), Clearing(false)}
         else g.owner in {Leaving(false), User}
  }

  lemma StartOk()
    ensures Ok(Guest(Start(), Busy))
  {
  }

  lemma InnerOk(h: Guest, a: Action)
    requires Ok(h) && Inner(h, a)
    ensures Ok(h.(g := Do(h.g, a)))
  {
    TokenStep(h.g, a);
  }

  lemma ParkOk(h: Guest)
    requires Ok(h) && h.phase == Busy && InUserCode(h)
    ensures Ok(Park(h))
  {
    TokenStep(h.g, Call(0, Plain));
  }

  /** With no raise events, acquiring a queued doer never fails. */
  lemma TakeOk(h: Guest)
    requires Ok(h) && h.phase.Parked?
    ensures Acquires(h.g.word, h.phase.d) && Ok(Take(h))
  {
    if h.phase.d.enabled {
      TokenStep(h.g, Acquire(h.phase.d.counter));
    }
  }

  lemma WakeOk(h: Guest, release: bool)
    requires Ok(h) && (h.phase.Parked? || h.phase.Taken?)
    ensures Ok(Wake(h, release))
  {
    TokenStep(h.g, if release then Release else Done);
  }

  lemma ReturnOk(h: Guest)
    requires Ok(h) && h.phase == Woken && h.g.owner == User
    ensures Ok(Return(h)) && InUserCode(Return(h))
  {
  }

  // ------------------------------------------------------------------ waiting gives events back

  /** Events are enabled, or will be when the doer that has disabled them is released. */
  predicate Gives(h: Guest) {
    if h.phase.Taken? then h.phase.d.enabled else h.g.word.enabled
  }

  /** The handler's own code sets the events. */
  predicate Sets(a: Action) {
    a.Disable? || a.Enable?
  }

  lemma InnerGives(h: Guest, a: Action)
    requires Ok(h) && Inner(h, a) && !Sets(a)
    ensures Gives(h.(g := Do(h.g, a))) == Gives(h)
  {
  }

  lemma ParkGives(h: Guest)
    requires InUserCode(h) && h.phase == Busy
    ensures Gives(Park(h)) == Gives(h)
  {
  }

  lemma TakeGives(h: Guest)
    requires Ok(h) && h.phase.Parked? && Acquires(h.g.word, h.phase.d)
    ensures Gives(Take(h)) == Gives(h) && !Take(h).g.word.enabled
  {
  }

  /** A doer that has disabled events enables them when it is released. */
  lemma WakeGives(h: Guest)
    requires Ok(h) && h.phase.Taken?
    ensures Wake(h, h.phase.d.enabled).g.word.enabled == h.phase.d.enabled
    ensures Gives(Wake(h, h.phase.d.enabled)) == Gives(h)
  {
  }

  // ------------------------------------------------------------------ no wake-up is lost

  /** How many own steps a woken journey is away from leaving waitForDone. */
  function Distance(g: System): nat {
    match g.owner
    case Leaving(_) => 1
    case Clearing(_) => 2
    case Handling(_) => 3
    case Check(_) => 4
    case Waiting(_) =>
      if |g.tokens| != 1 then 0
      else if g.tokens[0] == Queued then 4
      else if g.tokens[0] == Called then 5
      else 6
    case Yielding(_) => 7
    case _ => 0
  }

  /** The next own step of a woken journey. */
  function NextInner(g: System): Action {
    if g.owner.Waiting? && |g.tokens| == 1 then
      (match g.tokens[0]
       case Called => Schedule(0)
       case Queued => Resume(0)
       case _ => Reset(0))
    else Advance(0)
  }

  /** A wake-up is not lost, even when it comes before the journey has suspended: a woken journey
      always has a step to take, every step it takes brings it nearer to the end of waitForDone, and
      at distance 0 it has returned. */
  lemma WakeIsNotLost(h: Guest, a: Action)
    requires Ok(h) && h.phase == Woken
    ensures h.g.owner != User ==> Inner(h, NextInner(h.g))
    ensures Inner(h, a) ==> Distance(Do(h.g, a)) < Distance(h.g)
    ensures Distance(h.g) <= 7 && (Distance(h.g) == 0 <==> h.g.owner == User)
  {
  }

  /** Nobody wakes a parked journey but its doer. */
  lemma ParkedStays(h: Guest, a: Action)
    requires Ok(h) && (h.phase.Parked? || h.phase.Taken?) && Inner(h, a)
    ensures Do(h.g, a).owner != User && !Do(h.g, a).owner.Handling?
  {
  }
}
