/** A journey under any number of threads: one transition per atomic operation on its word, with the
    owner's own program (src/journey.cpp) and the coroutine's three states (src/coro.cpp). */
module Journey {
  import opened JourneyWord
  import opened JourneyStateObject

  datatype Coro = Suspended | Running | Completed

  /** A thread that is to resume the journey, from deciding to call proceed() to leaving proceed0(). */
  datatype Token =
    | Called                          // decided to call proceed()
    | Queued                          // proceed0 is in the scheduler
    | InCoro                          // inside coro.resume()
    | Returned                        // the coroutine yielded; the word is not loaded yet
    | Looping(prev: Word<nat>)        // the word loaded does not allow to proceed; about to swap

  /** Which wait function suspends the coroutine; `was` is what its events guard remembers. */
  datatype Wait = Plain | AlwaysFirst | AlwaysSecond(was: bool) | Guarded(was: bool)

  /** Where the coroutine's own code is. */
  datatype Owner =
    | NotStarted
    | User                            // the handler's code, outside the wait functions
    | Check(w: Wait)                  // first isDone() of a wait function
    | Yielding(w: Wait)               // about to yield
    | Waiting(w: Wait)                // yielded
    | Recheck                         // second isDone() of waitForDoneAlways
    | Guarding                        // about to disable events and cancel, in waitForDoneAlways
    | Restoring(was: bool)            // end of that guard
    | Handling(was: bool)             // about to load the word in handleEvents; was: guard to undo after
    | Throwing(e: Event, was: bool)   // about to reset the flags and throw
    | Clearing(was: bool)             // about to reset the done flag
    | Leaving(was: bool)              // end of the guard around handleEvents
    | Finished
    | Stuck                           // a VERIFY of handleEvents failed

  datatype System = System(word: Word<nat>, coro: Coro, tokens: seq<Token>, owner: Owner, thrown: seq<Event>)

  datatype Action =
    // any thread
    | Done
    | Raise(e: Event)
    | Acquire(counter: nat)           // a DetachableDoer made while events were enabled
    | Release
    // the thread of token i
    | Schedule(i: nat)
    | Resume(i: nat)
    | Reset(i: nat)                   // load or compare-exchange of resetEnteredAndCheckEvents
    // the coroutine, running in token i
    | Disable(i: nat)
    | Enable(i: nat)
    | EnableAndCheck(i: nat)
    | Call(i: nat, w: Wait)           // waitForDone, waitForDoneAlways
    | CallGuarded(i: nat)             // waitForDoneAlwaysGuarded
    | Reschedule(i: nat)
    | Advance(i: nat)                 // next atomic operation of a wait function
    | Finish(i: nat)

  function Start(): System {
    System(Word(true, true, false, false, false, 0), Suspended, [Called], NotStarted, [])
  }

  function Without(ts: seq<Token>, i: nat): seq<Token>
    requires i < |ts|
  {
    ts[..i] + ts[i + 1..]
  }

  /** A thread that finds the entered flag clear when setting it schedules the journey. */
  function Enter(g: System, next: Word<nat>, proceed: bool): System {
    g.(word := next, tokens := if proceed then g.tokens + [Called] else g.tokens)
  }

  predicate Here(g: System, i: nat) {
    i < |g.tokens| && g.tokens[i] == InCoro
  }

  predicate Steps(o: Owner) {
    match o
    case NotStarted => false
    case User => false
    case Waiting(w) => false
    case Finished => false
    case Stuck => false
    case _ => true
  }

  predicate Enabled(g: System, a: Action) {
    match a
    case Done => true
    case Raise(e) => true
    case Acquire(c) => g.word.counter == c
    case Release => true
    case Schedule(i) => i < |g.tokens| && g.tokens[i] == Called
    case Resume(i) => i < |g.tokens| && g.tokens[i] == Queued
    case Reset(i) => i < |g.tokens| && (g.tokens[i] == Returned || g.tokens[i].Looping?)
    case Disable(i) => Here(g, i) && g.owner == User
    case Enable(i) => Here(g, i) && g.owner == User
    case EnableAndCheck(i) => Here(g, i) && g.owner == User
    case Call(i, w) => Here(g, i) && g.owner == User && (w == Plain || w == AlwaysFirst)
    case CallGuarded(i) => Here(g, i) && g.owner == User
    case Reschedule(i) => Here(g, i) && g.owner == User
    case Advance(i) => Here(g, i) && Steps(g.owner)
    case Finish(i) => Here(g, i) && g.owner == User
  }

  /** Where resuming a suspended coroutine continues. */
  function Awake(o: Owner): Owner {
    match o
    case Waiting(Plain) => Handling(false)
    case Waiting(AlwaysFirst) => Recheck
    case Waiting(AlwaysSecond(was)) => Restoring(was)
    case Waiting(Guarded(was)) => Handling(was)
    case _ => User
  }

  function WasOf(w: Wait): bool {
    w.Guarded? && w.was
  }

  /** One atomic operation inside a wait function. */
  function Progress(g: System, i: nat): System
    requires Here(g, i) && Steps(g.owner)
  {
    match g.owner
    case Check(w) => g.(owner := if g.word.done then Handling(WasOf(w)) else Yielding(w))
    case Yielding(w) => g.(coro := Suspended, tokens := g.tokens[i := Returned], owner := Waiting(w))
    case Recheck => g.(owner := if g.word.done then Handling(false) else Guarding)
    case Guarding => g.(word := g.word.(enabled := false), owner := Yielding(AlwaysSecond(g.word.enabled)))
    case Restoring(was) => g.(word := if was then g.word.(enabled := true) else g.word, owner := Handling(false))
    case Handling(was) =>
      g.(owner := match Handled(g.word)
                  case Broken => Stuck
                  case Throws(e) => Throwing(e, was)
                  case Returns => Clearing(was))
    case Throwing(e, was) => g.(word := AfterThrow(g.word, e), thrown := g.thrown + [e], owner := Leaving(was))
    case Clearing(was) => g.(word := g.word.(done := false), owner := Leaving(was))
    case Leaving(was) => g.(word := if was then g.word.(enabled := true) else g.word, owner := User)
  }

  function Do(g: System, a: Action): System
    requires Enabled(g, a)
  {
    match a
    case Done => Enter(g, AfterDone(g.word), !g.word.entered)
    case Raise(e) => Enter(g, AfterRaise(g.word, e, g.word.counter + 1), g.word.enabled && !g.word.entered)
    case Acquire(c) => g.(word := AfterAcquire(g.word))
    case Release => Enter(g, AfterRelease(g.word), !g.word.entered)
    case Schedule(i) => g.(tokens := g.tokens[i := Queued])
    case Resume(i) => g.(tokens := g.tokens[i := InCoro], coro := Running, owner := Awake(g.owner))
    case Reset(i) =>
      if g.tokens[i].Looping? && g.tokens[i].prev == g.word then
        g.(word := g.word.(entered := false), tokens := Without(g.tokens, i))
      else g.(tokens := g.tokens[i := if MayProceed(g.word) then Called else Looping(g.word)])
    case Disable(i) => g.(word := g.word.(enabled := false))
    case Enable(i) => g.(word := g.word.(enabled := true))
    case EnableAndCheck(i) =>
      var r := Throw(g.word);
      g.(word := g.word.(enabled := true), owner := if r.Throws? then Throwing(r.event, false) else User)
    case Call(i, w) => g.(owner := Check(w))
    case CallGuarded(i) => g.(word := g.word.(enabled := false), owner := Check(Guarded(g.word.enabled)))
    case Reschedule(i) => Enter(g, AfterDone(g.word), !g.word.entered).(owner := Yielding(Plain))
    case Advance(i) => Progress(g, i)
    case Finish(i) => g.(coro := Completed, owner := Finished, tokens := Without(g.tokens, i))
  }

  predicate Legal(g: System, acts: seq<Action>)
    decreases |acts|
  {
    acts == [] || (Enabled(g, acts[0]) && Legal(Do(g, acts[0]), acts[1..]))
  }

  function After(g: System, acts: seq<Action>): System
    requires Legal(g, acts)
    decreases |acts|
  {
    if acts == [] then g else After(Do(g, acts[0]), acts[1..])
  }

  // ------------------------------------------------------------------ the resume token

  /** Nobody is going to resume the coroutine, and it has not ended. */
  predicate Idle(g: System) {
    g.tokens == [] && g.owner != Finished
  }

  /** There is one token at most; the entered flag shows it; an idle journey has nothing to wake for. */
  ghost predicate TokenInv(g: System) {
    && |g.tokens| <= 1
    && (g.word.entered <==> !Idle(g))
    && (g.owner == Finished <==> g.coro == Completed)
    && (g.owner == Finished ==> g.tokens == [])
    && (g.coro == Running <==> Here(g, 0))
    && (g.coro == Suspended <==> g.owner == NotStarted || g.owner.Waiting?)
    && (Idle(g) ==> !MayProceed(g.word))
    && (forall i :: 0 <= i < |g.tokens| && g.tokens[i].Looping? ==> !MayProceed(g.tokens[i].prev))
  }

  lemma TokenStep(g: System, a: Action)
    requires TokenInv(g) && Enabled(g, a)
    ensures TokenInv(Do(g, a))
    ensures a.Resume? ==> g.coro == Suspended
  {
    match a
    case Advance(i) => TokenAdvance(g, i);
    case _ =>
  }

  lemma TokenAdvance(g: System, i: nat)
    requires TokenInv(g) && Enabled(g, Advance(i))
    ensures TokenInv(Do(g, Advance(i)))
  {
  }

  lemma {:induction false} TokenRun(g: System, acts: seq<Action>)
    requires TokenInv(g) && Legal(g, acts)
    ensures TokenInv(After(g, acts))
    decreases |acts|
  {
    if acts != [] {
      TokenStep(g, acts[0]);
      TokenRun(Do(g, acts[0]), acts[1..]);
    }
  }

  /** Over every interleaving: at most one resume is scheduled or running, the flag is clear exactly
      when the journey is idle, an idle journey has no reason to run, and the next resume, if one is
      due, finds a suspended coroutine. */
  lemma {:induction false} SingleResume(acts: seq<Action>, i: nat)
    requires Legal(Start(), acts)
    ensures var g := After(Start(), acts);
            && |g.tokens| <= 1
            && (!g.word.entered <==> Idle(g))
            && (Idle(g) ==> g.coro == Suspended && !MayProceed(g.word))
            && (Enabled(g, Resume(i)) ==> g.coro == Suspended)
            && (g.coro == Completed ==> g.tokens == [] && g.word.entered)
  {
    TokenRun(Start(), acts);
    TokenStep(After(Start(), acts), Done);
  }

  /** Once completed, never scheduled again, whatever the doers and goers left over do. */
  lemma {:induction false} CompletedForever(g: System, acts: seq<Action>)
    requires TokenInv(g) && g.coro == Completed && Legal(g, acts)
    ensures After(g, acts).tokens == [] && After(g, acts).coro == Completed
    decreases |acts|
  {
    if acts != [] {
      TokenStep(g, acts[0]);
      CompletedForever(Do(g, acts[0]), acts[1..]);
    }
  }

  // ------------------------------------------------------------------ waiting is sound

  predicate Detaches(a: Action) {
    a.Acquire? || a.Release?
  }

  /** Events are off while a guard of the wait functions is in force. */
  predicate Quiet(o: Owner) {
    match o
    case Check(w) => GuardedWait(w)
    case Yielding(w) => GuardedWait(w)
    case Waiting(w) => GuardedWait(w)
    case Restoring(_) => true
    case _ => false
  }

  predicate GuardedWait(w: Wait) {
    w.AlwaysSecond? || w.Guarded?
  }

  ghost predicate WaitInv(g: System) {
    && g.owner != Stuck
    && (Quiet(g.owner) ==> !g.word.enabled)
    && (g.owner.Handling? ==> MayProceed(g.word))
    && (g.owner.Restoring? ==> g.word.done)
    && (g.owner.Waiting? && |g.tokens| == 1 && (g.tokens[0] == Called || g.tokens[0] == Queued) ==> MayProceed(g.word))
  }

  lemma WaitStep(g: System, a: Action)
    requires TokenInv(g) && WaitInv(g) && Enabled(g, a) && !Detaches(a)
    ensures WaitInv(Do(g, a))
  {
    if a.Advance? {
      WaitProgress(g, a.i);
    } else if a.Done? || a.Raise? {
      WaitOthers(g, a);
    } else if a.Schedule? || a.Resume? || a.Reset? {
      WaitToken(g, a);
    } else {
      WaitOwner(g, a);
    }
  }

  lemma WaitOthers(g: System, a: Action)
    requires TokenInv(g) && WaitInv(g) && Enabled(g, a) && (a.Done? || a.Raise?)
    ensures WaitInv(Do(g, a))
  {
  }

  lemma WaitToken(g: System, a: Action)
    requires TokenInv(g) && WaitInv(g) && Enabled(g, a) && (a.Schedule? || a.Resume? || a.Reset?)
    ensures WaitInv(Do(g, a))
  {
  }

  /** What the coroutine itself does outside the wait functions. */
  lemma WaitOwner(g: System, a: Action)
    requires TokenInv(g) && WaitInv(g) && Enabled(g, a)
    requires a.Disable? || a.Enable? || a.EnableAndCheck? || a.Call? || a.CallGuarded? || a.Reschedule? || a.Finish?
    ensures WaitInv(Do(g, a))
  {
  }

  lemma WaitProgress(g: System, i: nat)
    requires TokenInv(g) && WaitInv(g) && Here(g, i) && Steps(g.owner)
    ensures WaitInv(Progress(g, i))
  {
  }

  lemma {:induction false} WaitRun(g: System, acts: seq<Action>)
    requires TokenInv(g) && WaitInv(g) && Legal(g, acts) && forall a :: a in acts ==> !Detaches(a)
    ensures WaitInv(After(g, acts))
    decreases |acts|
  {
    if acts != [] {
      TokenStep(g, acts[0]);
      WaitStep(g, acts[0]);
      WaitRun(Do(g, acts[0]), acts[1..]);
    }
  }

  /** With doers, goers and the owner's own enabling only: every handleEvents a wait function reaches
      finds a word that may proceed, so no VERIFY fails; after waitForDoneAlways's second suspension
      the work is done. */
  lemma {:induction false} WaitSoundness(acts: seq<Action>)
    requires Legal(Start(), acts) && forall a :: a in acts ==> !Detaches(a)
    ensures var g := After(Start(), acts);
            && g.owner != Stuck
            && (g.owner.Handling? ==> MayProceed(g.word))
            && (g.owner.Restoring? ==> g.word.done)
  {
    WaitRun(Start(), acts);
  }

  /** A pending cancel is taken away only by throwing it, and a pending timeout only by throwing it or
      by the cancel that overrides it. */
  lemma EventsAreNotLost(g: System, a: Action)
    requires Enabled(g, a)
    ensures var g' := Do(g, a);
            && (g.word.cancelled && !g'.word.cancelled ==> g'.thrown == g.thrown + [Cancelled])
            && (g.word.timedout && !g'.word.timedout ==> exists e :: g'.thrown == g.thrown + [e])
  {
    if a.Advance? && g.owner.Throwing? {
      assert Do(g, a).thrown == g.thrown + [g.owner.e];
    }
  }

  // ------------------------------------------------------------------ no wake-up is lost

  /** How many steps of its token a journey that may proceed is away from being resumed. */
  function ToResume(t: Token): nat {
    match t
    case Called => 2
    case Queued => 1
    case InCoro => 0
    case _ => 3
  }

  /** The next step of a token outside the coroutine. */
  function TokenStepOf(t: Token): Action {
    match t
    case Called => Schedule(0)
    case Queued => Resume(0)
    case _ => Reset(0)
  }

  /** A suspended journey with a reason to run has a thread that is to resume it, and every step of that thread
      brings it nearer, whether the reason came before or after the journey had suspended. */
  lemma WakeUpArrives(g: System)
    requires TokenInv(g) && g.coro == Suspended && MayProceed(g.word)
    ensures |g.tokens| == 1 && Enabled(g, TokenStepOf(g.tokens[0]))
    ensures var g' := Do(g, TokenStepOf(g.tokens[0]));
            && |g'.tokens| == 1 && ToResume(g'.tokens[0]) < ToResume(g.tokens[0]) <= 3
            && g'.word == g.word && (g'.coro == Suspended || g'.tokens[0] == InCoro)
  {
  }

  /** rescheduling gives up the thread for a while and then goes on by itself. */
  lemma {:induction false} RescheduleComesBack(g: System)
    requires TokenInv(g) && Here(g, 0) && g.owner == User && !(g.word.enabled && Raised(g.word))
    ensures var acts := [Reschedule(0), Advance(0), Reset(0)] + [Schedule(0), Resume(0), Advance(0)]
                        + [Advance(0), Advance(0)];
            && Legal(g, acts) && After(g, acts).owner == User && After(g, acts).thrown == g.thrown
            && After(g, acts).word == g.word.(done := false)
  {
    var g1 := Do(g, Reschedule(0));
    var g2 := Do(g1, Advance(0));
    var g3 := Do(g2, Reset(0));
    assert g3.tokens == [Called] && g3.owner == Waiting(Plain) && g3.word == g.word.(done := true);
    GoesOn(g3);
    var rest := [Schedule(0), Resume(0), Advance(0)] + [Advance(0), Advance(0)];
    Then(g2, Reset(0), rest);
    Then(g1, Advance(0), [Reset(0)] + rest);
    Then(g, Reschedule(0), [Advance(0)] + ([Reset(0)] + rest));
    assert [Reschedule(0)] + ([Advance(0)] + ([Reset(0)] + rest))
        == [Reschedule(0), Advance(0), Reset(0)] + [Schedule(0), Resume(0), Advance(0)] + [Advance(0), Advance(0)];
  }

  lemma GoesOn(g: System)
    requires g.tokens == [Called] && g.owner == Waiting(Plain) && g.word.done && !(g.word.enabled && Raised(g.word))
    ensures var acts := [Schedule(0), Resume(0), Advance(0)] + [Advance(0), Advance(0)];
            && Legal(g, acts) && After(g, acts).owner == User && After(g, acts).thrown == g.thrown
            && After(g, acts).word == g.word.(done := false)
  {
    var g1 := Do(g, Schedule(0));
    var g2 := Do(g1, Resume(0));
    var rest := [Advance(0), Advance(0), Advance(0)];
    Cleared(g2);
    Then(g1, Resume(0), rest);
    Then(g, Schedule(0), [Resume(0)] + rest);
    assert [Schedule(0)] + ([Resume(0)] + rest) == [Schedule(0), Resume(0), Advance(0)] + [Advance(0), Advance(0)];
  }

  lemma Cleared(g: System)
    requires g.tokens == [InCoro] && g.owner == Handling(false) && g.word.done && !(g.word.enabled && Raised(g.word))
    ensures var acts := [Advance(0), Advance(0), Advance(0)];
            && Legal(g, acts) && After(g, acts).owner == User && After(g, acts).thrown == g.thrown
            && After(g, acts).word == g.word.(done := false)
  {
    var g1 := Do(g, Advance(0));
    var g2 := Do(g1, Advance(0));
    var g3 := Do(g2, Advance(0));
    assert After(g3, []) == g3;
    Then(g2, Advance(0), []);
    Then(g1, Advance(0), [Advance(0)] + []);
    Then(g, Advance(0), [Advance(0)] + ([Advance(0)] + []));
    assert [Advance(0)] + ([Advance(0)] + ([Advance(0)] + [])) == [Advance(0), Advance(0), Advance(0)];
  }

  // ------------------------------------------------------------------ event or doer, not both

  lemma {:induction false} CounterGrows(g: System, acts: seq<Action>)
    requires Legal(g, acts)
    ensures g.word.counter <= After(g, acts).word.counter
    decreases |acts|
  {
    if acts != [] {
      CounterGrows(Do(g, acts[0]), acts[1..]);
    }
  }

  /** A raise that comes first, with events enabled, makes every acquire of an earlier doer fail for
      ever, whatever anybody does. */
  lemma {:induction false} RaiseWins(g: System, e: Event, counter: nat, acts: seq<Action>)
    requires g.word.enabled && counter <= g.word.counter && Legal(Do(g, Raise(e)), acts)
    ensures !Enabled(After(Do(g, Raise(e)), acts), Acquire(counter))
  {
    CounterGrows(Do(g, Raise(e)), acts);
  }

  /** Actions that may enable events. */
  predicate Enables(g: System, a: Action) {
    || a.Release? || a.Enable? || a.EnableAndCheck?
    || (a.Advance? && ((g.owner.Restoring? && g.owner.was) || (g.owner.Leaving? && g.owner.was)))
  }

  predicate NeverEnables(g: System, acts: seq<Action>)
    requires Legal(g, acts)
    decreases |acts|
  {
    acts == [] || (!Enables(g, acts[0]) && NeverEnables(Do(g, acts[0]), acts[1..]))
  }

  lemma {:induction false} StaysDisabled(g: System, acts: seq<Action>)
    requires !g.word.enabled && Legal(g, acts) && NeverEnables(g, acts)
    ensures !After(g, acts).word.enabled && After(g, acts).word.counter == g.word.counter
    decreases |acts|
  {
    if acts != [] {
      StaysDisabled(Do(g, acts[0]), acts[1..]);
    }
  }

  /** An acquire that comes first keeps every raise from scheduling the journey, until it is released
      or the owner enables events itself; the raise only leaves its flag. */
  lemma {:induction false} AcquireWins(g: System, counter: nat, acts: seq<Action>, e: Event)
    requires Enabled(g, Acquire(counter))
    requires var g1 := Do(g, Acquire(counter)); Legal(g1, acts) && NeverEnables(g1, acts)
    ensures var g2 := After(Do(g, Acquire(counter)), acts);
            && Do(g2, Raise(e)).tokens == g2.tokens
            && Do(g2, Raise(e)).word == WithEvent(g2.word, e)
            && Enabled(g2, Acquire(counter))
  {
    StaysDisabled(Do(g, Acquire(counter)), acts);
  }

  /** A released doer wakes the journey it acquired: it is entered and may proceed. */
  lemma ReleaseWakes(g: System)
    requires TokenInv(g)
    ensures var g' := Do(g, Release); g'.word.entered && MayProceed(g'.word) && g'.word.enabled && !Idle(g')
  {
  }

  // ------------------------------------------------------------------ a raise is thrown

  /** A raise leaves its flag whether or not somebody has entered; with events enabled the journey is on its
      way to handle it. */
  lemma RaiseLeavesFlag(g: System, e: Event)
    requires TokenInv(g)
    ensures var g' := Do(g, Raise(e));
            && (e.Cancelled? ==> g'.word.cancelled) && (e.Timedout? ==> g'.word.timedout)
            && (g.word.cancelled ==> g'.word.cancelled) && (g.word.timedout ==> g'.word.timedout)
            && g'.word.enabled == g.word.enabled && g'.word.done == g.word.done
            && (g.word.enabled ==> g'.word.entered && !Idle(g'))
  {
  }

  /** A pending event stays until it is thrown, over any run. */
  lemma {:induction false} PendingStays(g: System, acts: seq<Action>)
    requires Legal(g, acts)
    ensures var g' := After(g, acts);
            && g.thrown <= g'.thrown
            && (g.word.cancelled ==> g'.word.cancelled || Cancelled in g'.thrown[|g.thrown|..])
            && (g.word.timedout ==> g'.word.timedout || g'.thrown != g.thrown)
    decreases |acts|
  {
    if acts != [] {
      var g1, g' := Do(g, acts[0]), After(g, acts);
      EventsAreNotLost(g, acts[0]);
      PendingStays(g1, acts[1..]);
      assert g.thrown <= g1.thrown by {
        ThrownGrows(g, acts[0]);
      }
      Since(g.thrown, g1.thrown, g'.thrown);
    }
  }

  lemma ThrownGrows(g: System, a: Action)
    requires Enabled(g, a)
    ensures g.thrown <= Do(g, a).thrown
  {
  }

  lemma Since(a: seq<Event>, b: seq<Event>, c: seq<Event>)
    requires a <= b <= c
    ensures c[|a|..] == b[|a|..] + c[|b|..]
  {
    assert c == b + c[|b|..];
  }

  /** handleEvents with events enabled goes on to throw what is pending, a cancel first. */
  lemma HandlingThrows(g: System, i: nat)
    requires Enabled(g, Advance(i)) && g.owner.Handling? && g.word.enabled
    ensures var o := Do(g, Advance(i)).owner;
            && (g.word.cancelled ==> o == Throwing(Cancelled, g.owner.was))
            && (!g.word.cancelled && g.word.timedout ==> o == Throwing(Timedout, g.owner.was))
            && (!g.word.cancelled && !g.word.timedout && g.word.done ==> o == Clearing(g.owner.was))
  {
  }

  /** So does enableEventsAndCheck with what was pending before it enables events. */
  lemma CheckThrows(g: System, i: nat)
    requires Enabled(g, EnableAndCheck(i))
    ensures var g' := Do(g, EnableAndCheck(i));
            && g'.word == g.word.(enabled := true)
            && (g.word.cancelled ==> g'.owner == Throwing(Cancelled, false))
            && (!g.word.cancelled && g.word.timedout ==> g'.owner == Throwing(Timedout, false))
            && (!g.word.cancelled && !g.word.timedout ==> g'.owner == User)
  {
  }

  /** And then it throws, taking away the flags of what it throws and of what that overrides. */
  lemma ThrowingThrows(g: System, i: nat)
    requires Enabled(g, Advance(i)) && g.owner.Throwing?
    ensures var g' := Do(g, Advance(i));
            && g'.thrown == g.thrown + [g.owner.e] && g'.owner == Leaving(g.owner.was)
            && !g'.word.done && !g'.word.timedout && g'.word.cancelled == (g.word.cancelled && g.owner.e == Timedout)
            && g'.word.enabled == g.word.enabled && g'.word.entered == g.word.entered
  {
  }

  /** Over every run: when handleEvents is reached with events enabled after a raise, something has been
      thrown since, a cancel if the raise was one, or it goes on to throw now. */
  lemma {:induction false} RaiseIsThrown(before: seq<Action>, e: Event, after: seq<Action>, i: nat)
    requires Legal(Start(), before) && Legal(Do(After(Start(), before), Raise(e)), after)
    requires var g := After(Do(After(Start(), before), Raise(e)), after);
             Enabled(g, Advance(i)) && g.owner.Handling? && g.word.enabled
    ensures var past, g := After(Start(), before).thrown, After(Do(After(Start(), before), Raise(e)), after);
            var next := Do(g, Advance(i)).owner;
            && past <= g.thrown
            && (e.Cancelled? ==> Cancelled in g.thrown[|past|..] || next == Throwing(Cancelled, g.owner.was))
            && (g.thrown != past || next.Throwing?)
  {
    var g0 := After(Start(), before);
    TokenRun(Start(), before);
    RaiseLeavesFlag(g0, e);
    PendingStays(Do(g0, Raise(e)), after);
    HandlingThrows(After(Do(g0, Raise(e)), after), i);
  }

  /** A journey that waits in waitForDone with events enabled throws what is raised, if nobody else acts. */
  lemma {:induction false} WaiterThrows(g: System, e: Event)
    requires TokenInv(g) && Idle(g) && g.owner == Waiting(Plain) && g.word.enabled
    ensures var acts := [Raise(e), Schedule(0), Resume(0), Advance(0), Advance(0), Advance(0)];
            && Legal(g, acts) && After(g, acts).thrown == g.thrown + [e]
            && After(g, acts).owner == User && After(g, acts).word.enabled && !MayProceed(After(g, acts).word)
  {
    var g1 := Do(g, Raise(e));
    Woken(g1, e);
    Then(g, Raise(e), [Schedule(0), Resume(0), Advance(0), Advance(0), Advance(0)]);
    assert [Raise(e)] + [Schedule(0), Resume(0), Advance(0), Advance(0), Advance(0)]
        == [Raise(e), Schedule(0), Resume(0), Advance(0), Advance(0), Advance(0)];
  }

  lemma Then(g: System, a: Action, rest: seq<Action>)
    requires Enabled(g, a) && Legal(Do(g, a), rest)
    ensures Legal(g, [a] + rest) && After(g, [a] + rest) == After(Do(g, a), rest)
  {
    assert ([a] + rest)[1..] == rest;
  }

  lemma Woken(g: System, e: Event)
    requires g.tokens == [Called] && g.owner == Waiting(Plain) && g.word.enabled && !g.word.done
    requires g.word.cancelled == e.Cancelled? && g.word.timedout == e.Timedout?
    ensures var acts := [Schedule(0), Resume(0), Advance(0), Advance(0), Advance(0)];
            && Legal(g, acts) && After(g, acts).thrown == g.thrown + [e]
            && After(g, acts).owner == User && After(g, acts).word.enabled && !MayProceed(After(g, acts).word)
  {
    var g1 := Do(g, Schedule(0));
    var g2 := Do(g1, Resume(0));
    Thrown(g2, e);
    Then(g1, Resume(0), [Advance(0), Advance(0), Advance(0)]);
    Then(g, Schedule(0), [Resume(0)] + [Advance(0), Advance(0), Advance(0)]);
    assert [Schedule(0)] + ([Resume(0)] + [Advance(0), Advance(0), Advance(0)])
        == [Schedule(0), Resume(0), Advance(0), Advance(0), Advance(0)];
  }

  lemma Thrown(g: System, e: Event)
    requires g.tokens == [InCoro] && g.owner == Handling(false) && g.word.enabled && !g.word.done
    requires g.word.cancelled == e.Cancelled? && g.word.timedout == e.Timedout?
    ensures var acts := [Advance(0), Advance(0), Advance(0)];
            && Legal(g, acts) && After(g, acts).thrown == g.thrown + [e]
            && After(g, acts).owner == User && After(g, acts).word.enabled && !MayProceed(After(g, acts).word)
  {
    var g1 := Do(g, Advance(0));
    var g2 := Do(g1, Advance(0));
    var g3 := Do(g2, Advance(0));
    assert After(g3, []) == g3;
    Then(g2, Advance(0), []);
    Then(g1, Advance(0), [Advance(0)] + []);
    Then(g, Advance(0), [Advance(0)] + ([Advance(0)] + []));
    assert [Advance(0)] + ([Advance(0)] + ([Advance(0)] + [])) == [Advance(0), Advance(0), Advance(0)];
  }

  // ------------------------------------------------------------------ waiting gives events back

  /** What a guard of the wait functions in force remembers. */
  predicate WasEnabled(o: Owner) {
    match o
    case Check(w) => WasOf(w)
    case Yielding(w) => WaitWas(w)
    case Waiting(w) => WaitWas(w)
    case Restoring(was) => was
    case Handling(was) => was
    case Throwing(e, was) => was
    case Clearing(was) => was
    case Leaving(was) => was
    case _ => false
  }

  predicate WaitWas(w: Wait) {
    GuardedWait(w) && w.was
  }

  /** Events are enabled, or will be when the guards in force are left. */
  predicate GivesEvents(g: System) {
    g.word.enabled || WasEnabled(g.owner)
  }

  /** The handler's own code sets the events. */
  predicate Sets(a: Action) {
    a.Disable? || a.Enable? || a.EnableAndCheck?
  }

  /** The second wait of waitForDoneAlways has no check of its own. */
  predicate NoThirdCheck(o: Owner) {
    o.Check? ==> !o.w.AlwaysSecond?
  }

  lemma GivesStep(g: System, a: Action)
    requires TokenInv(g) && NoThirdCheck(g.owner) && Enabled(g, a) && !Detaches(a) && !Sets(a)
    ensures GivesEvents(Do(g, a)) == GivesEvents(g) || Do(g, a).owner == Stuck
    ensures (g.owner == Stuck ==> Do(g, a).owner == Stuck) && NoThirdCheck(Do(g, a).owner)
  {
  }

  lemma {:induction false} GivesRun(g: System, acts: seq<Action>)
    requires TokenInv(g) && NoThirdCheck(g.owner)
    requires Legal(g, acts) && forall a :: a in acts ==> !Detaches(a) && !Sets(a)
    ensures GivesEvents(After(g, acts)) == GivesEvents(g) || After(g, acts).owner == Stuck
    ensures g.owner == Stuck ==> After(g, acts).owner == Stuck
    decreases |acts|
  {
    if acts != [] {
      GivesStep(g, acts[0]);
      TokenStep(g, acts[0]);
      GivesRun(Do(g, acts[0]), acts[1..]);
    }
  }

  /** Whatever wait functions the handler goes through, and whatever is done or raised meanwhile: when its own
      code runs again, events are enabled exactly when they were. */
  lemma {:induction false} EventsComeBack(before: seq<Action>, acts: seq<Action>)
    requires Legal(Start(), before) && Legal(After(Start(), before), acts)
    requires forall a :: a in acts ==> !Detaches(a) && !Sets(a)
    requires After(Start(), before).owner == User && After(After(Start(), before), acts).owner == User
    ensures After(After(Start(), before), acts).word.enabled == After(Start(), before).word.enabled
  {
    TokenRun(Start(), before);
    GivesRun(After(Start(), before), acts);
  }
}
