/** The mutex over journeys of src/mutex.cpp, with no raise events. */
module MutexSystem {
  import opened Types
  import opened JourneyWord
  import opened Parking
  import J = Journey

  datatype Role =
    | Outside
    | Queued                   // inside lock, waiting
    | Holder                   // lock returned
    | HandingOver(to: JId)     // inside unlock: the doer of `to` is acquired, not yet done

  /** `owner`, `asked` and `granted` are history: who owns the mutex or is about to, and the order in
      which journeys entered lock and were granted it. */
  datatype System = System(acquired: bool, queue: seq<Waiter>, guests: map<JId, Guest>, roles: map<JId, Role>,
                           owner: Option<JId>, asked: seq<JId>, granted: seq<JId>)

  datatype Action =
    | Lock(j: JId)             // the critical section of lock, and the call of waitForDone
    | Unlock(j: JId)           // the critical section of unlock
    | HandOver(j: JId)         // releaseAndDone, after the critical section
    | Return(j: JId)           // waitForDone returns inside lock
    | Own(j: JId, a: J.Action) // a step the journey takes by itself

  function Start(js: set<JId>): System {
    System(false, [], map j | j in js :: Guest(J.Start(), Busy), map j | j in js :: Outside, None, [], [])
  }

  /** In the handler's own code with a given role. */
  predicate At(m: System, j: JId, r: Role) {
    j in m.guests && j in m.roles && m.roles[j] == r && InUserCode(m.guests[j])
  }

  predicate Enabled(m: System, a: Action) {
    match a
    case Lock(j) => At(m, j, Outside)
    case Unlock(j) => At(m, j, Holder) && (m.queue == [] || CanTake(m, m.queue[0].j))
    case HandOver(j) => j in m.roles && m.roles[j].HandingOver? && m.roles[j].to in m.guests && m.roles[j].to in m.roles
    case Return(j) => At(m, j, Queued) && m.guests[j].phase == Woken
    case Own(j, a) => j in m.guests && Inner(m.guests[j], a)
  }

  /** The acquire of a queued doer succeeds. */
  predicate CanTake(m: System, j: JId) {
    j in m.guests && m.guests[j].phase.Parked? && Acquires(m.guests[j].g.word, m.guests[j].phase.d)
  }

  function Set(m: System, j: JId, h: Guest, r: Role): System {
    m.(guests := m.guests[j := h], roles := m.roles[j := r])
  }

  /** j joins the queue; h is j with its doer made. */
  function Enqueue(m: System, j: JId, h: Guest): System
    requires h.phase.Parked?
  {
    Set(m, j, h, Queued).(asked := m.asked + [j], queue := m.queue + [Waiter(j, h.phase.d)])
  }

  /** j starts to hand the mutex to the first waiter; h is that waiter with its doer acquired. */
  function PassOn(m: System, j: JId, h: Guest): System
    requires m.queue != []
  {
    var k := m.queue[0].j;
    m.(queue := m.queue[1..], guests := m.guests[k := h], roles := m.roles[j := HandingOver(k)],
       owner := Some(k), granted := m.granted + [k])
  }

  /** j has handed over to k; h is k with its doer done. */
  function HandedOver(m: System, j: JId, k: JId, h: Guest): System {
    m.(guests := m.guests[k := h], roles := m.roles[j := Outside])
  }

  function Do(m: System, a: Action): System
    requires Enabled(m, a)
  {
    match a
    case Lock(j) =>
      if m.acquired then Enqueue(m, j, Park(m.guests[j]))
      else
        Set(m, j, m.guests[j], Holder)
          .(acquired := true, owner := Some(j), asked := m.asked + [j], granted := m.granted + [j])
    case Unlock(j) =>
      if m.queue == [] then Set(m, j, m.guests[j], Outside).(acquired := false, owner := None)
      else PassOn(m, j, Take(m.guests[m.queue[0].j]))
    case HandOver(j) =>
      var k := m.roles[j].to;
      HandedOver(m, j, k, Wake(m.guests[k], m.guests[k].phase.Taken? && m.guests[k].phase.d.enabled))
    case Return(j) => Set(m, j, Parking.Return(m.guests[j]), Holder)
    case Own(j, a) => m.(guests := m.guests[j := m.guests[j].(g := J.Do(m.guests[j].g, a))])
  }

  predicate Legal(m: System, acts: seq<Action>)
    decreases |acts|
  {
    acts == [] || (Enabled(m, acts[0]) && Legal(Do(m, acts[0]), acts[1..]))
  }

  function After(m: System, acts: seq<Action>): System
    requires Legal(m, acts)
    decreases |acts|
  {
    if acts == [] then m else After(Do(m, acts[0]), acts[1..])
  }

  // ------------------------------------------------------------------ the invariant

  /** Does this journey hold the mutex, or has it been granted to it? */
  predicate Owns(m: System, j: JId)
    requires j in m.guests && j in m.roles
  {
    m.roles[j] == Holder || m.guests[j].phase.Taken? || m.guests[j].phase == Woken
  }

  ghost predicate JourneyOk(m: System, j: JId)
    requires j in m.guests && j in m.roles
  {
    && (m.roles[j] == Queued <==> m.guests[j].phase != Busy)
    && (Owns(m, j) <==> m.owner == Some(j))
    && (m.guests[j].phase.Parked? ==> Waiter(j, m.guests[j].phase.d) in m.queue)
    && (m.roles[j].HandingOver? ==>
          m.roles[j].to in m.guests && m.guests[m.roles[j].to].phase.Taken? && m.owner == Some(m.roles[j].to))
  }

  ghost predicate QueueOk(m: System) {
    && (forall i :: 0 <= i < |m.queue| ==>
          m.queue[i].j in m.guests && m.guests[m.queue[i].j].phase == Parked(m.queue[i].d))
    && (forall i, k :: 0 <= i < k < |m.queue| ==> m.queue[i].j != m.queue[k].j)
  }

  ghost predicate GuestsOk(m: System) {
    forall j :: j in m.guests ==> Ok(m.guests[j])
  }

  ghost predicate BeingGiven(m: System, j: JId) {
    exists k :: k in m.roles && m.roles[k] == HandingOver(j)
  }

  /** Only one journey hands over at a time, and a taken doer is being handed over. */
  ghost predicate OneGiver(m: System) {
    && (forall j, k :: j in m.roles && k in m.roles && m.roles[j].HandingOver? && m.roles[k].HandingOver? ==> j == k)
    && (forall j :: j in m.guests && m.guests[j].phase.Taken? ==> BeingGiven(m, j))
  }

  ghost predicate RolesOk(m: System) {
    && m.guests.Keys == m.roles.Keys
    && (forall j {:trigger JourneyOk(m, j)} :: j in m.guests ==> JourneyOk(m, j))
    && QueueOk(m) && OneGiver(m)
    && (m.acquired <==> m.owner.Some?)
    && (m.owner.Some? ==> m.owner.value in m.guests)
    && (m.queue != [] ==> m.acquired)
    && m.asked == m.granted + Names(m.queue)
  }

  ghost predicate Inv(m: System) {
    GuestsOk(m) && RolesOk(m)
  }

  lemma InitInv(js: set<JId>)
    ensures Inv(Start(js))
  {
    StartOk();
  }

  lemma ReplaceKeeps(m: System, j: JId, h: Guest)
    requires RolesOk(m) && j in m.guests && h.phase == m.guests[j].phase
    ensures RolesOk(m.(guests := m.guests[j := h]))
  {
    var m' := m.(guests := m.guests[j := h]);
    forall k | k in m'.guests ensures JourneyOk(m', k) {
      assert JourneyOk(m, k);
    }
  }

  lemma OwnKeeps(m: System, j: JId, a: J.Action)
    requires Inv(m) && Enabled(m, Own(j, a))
    ensures Inv(Do(m, Own(j, a)))
  {
    InnerOk(m.guests[j], a);
    ReplaceKeeps(m, j, m.guests[j].(g := J.Do(m.guests[j].g, a)));
  }

  lemma LockFreeKeeps(m: System, j: JId)
    requires RolesOk(m) && Enabled(m, Lock(j)) && !m.acquired
    ensures RolesOk(Do(m, Lock(j)))
  {
    var m' := Do(m, Lock(j));
    assert JourneyOk(m, j) && Names(m.queue) == [];
    assert m'.guests == m.guests;
    forall k | k in m'.guests ensures JourneyOk(m', k) {
      assert JourneyOk(m, k);
    }
  }

  lemma EnqueueKeeps(m: System, j: JId, h: Guest)
    requires RolesOk(m) && j in m.guests && m.roles[j] == Outside && m.acquired && h.phase.Parked?
    ensures RolesOk(Enqueue(m, j, h))
  {
    var m' := Enqueue(m, j, h);
    assert JourneyOk(m, j);
    assert Names(m'.queue) == Names(m.queue) + [j];
    assert m'.queue[|m.queue|] == Waiter(j, h.phase.d);
    assert OneGiver(m') by {
      EnqueueGiver(m, j, h);
    }
    forall k | k in m'.guests ensures JourneyOk(m', k) {
      assert JourneyOk(m, k);
    }
  }

  lemma EnqueueGiver(m: System, j: JId, h: Guest)
    requires OneGiver(m) && j in m.guests && j in m.roles && m.roles[j] == Outside && h.phase.Parked?
    ensures OneGiver(Enqueue(m, j, h))
  {
    var m' := Enqueue(m, j, h);
    forall x | x in m'.guests && m'.guests[x].phase.Taken? ensures BeingGiven(m', x) {
      assert BeingGiven(m, x);
      var y :| y in m.roles && m.roles[y] == HandingOver(x);
      assert m'.roles[y] == HandingOver(x);
    }
  }

  lemma UnlockEmptyKeeps(m: System, j: JId)
    requires RolesOk(m) && Enabled(m, Unlock(j)) && m.queue == []
    ensures RolesOk(Do(m, Unlock(j)))
  {
    var m' := Do(m, Unlock(j));
    assert JourneyOk(m, j) && m'.guests == m.guests;
    forall x | x in m'.guests ensures JourneyOk(m', x) {
      assert JourneyOk(m, x);
    }
  }

  lemma PassOnKeeps(m: System, j: JId, h: Guest)
    requires RolesOk(m) && j in m.guests && m.roles[j] == Holder && m.queue != [] && h.phase.Taken?
    ensures RolesOk(PassOn(m, j, h))
  {
    var m', k := PassOn(m, j, h), m.queue[0].j;
    PassOnJourneys(m, j, h);
    PassOnGiver(m, j, h);
    assert Names(m.queue) == [k] + Names(m'.queue);
  }

  lemma PassOnJourneys(m: System, j: JId, h: Guest)
    requires RolesOk(m) && j in m.guests && m.roles[j] == Holder && m.queue != [] && h.phase.Taken?
    ensures var m' := PassOn(m, j, h); QueueOk(m') && forall x :: x in m'.guests ==> JourneyOk(m', x)
  {
    var m', k := PassOn(m, j, h), m.queue[0].j;
    assert JourneyOk(m, j) && JourneyOk(m, k) && k != j;
    assert m.queue == [m.queue[0]] + m'.queue;
    forall x | x in m'.guests ensures JourneyOk(m', x) {
      assert JourneyOk(m, x);
    }
  }

  lemma PassOnGiver(m: System, j: JId, h: Guest)
    requires RolesOk(m) && j in m.guests && m.roles[j] == Holder && m.queue != []
    ensures OneGiver(PassOn(m, j, h))
  {
    var m' := PassOn(m, j, h);
    assert JourneyOk(m, j);
    forall x | x in m'.roles && m'.roles[x].HandingOver? ensures x == j {
      assert JourneyOk(m, x);
    }
    forall x | x in m'.guests && m'.guests[x].phase.Taken? ensures BeingGiven(m', x) {
      assert JourneyOk(m, x);
      assert m'.roles[j] == HandingOver(x);
    }
  }

  lemma HandedOverKeeps(m: System, j: JId, h: Guest)
    requires RolesOk(m) && j in m.roles && m.roles[j].HandingOver? && h.phase == Woken
    ensures RolesOk(HandedOver(m, j, m.roles[j].to, h))
  {
    var k := m.roles[j].to;
    var m' := HandedOver(m, j, k, h);
    assert JourneyOk(m, j) && JourneyOk(m, k);
    forall x | x in m'.guests ensures JourneyOk(m', x) {
      assert JourneyOk(m, x);
    }
  }

  /** Only the guest k is new. */
  lemma GuestsKept(m: System, m': System, k: JId, h: Guest)
    requires GuestsOk(m) && k in m.guests && Ok(h) && m'.guests == m.guests[k := h]
    ensures GuestsOk(m')
  {
  }

  lemma WokenGuests(m: System, j: JId, k: JId, release: bool)
    requires GuestsOk(m) && j in m.roles && k in m.guests && m.guests[k].phase.Taken?
    ensures GuestsOk(HandedOver(m, j, k, Wake(m.guests[k], release)))
  {
    WakeOk(m.guests[k], release);
    GuestsKept(m, HandedOver(m, j, k, Wake(m.guests[k], release)), k, Wake(m.guests[k], release));
  }

  lemma HandOverKeeps(m: System, j: JId)
    requires Inv(m) && Enabled(m, HandOver(j))
    ensures Inv(Do(m, HandOver(j)))
  {
    var k := m.roles[j].to;
    var release := m.guests[k].phase.Taken? && m.guests[k].phase.d.enabled;
    assert m.guests[k].phase.Taken? by {
      assert JourneyOk(m, j);
    }
    assert GuestsOk(HandedOver(m, j, k, Wake(m.guests[k], release))) by {
      WokenGuests(m, j, k, release);
    }
    assert RolesOk(HandedOver(m, j, k, Wake(m.guests[k], release))) by {
      HandedOverKeeps(m, j, Wake(m.guests[k], release));
    }
  }

  lemma ReturnedKeeps(m: System, j: JId, h: Guest)
    requires RolesOk(m) && j in m.guests && m.guests[j].phase == Woken && h.phase == Busy
    ensures RolesOk(Set(m, j, h, Holder))
  {
    var m' := Set(m, j, h, Holder);
    assert JourneyOk(m, j);
    forall x | x in m'.guests ensures JourneyOk(m', x) {
      assert JourneyOk(m, x);
    }
  }

  lemma LockKeeps(m: System, j: JId)
    requires Inv(m) && Enabled(m, Lock(j))
    ensures Inv(Do(m, Lock(j)))
  {
    if m.acquired {
      assert JourneyOk(m, j);
      ParkOk(m.guests[j]);
      EnqueueKeeps(m, j, Park(m.guests[j]));
    } else {
      LockFreeKeeps(m, j);
    }
  }

  lemma UnlockKeeps(m: System, j: JId)
    requires Inv(m) && Enabled(m, Unlock(j))
    ensures Inv(Do(m, Unlock(j)))
  {
    if m.queue == [] {
      UnlockEmptyKeeps(m, j);
    } else {
      var h := m.guests[m.queue[0].j];
      TakeOk(h);
      PassOnKeeps(m, j, Take(h));
    }
  }

  lemma ReturnKeeps(m: System, j: JId)
    requires Inv(m) && Enabled(m, Return(j))
    ensures Inv(Do(m, Return(j)))
  {
    ReturnOk(m.guests[j]);
    ReturnedKeeps(m, j, Parking.Return(m.guests[j]));
  }

  lemma StepKeeps(m: System, a: Action)
    requires Inv(m) && Enabled(m, a)
    ensures Inv(Do(m, a))
  {
    match a
    case Lock(j) => LockKeeps(m, j);
    case Unlock(j) => UnlockKeeps(m, j);
    case HandOver(j) => HandOverKeeps(m, j);
    case Return(j) => ReturnKeeps(m, j);
    case Own(j, a) => OwnKeeps(m, j, a);
  }

  lemma {:induction false} RunKeeps(m: System, acts: seq<Action>)
    requires Inv(m) && Legal(m, acts)
    ensures Inv(After(m, acts))
    decreases |acts|
  {
    if acts != [] {
      StepKeeps(m, acts[0]);
      RunKeeps(Do(m, acts[0]), acts[1..]);
    }
  }

  lemma {:induction false} Reached(js: set<JId>, acts: seq<Action>)
    requires Legal(Start(js), acts)
    ensures Inv(After(Start(js), acts))
  {
    InitInv(js);
    RunKeeps(Start(js), acts);
  }

  /** At most one journey holds the mutex or has been granted it, one does exactly when the mutex is
      acquired, and nobody waits at a free mutex. */
  lemma {:induction false} MutualExclusion(js: set<JId>, acts: seq<Action>, j: JId, k: JId)
    requires Legal(Start(js), acts)
    ensures var m := After(Start(js), acts);
            && m.guests.Keys == m.roles.Keys
            && (j in m.guests && k in m.guests && Owns(m, j) && Owns(m, k) ==> j == k)
            && (m.acquired <==> exists x :: x in m.guests && Owns(m, x))
            && (m.queue != [] ==> m.acquired)
  {
    Reached(js, acts);
    var m := After(Start(js), acts);
    assert j in m.guests ==> JourneyOk(m, j);
    assert k in m.guests ==> JourneyOk(m, k);
    if m.acquired {
      assert JourneyOk(m, m.owner.value);
    }
    forall x | x in m.guests && Owns(m, x) ensures m.acquired {
      assert JourneyOk(m, x);
    }
  }

  /** The mutex is granted in the order in which journeys asked for it, and the rest is the queue. */
  lemma {:induction false} GrantedInOrder(js: set<JId>, acts: seq<Action>)
    requires Legal(Start(js), acts)
    ensures var m := After(Start(js), acts); m.asked == m.granted + Names(m.queue)
  {
    Reached(js, acts);
  }

  /** Unlock can always take the first waiter, and a taken waiter is being handed the mutex. */
  lemma {:induction false} UnlockIsEnabled(js: set<JId>, acts: seq<Action>, j: JId)
    requires Legal(Start(js), acts)
    ensures var m := After(Start(js), acts);
            && (At(m, j, Holder) ==> Enabled(m, Unlock(j)))
            && (j in m.guests && m.guests[j].phase.Taken? ==>
                  exists k :: k in m.roles && m.roles[k] == HandingOver(j) && Enabled(m, HandOver(k)))
  {
    Reached(js, acts);
    var m := After(Start(js), acts);
    if m.queue != [] {
      TakeOk(m.guests[m.queue[0].j]);
    }
    if j in m.guests && m.guests[j].phase.Taken? {
      assert BeingGiven(m, j);
      var k :| k in m.roles && m.roles[k] == HandingOver(j);
      assert Enabled(m, HandOver(k));
    }
  }

  /** No hand-over is lost, even one that comes before the waiter has suspended: the waiter is on its
      way out of waitForDone in at most seven steps of its own, and then holds the mutex. */
  lemma {:induction false} HandOverIsNotLost(js: set<JId>, acts: seq<Action>, j: JId, a: J.Action)
    requires Legal(Start(js), acts)
    ensures var m := After(Start(js), acts);
            j in m.guests && m.guests[j].phase == Woken ==>
              && (Enabled(m, Return(j)) || Enabled(m, Own(j, NextInner(m.guests[j].g))))
              && (Enabled(m, Own(j, a)) ==> Distance(J.Do(m.guests[j].g, a)) < Distance(m.guests[j].g) <= 7)
  {
    Reached(js, acts);
    var m := After(Start(js), acts);
    if j in m.guests && m.guests[j].phase == Woken {
      assert m.roles[j] == Queued by {
        assert JourneyOk(m, j);
      }
      WokenLeaves(m, j, a);
    }
  }

  lemma WokenLeaves(m: System, j: JId, a: J.Action)
    requires j in m.guests && j in m.roles && m.roles[j] == Queued && m.guests[j].phase == Woken && Ok(m.guests[j])
    ensures Enabled(m, Return(j)) || Enabled(m, Own(j, NextInner(m.guests[j].g)))
    ensures Enabled(m, Own(j, a)) ==> Distance(J.Do(m.guests[j].g, a)) < Distance(m.guests[j].g) <= 7
  {
    WokenMoves(m.guests[j], a);
  }

  lemma WokenMoves(h: Guest, a: J.Action)
    requires Ok(h) && h.phase == Woken
    ensures InUserCode(h) || Inner(h, NextInner(h.g))
    ensures Inner(h, a) ==> Distance(J.Do(h.g, a)) < Distance(h.g) <= 7
  {
    WakeIsNotLost(h, a);
  }

  // ------------------------------------------------------------------ lock gives events back

  /** Not the code of journey j itself, outside lock, setting its events. */
  predicate Leaves(a: Action, j: JId) {
    !(a.Own? && a.j == j && Sets(a.a))
  }

  lemma GivesStep(m: System, a: Action, j: JId)
    requires Inv(m) && Enabled(m, a) && j in m.guests && Leaves(a, j)
    ensures j in Do(m, a).guests && Gives(Do(m, a).guests[j]) == Gives(m.guests[j])
  {
    match a
    case Lock(k) =>
      assert JourneyOk(m, k);
      if k == j && m.acquired {
        ParkGives(m.guests[j]);
      }
    case Unlock(k) =>
      if m.queue != [] && m.queue[0].j == j {
        TakeGives(m.guests[j]);
      }
    case HandOver(k) =>
      assert JourneyOk(m, k);
      if m.roles[k].to == j {
        WakeGives(m.guests[j]);
      }
    case Return(k) =>
    case Own(k, b) =>
      if k == j {
        InnerGives(m.guests[j], b);
      }
  }

  lemma {:induction false} GivesRun(m: System, acts: seq<Action>, j: JId)
    requires Inv(m) && Legal(m, acts) && j in m.guests && forall a :: a in acts ==> Leaves(a, j)
    ensures j in After(m, acts).guests && Gives(After(m, acts).guests[j]) == Gives(m.guests[j])
    decreases |acts|
  {
    if acts != [] {
      GivesStep(m, acts[0], j);
      StepKeeps(m, acts[0]);
      GivesRun(Do(m, acts[0]), acts[1..], j);
    }
  }

  /** Over every run: while the doer of a waiting journey is acquired its events are disabled; at any other
      time, and so when lock returns, they are as they were when lock was called, unless the journey's own
      code has set them since. */
  lemma {:induction false} EventsComeBack(js: set<JId>, before: seq<Action>, acts: seq<Action>, j: JId)
    requires Legal(Start(js), before) && Legal(After(Start(js), before), acts)
    requires forall a :: a in acts ==> Leaves(a, j)
    requires j in After(Start(js), before).guests && !After(Start(js), before).guests[j].phase.Taken?
    ensures j in After(After(Start(js), before), acts).guests
    ensures var m := After(Start(js), before);
            var was, h := m.guests[j].g.word.enabled, After(m, acts).guests[j];
            if h.phase.Taken? then !h.g.word.enabled && h.phase.d.enabled == was else h.g.word.enabled == was
  {
    var m := After(Start(js), before);
    Reached(js, before);
    GivesRun(m, acts, j);
    RunKeeps(m, acts);
  }

  // ------------------------------------------------------------------ the ledgers only grow

  /** The histories say what happens: lock appends its caller to the requests, and a journey is appended to
      the grants exactly when it comes to own the mutex. */
  lemma Recorded(m: System, a: Action)
    requires Inv(m) && Enabled(m, a)
    ensures var m' := Do(m, a);
            && m'.asked == (if a.Lock? then m.asked + [a.j] else m.asked)
            && m'.granted == (if m'.owner.Some? && m'.owner != m.owner then m.granted + [m'.owner.value] else m.granted)
  {
    if a.Unlock? && m.queue != [] {
      assert JourneyOk(m, a.j) && JourneyOk(m, m.queue[0].j);
    }
  }
}

/** The object.  In general an acquire can fail, because a raise event came first; then unlock goes on
    to the next waiter. */
module MutexObject {
  import opened Types
  import opened JourneyWord
  import opened Parking
  import opened MutexSystem

  /** The critical section of lock; w is the waiter it would leave. */
  function AfterLock(acquired: bool, q: seq<Waiter>, w: Waiter): (bool, seq<Waiter>, bool) {
    if !acquired then (true, q, true) else (true, q + [w], false)
  }

  /** The critical section of unlock: the mutex is free, or goes to the waiter that is found. */
  function AfterUnlock(acquired: bool, q: seq<Waiter>, words: map<JId, Word<nat>>)
    : (bool, seq<Waiter>, Option<Waiter>)
  {
    var i := FirstReady(q, words);
    if i < |q| then (acquired, q[i + 1..], Some(q[i])) else (false, [], None)
  }

  /** Waiters that cannot be acquired are dropped; the first that can gets the mutex, and those behind it wait
      on in their order. */
  lemma UnlockTakesFirst(acquired: bool, q: seq<Waiter>, words: map<JId, Word<nat>>, i: nat)
    requires i < |q| && (forall k :: 0 <= k < |q| ==> q[k].j in words)
    requires Acquirable(q[i], words) && forall k :: 0 <= k < i ==> !Acquirable(q[k], words)
    ensures AfterUnlock(acquired, q, words) == (acquired, q[i + 1..], Some(q[i]))
  {
    FirstReadyIs(q, words, i);
  }

  /** When none can be acquired, or none waits, the mutex is free. */
  lemma UnlockFrees(acquired: bool, q: seq<Waiter>, words: map<JId, Word<nat>>)
    requires forall k :: 0 <= k < |q| ==> q[k].j in words && !Acquirable(q[k], words)
    ensures AfterUnlock(acquired, q, words) == (false, [], None)
  {
    FirstReadyIs(q, words, |q|);
  }

  class Mutex {
    var acquired: bool
    var queue: seq<Waiter>

    constructor ()
      ensures !acquired && queue == []
    {
      acquired, queue := false, [];
    }

    /** lock, up to the end of its critical section; the caller waits when it got no lock. */
    method Lock(w: Waiter) returns (got: bool)
      modifies this
      ensures (acquired, queue, got) == AfterLock(old(acquired), old(queue), w)
    {
      if !acquired {
        acquired := true;
        return true;
      }
      queue := queue + [w];
      return false;
    }

    /** unlock, up to the end of its critical section, on the words of the waiting journeys. */
    method Unlock(words: map<JId, Word<nat>>) returns (next: Option<Waiter>)
      requires forall w :: w in queue ==> w.j in words
      modifies this
      ensures (acquired, queue, next) == AfterUnlock(old(acquired), old(queue), words)
    {
      ghost var i := 0;
      while queue != []
        invariant i <= |old(queue)| && queue == old(queue)[i..] && acquired == old(acquired)
        invariant FirstReady(old(queue), words) == i + FirstReady(queue, words)
        decreases |queue|
      {
        var w := queue[0];
        assert w in queue && w in old(queue);
        queue := queue[1..];
        if Acquires(words[w.j], w.d) {
          return Some(w);
        }
        i := i + 1;
      }
      acquired := false;
      return None;
    }
  }

  // ------------------------------------------------------------------ the object is what the system runs

  function Words(m: System): map<JId, Word<nat>> {
    map j | j in m.guests :: m.guests[j].g.word
  }

  lemma LockIsSystem(m: System, j: JId)
    requires Enabled(m, Lock(j))
    ensures var m' := Do(m, Lock(j));
            AfterLock(m.acquired, m.queue, Waiter(j, NewDoer(m.guests[j])))
            == (m'.acquired, m'.queue, m'.roles[j] == Holder)
  {
  }

  /** With no raise events the first waiter is the one that is found. */
  lemma UnlockIsSystem(m: System, j: JId)
    requires Inv(m) && Enabled(m, Unlock(j))
    ensures var m' := Do(m, Unlock(j));
            var r := AfterUnlock(m.acquired, m.queue, Words(m));
            && r.0 == m'.acquired && r.1 == m'.queue
            && (r.2.Some? ==> m'.roles[j] == HandingOver(r.2.value.j) && r.2.value.j in m'.guests
                              && m'.guests[r.2.value.j].phase == Taken(r.2.value.d))
            && (r.2.None? ==> m'.roles[j] == Outside)
  {
    assert JourneyOk(m, j);
    if m.queue != [] {
      assert m.queue[0].j in m.guests && m.guests[m.queue[0].j].phase == Parked(m.queue[0].d);
      TakeOk(m.guests[m.queue[0].j]);
    }
  }
}
