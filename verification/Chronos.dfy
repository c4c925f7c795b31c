/** The replicated job scheduler of examples/chronos.cpp: its state, its transactions and what they keep. */
module ChronosSpec {
  import opened Types

  type Time = int
  type Job = nat

  datatype Event = Event(ts: Time, h: Job)

  /** What has happened: the jobs added and completed, the jobs in the order in which they became ready, the
      starts, each event that has become due with the time it was taken at, and the nodes in the order in
      which they became idle. */
  datatype Past = Past(added: multiset<Job>, completed: multiset<Job>, queued: seq<Job>,
                       started: seq<(NodeId, Job)>, timed: seq<(Time, Event)>, idled: seq<NodeId>)

  datatype State = State(available: seq<NodeId>, events: seq<Event>, running: map<NodeId, Job>,
                         awaiting: seq<Job>, slots: seq<NodeId>, past: Past)

  function Start(nodes: seq<NodeId>): State {
    State(nodes, [], map[], [], nodes, Past(multiset{}, multiset{}, [], [], [], nodes))
  }

  function Jobs(es: seq<Event>): (r: seq<Job>)
    ensures |r| == |es| && forall i :: 0 <= i < |es| ==> r[i] == es[i].h
  {
    seq(|es|, i requires 0 <= i < |es| => es[i].h)
  }

  /** All elements but id, as std::remove with erase leaves them. */
  function Without(s: seq<NodeId>, id: NodeId): (r: seq<NodeId>)
    ensures forall n :: n in r <==> n in s && n != id
    ensures id !in s ==> r == s
  {
    if s == [] then []
    else
      var r := Without(s[..|s| - 1], id);
      if s[|s| - 1] == id then r else r + [s[|s| - 1]]
  }

  predicate Distinct(s: seq<NodeId>) {
    forall i, j :: 0 <= i < j < |s| ==> s[i] != s[j]
  }

  // ------------------------------------------------------------------ transactions

  function AddEvent(s: State, ts: Time, h: Job): State {
    s.(events := s.events + [Event(ts, h)], past := s.past.(added := s.past.added + multiset{h}))
  }

  /** The first ready job goes to the first idle node. */
  function Dispatch(s: State): State
    requires s.awaiting != [] && s.slots != []
  {
    s.(running := s.running[s.slots[0] := s.awaiting[0]], awaiting := s.awaiting[1..], slots := s.slots[1..],
    past := s.past.(started := s.past.started + [(s.slots[0], s.awaiting[0])]))
  }

  function Trigger(s: State): State
    decreases |s.awaiting|
  {
    if s.awaiting == [] || s.slots == [] then s else Trigger(Dispatch(s))
  }

  /** The batch holds the events due before now in the order of their times, the rest all others. */
  predicate Due(es: seq<Event>, now: Time, batch: seq<Event>, rest: seq<Event>) {
    multiset(batch) + multiset(rest) == multiset(es)
    && (forall i :: 0 <= i < |batch| ==> batch[i].ts < now)
    && (forall i :: 0 <= i < |rest| ==> rest[i].ts >= now)
    && (forall i, j :: 0 <= i < j < |batch| ==> batch[i].ts <= batch[j].ts)
  }

  /** The same while the queue still holds due events: what has been taken came before what is left. */
  predicate Taking(es: seq<Event>, now: Time, batch: seq<Event>, rest: seq<Event>) {
    multiset(batch) + multiset(rest) == multiset(es)
    && (forall i :: 0 <= i < |batch| ==> batch[i].ts < now)
    && (forall i, j :: 0 <= i < |batch| && 0 <= j < |rest| ==> batch[i].ts <= rest[j].ts)
    && (forall i, j :: 0 <= i < j < |batch| ==> batch[i].ts <= batch[j].ts)
  }

  predicate IsTop(es: seq<Event>, i: nat) {
    i < |es| && forall j :: 0 <= j < |es| ==> es[i].ts <= es[j].ts
  }

  function Popped(es: seq<Event>, i: nat): seq<Event>
    requires i < |es|
  {
    es[..i] + es[i + 1..]
  }

  lemma TakeTop(es: seq<Event>, now: Time, batch: seq<Event>, rest: seq<Event>, i: nat)
    requires Taking(es, now, batch, rest) && IsTop(rest, i) && rest[i].ts < now
    ensures Taking(es, now, batch + [rest[i]], Popped(rest, i))
  {
    assert rest == rest[..i] + [rest[i]] + rest[i + 1..];
    assert forall j :: 0 <= j < |Popped(rest, i)| ==> Popped(rest, i)[j] in rest;
  }

  /** When the first event left is not due, none is. */
  lemma TakenAll(es: seq<Event>, now: Time, batch: seq<Event>, rest: seq<Event>, i: nat)
    requires Taking(es, now, batch, rest) && IsTop(rest, i) && rest[i].ts >= now
    ensures Due(es, now, batch, rest)
  {
  }

  /** The events, each with the time it was taken at. */
  function At(now: Time, batch: seq<Event>): (r: seq<(Time, Event)>)
    ensures |r| == |batch| && forall i :: 0 <= i < |r| ==> r[i] == (now, batch[i])
  {
    seq(|batch|, i requires 0 <= i < |batch| => (now, batch[i]))
  }

  function Ready(s: State, now: Time, batch: seq<Event>, rest: seq<Event>): State {
    s.(events := rest, awaiting := s.awaiting + Jobs(batch),
    past := s.past.(queued := s.past.queued + Jobs(batch), timed := s.past.timed + At(now, batch)))
  }

  function Freed(s: State, id: NodeId): State {
    s.(running := s.running - {id}, slots := s.slots + [id], past := Left(s, id))
  }

  /** The job of the node is completed, and the node is idle. */
  function Left(s: State, id: NodeId): Past {
    s.past.(idled := s.past.idled + [id],
    completed := s.past.completed + if id in s.running then multiset{s.running[id]} else multiset{})
  }

  lemma ReadyStep(s: State, now: Time, batch: seq<Event>, rest: seq<Event>, i: nat)
    requires i < |rest|
    ensures var t := Ready(s, now, batch, rest);
            Ready(s, now, batch + [rest[i]], Popped(rest, i))
            == t.(events := Popped(rest, i), awaiting := t.awaiting + [rest[i].h],
                  past := t.past.(queued := t.past.queued + [rest[i].h], timed := t.past.timed + [(now, rest[i])]))
  {
    assert At(now, batch + [rest[i]]) == At(now, batch) + [(now, rest[i])];
    assert Jobs(batch + [rest[i]]) == Jobs(batch) + [rest[i].h];
  }

  /** The job of a removed node is ready again, behind all others. */
  function Removed(s: State, id: NodeId): State {
    var t := s.(available := Without(s.available, id), slots := Without(s.slots, id));
    if id !in s.running then t
    else
      t.(running := s.running - {id}, awaiting := s.awaiting + [s.running[id]],
      past := s.past.(queued := s.past.queued + [s.running[id]]))
  }

  datatype Transaction =
    | Add(ts: Time, h: Job)
    | UpTo(now: Time, batch: seq<Event>, rest: seq<Event>)
    | Complete(id: NodeId)
    | Remove(id: NodeId)

  /** Completions arrive from running nodes only. */
  predicate Legal(s: State, x: Transaction) {
    match x
    case Add(_, _) => true
    case UpTo(now, batch, rest) => Due(s.events, now, batch, rest)
    case Complete(id) => id in s.running
    case Remove(_) => true
  }

  function After(s: State, x: Transaction): State {
    match x
    case Add(ts, h) => AddEvent(s, ts, h)
    case UpTo(now, batch, rest) => Trigger(Ready(s, now, batch, rest))
    case Complete(id) => Trigger(Freed(s, id))
    case Remove(id) => if id in s.running then Trigger(Removed(s, id)) else Removed(s, id)
  }

  // ------------------------------------------------------------------ every node has one place

  /** Every available node is one idle slot or runs one job, and no other node is either. */
  ghost predicate Placed(s: State) {
    Distinct(s.available) && Distinct(s.slots)
    && (forall n :: n in s.available <==> n in s.slots || n in s.running)
    && (forall n :: n in s.slots ==> n !in s.running)
  }

  /** No job waits while a node is idle. */
  predicate Busy(s: State) {
    s.awaiting == [] || s.slots == []
  }

  lemma {:induction false} TriggerPlaced(s: State)
    requires Placed(s)
    ensures Placed(Trigger(s)) && Busy(Trigger(s))
    decreases |s.awaiting|
  {
    if !Busy(s) {
      DispatchPlaced(s);
      TriggerPlaced(Dispatch(s));
    }
  }

  lemma DispatchPlaced(s: State)
    requires Placed(s) && !Busy(s)
    ensures Placed(Dispatch(s))
  {
    var t := Dispatch(s);
    assert s.slots == [s.slots[0]] + t.slots;
    assert forall n :: n in s.slots <==> n == s.slots[0] || n in t.slots;
    assert forall n :: n in t.running <==> n == s.slots[0] || n in s.running;
  }

  lemma FreedPlaced(s: State, id: NodeId)
    requires Placed(s) && id in s.running
    ensures Placed(Freed(s, id))
  {
  }

  lemma {:induction false} WithoutDistinct(s: seq<NodeId>, id: NodeId)
    requires Distinct(s)
    ensures Distinct(Without(s, id))
  {
    if s != [] {
      var t := s[..|s| - 1];
      WithoutDistinct(t, id);
      assert s[|s| - 1] !in t;
    }
  }

  lemma RemovedPlaced(s: State, id: NodeId)
    requires Placed(s)
    ensures Placed(Removed(s, id))
  {
    WithoutDistinct(s.available, id);
    WithoutDistinct(s.slots, id);
  }

  lemma StepPlaced(s: State, x: Transaction)
    requires Placed(s) && Busy(s) && Legal(s, x)
    ensures Placed(After(s, x)) && Busy(After(s, x))
  {
    match x
    case Add(_, _) =>
    case UpTo(now, batch, rest) => TriggerPlaced(Ready(s, now, batch, rest));
    case Complete(id) =>
      FreedPlaced(s, id);
      TriggerPlaced(Freed(s, id));
    case Remove(id) =>
      RemovedPlaced(s, id);
      if id in s.running {
        TriggerPlaced(Removed(s, id));
      }
  }

  // ------------------------------------------------------------------ no job is lost or doubled

  /** The nodes that run the job. */
  function Holders(running: map<NodeId, Job>, h: Job): set<NodeId> {
    set n | n in running && running[n] == h
  }

  function Count(s: seq<Job>, h: Job): nat {
    multiset(s)[h]
  }

  /** How often the job occurs in the four places together. */
  function Copies(s: State, h: Job): nat {
    Count(Jobs(s.events), h) + Count(s.awaiting, h) + |Holders(s.running, h)| + s.past.completed[h]
  }

  ghost predicate Conserved(s: State) {
    forall h: Job :: Copies(s, h) == s.past.added[h]
  }

  lemma CountAppend(a: seq<Job>, b: seq<Job>, h: Job)
    ensures Count(a + b, h) == Count(a, h) + Count(b, h)
  {
  }

  lemma CountHead(a: seq<Job>, h: Job)
    requires a != []
    ensures Count(a, h) == Count(a[1..], h) + if a[0] == h then 1 else 0
  {
    assert a == [a[0]] + a[1..];
  }

  lemma RunningAdded(m: map<NodeId, Job>, id: NodeId, j: Job, h: Job)
    requires id !in m
    ensures |Holders(m[id := j], h)| == |Holders(m, h)| + if j == h then 1 else 0
  {
    var a, b := Holders(m, h), Holders(m[id := j], h);
    if j == h {
      assert b == a + {id};
    } else {
      assert b == a;
    }
  }

  lemma RunningGone(m: map<NodeId, Job>, id: NodeId, h: Job)
    requires id in m
    ensures |Holders(m, h)| == |Holders(m - {id}, h)| + if m[id] == h then 1 else 0
  {
    var a, b := Holders(m, h), Holders(m - {id}, h);
    if m[id] == h {
      assert a == b + {id};
    } else {
      assert a == b;
    }
  }

  lemma DispatchCopies(s: State, h: Job)
    requires Placed(s) && !Busy(s)
    ensures Copies(Dispatch(s), h) == Copies(s, h)
  {
    CountHead(s.awaiting, h);
    assert s.slots[0] in s.slots;
    RunningAdded(s.running, s.slots[0], s.awaiting[0], h);
  }

  lemma {:induction false} TriggerCopies(s: State, h: Job)
    requires Placed(s)
    ensures Copies(Trigger(s), h) == Copies(s, h) && Trigger(s).past.added == s.past.added
    decreases |s.awaiting|
  {
    if !Busy(s) {
      DispatchPlaced(s);
      DispatchCopies(s, h);
      TriggerCopies(Dispatch(s), h);
    }
  }

  lemma JobsAppend(a: seq<Event>, b: seq<Event>)
    ensures Jobs(a + b) == Jobs(a) + Jobs(b)
  {
  }

  /** How often a job is scheduled does not depend on how the queue arranges its events. */
  lemma {:induction false} JobsPermuted(a: seq<Event>, b: seq<Event>, h: Job)
    requires multiset(a) == multiset(b)
    ensures Count(Jobs(a), h) == Count(Jobs(b), h)
  {
    if a == [] {
      SameSize(a, b);
    } else {
      var i := PlaceOf(a[0], a, b);
      RestsAgree(a, b, i);
      JobsPermuted(a[1..], b[..i] + b[i + 1..], h);
      FirstOut(a, h);
      WithoutOne(b, i, h);
    }
  }

  lemma SameSize(a: seq<Event>, b: seq<Event>)
    requires multiset(a) == multiset(b)
    ensures |a| == |b|
  {
    assert |a| == |multiset(a)| == |multiset(b)| == |b|;
  }

  lemma PlaceOf(e: Event, a: seq<Event>, b: seq<Event>) returns (i: nat)
    requires e in a && multiset(a) == multiset(b)
    ensures i < |b| && b[i] == e
  {
    assert e in multiset(b);
    i :| i < |b| && b[i] == e;
  }

  lemma FirstOut(a: seq<Event>, h: Job)
    requires a != []
    ensures Count(Jobs(a), h) == Count([a[0].h], h) + Count(Jobs(a[1..]), h)
  {
    assert Jobs(a) == [a[0].h] + Jobs(a[1..]);
    CountAppend([a[0].h], Jobs(a[1..]), h);
  }

  lemma WithoutOne(b: seq<Event>, i: nat, h: Job)
    requires i < |b|
    ensures Count(Jobs(b), h) == Count([b[i].h], h) + Count(Jobs(b[..i] + b[i + 1..]), h)
  {
    assert Jobs(b) == Jobs(b[..i]) + [b[i].h] + Jobs(b[i + 1..]);
    JobsAppend(b[..i], b[i + 1..]);
    JobOut(Jobs(b[..i]), [b[i].h], Jobs(b[i + 1..]), h);
  }

  lemma RestsAgree(a: seq<Event>, b: seq<Event>, i: nat)
    requires a != [] && i < |b| && b[i] == a[0] && multiset(a) == multiset(b)
    ensures multiset(a[1..]) == multiset(b[..i] + b[i + 1..])
  {
    assert a == [a[0]] + a[1..];
    assert b == b[..i] + [b[i]] + b[i + 1..];
    assert multiset(a) - multiset{a[0]} == multiset(a[1..]);
    assert multiset(b) - multiset{b[i]} == multiset(b[..i] + b[i + 1..]);
  }

  lemma JobOut(a: seq<Job>, m: seq<Job>, b: seq<Job>, h: Job)
    ensures Count(a + m + b, h) == Count(m, h) + Count(a + b, h)
  {
  }

  lemma ReadyCopies(s: State, now: Time, batch: seq<Event>, rest: seq<Event>, h: Job)
    requires Due(s.events, now, batch, rest)
    ensures Copies(Ready(s, now, batch, rest), h) == Copies(s, h)
  {
    JobsPermuted(s.events, batch + rest, h);
    JobsAppend(batch, rest);
    CountAppend(Jobs(batch), Jobs(rest), h);
    CountAppend(s.awaiting, Jobs(batch), h);
  }

  lemma RemovedCopies(s: State, id: NodeId, h: Job)
    ensures Copies(Removed(s, id), h) == Copies(s, h)
  {
    if id in s.running {
      RunningGone(s.running, id, h);
      CountAppend(s.awaiting, [s.running[id]], h);
    }
  }

  lemma FreedCopies(s: State, id: NodeId, h: Job)
    requires id in s.running
    ensures Copies(Freed(s, id), h) == Copies(s, h)
  {
    RunningGone(s.running, id, h);
  }

  lemma AddCopies(s: State, ts: Time, j: Job, h: Job)
    ensures Copies(AddEvent(s, ts, j), h) == Copies(s, h) + if j == h then 1 else 0
  {
    JobsAppend(s.events, [Event(ts, j)]);
    assert Jobs([Event(ts, j)]) == [j];
    CountAppend(Jobs(s.events), [j], h);
  }

  lemma StepCopies(s: State, x: Transaction, h: Job)
    requires Placed(s) && Legal(s, x) && Copies(s, h) == s.past.added[h]
    ensures Copies(After(s, x), h) == After(s, x).past.added[h]
  {
    match x
    case Add(ts, j) => AddCopies(s, ts, j, h);
    case UpTo(now, batch, rest) =>
      ReadyCopies(s, now, batch, rest, h);
      TriggerCopies(Ready(s, now, batch, rest), h);
    case Complete(id) =>
      FreedPlaced(s, id);
      FreedCopies(s, id, h);
      TriggerCopies(Freed(s, id), h);
    case Remove(id) =>
      RemovedPlaced(s, id);
      RemovedCopies(s, id, h);
      if id in s.running {
        TriggerCopies(Removed(s, id), h);
      }
  }

  // ------------------------------------------------------------------ order

  function StartedJobs(started: seq<(NodeId, Job)>): (r: seq<Job>)
    ensures |r| == |started| && forall i :: 0 <= i < |r| ==> r[i] == started[i].1
  {
    seq(|started|, i requires 0 <= i < |started| => started[i].1)
  }

  /** Jobs start in the order in which they became ready. */
  predicate Fifo(s: State) {
    s.past.queued == StartedJobs(s.past.started) + s.awaiting
  }

  lemma {:induction false} TriggerFifo(s: State)
    requires Fifo(s)
    ensures Fifo(Trigger(s))
    decreases |s.awaiting|
  {
    if !Busy(s) {
      var t := Dispatch(s);
      assert StartedJobs(t.past.started) == StartedJobs(s.past.started) + [s.awaiting[0]];
      assert s.awaiting == [s.awaiting[0]] + s.awaiting[1..];
      TriggerFifo(t);
    }
  }

  lemma StepFifo(s: State, x: Transaction)
    requires Fifo(s)
    ensures Fifo(After(s, x))
  {
    match x
    case Add(_, _) =>
    case UpTo(now, batch, rest) => TriggerFifo(Ready(s, now, batch, rest));
    case Complete(id) => TriggerFifo(Freed(s, id));
    case Remove(id) =>
      if id in s.running {
        assert Fifo(Removed(s, id));
        TriggerFifo(Removed(s, id));
      }
  }

  // ------------------------------------------------------------------ runs

  ghost predicate Inv(s: State) {
    Placed(s) && Busy(s) && Conserved(s) && Fifo(s)
  }

  function Final(s: State, xs: seq<Transaction>): State {
    if xs == [] then s else After(Final(s, xs[..|xs| - 1]), xs[|xs| - 1])
  }

  predicate LegalRun(s: State, xs: seq<Transaction>) {
    xs != [] ==>
      LegalRun(s, xs[..|xs| - 1]) && Legal(Final(s, xs[..|xs| - 1]), xs[|xs| - 1])
  }

  lemma StartInv(nodes: seq<NodeId>)
    requires Distinct(nodes)
    ensures Inv(Start(nodes))
  {
    var s := Start(nodes);
    forall h: Job
      ensures Copies(s, h) == s.past.added[h]
    {
      assert Jobs(s.events) == [];
      assert Holders(s.running, h) == {};
    }
  }

  /** After every run of transactions each node has one place, no job waits beside an idle node, every job
      added is scheduled, ready, running or completed exactly as often as it was added, and starts are in
      the order of readiness. */
  lemma {:induction false} RunKeeps(nodes: seq<NodeId>, xs: seq<Transaction>)
    requires Distinct(nodes) && LegalRun(Start(nodes), xs)
    ensures Inv(Final(Start(nodes), xs))
  {
    if xs == [] {
      StartInv(nodes);
    } else {
      var s := Final(Start(nodes), xs[..|xs| - 1]);
      RunKeeps(nodes, xs[..|xs| - 1]);
      StepInv(s, xs[|xs| - 1]);
    }
  }

  lemma StepInv(s: State, x: Transaction)
    requires Inv(s) && Legal(s, x)
    ensures Inv(After(s, x))
  {
    StepPlaced(s, x);
    StepFifo(s, x);
    forall h: Job
      ensures Copies(After(s, x), h) == After(s, x).past.added[h]
    {
      StepCopies(s, x, h);
    }
  }

  /** With a node left, nothing scheduled and nothing running, every job added has been completed. */
  lemma QuietMeansDone(s: State)
    requires Inv(s) && s.available != [] && s.events == [] && s.running == map[]
    ensures s.past.completed == s.past.added
  {
    assert s.available[0] in s.available;
    assert s.slots != [];
    assert s.awaiting == [];
    forall h: Job
      ensures s.past.completed[h] == s.past.added[h]
    {
      assert Copies(s, h) == s.past.added[h];
      assert Jobs(s.events) == [];
      assert Holders(s.running, h) == {};
    }
  }

  /** As many jobs run as there are nodes, or as there are jobs to run. */
  lemma NodesAreUsed(s: State)
    requires Inv(s)
    ensures |s.running| + |s.slots| == |s.available|
    ensures |s.running| == |s.available| || s.awaiting == []
  {
    DistinctSize(s.available);
    DistinctSize(s.slots);
    assert Elements(s.available) == Elements(s.slots) + s.running.Keys;
    assert Elements(s.slots) !! s.running.Keys;
  }

  function Elements(s: seq<NodeId>): set<NodeId> {
    set n | n in s
  }

  lemma {:induction false} DistinctSize(s: seq<NodeId>)
    requires Distinct(s)
    ensures |Elements(s)| == |s|
  {
    if s == [] {
      assert Elements(s) == {};
    } else {
      DistinctSize(s[1..]);
      assert s == [s[0]] + s[1..];
      assert Elements(s) == Elements(s[1..]) + {s[0]};
    }
  }

  // ------------------------------------------------------------------ dispatch in closed form

  predicate SameJob(a: map<NodeId, Job>, b: map<NodeId, Job>, n: NodeId) {
    (n in a <==> n in b) && (n in a ==> a[n] == b[n])
  }

  function Pairs(nodes: seq<NodeId>, jobs: seq<Job>, k: nat): (r: seq<(NodeId, Job)>)
    requires k <= |nodes| && k <= |jobs|
    ensures |r| == k && forall i :: 0 <= i < k ==> r[i] == (nodes[i], jobs[i])
  {
    seq(k, i requires 0 <= i < k => (nodes[i], jobs[i]))
  }

  /** The jobs at the front are paired with the slots at the front until one list runs out. */
  lemma {:induction false} TriggerPairs(s: State, k: nat)
    requires k <= |s.awaiting| && k <= |s.slots| && (k == |s.awaiting| || k == |s.slots|)
    ensures var t := Trigger(s);
            && t.awaiting == s.awaiting[k..] && t.slots == s.slots[k..]
            && t.past.started == s.past.started + Pairs(s.slots, s.awaiting, k)
    decreases k
  {
    if k > 0 {
      var d := Dispatch(s);
      TriggerPairs(d, k - 1);
      Tails(s.awaiting, k);
      Tails(s.slots, k);
      FirstPair(s.past.started, s.slots, s.awaiting, k);
    }
  }

  lemma Tails<T>(xs: seq<T>, k: nat)
    requires 0 < k <= |xs|
    ensures xs[1..][k - 1..] == xs[k..]
  {
  }

  lemma FirstPair(before: seq<(NodeId, Job)>, nodes: seq<NodeId>, jobs: seq<Job>, k: nat)
    requires 0 < k <= |nodes| && k <= |jobs|
    ensures before + Pairs(nodes, jobs, k) == before + [(nodes[0], jobs[0])] + Pairs(nodes[1..], jobs[1..], k - 1)
  {
  }

  /** Each of these nodes runs its job, and the others run what they ran. */
  lemma {:induction false} TriggerRuns(s: State, k: nat, n: NodeId)
    requires k <= |s.awaiting| && k <= |s.slots| && (k == |s.awaiting| || k == |s.slots|) && Distinct(s.slots)
    ensures forall i :: 0 <= i < k && s.slots[i] == n ==>
              n in Trigger(s).running && Trigger(s).running[n] == s.awaiting[i]
    ensures n !in s.slots[..k] ==> SameJob(Trigger(s).running, s.running, n)
    decreases k
  {
    if k > 0 {
      var d := Dispatch(s);
      TriggerRuns(d, k - 1, n);
      assert s.slots[..k] == [s.slots[0]] + d.slots[..k - 1];
      assert n == s.slots[0] ==> n !in d.slots[..k - 1];
      forall i | 0 <= i < k && s.slots[i] == n
        ensures n in Trigger(s).running && Trigger(s).running[n] == s.awaiting[i]
      {
        assert i > 0 ==> d.slots[i - 1] == n && d.awaiting[i - 1] == s.awaiting[i];
      }
    }
  }

  // ------------------------------------------------------------------ on time

  /** The events of the Add transactions, in order. */
  function AddedEvents(xs: seq<Transaction>): seq<Event> {
    if xs == [] then []
    else
      var r := AddedEvents(xs[..|xs| - 1]);
      match xs[|xs| - 1]
      case Add(ts, h) => r + [Event(ts, h)]
      case _ => r
  }

  function EventsOf(ts: seq<(Time, Event)>): (r: seq<Event>)
    ensures |r| == |ts| && forall i :: 0 <= i < |r| ==> r[i] == ts[i].1
  {
    seq(|ts|, i requires 0 <= i < |ts| => ts[i].1)
  }

  /** Every event added is still scheduled or has been taken, once, and after its time. */
  ghost predicate OnTime(s: State, added: seq<Event>) {
    && (forall i :: 0 <= i < |s.past.timed| ==> s.past.timed[i].1.ts < s.past.timed[i].0)
    && multiset(s.events) + multiset(EventsOf(s.past.timed)) == multiset(added)
  }

  lemma {:induction false} TriggerKeepsTimes(s: State)
    ensures var t := Trigger(s);
            t.events == s.events && t.past.timed == s.past.timed && t.past.idled == s.past.idled
    decreases |s.awaiting|
  {
    if !Busy(s) {
      TriggerKeepsTimes(Dispatch(s));
    }
  }

  lemma ReadyOnTime(s: State, now: Time, batch: seq<Event>, rest: seq<Event>, added: seq<Event>)
    requires OnTime(s, added) && Due(s.events, now, batch, rest)
    ensures OnTime(Ready(s, now, batch, rest), added)
  {
    var t := Ready(s, now, batch, rest);
    assert EventsOf(t.past.timed) == EventsOf(s.past.timed) + batch;
    forall i | 0 <= i < |t.past.timed| ensures t.past.timed[i].1.ts < t.past.timed[i].0 {
      if i >= |s.past.timed| {
        assert t.past.timed[i] == (now, batch[i - |s.past.timed|]);
      } else {
        assert t.past.timed[i] == s.past.timed[i];
      }
    }
  }

  /** No job becomes ready before its time: over any run, what has been taken from the schedule was added by
      an Add transaction with a time before the time it was taken at, and everything else added is still
      scheduled with the time it was added for. */
  lemma {:induction false} NothingIsEarly(nodes: seq<NodeId>, xs: seq<Transaction>)
    requires LegalRun(Start(nodes), xs)
    ensures OnTime(Final(Start(nodes), xs), AddedEvents(xs))
  {
    if xs != [] {
      var ys, x := xs[..|xs| - 1], xs[|xs| - 1];
      NothingIsEarly(nodes, ys);
      StepOnTime(Final(Start(nodes), ys), x, AddedEvents(ys));
    }
  }

  lemma StepOnTime(s: State, x: Transaction, added: seq<Event>)
    requires OnTime(s, added) && Legal(s, x)
    ensures OnTime(After(s, x), if x.Add? then added + [Event(x.ts, x.h)] else added)
  {
    match x
    case Add(ts, h) =>
    case UpTo(now, batch, rest) =>
      ReadyOnTime(s, now, batch, rest, added);
      TriggerKeepsTimes(Ready(s, now, batch, rest));
    case Complete(id) => TriggerKeepsTimes(Freed(s, id));
    case Remove(id) => TriggerKeepsTimes(Removed(s, id));
  }

  /** The histories say what happens: what becomes ready are the jobs of the events taken, in the order of
      their times and up to the last that is due, or the job of a node that is removed. */
  lemma Recorded(s: State, x: Transaction)
    requires Legal(s, x)
    ensures var t := After(s, x);
            match x
            case Add(ts, h) => t.past.added == s.past.added + multiset{h} && t.past.queued == s.past.queued
            case UpTo(now, batch, rest) =>
              && t.past.queued == s.past.queued + Jobs(batch) && t.past.timed == s.past.timed + At(now, batch)
              && t.events == rest && (forall e :: e in t.events ==> e.ts >= now)
              && (forall i, j :: 0 <= i < j < |batch| ==> batch[i].ts <= batch[j].ts)
            case Complete(id) =>
              t.past.completed == s.past.completed + multiset{s.running[id]} && t.past.queued == s.past.queued
            case Remove(id) => t.past.queued == s.past.queued + if id in s.running then [s.running[id]] else []
  {
    match x
    case Add(_, _) =>
    case UpTo(now, batch, rest) => TriggerKeepsHistory(Ready(s, now, batch, rest));
    case Complete(id) => TriggerKeepsHistory(Freed(s, id));
    case Remove(id) => TriggerKeepsHistory(Removed(s, id));
  }

  lemma {:induction false} TriggerKeepsHistory(s: State)
    ensures var t := Trigger(s);
            && t.past.queued == s.past.queued && t.past.added == s.past.added && t.past.completed == s.past.completed
            && t.past.timed == s.past.timed && t.events == s.events
    decreases |s.awaiting|
  {
    if !Busy(s) {
      TriggerKeepsHistory(Dispatch(s));
    }
  }

  // ------------------------------------------------------------------ the order of the nodes

  /** The elements of s that are in a, in their order. */
  function Keep(s: seq<NodeId>, a: seq<NodeId>): seq<NodeId> {
    if s == [] then []
    else
      var r := Keep(s[..|s| - 1], a);
      if s[|s| - 1] in a then r + [s[|s| - 1]] else r
  }

  lemma {:induction false} KeepAppend(s: seq<NodeId>, t: seq<NodeId>, a: seq<NodeId>)
    ensures Keep(s + t, a) == Keep(s, a) + Keep(t, a)
  {
    if t == [] {
      assert s + t == s;
    } else {
      assert (s + t)[..|s + t| - 1] == s + t[..|t| - 1];
      KeepAppend(s, t[..|t| - 1], a);
    }
  }

  lemma {:induction false} KeepTwice(s: seq<NodeId>, a: seq<NodeId>, b: seq<NodeId>)
    requires forall n :: n in b ==> n in a
    ensures Keep(Keep(s, a), b) == Keep(s, b)
  {
    if s != [] {
      KeepTwice(s[..|s| - 1], a, b);
      KeepAppend(Keep(s[..|s| - 1], a), [s[|s| - 1]], b);
      assert Keep([s[|s| - 1]], b) == if s[|s| - 1] in b then [s[|s| - 1]] else [];
    }
  }

  lemma {:induction false} KeepWithout(s: seq<NodeId>, id: NodeId, b: seq<NodeId>)
    requires id !in b
    ensures Keep(Without(s, id), b) == Keep(s, b)
  {
    if s != [] {
      KeepWithout(s[..|s| - 1], id, b);
    }
  }

  function StartedNodes(started: seq<(NodeId, Job)>): (r: seq<NodeId>)
    ensures |r| == |started| && forall i :: 0 <= i < |r| ==> r[i] == started[i].0
  {
    seq(|started|, i requires 0 <= i < |started| => started[i].0)
  }

  /** Among the nodes still available, those started and then those idle are those that became idle, in
      this order. */
  predicate InTurn(s: State) {
    Keep(StartedNodes(s.past.started) + s.slots, s.available) == Keep(s.past.idled, s.available)
  }

  lemma {:induction false} TriggerInTurn(s: State)
    requires InTurn(s)
    ensures InTurn(Trigger(s)) && Trigger(s).available == s.available
    decreases |s.awaiting|
  {
    if !Busy(s) {
      var t := Dispatch(s);
      assert StartedNodes(t.past.started) + t.slots == StartedNodes(s.past.started) + s.slots;
      TriggerInTurn(t);
    }
  }

  lemma RemovedInTurn(s: State, id: NodeId)
    requires InTurn(s)
    ensures InTurn(Removed(s, id))
  {
    var t := Removed(s, id);
    var all, a, b := StartedNodes(s.past.started) + s.slots, s.available, t.available;
    KeepTwice(all, a, b);
    KeepTwice(s.past.idled, a, b);
    KeepAppend(StartedNodes(s.past.started), s.slots, b);
    KeepAppend(StartedNodes(s.past.started), t.slots, b);
    KeepWithout(s.slots, id, b);
  }

  lemma FreedInTurn(s: State, id: NodeId)
    requires InTurn(s)
    ensures InTurn(Freed(s, id))
  {
    var all := StartedNodes(s.past.started) + s.slots;
    assert StartedNodes(s.past.started) + (s.slots + [id]) == all + [id];
    KeepAppend(all, [id], s.available);
    KeepAppend(s.past.idled, [id], s.available);
  }

  /** Over any run nodes get jobs in the order in which they became idle. */
  lemma {:induction false} NodesTakeTurns(nodes: seq<NodeId>, xs: seq<Transaction>)
    requires LegalRun(Start(nodes), xs)
    ensures InTurn(Final(Start(nodes), xs))
  {
    if xs == [] {
      assert StartedNodes([]) + nodes == nodes;
    } else {
      var s := Final(Start(nodes), xs[..|xs| - 1]);
      NodesTakeTurns(nodes, xs[..|xs| - 1]);
      match xs[|xs| - 1]
      case Add(ts, h) =>
      case UpTo(now, batch, rest) => TriggerInTurn(Ready(s, now, batch, rest));
      case Complete(id) =>
        FreedInTurn(s, id);
        TriggerInTurn(Freed(s, id));
      case Remove(id) =>
        RemovedInTurn(s, id);
        TriggerInTurn(Removed(s, id));
    }
  }

  /** A completed job's node is the last to have become idle. */
  lemma IdlesLast(s: State, x: Transaction)
    requires Legal(s, x)
    ensures After(s, x).past.idled == s.past.idled + if x.Complete? then [x.id] else []
  {
    match x
    case Add(ts, h) =>
    case UpTo(now, batch, rest) => TriggerKeepsTimes(Ready(s, now, batch, rest));
    case Complete(id) => TriggerKeepsTimes(Freed(s, id));
    case Remove(id) => TriggerKeepsTimes(Removed(s, id));
  }

  /** A completion keeps the nodes in their places exactly when its node is running a job: a late one, from
      a node that has been removed, or a second one, leaves a slot behind that is not there. */
  lemma CompletionMustBeRunning(s: State, id: NodeId)
    requires Inv(s)
    ensures Placed(After(s, Complete(id))) <==> id in s.running
  {
    if id in s.running {
      StepPlaced(s, Complete(id));
    } else if id in s.available {
      assert id in s.slots;
      assert s.awaiting == [];
      var t := Freed(s, id);
      var i :| 0 <= i < |s.slots| && s.slots[i] == id;
      assert t.slots[i] == t.slots[|s.slots|] == id;
    } else {
      var t := Freed(s, id);
      assert t.slots[|s.slots|] == id;
      TriggerKeepsGhost(t, id);
    }
  }

  /** A node that is a slot stays a slot or gets a job. */
  lemma {:induction false} TriggerKeepsGhost(s: State, id: NodeId)
    requires id in s.slots || id in s.running
    ensures var t := Trigger(s); t.available == s.available && (id in t.slots || id in t.running)
    decreases |s.awaiting|
  {
    if !Busy(s) {
      assert s.slots == [s.slots[0]] + s.slots[1..];
      TriggerKeepsGhost(Dispatch(s), id);
    }
  }
}

/** The scheduler as its methods update it on one node. */
module ChronosObject {
  import opened Types
  import opened ChronosSpec

  /** The jobs that fall to one node. */
  function Mine(started: seq<(NodeId, Job)>, self: NodeId): seq<Job> {
    if started == [] then []
    else
      var r := Mine(started[..|started| - 1], self);
      if started[|started| - 1].0 == self then r + [started[|started| - 1].1] else r
  }

  /** `spawned` are the jobs of the starts on node self, as often and in the order they were started; `places` says
      which starts these are. */
  ghost predicate Spawns(started: seq<(NodeId, Job)>, self: NodeId, spawned: seq<Job>, places: seq<nat>) {
    && |places| == |spawned|
    && (forall i :: 0 <= i < |places| ==> places[i] < |started| && started[places[i]] == (self, spawned[i]))
    && (forall i, j :: 0 <= i < j < |places| ==> places[i] < places[j])
    && (forall k :: 0 <= k < |started| && started[k].0 == self ==> k in places)
  }

  lemma {:induction false} MineIsSpawned(started: seq<(NodeId, Job)>, self: NodeId) returns (places: seq<nat>)
    ensures Spawns(started, self, Mine(started, self), places)
    decreases started
  {
    places := [];
    if started != [] {
      var front, last := started[..|started| - 1], started[|started| - 1];
      places := MineIsSpawned(front, self);
      assert started == front + [last];
      if last.0 == self {
        SpawnsHere(front, self, Mine(front, self), places, last.1);
        places := places + [|front|];
      } else {
        SpawnsElsewhere(front, self, Mine(front, self), places, last);
      }
    }
  }

  lemma SpawnsHere(front: seq<(NodeId, Job)>, self: NodeId, spawned: seq<Job>, places: seq<nat>, h: Job)
    requires Spawns(front, self, spawned, places)
    ensures Spawns(front + [(self, h)], self, spawned + [h], places + [|front|])
  {
    forall k | 0 <= k < |front| + 1 && (front + [(self, h)])[k].0 == self ensures k in places + [|front|] {
      assert k < |front| ==> front[k].0 == self;
      assert (places + [|front|])[|places|] == |front|;
    }
  }

  lemma SpawnsElsewhere(front: seq<(NodeId, Job)>, self: NodeId, spawned: seq<Job>, places: seq<nat>, x: (NodeId, Job))
    requires Spawns(front, self, spawned, places) && x.0 != self
    ensures Spawns(front + [x], self, spawned, places)
  {
    forall k | 0 <= k < |front| + 1 && (front + [x])[k].0 == self ensures k in places {
      assert k < |front| && front[k].0 == self;
    }
  }

  /** Over every run each start is spawned at its own node, once, and at no other node: the handlers that node n
      has set going stand for the starts on n, in order and as often. */
  lemma {:induction false} SpawnedOnce(nodes: seq<NodeId>, xs: seq<Transaction>, n: NodeId) returns (places: seq<nat>)
    requires LegalRun(Start(nodes), xs)
    ensures var started := Final(Start(nodes), xs).past.started;
            var spawned := Mine(started, n);
            && Spawns(started, n, spawned, places)
            && (forall k :: 0 <= k < |started| ==> (k in places <==> started[k].0 == n))
            && (forall i, j :: 0 <= i < |places| && 0 <= j < |places| && places[i] == places[j] ==> i == j)
  {
    places := MineIsSpawned(Final(Start(nodes), xs).past.started, n);
  }

  lemma {:induction false} TopExists(es: seq<Event>)
    requires es != []
    ensures exists i: nat :: IsTop(es, i)
  {
    if |es| == 1 {
      assert IsTop(es, 0);
    } else {
      TopExists(es[..|es| - 1]);
      var i: nat :| IsTop(es[..|es| - 1], i);
      if es[i].ts <= es[|es| - 1].ts {
        assert IsTop(es, i);
      } else {
        assert IsTop(es, |es| - 1);
      }
    }
  }

  class Chronos {
    const self: NodeId
    var availableNodes: seq<NodeId>
    var events: seq<Event>
    var running: map<NodeId, Job>
    var awaiting: seq<Job>
    var slots: seq<NodeId>
    var spawned: seq<Job>    // the handlers this node has set going
    ghost var past: Past

    ghost function Now(): State
      reads this
    {
      State(availableNodes, events, running, awaiting, slots, past)
    }

    /** This node runs the handlers of its own starts and of no other. */
    ghost predicate Valid()
      reads this
    {
      spawned == Mine(past.started, self)
    }

    constructor (self: NodeId, nodes: seq<NodeId>)
      ensures Valid() && this.self == self && Now() == Start(nodes)
    {
      this.self := self;
      availableNodes, slots, events, running, awaiting, spawned := nodes, nodes, [], map[], [], [];
      past := Past(multiset{}, multiset{}, [], [], [], nodes);
    }

    method AddEvent(ts: Time, h: Job)
      requires Valid()
      modifies this
      ensures Valid() && Now() == After(old(Now()), Add(ts, h))
    {
      events := events + [Event(ts, h)];
      past := past.(added := past.added + multiset{h});
    }

    method OnNodeRemove(id: NodeId)
      requires Valid()
      modifies this
      ensures Valid() && Now() == After(old(Now()), Remove(id))
    {
      availableNodes := Without(availableNodes, id);
      slots := Without(slots, id);
      if id !in running {
        return;
      }
      awaiting := awaiting + [running[id]];
      past := past.(queued := past.queued + [running[id]]);
      running := running - {id};
      TriggerAwaitings();
    }

    method TriggerAwaitings()
      requires Valid()
      modifies this
      ensures Valid() && Now() == Trigger(old(Now()))
    {
      while awaiting != [] && slots != []
        invariant Valid() && Trigger(Now()) == Trigger(old(Now()))
        decreases |awaiting|
      {
        var mine := ExecuteHandler(awaiting[0], slots[0]);
        awaiting := awaiting[1..];
        slots := slots[1..];
      }
    }

    method ExecuteHandler(h: Job, id: NodeId) returns (mine: bool)
      requires Valid()
      modifies `running, `spawned, `past
      ensures Valid() && running == old(running)[id := h]
      ensures past == old(past).(started := old(past).started + [(id, h)])
      ensures spawned == old(spawned) + if id == self then [h] else []
      ensures mine <==> id == self
    {
      running := running[id := h];
      past := past.(started := past.started + [(id, h)]);
      assert past.started[..|past.started| - 1] == old(past.started);
      if self != id {
        return false;
      }
      spawned := spawned + [h];
      mine := true;
    }

    /** Events with equal times leave the queue in any order. */
    method ScheduleEventsUpTo(now: Time) returns (ghost batch: seq<Event>, ghost rest: seq<Event>)
      requires Valid()
      modifies this
      ensures Due(old(events), now, batch, rest)
      ensures Valid() && Now() == After(old(Now()), UpTo(now, batch, rest))
    {
      batch := [];
      ghost var s := Now();
      while events != []
        invariant Taking(s.events, now, batch, events)
        invariant Now() == Ready(s, now, batch, events) && spawned == old(spawned)
        decreases |events|
      {
        TopExists(events);
        var top: nat :| IsTop(events, top);
        var e := events[top];
        if e.ts >= now {
          TakenAll(s.events, now, batch, events, top);
          break;
        }
        TakeTop(s.events, now, batch, events, top);
        ReadyStep(s, now, batch, events, top);
        awaiting := awaiting + [e.h];
        past := past.(queued := past.queued + [e.h], timed := past.timed + [(now, e)]);
        batch := batch + [e];
        events := Popped(events, top);
      }
      rest := events;
      TriggerAwaitings();
    }

    method OnHandlerCompleted(id: NodeId)
      requires Valid()
      modifies this
      ensures Valid() && Now() == After(old(Now()), Complete(id))
    {
      past := Left(Now(), id);
      running := running - {id};
      slots := slots + [id];
      TriggerAwaitings();
    }
  }
}
