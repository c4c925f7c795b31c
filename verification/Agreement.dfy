/** What the replicated log promises: agreement for every run, completeness for lossless ones. */
module Agreement {
  import opened Types
  import opened BatchLog
  import opened VotingSpec
  import opened PhantomTable
  import opened ReplicatedLog

  ghost predicate Run(k: Config, acts: seq<Action>) {
    Sound(k) && Legal(k, Start(k), acts)
  }

  ghost function Final(k: Config, acts: seq<Action>): System
    requires Run(k, acts)
  {
    After(k, Start(k), acts)
  }

  lemma {:induction false} Reached(k: Config, acts: seq<Action>)
    requires Run(k, acts)
    ensures Inv(k, Final(k, acts))
  {
    InitInv(k);
    RunKeeps(k, Start(k), acts);
  }

  /** Node n has been live in every step it has executed. */
  ghost predicate LiveSoFar(k: Config, g: System, n: NodeId) {
    n in g.nodes && LiveUpTo(k, n, g.nodes[n].table.cur)
  }

  lemma LogOf(k: Config, g: System, n: NodeId)
    requires NodesOk(k, g) && LiveSoFar(k, g, n)
    ensures g.nodes[n].log == LogUpTo(g.started, g.nodes[n].table.cur)
  {
    assert NodeOk(k, g, n, g.nodes[n]);
  }

  lemma OneStepPerId(k: Config, g: System, k0: StepId)
    requires HistoryOk(k, g)
    ensures Distinct(LogUpTo(g.started, k0))
  {
    LogDistinct(g.started, k0, g.applied);
  }

  /** The logs of two nodes that were live in the steps they have executed are prefix-comparable: both are
      the batches of everything live nodes started at the first steps, step after step, in MsgId order. */
  lemma {:induction false} LogAgreement(k: Config, acts: seq<Action>, n: NodeId, m: NodeId)
    requires Run(k, acts) && LiveSoFar(k, Final(k, acts), n) && LiveSoFar(k, Final(k, acts), m)
    ensures var g := Final(k, acts);
            && g.nodes[n].log == LogUpTo(g.started, g.nodes[n].table.cur)
            && (g.nodes[n].log <= g.nodes[m].log || g.nodes[m].log <= g.nodes[n].log)
            && Distinct(g.nodes[n].log)
  {
    Reached(k, acts);
    var g := Final(k, acts);
    LogOf(k, g, n);
    LogOf(k, g, m);
    OneStepPerId(k, g, g.nodes[n].table.cur);
    if g.nodes[n].table.cur <= g.nodes[m].table.cur {
      LogPrefix(g.started, g.nodes[n].table.cur, g.nodes[m].table.cur);
    } else {
      LogPrefix(g.started, g.nodes[m].table.cur, g.nodes[n].table.cur);
    }
  }

  /** Splitting a run. */
  lemma {:induction false} Split(k: Config, g: System, a: seq<Action>, b: seq<Action>)
    requires Legal(k, g, a + b)
    ensures Legal(k, g, a) && Legal(k, After(k, g, a), b)
    ensures After(k, g, a + b) == After(k, After(k, g, a), b)
    decreases |a|
  {
    if a == [] {
      assert a + b == b;
    } else {
      assert (a + b)[0] == a[0] && (a + b)[1..] == a[1..] + b;
      Split(k, Do(k, g, a[0]), a[1..], b);
    }
  }

  lemma ClosedStep(k: Config, g: System, a: Action, s: StepId)
    requires Enabled(k, g, a) && Closed(k, g, s)
    ensures Closed(k, Do(k, g, a), s) && At(Do(k, g, a).started, s) == At(g.started, s)
  {
    var g' := Do(k, g, a);
    Forward(k, g, a);
    StartedBy(k, g, a);
    forall m | m in k.live(s) ensures Passed(g', m, s) {
      assert Passed(g, m, s);
    }
    if LiveApply(k, g, a) {
      assert Passed(g, a.n, s) || a.n !in k.live(s);
    }
  }

  lemma Forward(k: Config, g: System, a: Action)
    requires Enabled(k, g, a)
    ensures Later(g, Do(k, g, a))
  {
    match a
    case Apply(n, msg) => assert Later(g, Announce(k, g, n, msg));
    case Deliver(p, keep) => assert Later(g, Receive(k, g, p.dst, p.step, p.body));
    case Drop(p) =>
    case Timeout(n, s) =>
    case Exec(n) =>
  }

  lemma StartedBy(k: Config, g: System, a: Action)
    requires Enabled(k, g, a)
    ensures Do(k, g, a).started == g.started || LiveApply(k, g, a)
  {
  }

  lemma {:induction false} ClosedRun(k: Config, g: System, acts: seq<Action>, s: StepId)
    requires Sound(k) && Inv(k, g) && Legal(k, g, acts) && Closed(k, g, s)
    ensures At(After(k, g, acts).started, s) == At(g.started, s)
    decreases |acts|
  {
    if acts != [] {
      ClosedStep(k, g, acts[0], s);
      StepKeeps(k, g, acts[0]);
      ClosedRun(k, Do(k, g, acts[0]), acts[1..], s);
    }
  }

  ghost predicate Committed(g: System, n: NodeId, s: StepId, c: Carry) {
    n in g.nodes && s in g.nodes[n].table.steps
    && g.nodes[n].table.steps[s].state == Completed && g.nodes[n].table.steps[s].carries == c
  }

  /** Whatever a live node commits for a step, by counting votes or by a commit message, at any time of the
      run, is everything that live nodes ever start at this step. */
  lemma {:induction false} CommitIsBatch(k: Config, a: seq<Action>, b: seq<Action>, n: NodeId, s: StepId)
    requires Run(k, a + b)
    ensures Run(k, a)
    ensures n in k.live(s) ==> forall c :: Committed(Final(k, a), n, s, c) ==> c == At(Final(k, a + b).started, s)
    ensures forall p :: p in Final(k, a).net && p.step == s && p.body.Commit? ==>
              p.body.carries == At(Final(k, a + b).started, s)
  {
    Split(k, Start(k), a, b);
    Reached(k, a);
    var g := Final(k, a);
    if Closed(k, g, s) {
      ClosedRun(k, g, b, s);
    }
    forall c | n in k.live(s) && Committed(g, n, s, c) ensures c == At(Final(k, a + b).started, s) {
      CommittedBatch(k, g, n, s, c);
    }
  }

  lemma CommittedBatch(k: Config, g: System, n: NodeId, s: StepId, c: Carry)
    requires NodesOk(k, g) && n in k.live(s) && Committed(g, n, s, c)
    ensures c == At(g.started, s) && Closed(k, g, s)
  {
    assert NodeOk(k, g, n, g.nodes[n]);
    assert SlotOk(k, g, n, s, g.nodes[n].table.steps[s]);
  }

  lemma BatchOfLive(k: Config, g: System, s: StepId)
    requires HistoryOk(k, g) && Closed(k, g, s)
    ensures forall id :: id in At(g.started, s) ==> id.node in k.live(s)
    ensures forall x :: x in k.live(s) ==> Heard(g, x, s, At(g.started, s))
  {
  }

  /** Across an exclusion: whatever the nodes that are cut off do, and whichever of the memberships in
      circulation two live nodes have used to finish a step, they have committed the same set, everything
      the live nodes started there and nothing else. */
  lemma {:induction false} ExclusionAgreement(k: Config, acts: seq<Action>, n: NodeId, m: NodeId, s: StepId,
                                              c: Carry, d: Carry)
    requires Run(k, acts) && n in k.live(s) && m in k.live(s)
    requires Committed(Final(k, acts), n, s, c) && Committed(Final(k, acts), m, s, d)
    ensures c == d
    ensures forall id :: id in c ==> id.node in k.live(s)
    ensures forall x :: x in k.live(s) ==> Heard(Final(k, acts), x, s, c)
  {
    Reached(k, acts);
    var g := Final(k, acts);
    CommittedBatch(k, g, n, s, c);
    CommittedBatch(k, g, m, s, d);
    BatchOfLive(k, g, s);
  }

  lemma LogGrows(k: Config, g: System, a: Action, n: NodeId)
    requires Enabled(k, g, a) && n in g.nodes
    ensures n in Do(k, g, a).nodes && g.nodes[n].log <= Do(k, g, a).nodes[n].log
  {
  }

  lemma {:induction false} LogOnlyGrows(k: Config, g: System, acts: seq<Action>, n: NodeId)
    requires Legal(k, g, acts) && n in g.nodes
    ensures n in After(k, g, acts).nodes && g.nodes[n].log <= After(k, g, acts).nodes[n].log
    decreases |acts|
  {
    if acts != [] {
      LogGrows(k, g, acts[0], n);
      LogOnlyGrows(k, Do(k, g, acts[0]), acts[1..], n);
    }
  }

  /** Agreement also holds between different moments of a run: nothing executed is ever revised. */
  lemma {:induction false} LogAgreementOverTime(k: Config, a: seq<Action>, b: seq<Action>, n: NodeId, m: NodeId)
    requires Run(k, a + b) && LiveSoFar(k, Final(k, a + b), m)
    ensures Run(k, a)
    ensures LiveSoFar(k, Final(k, a), n) ==>
              var early, late := Final(k, a).nodes[n].log, Final(k, a + b).nodes[m].log;
              early <= late || late <= early
  {
    Split(k, Start(k), a, b);
    Reached(k, a);
    Reached(k, a + b);
    var g, h := Final(k, a), Final(k, a + b);
    if LiveSoFar(k, g, n) {
      LogOf(k, g, n);
      LogOf(k, h, m);
      StableLog(k, g, b, n);
      var i, j := g.nodes[n].table.cur, h.nodes[m].table.cur;
      if i <= j {
        LogPrefix(h.started, i, j);
      } else {
        LogPrefix(h.started, j, i);
      }
    }
  }

  /** The batches a node has executed are final. */
  lemma {:induction false} StableLog(k: Config, g: System, b: seq<Action>, n: NodeId)
    requires Sound(k) && Inv(k, g) && Legal(k, g, b) && LiveSoFar(k, g, n)
    ensures LogUpTo(g.started, g.nodes[n].table.cur) == LogUpTo(After(k, g, b).started, g.nodes[n].table.cur)
  {
    assert NodeOk(k, g, n, g.nodes[n]);
    forall s: StepId | s < g.nodes[n].table.cur ensures At(g.started, s) == At(After(k, g, b).started, s) {
      ClosedRun(k, g, b, s);
    }
    LogFrame(g.started, After(k, g, b).started, g.nodes[n].table.cur);
  }

  lemma SourceStep(k: Config, g: System, a: Action, s: StepId, id: MsgId)
    requires HistoryOk(k, g) && Enabled(k, g, a) && id in At(Do(k, g, a).started, s)
    ensures var msg := At(Do(k, g, a).started, s)[id];
            (id in At(g.started, s) && At(g.started, s)[id] == msg) || a == Apply(id.node, msg)
  {
    StartedBy(k, g, a);
    if LiveApply(k, g, a) && id !in At(g.started, s) {
      assert id == MsgId(a.n, g.nodes[a.n].ids);
    }
    if LiveApply(k, g, a) && id in At(g.started, s) {
      NewId(k, g, a.n, s);
    }
  }

  lemma {:induction false} StartedFrom(k: Config, g: System, acts: seq<Action>, s: StepId, id: MsgId)
    requires Sound(k) && Inv(k, g) && Legal(k, g, acts) && id in At(After(k, g, acts).started, s)
    ensures var msg := At(After(k, g, acts).started, s)[id];
            (id in At(g.started, s) && At(g.started, s)[id] == msg) || Apply(id.node, msg) in acts
    decreases |acts|
  {
    if acts != [] {
      StepKeeps(k, g, acts[0]);
      StartedFrom(k, Do(k, g, acts[0]), acts[1..], s, id);
      if id in At(Do(k, g, acts[0]).started, s) {
        SourceStep(k, g, acts[0], s, id);
      }
    }
  }

  /** Nothing is executed that was not asked for: every entry of a log is a message some call of apply was given
      at the node its id names. */
  lemma {:induction false} LoggedWasApplied(k: Config, acts: seq<Action>, n: NodeId, e: Entry)
    requires Run(k, acts) && LiveSoFar(k, Final(k, acts), n) && e in Final(k, acts).nodes[n].log
    ensures Apply(e.id.node, e.msg) in acts
  {
    var g := Final(k, acts);
    Reached(k, acts);
    InitInv(k);
    LogOf(k, g, n);
    LogContents(g.started, g.nodes[n].table.cur);
    var s: StepId :| s < g.nodes[n].table.cur && e.id in At(g.started, s) && At(g.started, s)[e.id] == e.msg;
    StartedFrom(k, Start(k), acts, s, e.id);
  }

  // ------------------------------------------------------------------ completeness

  /** The static regime: everybody is live in every step, and timers wait for everybody. */
  ghost predicate Static(k: Config) {
    WfConfig(k) && forall s: StepId :: k.live(s) == k.nodes && k.nodes <= k.waits(s)
  }

  lemma StaticIsSound(k: Config)
    requires Static(k)
    ensures Sound(k)
  {
    AccurateIsSound(k);
  }

  ghost predicate Done(g: System, n: NodeId, s: StepId) {
    n in g.nodes && (s < g.nodes[n].table.cur
                     || (s in g.nodes[n].table.steps && g.nodes[n].table.steps[s].state == Completed))
  }

  ghost predicate HasVoted(g: System, n: NodeId, s: StepId) {
    n in g.nodes && s in g.nodes[n].table.steps && g.nodes[n].table.steps[s].state == Voted
  }

  ghost predicate Counted(g: System, m: NodeId, n: NodeId, s: StepId) {
    HasVoted(g, n, s) && m in g.nodes[n].table.steps[s].voted
  }

  ghost predicate VoteFlying(g: System, m: NodeId, n: NodeId, s: StepId) {
    exists p :: p in g.net && p.dst == n && p.step == s && p.body.Vote? && p.body.src == m
  }

  ghost predicate CommitFlying(g: System, n: NodeId, s: StepId) {
    exists p :: p in g.net && p.dst == n && p.step == s && p.body.Commit?
  }

  /** What node m owes to node n at step s is on its way or has arrived. */
  ghost predicate Owed(g: System, m: NodeId, n: NodeId, s: StepId) {
    && (HasVoted(g, m, s) ==> VoteFlying(g, m, n, s) || Counted(g, m, n, s) || Done(g, n, s))
    && (Done(g, m, s) ==> CommitFlying(g, n, s) || Done(g, n, s))
  }

  ghost predicate Lossless(k: Config, g: System) {
    && (forall m, n, s: StepId :: m in k.nodes && n in k.nodes && m != n ==> Owed(g, m, n, s))
    && (forall n :: n in g.nodes ==> !g.nodes[n].stopped)
  }

  /** In the static regime a timer that fires finds its step committed and does nothing. */
  lemma NoTimeout(k: Config, g: System, n: NodeId, s: StepId)
    requires Static(k) && NodesOk(k, g) && Enabled(k, g, Timeout(n, s))
    ensures Do(k, g, Timeout(n, s)) == Disarm(g, n, s)
  {
    var nd := g.nodes[n];
    var v := nd.table.steps[s];
    assert SlotOk(k, g, n, s, v) by {
      assert NodeOk(k, g, n, nd);
    }
    assert OnTimeout(v, n) == Proceed(v, None) by {
      FullSlot(k, g, n, s, v);
    }
    assert nd.table.steps[s := v] == nd.table.steps;
    SameStore(k, g, n, s, v);
  }

  lemma FullSlot(k: Config, g: System, n: NodeId, s: StepId, v: Slot)
    requires Static(k) && SlotOk(k, g, n, s, v) && k.waits(s) <= v.voted && n in k.nodes
    ensures OnTimeout(v, n) == Proceed(v, None)
  {
    assert k.live(s) == k.nodes && k.nodes <= k.waits(s);
    assert n in v.voted;
    assert v.voted == k.nodes == v.nodes && v.state == Completed;
    assert |v.voted| > 0;
  }

  lemma SameStore(k: Config, g: System, n: NodeId, s: StepId, v: Slot)
    requires n in g.nodes && g.nodes[n].table.cur <= s < g.nodes[n].table.next
    requires g.nodes[n].table.steps[s := v] == g.nodes[n].table.steps
    ensures Store(k, Disarm(g, n, s), n, s, (v, None)) == Disarm(g, n, s)
  {
  }

  lemma DisarmLossless(k: Config, g: System, x: NodeId, t: StepId)
    requires Lossless(k, g) && x in g.nodes
    ensures Lossless(k, Disarm(g, x, t))
  {
    var g' := Disarm(g, x, t);
    forall m, n, s: StepId | m in k.nodes && n in k.nodes && m != n ensures Owed(g', m, n, s) {
      assert Owed(g, m, n, s);
      assert VoteFlying(g, m, n, s) ==> VoteFlying(g', m, n, s);
      assert CommitFlying(g, n, s) ==> CommitFlying(g', n, s);
    }
  }

  /** How handling one message moves a slot when everybody has the same membership. */
  ghost predicate Moved(self: NodeId, v: Slot, body: Body, r: (Slot, Option<Body>)) {
    && (v.state == Completed ==> r.0.state == Completed)
    && (v.state != Completed && r.0.state == Completed ==> r.1.Some? && r.1.value.Commit?)
    && (r.0.state == Voted ==> v.voted <= r.0.voted && body.Vote? && body.src in r.0.voted)
    && (r.0.state == Voted && v.state != Voted ==> r.1.Some? && r.1.value.Vote? && r.1.value.src == self)
    && r.0.state != Initial
  }

  lemma StaticMoved(self: NodeId, v: Slot, body: Body, nodes: set<NodeId>)
    requires v == FRESH || (v.state == Voted && v.nodes == nodes) || v.state == Completed
    requires body.Vote? ==> body.nodes == nodes
    ensures Moved(self, v, body, OnBody(v, self, body))
  {
  }

  /** The debt between two nodes survives a handled message; `gone` is the handled packet when the
      network does not keep it. */
  lemma OwedStore(k: Config, g: System, x: NodeId, t: StepId, body: Body, r: (Slot, Option<Body>),
                  gone: set<Packet>, m: NodeId, n: NodeId, s: StepId)
    requires m in k.nodes && n in k.nodes && m != n && Owed(g, m, n, s)
    requires x in g.nodes && g.nodes[x].table.cur <= t && x in k.live(t)
    requires Moved(x, Get(g.nodes[x].table, t, FRESH), body, r)
    requires gone <= {Packet(x, t, body)}
    ensures var g' := Store(k, g, x, t, r); Owed(g'.(net := g'.net - gone), m, n, s)
  {
    var g1 := Store(k, g, x, t, r);
    var g' := g1.(net := g1.net - gone);
    OwedVote(k, g, x, t, body, r, gone, m, n, s);
    if Done(g', m, s) && !Done(g', n, s) {
      if Done(g, m, s) {
        var p :| p in g.net && p.dst == n && p.step == s && p.body.Commit?;
        assert p in g'.net;
      } else {
        assert Packet(n, s, r.1.value) in g'.net;
      }
    }
  }

  lemma OwedVote(k: Config, g: System, x: NodeId, t: StepId, body: Body, r: (Slot, Option<Body>),
                 gone: set<Packet>, m: NodeId, n: NodeId, s: StepId)
    requires m in k.nodes && n in k.nodes && m != n && Owed(g, m, n, s)
    requires x in g.nodes && g.nodes[x].table.cur <= t && x in k.live(t)
    requires Moved(x, Get(g.nodes[x].table, t, FRESH), body, r)
    requires gone <= {Packet(x, t, body)}
    ensures var g1 := Store(k, g, x, t, r);
            var g' := g1.(net := g1.net - gone);
            HasVoted(g', m, s) ==> VoteFlying(g', m, n, s) || Counted(g', m, n, s) || Done(g', n, s)
  {
    var g1 := Store(k, g, x, t, r);
    var g' := g1.(net := g1.net - gone);
    if HasVoted(g', m, s) && !Done(g', n, s) && !Counted(g', m, n, s) {
      if HasVoted(g, m, s) {
        assert !Counted(g, m, n, s);
        var p :| p in g.net && p.dst == n && p.step == s && p.body.Vote? && p.body.src == m;
        assert p in g'.net;
      } else {
        assert Packet(n, s, r.1.value) in g'.net;
      }
    }
  }

  lemma StoreLossless(k: Config, g: System, x: NodeId, t: StepId, body: Body, r: (Slot, Option<Body>),
                      gone: set<Packet>)
    requires Lossless(k, g) && x in g.nodes && g.nodes[x].table.cur <= t && x in k.live(t)
    requires Moved(x, Get(g.nodes[x].table, t, FRESH), body, r)
    requires gone <= {Packet(x, t, body)}
    ensures var g' := Store(k, g, x, t, r); Lossless(k, g'.(net := g'.net - gone))
  {
    var g1 := Store(k, g, x, t, r);
    var g' := g1.(net := g1.net - gone);
    forall m, n, s: StepId | m in k.nodes && n in k.nodes && m != n ensures Owed(g', m, n, s) {
      OwedStore(k, g, x, t, body, r, gone, m, n, s);
    }
  }

  /** Dropping a packet about a step its receiver has executed. */
  lemma PastLossless(k: Config, g: System, p: Packet)
    requires Lossless(k, g) && p.dst in g.nodes && p.step < g.nodes[p.dst].table.cur
    ensures Lossless(k, g.(net := g.net - {p}))
  {
    var g' := g.(net := g.net - {p});
    forall m, n, s: StepId | m in k.nodes && n in k.nodes && m != n ensures Owed(g', m, n, s) {
      assert Owed(g, m, n, s);
      if !Done(g, n, s) {
        if VoteFlying(g, m, n, s) {
          var q :| q in g.net && q.dst == n && q.step == s && q.body.Vote? && q.body.src == m;
          assert q in g'.net;
        }
        if CommitFlying(g, n, s) {
          var q :| q in g.net && q.dst == n && q.step == s && q.body.Commit?;
          assert q in g'.net;
        }
      }
    }
  }

  lemma DeliverLossless(k: Config, g: System, p: Packet, keep: bool)
    requires Static(k) && Inv(k, g) && Lossless(k, g) && Enabled(k, g, Deliver(p, keep))
    ensures Lossless(k, Do(k, g, Deliver(p, keep)))
  {
    var nd := g.nodes[p.dst];
    if nd.table.cur <= p.step {
      DeliveredMove(k, g, p);
      HandledLossless(k, g, p, keep);
    } else if !keep {
      PastLossless(k, g, p);
    }
  }

  lemma DeliveredMove(k: Config, g: System, p: Packet)
    requires Static(k) && NodesOk(k, g) && NetOk(k, g) && p in g.net && p.dst in g.nodes
    ensures var v := Get(g.nodes[p.dst].table, p.step, FRESH); Moved(p.dst, v, p.body, OnBody(v, p.dst, p.body))
  {
    var nd := g.nodes[p.dst];
    var v := Get(nd.table, p.step, FRESH);
    assert NodeOk(k, g, p.dst, nd) && BodyOk(k, g, p.step, p.body);
    assert p.step in nd.table.steps ==> SlotOk(k, g, p.dst, p.step, v);
    StaticMoved(p.dst, v, p.body, k.nodes);
  }

  lemma HandledLossless(k: Config, g: System, p: Packet, keep: bool)
    requires Lossless(k, g) && Enabled(k, g, Deliver(p, keep))
    requires g.nodes[p.dst].table.cur <= p.step && p.dst in k.live(p.step)
    requires var v := Get(g.nodes[p.dst].table, p.step, FRESH); Moved(p.dst, v, p.body, OnBody(v, p.dst, p.body))
    ensures Lossless(k, Do(k, g, Deliver(p, keep)))
  {
    var v := Get(g.nodes[p.dst].table, p.step, FRESH);
    var g1 := Receive(k, g, p.dst, p.step, p.body);
    StoreLossless(k, g, p.dst, p.step, p.body, OnBody(v, p.dst, p.body), if keep then {} else {p});
    assert g1.(net := g1.net - {}) == g1;
  }

  lemma ApplyLossless(k: Config, g: System, n: NodeId, msg: Msg)
    requires Static(k) && Inv(k, g) && Lossless(k, g) && Enabled(k, g, Apply(n, msg))
    ensures Lossless(k, Do(k, g, Apply(n, msg)))
  {
    assert NodeOk(k, g, n, g.nodes[n]);
    AnnouncedLossless(k, g, n, msg);
  }

  lemma AnnouncedLossless(k: Config, g: System, n: NodeId, msg: Msg)
    requires Lossless(k, g) && Enabled(k, g, Apply(n, msg)) && Wf(g.nodes[n].table)
    requires n in k.live(g.nodes[n].table.next)
    ensures Lossless(k, Do(k, g, Apply(n, msg)))
  {
    var g1, s, id := Announce(k, g, n, msg), g.nodes[n].table.next, MsgId(n, g.nodes[n].ids);
    forall a, b, t: StepId | a in k.nodes && b in k.nodes && a != b ensures Owed(g1, a, b, t) {
      assert Owed(g, a, b, t);
    }
    var body := Vote(map[id := msg], n, k.nodes);
    var r := OnBody(FRESH, n, body);
    StaticMoved(n, FRESH, body, k.nodes);
    StoreLossless(k, g1, n, s, body, r, {});
    var g2 := Store(k, g1, n, s, r);
    assert g2.(net := g2.net - {}) == g2;
  }

  lemma ExecLossless(k: Config, g: System, x: NodeId)
    requires Lossless(k, g) && Enabled(k, g, Exec(x))
    ensures Lossless(k, Do(k, g, Exec(x)))
  {
    var g' := Do(k, g, Exec(x));
    forall m, n, s: StepId | m in k.nodes && n in k.nodes && m != n ensures Owed(g', m, n, s) {
      assert Owed(g, m, n, s);
      assert Done(g, n, s) ==> Done(g', n, s);
      assert Done(g', m, s) ==> Done(g, m, s);
    }
  }

  lemma {:induction false} RunLossless(k: Config, g: System, acts: seq<Action>)
    requires Static(k) && Inv(k, g) && Lossless(k, g) && Legal(k, g, acts)
    requires forall a :: a in acts ==> !a.Drop?
    ensures Lossless(k, After(k, g, acts))
    decreases |acts|
  {
    if acts != [] {
      var a := acts[0];
      match a {
        case Apply(n, msg) => ApplyLossless(k, g, n, msg);
        case Deliver(p, keep) => DeliverLossless(k, g, p, keep);
        case Timeout(n, s) =>
          NoTimeout(k, g, n, s);
          DisarmLossless(k, g, n, s);
        case Exec(n) => ExecLossless(k, g, n);
      }
      StaticIsSound(k);
      StepKeeps(k, g, a);
      RunLossless(k, Do(k, g, a), acts[1..]);
    }
  }

  /** Nothing is in flight and no node has a finished step left to execute. */
  ghost predicate Quiescent(k: Config, g: System) {
    g.net == {} && forall n :: n in k.nodes ==> !Enabled(k, g, Exec(n))
  }

  lemma StillMissing(k: Config, g: System, s: StepId, n: NodeId) returns (m: NodeId)
    requires Static(k) && NodesOk(k, g) && HasVoted(g, n, s)
    ensures m in k.nodes && m != n && !Counted(g, m, n, s) && !Done(g, n, s)
  {
    var v := g.nodes[n].table.steps[s];
    assert SlotOk(k, g, n, s, v) by {
      assert NodeOk(k, g, n, g.nodes[n]);
    }
    assert n in v.voted && v.voted <= k.nodes && v.voted != k.nodes;
    m :| m in k.nodes && m !in v.voted;
  }

  /** At rest a waiting node has a finished one: the node it has not counted. */
  lemma SomebodyDone(k: Config, g: System, s: StepId, n: NodeId) returns (m: NodeId)
    requires Static(k) && NodesOk(k, g) && Lossless(k, g) && g.net == {} && n in k.nodes && HasVoted(g, n, s)
    ensures m in k.nodes && Done(g, m, s)
  {
    m := StillMissing(k, g, s, n);
    EverybodyVoted(k, g, s, n, m);
    assert Owed(g, m, n, s);
  }

  lemma EverybodyVoted(k: Config, g: System, s: StepId, i: NodeId, m: NodeId)
    requires Lossless(k, g) && g.net == {} && HasVoted(g, i, s) && i in k.nodes && m in k.nodes
    ensures HasVoted(g, m, s) || Done(g, m, s)
  {
    if m != i {
      assert Owed(g, i, m, s);
    }
  }

  lemma Spreads(k: Config, g: System, s: StepId, m: NodeId, n: NodeId)
    requires Lossless(k, g) && g.net == {} && Done(g, m, s) && m in k.nodes && n in k.nodes
    ensures Done(g, n, s)
  {
    if m != n {
      assert Owed(g, m, n, s);
    }
  }

  lemma StarterActive(k: Config, g: System, s: StepId, id: MsgId)
    requires Inv(k, g) && id in At(g.started, s) && (forall n :: n in g.nodes ==> !g.nodes[n].stopped)
    ensures id.node in k.nodes && (HasVoted(g, id.node, s) || Done(g, id.node, s))
  {
    assert HistoricId(k, g, s, id);
    var nd := g.nodes[id.node];
    assert Holds(g, id.node, nd);
    if s in nd.table.steps {
      assert SlotOk(k, g, id.node, s, nd.table.steps[s]) by {
        assert NodeOk(k, g, id.node, nd);
      }
    }
  }

  /** At rest, a step that was started anywhere is finished everywhere. */
  lemma StartedIsDone(k: Config, g: System, s: StepId, id: MsgId, n: NodeId)
    requires Static(k) && Inv(k, g) && Lossless(k, g) && g.net == {}
    requires id in At(g.started, s) && n in k.nodes
    ensures Done(g, n, s)
  {
    StarterActive(k, g, s, id);
    var m := id.node;
    if !Done(g, m, s) {
      m := SomebodyDone(k, g, s, m);
    }
    Spreads(k, g, s, m, n);
  }

  /** At rest every node has executed every step any node has heard of. */
  lemma CaughtUp(k: Config, g: System, n: NodeId, m: NodeId)
    requires Static(k) && Inv(k, g) && Lossless(k, g) && Quiescent(k, g) && n in k.nodes && m in k.nodes
    ensures g.nodes[n].table.cur == g.nodes[m].table.next
  {
    var s := g.nodes[n].table.cur;
    NotBehind(k, g, n, m);
    if s < g.nodes[m].table.next {
      NoGap(k, g, m, s);
      var id :| id in At(g.started, s);
      StartedIsDone(k, g, s, id, n);
      NothingLeft(k, g, n);
    }
  }

  lemma NothingLeft(k: Config, g: System, n: NodeId)
    requires Lossless(k, g) && Quiescent(k, g) && n in k.nodes && n in g.nodes
    ensures !Done(g, n, g.nodes[n].table.cur)
  {
    assert !Enabled(k, g, Exec(n));
  }

  lemma NoGap(k: Config, g: System, m: NodeId, s: StepId)
    requires Static(k) && NodesOk(k, g) && m in k.nodes && s < g.nodes[m].table.next
    ensures exists id :: id in At(g.started, s)
  {
    assert NodeOk(k, g, m, g.nodes[m]);
    assert At(g.started, s).Keys != {} by {
      assert At(g.started, s) != map[];
    }
  }

  lemma NotBehind(k: Config, g: System, n: NodeId, m: NodeId)
    requires Static(k) && NodesOk(k, g) && n in k.nodes && m in k.nodes
    ensures g.nodes[n].table.cur <= g.nodes[m].table.next
  {
    assert NodeOk(k, g, n, g.nodes[n]);
    var t := g.nodes[n].table.cur;
    if t > 0 {
      assert Closed(k, g, t - 1) && m in k.live(t - 1);
    }
  }

  /** A static run without loss that has come to rest: all nodes have executed the same log, and it
      holds every applied message exactly once. */
  lemma {:induction false} QuiescentCompleteness(k: Config, acts: seq<Action>, n: NodeId, m: NodeId)
    requires Static(k) && Run(k, acts) && (forall a :: a in acts ==> !a.Drop?)
    requires Quiescent(k, Final(k, acts)) && n in k.nodes && m in k.nodes
    ensures var g := Final(k, acts);
            && n in g.nodes && m in g.nodes && g.nodes[n].log == g.nodes[m].log
            && Distinct(g.nodes[n].log)
            && (forall id :: id in g.applied ==> exists e :: e in g.nodes[n].log && e.id == id)
            && (forall e :: e in g.nodes[n].log ==> e.id in g.applied)
  {
    var g0, g := Start(k), Final(k, acts);
    InitInv(k);
    RunLossless(k, g0, acts);
    Reached(k, acts);
    RestingLogs(k, g, n, m);
    RestingContents(k, g, n);
  }

  lemma RestingLogs(k: Config, g: System, n: NodeId, m: NodeId)
    requires Static(k) && Inv(k, g) && Lossless(k, g) && Quiescent(k, g) && n in k.nodes && m in k.nodes
    ensures g.nodes[n].log == g.nodes[m].log && Distinct(g.nodes[n].log)
  {
    CaughtUp(k, g, n, m);
    CaughtUp(k, g, m, m);
    LogOf(k, g, n);
    LogOf(k, g, m);
    OneStepPerId(k, g, g.nodes[n].table.cur);
  }

  lemma RestingContents(k: Config, g: System, n: NodeId)
    requires Static(k) && Inv(k, g) && Lossless(k, g) && Quiescent(k, g) && n in k.nodes
    ensures forall id :: id in g.applied ==> exists e :: e in g.nodes[n].log && e.id == id
    ensures forall e :: e in g.nodes[n].log ==> e.id in g.applied
  {
    LogOf(k, g, n);
    forall id | id in g.applied ensures exists e :: e in g.nodes[n].log && e.id == id {
      AppliedNode(k, g, id);
      CaughtUp(k, g, n, id.node);
      AppliedInLog(k, g, g.nodes[n].table.cur, id);
    }
    forall e | e in g.nodes[n].log ensures e.id in g.applied {
      LogInApplied(k, g, g.nodes[n].table.cur, e);
    }
  }

  lemma AppliedNode(k: Config, g: System, id: MsgId)
    requires Static(k) && HistoryOk(k, g) && id in g.applied
    ensures id.node in k.nodes
  {
    assert id in At(g.started, g.applied[id]);
  }

  lemma AppliedInLog(k: Config, g: System, cur: StepId, id: MsgId)
    requires HistoryOk(k, g) && id in g.applied && id.node in g.nodes && g.nodes[id.node].table.next <= cur
    ensures exists e :: e in LogUpTo(g.started, cur) && e.id == id
  {
    var s := g.applied[id];
    assert id in At(g.started, s);
    LogContents(g.started, cur);
    var e := Entry(id, At(g.started, s)[id]);
    assert e in LogUpTo(g.started, cur);
  }

  lemma LogInApplied(k: Config, g: System, cur: StepId, e: Entry)
    requires HistoryOk(k, g) && e in LogUpTo(g.started, cur)
    ensures e.id in g.applied
  {
    LogContents(g.started, cur);
  }

  /** The calls of apply in steps the caller was live in. */
  ghost function Applies(k: Config, g: System, acts: seq<Action>): nat
    requires Legal(k, g, acts)
    decreases |acts|
  {
    if acts == [] then 0
    else Applies(k, Do(k, g, acts[0]), acts[1..]) + if LiveApply(k, g, acts[0]) then 1 else 0
  }

  ghost predicate LiveApply(k: Config, g: System, a: Action) {
    a.Apply? && a.n in g.nodes && a.n in k.live(g.nodes[a.n].table.next)
  }

  lemma FreshId(k: Config, g: System, n: NodeId)
    requires HistoryOk(k, g) && n in g.nodes
    ensures MsgId(n, g.nodes[n].ids) !in g.applied
  {
    forall id | id in g.applied ensures id.node != n || id.count < g.nodes[n].ids {
      assert id in At(g.started, g.applied[id]);
    }
  }

  lemma AppliedStep(k: Config, g: System, a: Action)
    requires HistoryOk(k, g) && Enabled(k, g, a)
    ensures |Do(k, g, a).applied| == |g.applied| + if LiveApply(k, g, a) then 1 else 0
  {
    if a.Apply? {
      FreshId(k, g, a.n);
      OneMore(g.applied, MsgId(a.n, g.nodes[a.n].ids), g.nodes[a.n].table.next);
    }
  }

  lemma OneMore(m: map<MsgId, StepId>, id: MsgId, s: StepId)
    requires id !in m
    ensures |m[id := s]| == |m| + 1
  {
    assert m[id := s].Keys == m.Keys + {id};
    assert |m[id := s]| == |m[id := s].Keys| && |m| == |m.Keys|;
  }

  /** `applied` holds one entry per such call. */
  lemma {:induction false} AppliedCount(k: Config, g: System, acts: seq<Action>)
    requires Sound(k) && Inv(k, g) && Legal(k, g, acts)
    ensures |After(k, g, acts).applied| == |g.applied| + Applies(k, g, acts)
    decreases |acts|
  {
    if acts != [] {
      AppliedStep(k, g, acts[0]);
      StepKeeps(k, g, acts[0]);
      AppliedCount(k, Do(k, g, acts[0]), acts[1..]);
    }
  }
}
