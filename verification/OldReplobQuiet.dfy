/** Completeness of the older protocol: a run that loses nothing and has come to rest has executed everything
    everywhere. */
module OldReplobQuiet {
  import opened Types
  import opened BatchLog
  import opened PhantomTable
  import opened OldReplobSpec
  import opened OldReplobObject
  import opened OldReplobLog

  ghost predicate Done(g: System, n: NodeId, s: StepId) {
    n in g.nodes && (s < g.nodes[n].table.cur || Finished(g.nodes[n].table, s))
  }

  ghost predicate HasVoted(g: System, n: NodeId, s: StepId) {
    n in g.nodes && s in g.nodes[n].table.steps && g.nodes[n].table.steps[s].state == Voted
  }

  /** Node n has counted the vote of m. */
  ghost predicate Counted(g: System, m: NodeId, n: NodeId, s: StepId) {
    HasVoted(g, n, s) && m in Voters(g.nodes[n].table.steps[s].ballots)
  }

  ghost predicate VoteFlying(g: System, m: NodeId, n: NodeId, s: StepId) {
    exists p :: p in g.net && p.dst == n && p.step == s && p.body.Vote? && p.body.voter == m
  }

  ghost predicate CommitFlying(g: System, n: NodeId, s: StepId) {
    exists p :: p in g.net && p.dst == n && p.step == s && p.body.Commit?
  }

  /** What node m owes to node n at step s is on its way or has arrived. */
  ghost predicate Owed(g: System, m: NodeId, n: NodeId, s: StepId) {
    && (HasVoted(g, m, s) ==> VoteFlying(g, m, n, s) || Counted(g, m, n, s) || Done(g, n, s))
    && (Done(g, m, s) ==> CommitFlying(g, n, s) || Done(g, n, s))
  }

  ghost predicate Lossless(nodes: set<NodeId>, g: System, s: StepId) {
    && (forall m, n :: m in nodes && n in nodes && m != n ==> Owed(g, m, n, s))
    && (forall n :: HasVoted(g, n, s) ==> Counted(g, n, n, s))
  }

  /** Every step a node has passed was started by somebody. */
  ghost predicate NoGaps(g: System) {
    forall n: NodeId, s: StepId :: Passed(g, n, s) ==> At(g.started, s) != map[]
  }

  // ------------------------------------------------------------------ one message

  /** How handling one message moves a slot. */
  ghost predicate Moved(self: NodeId, v: Slot, body: Body, r: (Slot, Option<Body>)) {
    && r.0.state != Initial
    && (v.state == Completed ==> r.0.state == Completed)
    && (v.state != Completed && r.0.state == Completed ==> r.1.Some? && r.1.value.Commit?)
    && (r.0.state == Voted ==>
          body.Vote? && body.voter in Voters(r.0.ballots) && Voters(v.ballots) <= Voters(r.0.ballots))
    && (r.0.state == Voted && v.state != Voted ==>
          r.1.Some? && r.1.value.Vote? && r.1.value.voter == self && self in Voters(r.0.ballots))
  }

  lemma AddVoteVoters(b: Ballots, id: MsgId, msg: Msg, voter: NodeId)
    ensures Voters(AddVote(b, id, msg, voter)) == Voters(b) + {voter}
  {
    var r := AddVote(b, id, msg, voter);
    assert id in r && voter in r[id].voted;
    forall n | n in Voters(b) ensures n in Voters(r) {
      var i :| i in b && n in b[i].voted;
      assert i in r && n in r[i].voted;
    }
    forall n | n in Voters(r) ensures n in Voters(b) || n == voter {
      var i :| i in r && n in r[i].voted;
    }
  }

  lemma BodyMoved(self: NodeId, v: Slot, body: Body, count: nat)
    requires v == FRESH || v.state != Initial
    ensures Moved(self, v, body, OnBody(v, self, body, count))
  {
    if body.Vote? {
      AddVoteVoters(v.ballots, body.id, body.msg, body.voter);
      AddVoteVoters(AddVote(v.ballots, body.id, body.msg, body.voter), body.id, body.msg, self);
    }
  }

  /** The message about step s has been handled at x; `gone` is its packet when the network does not keep it. */
  ghost predicate Handled(nodes: set<NodeId>, g: System, g': System, x: NodeId, s: StepId, body: Body,
                          r: (Slot, Option<Body>), gone: set<Packet>) {
    && x in g.nodes && x in g'.nodes && g.nodes[x].table.cur <= s && gone <= {Packet(x, s, body)}
    && Moved(x, Get(g.nodes[x].table, s, FRESH), body, r)
    && g'.nodes == g.nodes[x := g'.nodes[x]]
    && g'.nodes[x].table.cur == g.nodes[x].table.cur
    && g'.nodes[x].table.steps == g.nodes[x].table.steps[s := r.0]
    && g'.net == g.net + Broadcast(nodes, x, s, r.1) - gone
  }

  lemma HandledSender(nodes: set<NodeId>, g: System, g': System, x: NodeId, s: StepId, body: Body,
                      r: (Slot, Option<Body>), gone: set<Packet>, n: NodeId)
    requires Handled(nodes, g, g', x, s, body, r, gone) && n in nodes && n != x && Owed(g, x, n, s)
    ensures Owed(g', x, n, s)
  {
    assert forall p :: p in g.net && p.dst == n ==> p in g'.net;
    if r.1.Some? {
      assert Packet(n, s, r.1.value) in g'.net;
    }
  }

  lemma HandledReceiver(nodes: set<NodeId>, g: System, g': System, x: NodeId, s: StepId, body: Body,
                        r: (Slot, Option<Body>), gone: set<Packet>, m: NodeId)
    requires Handled(nodes, g, g', x, s, body, r, gone) && m != x && Owed(g, m, x, s)
    ensures Owed(g', m, x, s)
  {
    assert forall p :: p in g.net && p != Packet(x, s, body) ==> p in g'.net;
  }

  lemma HandledLossless(nodes: set<NodeId>, g: System, g': System, x: NodeId, s: StepId, body: Body,
                        r: (Slot, Option<Body>), gone: set<Packet>)
    requires Handled(nodes, g, g', x, s, body, r, gone) && Lossless(nodes, g, s)
    ensures Lossless(nodes, g', s)
  {
    forall m, n | m in nodes && n in nodes && m != n ensures Owed(g', m, n, s) {
      if m == x {
        HandledSender(nodes, g, g', x, s, body, r, gone, n);
      } else if n == x {
        HandledReceiver(nodes, g, g', x, s, body, r, gone, m);
      } else {
        HandledOthers(nodes, g, g', x, s, body, r, gone, m, n);
      }
    }
    HandledSelf(nodes, g, g', x, s, body, r, gone);
  }

  lemma HandledOthers(nodes: set<NodeId>, g: System, g': System, x: NodeId, s: StepId, body: Body,
                      r: (Slot, Option<Body>), gone: set<Packet>, m: NodeId, n: NodeId)
    requires Handled(nodes, g, g', x, s, body, r, gone) && m != x && n != x && Owed(g, m, n, s)
    ensures Owed(g', m, n, s)
  {
    assert forall p :: p in g.net && p.dst == n ==> p in g'.net;
  }

  lemma HandledSelf(nodes: set<NodeId>, g: System, g': System, x: NodeId, s: StepId, body: Body,
                    r: (Slot, Option<Body>), gone: set<Packet>)
    requires Handled(nodes, g, g', x, s, body, r, gone)
    requires forall n :: HasVoted(g, n, s) ==> Counted(g, n, n, s)
    ensures forall n :: HasVoted(g', n, s) ==> Counted(g', n, n, s)
  {
    forall n | HasVoted(g', n, s) ensures Counted(g', n, n, s) {
      assert n != x ==> HasVoted(g, n, s);
      assert HasVoted(g, x, s) ==> Counted(g, x, x, s);
    }
  }

  // ------------------------------------------------------------------ everything else

  /** Nothing about step s has happened, except that a node may have executed it. */
  ghost predicate Unmoved(g: System, g': System, s: StepId) {
    && (forall n :: n in g.nodes ==> SameSlot(g, g', n, s))
    && g'.nodes.Keys == g.nodes.Keys
    && (forall p :: p in g.net && p.step == s && !Done(g, p.dst, s) ==> p in g'.net)
  }

  ghost predicate SameSlot(g: System, g': System, n: NodeId, s: StepId) {
    && (HasVoted(g, n, s) <==> HasVoted(g', n, s)) && (Done(g, n, s) <==> Done(g', n, s))
    && (HasVoted(g, n, s) ==> g'.nodes[n].table.steps[s] == g.nodes[n].table.steps[s])
  }

  lemma UnmovedPair(g: System, g': System, s: StepId, m: NodeId, n: NodeId)
    requires Unmoved(g, g', s) && Owed(g, m, n, s) && m in g.nodes && n in g.nodes
    ensures Owed(g', m, n, s)
  {
    assert SameSlot(g, g', m, s) && SameSlot(g, g', n, s);
    if !Done(g, n, s) {
      assert CommitFlying(g, n, s) ==> CommitFlying(g', n, s);
      assert VoteFlying(g, m, n, s) ==> VoteFlying(g', m, n, s);
    }
  }

  lemma UnmovedLossless(nodes: set<NodeId>, g: System, g': System, s: StepId)
    requires Unmoved(g, g', s) && Lossless(nodes, g, s) && g.nodes.Keys == nodes
    ensures Lossless(nodes, g', s)
  {
    forall m, n | m in nodes && n in nodes && m != n ensures Owed(g', m, n, s) {
      UnmovedPair(g, g', s, m, n);
    }
    forall n | HasVoted(g', n, s) ensures Counted(g', n, n, s) {
      assert SameSlot(g, g', n, s);
    }
  }

  /** The action does not handle a message about step s. */
  ghost predicate Aside(g: System, a: Action, s: StepId)
    requires Enabled(g, a)
  {
    match a
    case Apply(n, msg) => g.nodes[n].table.next != s
    case Deliver(p, keep) => p.step != s || !Open(g.nodes[p.dst].table, s)
    case Drop(p) => false
    case Exec(n) => true
  }

  lemma AsideSlot(nodes: set<NodeId>, g: System, a: Action, s: StepId, n: NodeId)
    requires Enabled(g, a) && Aside(g, a, s) && n in g.nodes && Wf(g.nodes[n].table)
    ensures n in Do(nodes, g, a).nodes && SameSlot(g, Do(nodes, g, a), n, s)
  {
    match a
    case Apply(m, msg) => ApplyAside(nodes, g, m, msg, s, n);
    case Deliver(p, keep) => DeliverAside(nodes, g, p, keep, s, n);
    case Exec(m) =>
  }

  lemma ApplyAside(nodes: set<NodeId>, g: System, m: NodeId, msg: Msg, s: StepId, n: NodeId)
    requires m in g.nodes && g.nodes[m].table.next != s && n in g.nodes
    ensures n in Do(nodes, g, Apply(m, msg)).nodes && SameSlot(g, Do(nodes, g, Apply(m, msg)), n, s)
  {
    var g1, t := Announce(g, m, msg), g.nodes[m].table.next;
    assert SameSlot(g, g1, n, s);
    ReceiveAside(nodes, g1, m, t, Vote(MsgId(m, g.nodes[m].ids), msg, m), s, n);
  }

  lemma DeliverAside(nodes: set<NodeId>, g: System, p: Packet, keep: bool, s: StepId, n: NodeId)
    requires Enabled(g, Deliver(p, keep)) && (p.step != s || !Open(g.nodes[p.dst].table, s)) && n in g.nodes
    ensures n in Do(nodes, g, Deliver(p, keep)).nodes && SameSlot(g, Do(nodes, g, Deliver(p, keep)), n, s)
  {
    ReceiveAside(nodes, g, p.dst, p.step, p.body, s, n);
    assert Do(nodes, g, Deliver(p, keep)).nodes == Receive(nodes, g, p.dst, p.step, p.body).nodes;
  }

  lemma ReceiveAside(nodes: set<NodeId>, g: System, x: NodeId, t: StepId, body: Body, s: StepId, n: NodeId)
    requires x in g.nodes && n in g.nodes && (t != s || !Open(g.nodes[x].table, s))
    ensures n in Receive(nodes, g, x, t, body).nodes && SameSlot(g, Receive(nodes, g, x, t, body), n, s)
  {
    if Open(g.nodes[x].table, t) {
      var g1 := Recorded(g, x, t, body);
      assert g1.nodes == g.nodes;
    }
  }

  lemma AsideNet(nodes: set<NodeId>, g: System, a: Action, s: StepId, p: Packet)
    requires Enabled(g, a) && Aside(g, a, s) && p in g.net && p.step == s && !Done(g, p.dst, s)
    ensures p in Do(nodes, g, a).net
  {
  }

  lemma NodeWf(nodes: set<NodeId>, g: System, n: NodeId)
    requires NodesOk(nodes, g) && n in g.nodes
    ensures Wf(g.nodes[n].table)
    ensures forall s :: s in g.nodes[n].table.steps ==> SlotOk(nodes, g, s, g.nodes[n].table.steps[s])
  {
    assert NodeOk(nodes, g, n, g.nodes[n]);
  }

  lemma OtherStep(nodes: set<NodeId>, g: System, a: Action, s: StepId)
    requires NodesOk(nodes, g) && Enabled(g, a) && Aside(g, a, s)
    ensures Unmoved(g, Do(nodes, g, a), s)
  {
    var g' := Do(nodes, g, a);
    Forward(nodes, g, a);
    forall n | n in g.nodes ensures SameSlot(g, g', n, s) {
      NodeWf(nodes, g, n);
      AsideSlot(nodes, g, a, s, n);
    }
    forall p | p in g.net && p.step == s && !Done(g, p.dst, s) ensures p in g'.net {
      AsideNet(nodes, g, a, s, p);
    }
  }

  /** Receiving at g1, which differs from g in the number of x alone. */
  lemma Receives(nodes: set<NodeId>, g: System, g1: System, x: NodeId, s: StepId, body: Body, gone: set<Packet>)
    requires x in g.nodes && x in g1.nodes && g1.nodes == g.nodes[x := g1.nodes[x]] && g1.net == g.net
    requires g1.nodes[x].table.cur == g.nodes[x].table.cur && g1.nodes[x].table.steps == g.nodes[x].table.steps
    requires Open(g.nodes[x].table, s) && gone <= {Packet(x, s, body)}
    requires s in g.nodes[x].table.steps ==> g.nodes[x].table.steps[s].state != Initial
    ensures var h := Receive(nodes, g1, x, s, body);
            var r := OnBody(Get(g.nodes[x].table, s, FRESH), x, body, |nodes|);
            Handled(nodes, g, h.(net := h.net - gone), x, s, body, r, gone)
  {
    BodyMoved(x, Get(g.nodes[x].table, s, FRESH), body, |nodes|);
  }

  lemma StepLossless(nodes: set<NodeId>, g: System, a: Action, s: StepId)
    requires Inv(nodes, g) && Enabled(g, a) && !a.Drop? && Lossless(nodes, g, s)
    ensures Lossless(nodes, Do(nodes, g, a), s)
  {
    if Aside(g, a, s) {
      OtherStep(nodes, g, a, s);
      UnmovedLossless(nodes, g, Do(nodes, g, a), s);
    } else if a.Deliver? {
      NodeWf(nodes, g, a.p.dst);
      DeliverLossless(nodes, g, a.p, a.keep);
    } else {
      NodeWf(nodes, g, a.n);
      ApplyLossless(nodes, g, a.n, a.msg);
    }
  }

  lemma DeliverLossless(nodes: set<NodeId>, g: System, p: Packet, keep: bool)
    requires Enabled(g, Deliver(p, keep)) && Open(g.nodes[p.dst].table, p.step) && Lossless(nodes, g, p.step)
    requires p.step in g.nodes[p.dst].table.steps ==> g.nodes[p.dst].table.steps[p.step].state != Initial
    ensures Lossless(nodes, Do(nodes, g, Deliver(p, keep)), p.step)
  {
    var gone := if keep then {} else {p};
    var h := Receive(nodes, g, p.dst, p.step, p.body);
    var r := OnBody(Get(g.nodes[p.dst].table, p.step, FRESH), p.dst, p.body, |nodes|);
    Receives(nodes, g, g, p.dst, p.step, p.body, gone);
    assert h.net - {} == h.net;
    HandledLossless(nodes, g, h.(net := h.net - gone), p.dst, p.step, p.body, r, gone);
  }

  lemma ApplyLossless(nodes: set<NodeId>, g: System, n: NodeId, msg: Msg)
    requires Enabled(g, Apply(n, msg)) && Wf(g.nodes[n].table) && Lossless(nodes, g, g.nodes[n].table.next)
    ensures Lossless(nodes, Do(nodes, g, Apply(n, msg)), g.nodes[n].table.next)
  {
    var s, body := g.nodes[n].table.next, Vote(MsgId(n, g.nodes[n].ids), msg, n);
    var g1 := Announce(g, n, msg);
    var h := Receive(nodes, g1, n, s, body);
    Receives(nodes, g, g1, n, s, body, {});
    assert h.net - {} == h.net;
    HandledLossless(nodes, g, h, n, s, body, OnBody(FRESH, n, body, |nodes|), {});
  }

  lemma StepNoGaps(nodes: set<NodeId>, g: System, a: Action)
    requires Inv(nodes, g) && Enabled(g, a) && NoGaps(g)
    ensures NoGaps(Do(nodes, g, a))
  {
    var g' := Do(nodes, g, a);
    forall n: NodeId, s: StepId | Passed(g', n, s) ensures At(g'.started, s) != map[] {
      if Passed(g, n, s) {
        StillStarted(nodes, g, a, s);
      } else {
        NewlyPassed(nodes, g, a, n, s);
      }
    }
  }

  lemma StillStarted(nodes: set<NodeId>, g: System, a: Action, s: StepId)
    requires Enabled(g, a) && At(g.started, s) != map[]
    ensures At(Do(nodes, g, a).started, s) != map[]
  {
    StartedAt(nodes, g, a, s);
    if a.Apply? && s == g.nodes[a.n].table.next {
      ApplyStarts(nodes, g, a.n, a.msg);
    }
  }

  lemma ApplyStarts(nodes: set<NodeId>, g: System, n: NodeId, msg: Msg)
    requires n in g.nodes
    ensures At(Do(nodes, g, Apply(n, msg)).started, g.nodes[n].table.next) != map[]
  {
    assert MsgId(n, g.nodes[n].ids) in At(Announce(g, n, msg).started, g.nodes[n].table.next);
  }

  lemma NewlyPassed(nodes: set<NodeId>, g: System, a: Action, n: NodeId, s: StepId)
    requires Inv(nodes, g) && Enabled(g, a) && NoGaps(g) && !Passed(g, n, s) && Passed(Do(nodes, g, a), n, s)
    ensures At(Do(nodes, g, a).started, s) != map[]
  {
    if a.Apply? {
      ApplyPasses(nodes, g, a.n, a.msg, n, s);
      ApplyStarts(nodes, g, a.n, a.msg);
    } else {
      StartedAt(nodes, g, a, s);
      DeliverPasses(nodes, g, a, n, s);
    }
  }

  lemma ApplyPasses(nodes: set<NodeId>, g: System, x: NodeId, msg: Msg, n: NodeId, s: StepId)
    requires x in g.nodes && !Passed(g, n, s) && Passed(Do(nodes, g, Apply(x, msg)), n, s)
    ensures s == g.nodes[x].table.next
  {
  }

  lemma PassesUpTo(nodes: set<NodeId>, g: System, p: Packet, keep: bool, n: NodeId, s: StepId)
    requires Enabled(g, Deliver(p, keep)) && !Passed(g, n, s) && Passed(Do(nodes, g, Deliver(p, keep)), n, s)
    ensures s <= p.step
  {
  }

  /** Whoever has sent about a step has passed it, and everything before it. */
  lemma DeliverPasses(nodes: set<NodeId>, g: System, a: Action, n: NodeId, s: StepId)
    requires Inv(nodes, g) && Enabled(g, a) && NoGaps(g) && !a.Apply?
    requires !Passed(g, n, s) && Passed(Do(nodes, g, a), n, s)
    ensures At(g.started, s) != map[]
  {
    if a.Deliver? {
      PassesUpTo(nodes, g, a.p, a.keep, n, s);
      var m := Sender(nodes, g, a.p);
      assert Passed(g, m, s);
    }
  }

  lemma Sender(nodes: set<NodeId>, g: System, p: Packet) returns (m: NodeId)
    requires Inv(nodes, g) && p in g.net
    ensures m in nodes && Passed(g, m, p.step)
  {
    assert BodyOk(nodes, g, p.step, p.body);
    if p.body.Vote? {
      m := p.body.voter;
      assert m in Ballot({m}, p.body.msg).voted;
      assert Chose(g, p.step, m, p.body.id);
    } else {
      m := p.dst;
    }
  }

  /** Commit messages are never empty, as the receiver demands. */
  lemma CommitsAreNotEmpty(nodes: set<NodeId>, acts: seq<Action>, p: Packet)
    requires Legal(nodes, Start(nodes), acts) && p in Final(nodes, acts).net && p.body.Commit?
    ensures p.body.msgs != []
  {
    ReachedNoGaps(nodes, acts);
    CommitNotEmpty(nodes, Final(nodes, acts), p);
  }

  lemma CommitNotEmpty(nodes: set<NodeId>, g: System, p: Packet)
    requires Inv(nodes, g) && NoGaps(g) && p in g.net && p.body.Commit?
    ensures p.body.msgs != []
  {
    var m := Sender(nodes, g, p);
    assert BodyOk(nodes, g, p.step, p.body);
    OrderedContents(At(g.started, p.step));
    NotEmpty(g, p.step);
  }

  lemma NotEmpty(g: System, s: StepId)
    requires At(g.started, s) != map[]
    ensures |At(g.started, s).Keys| > 0 && exists id :: id in At(g.started, s)
  {
    assert At(g.started, s).Keys != {};
  }

  lemma {:induction false} RunNoGaps(nodes: set<NodeId>, g: System, acts: seq<Action>)
    requires Inv(nodes, g) && NoGaps(g) && Legal(nodes, g, acts)
    ensures NoGaps(After(nodes, g, acts))
    decreases |acts|
  {
    if acts != [] {
      StepNoGaps(nodes, g, acts[0]);
      StepKeeps(nodes, g, acts[0]);
      RunNoGaps(nodes, Do(nodes, g, acts[0]), acts[1..]);
    }
  }

  lemma {:induction false} RunLossless(nodes: set<NodeId>, g: System, acts: seq<Action>, s: StepId)
    requires Inv(nodes, g) && Legal(nodes, g, acts) && Lossless(nodes, g, s) && forall a :: a in acts ==> !a.Drop?
    ensures Lossless(nodes, After(nodes, g, acts), s)
    decreases |acts|
  {
    if acts != [] {
      StepLossless(nodes, g, acts[0], s);
      StepKeeps(nodes, g, acts[0]);
      RunLossless(nodes, Do(nodes, g, acts[0]), acts[1..], s);
    }
  }

  lemma AtStart(nodes: set<NodeId>, s: StepId)
    ensures NoGaps(Start(nodes)) && Lossless(nodes, Start(nodes), s)
  {
  }

  lemma StartInv(nodes: set<NodeId>)
    ensures Inv(nodes, Start(nodes))
  {
  }

  lemma ReachedNoGaps(nodes: set<NodeId>, acts: seq<Action>)
    requires Legal(nodes, Start(nodes), acts)
    ensures Inv(nodes, Final(nodes, acts)) && NoGaps(Final(nodes, acts))
  {
    StartInv(nodes);
    AtStart(nodes, 0);
    RunKeeps(nodes, Start(nodes), acts);
    RunNoGaps(nodes, Start(nodes), acts);
  }

  lemma ReachedLossless(nodes: set<NodeId>, acts: seq<Action>, s: StepId)
    requires Legal(nodes, Start(nodes), acts) && forall a :: a in acts ==> !a.Drop?
    ensures Lossless(nodes, Final(nodes, acts), s)
  {
    StartInv(nodes);
    AtStart(nodes, s);
    RunLossless(nodes, Start(nodes), acts, s);
  }

  // ------------------------------------------------------------------ at rest

  /** Nothing is in flight and no node has a finished step left to execute. */
  ghost predicate Quiescent(nodes: set<NodeId>, g: System) {
    g.net == {} && forall n :: n in nodes ==> !Enabled(g, Exec(n))
  }

  lemma StillMissing(nodes: set<NodeId>, g: System, s: StepId, n: NodeId, v: Slot) returns (m: NodeId)
    requires ChoicesOk(nodes, g) && SlotOk(nodes, g, s, v) && v.state == Voted && n in Voters(v.ballots)
    ensures m in nodes && m != n && m !in Voters(v.ballots)
  {
    assert forall id :: id in v.ballots ==> BallotOk(g, s, id, v.ballots[id]);
    Disjoint(nodes, g, s, v.ballots);
    m :| m in nodes && m !in Voters(v.ballots);
  }

  lemma Resting(nodes: set<NodeId>, g: System, s: StepId, m: NodeId, n: NodeId)
    requires Lossless(nodes, g, s) && g.net == {} && m in nodes && n in nodes && m != n
    ensures HasVoted(g, m, s) ==> Counted(g, m, n, s) || Done(g, n, s)
    ensures Done(g, m, s) ==> Done(g, n, s)
  {
    assert Owed(g, m, n, s);
  }

  /** At rest, a step that was started anywhere is finished everywhere. */
  lemma StartedIsDone(nodes: set<NodeId>, g: System, s: StepId, id: MsgId, n: NodeId)
    requires Inv(nodes, g) && Lossless(nodes, g, s) && g.net == {} && id in At(g.started, s) && n in nodes
    ensures Done(g, n, s)
  {
    var x := id.node;
    StarterActive(nodes, g, s, id);
    if HasVoted(g, x, s) {
      NotWaiting(nodes, g, s, x);
    }
    if n != x {
      Resting(nodes, g, s, x, n);
    }
  }

  /** At rest nobody waits: the node it waits for has voted, so its vote has arrived or it is done. */
  lemma NotWaiting(nodes: set<NodeId>, g: System, s: StepId, x: NodeId)
    requires NodesOk(nodes, g) && ChoicesOk(nodes, g) && Lossless(nodes, g, s) && g.net == {} && HasVoted(g, x, s)
    ensures Done(g, x, s)
  {
    NodeWf(nodes, g, x);
    assert Counted(g, x, x, s);
    var m := StillMissing(nodes, g, s, x, g.nodes[x].table.steps[s]);
    Resting(nodes, g, s, x, m);
    Resting(nodes, g, s, m, x);
  }

  lemma StarterActive(nodes: set<NodeId>, g: System, s: StepId, id: MsgId)
    requires Inv(nodes, g) && id in At(g.started, s)
    ensures id.node in nodes && (HasVoted(g, id.node, s) || Done(g, id.node, s))
  {
    assert Chose(g, s, id.node, id);
    assert NodeOk(nodes, g, id.node, g.nodes[id.node]);
    if s in g.nodes[id.node].table.steps {
      assert SlotOk(nodes, g, s, g.nodes[id.node].table.steps[s]);
    }
  }

  /** At rest every node has executed every step any node has heard of. */
  lemma CaughtUp(nodes: set<NodeId>, g: System, n: NodeId, m: NodeId)
    requires Inv(nodes, g) && NoGaps(g) && Quiescent(nodes, g) && n in nodes && m in nodes
    requires Lossless(nodes, g, g.nodes[n].table.cur)
    ensures g.nodes[n].table.cur == g.nodes[m].table.next
  {
    var s := g.nodes[n].table.cur;
    assert s <= g.nodes[m].table.next by {
      assert NodeOk(nodes, g, n, g.nodes[n]);
      if s > 0 {
        assert Closed(nodes, g, s - 1);
        assert Passed(g, m, s - 1);
      }
    }
    if s < g.nodes[m].table.next {
      assert Passed(g, m, s);
      NotEmpty(g, s);
      var id :| id in At(g.started, s);
      StartedIsDone(nodes, g, s, id, n);
      HeadRuns(g, n);
    }
  }

  lemma HeadRuns(g: System, n: NodeId)
    requires n in g.nodes && Done(g, n, g.nodes[n].table.cur)
    ensures Enabled(g, Exec(n))
  {
  }

  /** A run without loss that has come to rest: all nodes have executed the same log, and it holds every
      applied message exactly once. */
  lemma {:induction false} QuiescentCompleteness(nodes: set<NodeId>, acts: seq<Action>, n: NodeId, m: NodeId)
    requires Legal(nodes, Start(nodes), acts) && (forall a :: a in acts ==> !a.Drop?)
    requires Quiescent(nodes, Final(nodes, acts)) && n in nodes && m in nodes
    ensures var g := Final(nodes, acts);
            && n in g.nodes && m in g.nodes && g.nodes[n].log == g.nodes[m].log
            && Distinct(g.nodes[n].log)
            && (forall id :: id in g.applied ==> exists e :: e in g.nodes[n].log && e.id == id)
            && (forall e :: e in g.nodes[n].log ==> e.id in g.applied)
  {
    ReachedNoGaps(nodes, acts);
    EverybodyCaughtUp(nodes, acts, Final(nodes, acts));
    RestingLogs(nodes, Final(nodes, acts), n, m);
    RestingContents(nodes, Final(nodes, acts), n);
  }

  ghost predicate Level(nodes: set<NodeId>, g: System) {
    forall x, y :: x in nodes && y in nodes && x in g.nodes && y in g.nodes ==>
      g.nodes[x].table.cur == g.nodes[y].table.next
  }

  lemma EverybodyCaughtUp(nodes: set<NodeId>, acts: seq<Action>, g: System)
    requires Legal(nodes, Start(nodes), acts) && g == Final(nodes, acts) && forall a :: a in acts ==> !a.Drop?
    requires Inv(nodes, g) && NoGaps(g) && Quiescent(nodes, g)
    ensures Level(nodes, g)
  {
    forall x, y | x in nodes && y in nodes && x in g.nodes && y in g.nodes
      ensures g.nodes[x].table.cur == g.nodes[y].table.next
    {
      ReachedLossless(nodes, acts, g.nodes[x].table.cur);
      CaughtUp(nodes, g, x, y);
    }
  }

  lemma RestingLogs(nodes: set<NodeId>, g: System, n: NodeId, m: NodeId)
    requires Inv(nodes, g) && n in nodes && m in nodes && Level(nodes, g)
    ensures g.nodes[n].log == g.nodes[m].log && Distinct(g.nodes[n].log)
  {
    assert g.nodes[m].table.cur == g.nodes[m].table.next == g.nodes[n].table.cur;
    LogOf(nodes, g, n);
    LogOf(nodes, g, m);
    LogDistinct(g.started, g.nodes[n].table.cur, g.applied);
  }

  lemma RestingContents(nodes: set<NodeId>, g: System, n: NodeId)
    requires Inv(nodes, g) && n in nodes && Level(nodes, g)
    ensures forall id :: id in g.applied ==> exists e :: e in g.nodes[n].log && e.id == id
    ensures forall e :: e in g.nodes[n].log ==> e.id in g.applied
  {
    LogOf(nodes, g, n);
    var cur := g.nodes[n].table.cur;
    forall id | id in g.applied ensures exists e :: e in g.nodes[n].log && e.id == id {
      assert id in At(g.started, g.applied[id]) && HistoricId(g, g.applied[id], id);
      AppliedInLog(nodes, g, cur, id);
    }
    forall e | e in g.nodes[n].log ensures e.id in g.applied {
      EntryStep(g.started, cur, g.applied, e);
    }
  }

  lemma AppliedInLog(nodes: set<NodeId>, g: System, cur: StepId, id: MsgId)
    requires HistoryOk(nodes, g) && id in g.applied && (id.node in g.nodes ==> g.nodes[id.node].table.next == cur)
    ensures exists e :: e in LogUpTo(g.started, cur) && e.id == id
  {
    var s := g.applied[id];
    assert HistoricId(g, s, id);
    LogContents(g.started, cur);
    assert Entry(id, At(g.started, s)[id]) in LogUpTo(g.started, cur);
  }

  // ------------------------------------------------------------------ where messages come from

  lemma SourceStep(nodes: set<NodeId>, g: System, a: Action, s: StepId, id: MsgId)
    requires HistoryOk(nodes, g) && Enabled(g, a) && id in At(Do(nodes, g, a).started, s)
    ensures var msg := At(Do(nodes, g, a).started, s)[id];
            (id in At(g.started, s) && At(g.started, s)[id] == msg) || a == Apply(id.node, msg)
  {
    StartedAt(nodes, g, a, s);
    if a.Apply? && id in At(g.started, s) {
      NewId(nodes, g, a.n, s);
    }
  }

  lemma {:induction false} StartedFrom(nodes: set<NodeId>, g: System, acts: seq<Action>, s: StepId, id: MsgId)
    requires Inv(nodes, g) && Legal(nodes, g, acts) && id in At(After(nodes, g, acts).started, s)
    ensures var msg := At(After(nodes, g, acts).started, s)[id];
            (id in At(g.started, s) && At(g.started, s)[id] == msg) || Apply(id.node, msg) in acts
    decreases |acts|
  {
    if acts != [] {
      StepKeeps(nodes, g, acts[0]);
      StartedFrom(nodes, Do(nodes, g, acts[0]), acts[1..], s, id);
      if id in At(Do(nodes, g, acts[0]).started, s) {
        SourceStep(nodes, g, acts[0], s, id);
      }
    }
  }

  /** Every entry of a log is a message some call of apply was given at the node its id names. */
  lemma LoggedWasApplied(nodes: set<NodeId>, acts: seq<Action>, n: NodeId, e: Entry)
    requires Legal(nodes, Start(nodes), acts) && n in nodes && n in Final(nodes, acts).nodes
    requires e in Final(nodes, acts).nodes[n].log
    ensures Apply(e.id.node, e.msg) in acts
  {
    ReachedNoGaps(nodes, acts);
    StartInv(nodes);
    var s := LoggedStep(nodes, Final(nodes, acts), n, e);
    StartedFrom(nodes, Start(nodes), acts, s, e.id);
  }

  lemma LoggedStep(nodes: set<NodeId>, g: System, n: NodeId, e: Entry) returns (s: StepId)
    requires Inv(nodes, g) && n in nodes && n in g.nodes && e in g.nodes[n].log
    ensures e.id in At(g.started, s) && At(g.started, s)[e.id] == e.msg
  {
    LogOf(nodes, g, n);
    LogContents(g.started, g.nodes[n].table.cur);
    s :| s < g.nodes[n].table.cur && e.id in At(g.started, s) && At(g.started, s)[e.id] == e.msg;
  }
}
