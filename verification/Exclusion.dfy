/** Completeness across an exclusion: when the live nodes of a step may go on without the rest and the
    timers wait for them, a step that one of them starts is finished at all of them. */
module Exclusion {
  import opened Types
  import opened BatchLog
  import opened VotingSpec
  import opened PhantomTable
  import opened ReplicatedLog
  import opened Agreement

  /** The timers of step s wait for its live nodes, who may go on by themselves. */
  ghost predicate Regular(k: Config, s: StepId) {
    Sound(k) && k.waits(s) == k.live(s) && Consistent(k.live(s), k.nodes)
  }

  ghost predicate Running(k: Config, g: System, s: StepId) {
    forall n :: n in k.live(s) ==> n in g.nodes && !g.nodes[n].stopped
  }

  /** Nothing sent to a live node about the step is lost. */
  ghost predicate Spares(k: Config, a: Action, s: StepId) {
    a.Drop? && a.p.step == s ==> a.p.dst !in k.live(s)
  }

  /** The last vote of n is about the live nodes only. */
  ghost predicate AtLive(k: Config, g: System, n: NodeId, s: StepId) {
    HasVoted(g, n, s) && g.nodes[n].table.steps[s].nodes == k.live(s)
  }

  /** The last vote of n still counts on nodes that are cut off. */
  ghost predicate AtAll(k: Config, g: System, n: NodeId, s: StepId) {
    HasVoted(g, n, s) && g.nodes[n].table.steps[s].nodes != k.live(s)
  }

  /** A vote of m for the live nodes only (`narrow`), or for all nodes, is on its way to n. */
  ghost predicate Flying(k: Config, g: System, m: NodeId, n: NodeId, s: StepId, narrow: bool) {
    exists p :: p in g.net && p.dst == n && p.step == s && p.body.Vote? && p.body.src == m
                && (p.body.nodes == k.live(s) <==> narrow)
  }

  /** When each node last voted for the live nodes only. */
  type Stamps = map<NodeId, nat>

  /** What node m has told node n: a commit, a vote for all nodes, a vote for the live nodes.  The latter is
      forgotten when n votes once more, which is later. */
  ghost predicate Told(k: Config, g: System, st: Stamps, m: NodeId, n: NodeId, s: StepId) {
    && m in st && n in st
    && (Done(g, m, s) ==> CommitFlying(g, n, s) || Done(g, n, s))
    && (AtAll(k, g, m, s) ==> Flying(k, g, m, n, s, false) || Counted(g, m, n, s) || AtLive(k, g, n, s)
                              || Done(g, n, s))
    && (AtLive(k, g, m, s) ==> Flying(k, g, m, n, s, true) || Done(g, n, s)
                               || (AtLive(k, g, n, s) && (Counted(g, m, n, s) || st[n] > st[m])))
  }

  ghost predicate AllTold(k: Config, g: System, st: Stamps, s: StepId) {
    forall m, n :: m in k.live(s) && n in k.live(s) && m != n ==> Told(k, g, st, m, n, s)
  }

  /** A node that has started the step and still counts on all nodes has its timer set. */
  ghost predicate Watched(k: Config, g: System, s: StepId) {
    forall id :: id in At(g.started, s) && AtAll(k, g, id.node, s) ==> s in g.nodes[id.node].armed
  }

  ghost predicate Before(st: Stamps, clock: nat) {
    forall n :: n in st ==> st[n] < clock
  }

  /** How handling one message about step s moves a live node: it keeps its membership and counts the
      sender, or it votes again, or it commits. */
  ghost predicate Turn(k: Config, s: StepId, self: NodeId, v: Slot, body: Body, r: (Slot, Option<Body>)) {
    && r.0.state != Initial
    && (v.state == Completed ==> r.0.state == Completed)
    && (v.state != Completed && r.0.state == Completed ==> r.1.Some? && r.1.value.Commit?)
    && (r.0.state == Voted ==>
          && body.Vote? && body.src in r.0.voted
          && (body.nodes == k.live(s) || (v.state == Voted && v.nodes == k.live(s)) ==> r.0.nodes == k.live(s))
          && (Quiet(v, r) || (Speaks(self, r) && (r.0.nodes == k.live(s) || v.state == Initial))))
  }

  ghost predicate Quiet(v: Slot, r: (Slot, Option<Body>)) {
    v.state == Voted && v.nodes == r.0.nodes && v.voted <= r.0.voted && r.1.None?
  }

  ghost predicate Speaks(self: NodeId, r: (Slot, Option<Body>)) {
    r.1.Some? && r.1.value.Vote? && r.1.value.src == self && r.1.value.nodes == r.0.nodes
  }

  lemma BodyTurn(k: Config, g: System, n: NodeId, s: StepId, v: Slot, body: Body)
    requires WfConfig(k) && n in k.live(s) && (v == FRESH || SlotOk(k, g, n, s, v))
    requires body.Vote? ==> Membership(k, s, body.nodes)
    ensures Turn(k, s, n, v, body, OnBody(v, n, body))
  {
    assert k.nodes * k.live(s) == k.live(s) && k.live(s) * k.nodes == k.live(s);
    assert k.live(s) != {};
  }

  /** Handling the message about step s at the live node x; `gone` is its packet when the network does not
      keep it. */
  ghost predicate Turned(k: Config, g: System, g': System, x: NodeId, s: StepId, body: Body,
                         r: (Slot, Option<Body>), gone: set<Packet>) {
    && x in g.nodes && x in k.live(s) && g.nodes[x].table.cur <= s && gone <= {Packet(x, s, body)}
    && Turn(k, s, x, Get(g.nodes[x].table, s, FRESH), body, r)
    && x in g'.nodes && g'.nodes == g.nodes[x := g'.nodes[x]]
    && g'.nodes[x].table.cur == g.nodes[x].table.cur
    && g'.nodes[x].table.steps == g.nodes[x].table.steps[s := r.0]
    && g'.net == g.net + Broadcast(k, x, s, r.1) - gone
  }

  lemma TurnedPair(k: Config, g: System, g': System, st: Stamps, clock: nat, x: NodeId, s: StepId, body: Body,
                   r: (Slot, Option<Body>), gone: set<Packet>, m: NodeId, n: NodeId)
    requires WfConfig(k) && Turned(k, g, g', x, s, body, r, gone) && Wf(g.nodes[x].table)
    requires m in k.live(s) && n in k.live(s) && m != n && Told(k, g, st, m, n, s) && Before(st, clock) && x in st
    ensures Told(k, g', Stamped(st, clock, x, r), m, n, s)
  {
    if m == x {
      TurnedSender(k, g, g', st, clock, x, s, body, r, gone, n);
    } else if n == x {
      TurnedReceiver(k, g, g', st, clock, x, s, body, r, gone, m);
    } else {
      assert forall p :: p in g.net && p.dst == n ==> p in g'.net;
    }
  }

  /** A vote that is broadcast gets a new stamp. */
  function Stamped(st: Stamps, clock: nat, x: NodeId, r: (Slot, Option<Body>)): Stamps {
    if r.1.Some? && r.1.value.Vote? then st[x := clock] else st
  }

  lemma TurnedSender(k: Config, g: System, g': System, st: Stamps, clock: nat, x: NodeId, s: StepId, body: Body,
                     r: (Slot, Option<Body>), gone: set<Packet>, n: NodeId)
    requires WfConfig(k) && Turned(k, g, g', x, s, body, r, gone) && Wf(g.nodes[x].table)
    requires n in k.live(s) && n != x && Told(k, g, st, x, n, s) && Before(st, clock)
    ensures Told(k, g', Stamped(st, clock, x, r), x, n, s)
  {
    assert forall p :: p in g.net && p.dst == n ==> p in g'.net;
    if r.1.Some? {
      assert Packet(n, s, r.1.value) in g'.net;
    }
  }

  lemma TurnedReceiver(k: Config, g: System, g': System, st: Stamps, clock: nat, x: NodeId, s: StepId, body: Body,
                       r: (Slot, Option<Body>), gone: set<Packet>, m: NodeId)
    requires WfConfig(k) && Turned(k, g, g', x, s, body, r, gone) && Wf(g.nodes[x].table)
    requires m in k.live(s) && m != x && Told(k, g, st, m, x, s) && Before(st, clock)
    ensures Told(k, g', Stamped(st, clock, x, r), m, x, s)
  {
    assert forall p :: p in g.net && p != Packet(x, s, body) ==> p in g'.net;
  }

  lemma TurnedAll(k: Config, g: System, g': System, st: Stamps, clock: nat, x: NodeId, s: StepId, body: Body,
                  r: (Slot, Option<Body>), gone: set<Packet>)
    requires WfConfig(k) && Turned(k, g, g', x, s, body, r, gone) && Wf(g.nodes[x].table)
    requires AllTold(k, g, st, s) && Before(st, clock) && k.live(s) <= st.Keys
    ensures AllTold(k, g', Stamped(st, clock, x, r), s) && Before(Stamped(st, clock, x, r), clock + 1)
  {
    forall m, n | m in k.live(s) && n in k.live(s) && m != n
      ensures Told(k, g', Stamped(st, clock, x, r), m, n, s)
    {
      TurnedPair(k, g, g', st, clock, x, s, body, r, gone, m, n);
    }
  }

  /** Nothing about step s has happened at its live nodes, except that one of them may have executed it. */
  ghost predicate Unmoved(k: Config, g: System, g': System, s: StepId) {
    && (forall n :: n in k.live(s) ==> SameSlot(g, g', n, s))
    && (forall p :: p in g.net && p.step == s && p.dst in k.live(s) && !Done(g, p.dst, s) ==> p in g'.net)
  }

  ghost predicate SameSlot(g: System, g': System, n: NodeId, s: StepId) {
    && (HasVoted(g, n, s) <==> HasVoted(g', n, s)) && (Done(g, n, s) <==> Done(g', n, s))
    && (HasVoted(g, n, s) ==> g'.nodes[n].table.steps[s] == g.nodes[n].table.steps[s])
  }

  lemma UnmovedAll(k: Config, g: System, g': System, st: Stamps, s: StepId)
    requires Unmoved(k, g, g', s) && AllTold(k, g, st, s)
    ensures AllTold(k, g', st, s)
  {
    forall m, n | m in k.live(s) && n in k.live(s) && m != n ensures Told(k, g', st, m, n, s) {
      UnmovedPair(k, g, g', st, s, m, n);
    }
  }

  lemma UnmovedPair(k: Config, g: System, g': System, st: Stamps, s: StepId, m: NodeId, n: NodeId)
    requires Unmoved(k, g, g', s) && m in k.live(s) && n in k.live(s) && Told(k, g, st, m, n, s)
    ensures Told(k, g', st, m, n, s)
  {
    assert SameSlot(g, g', m, s) && SameSlot(g, g', n, s);
    if !Done(g, n, s) {
      assert CommitFlying(g, n, s) ==> CommitFlying(g', n, s);
      assert forall b :: Flying(k, g, m, n, s, b) ==> Flying(k, g', m, n, s, b);
    }
  }

  // ------------------------------------------------------------------ every action keeps it

  ghost predicate Narrowing(k: Config, g: System, st: Stamps, clock: nat, s: StepId) {
    AllTold(k, g, st, s) && Before(st, clock) && k.live(s) <= st.Keys
  }

  lemma NodeWf(k: Config, g: System, n: NodeId)
    requires NodesOk(k, g) && n in g.nodes
    ensures Wf(g.nodes[n].table)
  {
    assert NodeOk(k, g, n, g.nodes[n]);
  }

  lemma SlotOf(k: Config, g: System, n: NodeId, s: StepId)
    requires NodesOk(k, g) && n in g.nodes && n in k.live(s)
    ensures var v := Get(g.nodes[n].table, s, FRESH); v == FRESH || SlotOk(k, g, n, s, v)
    ensures s in g.nodes[n].table.steps ==> SlotOk(k, g, n, s, g.nodes[n].table.steps[s])
  {
    assert NodeOk(k, g, n, g.nodes[n]);
  }

  /** Storing the outcome of a turn, when nothing but the number and the timers of x have changed before. */
  lemma StoreTurns(k: Config, g: System, g1: System, x: NodeId, s: StepId, body: Body, r: (Slot, Option<Body>),
                   gone: set<Packet>)
    requires x in g.nodes && x in k.live(s) && g.nodes[x].table.cur <= s && gone <= {Packet(x, s, body)}
    requires Turn(k, s, x, Get(g.nodes[x].table, s, FRESH), body, r)
    requires g1.net == g.net && x in g1.nodes && g1.nodes == g.nodes[x := g1.nodes[x]]
    requires g1.nodes[x].table.cur == g.nodes[x].table.cur && g1.nodes[x].table.steps == g.nodes[x].table.steps
    ensures Turned(k, g, Store(k, g1, x, s, r).(net := Store(k, g1, x, s, r).net - gone), x, s, body, r, gone)
  {
  }

  lemma KeepsNet(g: System)
    ensures g.(net := g.net - {}) == g
  {
    assert g.net - {} == g.net;
  }

  lemma DeliverTurned(k: Config, g: System, p: Packet, keep: bool, s: StepId)
    requires WfConfig(k) && Inv(k, g) && Enabled(k, g, Deliver(p, keep)) && !g.nodes[p.dst].stopped
    requires p.step == s && p.dst in k.live(s) && g.nodes[p.dst].table.cur <= s
    ensures var r := OnBody(Get(g.nodes[p.dst].table, s, FRESH), p.dst, p.body);
            Turned(k, g, Do(k, g, Deliver(p, keep)), p.dst, s, p.body, r, if keep then {} else {p})
  {
    var r := OnBody(Get(g.nodes[p.dst].table, s, FRESH), p.dst, p.body);
    assert Turn(k, s, p.dst, Get(g.nodes[p.dst].table, s, FRESH), p.body, r) by {
      assert BodyOk(k, g, s, p.body);
      SlotOf(k, g, p.dst, s);
      BodyTurn(k, g, p.dst, s, Get(g.nodes[p.dst].table, s, FRESH), p.body);
    }
    DeliverStored(k, g, p, keep, s, r);
  }

  lemma DeliverStored(k: Config, g: System, p: Packet, keep: bool, s: StepId, r: (Slot, Option<Body>))
    requires Enabled(k, g, Deliver(p, keep)) && !g.nodes[p.dst].stopped
    requires p.step == s && p.dst in k.live(s) && g.nodes[p.dst].table.cur <= s
    requires r == OnBody(Get(g.nodes[p.dst].table, s, FRESH), p.dst, p.body)
    requires Turn(k, s, p.dst, Get(g.nodes[p.dst].table, s, FRESH), p.body, r)
    ensures Turned(k, g, Do(k, g, Deliver(p, keep)), p.dst, s, p.body, r, if keep then {} else {p})
  {
    StoreTurns(k, g, g, p.dst, s, p.body, r, if keep then {} else {p});
    KeepsNet(Store(k, g, p.dst, s, r));
  }

  lemma ApplyTurned(k: Config, g: System, n: NodeId, msg: Msg)
    requires WfConfig(k) && Enabled(k, g, Apply(n, msg)) && n in k.live(g.nodes[n].table.next) && Wf(g.nodes[n].table)
    ensures var s, body := g.nodes[n].table.next, Vote(map[MsgId(n, g.nodes[n].ids) := msg], n, k.nodes);
            && Turned(k, g, Do(k, g, Apply(n, msg)), n, s, body, OnBody(FRESH, n, body), {})
            && s !in g.nodes[n].table.steps
  {
    var s, body := g.nodes[n].table.next, Vote(map[MsgId(n, g.nodes[n].ids) := msg], n, k.nodes);
    var g1 := Announce(k, g, n, msg);
    StartsFresh(k, g, n, msg);
    BodyTurn(k, g, n, s, FRESH, body);
    StoreTurns(k, g, g1, n, s, body, OnBody(FRESH, n, body), {});
    KeepsNet(Store(k, g1, n, s, OnBody(FRESH, n, body)));
  }

  /** A timer that fires at a live node has heard exactly the live nodes. */
  lemma FiredBy(k: Config, g: System, n: NodeId, s: StepId, v: Slot)
    requires k.live(s) <= k.waits(s) && Consistent(k.live(s), k.nodes) && n in k.live(s)
    requires SlotOk(k, g, n, s, v) && k.waits(s) <= v.voted
    ensures v.voted == k.live(s) && Consistent(v.voted, v.nodes)
  {
    assert v.voted == k.live(s);
    assert n in v.voted && |v.voted| > 0;
  }

  lemma TimeoutTurned(k: Config, g: System, n: NodeId, s: StepId, v: Slot, body: Body)
    requires Regular(k, s) && Enabled(k, g, Timeout(n, s)) && n in k.live(s) && v == g.nodes[n].table.steps[s]
    requires SlotOk(k, g, n, s, v) && body == Vote(v.carries, n, v.voted)
    ensures Turned(k, g, Do(k, g, Timeout(n, s)), n, s, body, OnBody(v, n, body), {}) && v.voted == k.live(s)
  {
    FiredBy(k, g, n, s, v);
    BodyTurn(k, g, n, s, v, body);
    TimeoutStored(k, g, n, s, v);
  }

  lemma TimeoutStored(k: Config, g: System, n: NodeId, s: StepId, v: Slot)
    requires Enabled(k, g, Timeout(n, s)) && n in k.live(s) && v == g.nodes[n].table.steps[s]
    requires Consistent(v.voted, v.nodes)
    requires Turn(k, s, n, v, Vote(v.carries, n, v.voted), OnBody(v, n, Vote(v.carries, n, v.voted)))
    ensures var body := Vote(v.carries, n, v.voted);
            Turned(k, g, Do(k, g, Timeout(n, s)), n, s, body, OnBody(v, n, body), {})
  {
    var body := Vote(v.carries, n, v.voted);
    StoreTurns(k, g, Disarm(g, n, s), n, s, body, OnBody(v, n, body), {});
    KeepsNet(Do(k, g, Timeout(n, s)));
  }

  /** The action is not a turn of a live node at step s. */
  ghost predicate Aside(k: Config, g: System, a: Action, s: StepId)
    requires Enabled(k, g, a)
  {
    match a
    case Apply(n, msg) => g.nodes[n].table.next != s || n !in k.live(s)
    case Deliver(p, keep) => p.step != s || p.dst !in k.live(s) || s < g.nodes[p.dst].table.cur
    case Drop(p) => Spares(k, a, s)
    case Timeout(n, t) => t != s || n !in k.live(s)
    case Exec(n) => true
  }

  lemma AsideSlot(k: Config, g: System, a: Action, s: StepId, n: NodeId)
    requires Enabled(k, g, a) && Aside(k, g, a, s) && n in k.live(s) && n in g.nodes && Wf(g.nodes[n].table)
    requires n in Do(k, g, a).nodes && !Do(k, g, a).nodes[n].stopped
    ensures SameSlot(g, Do(k, g, a), n, s)
  {
    match a
    case Apply(m, msg) => ApplyAside(k, g, m, msg, s, n);
    case Deliver(p, keep) => DeliverAside(k, g, p, keep, s, n);
    case Drop(p) =>
    case Timeout(m, t) => TimeoutAside(k, g, m, t, s, n);
    case Exec(m) =>
  }

  lemma ApplyAside(k: Config, g: System, m: NodeId, msg: Msg, s: StepId, n: NodeId)
    requires Enabled(k, g, Apply(m, msg)) && (g.nodes[m].table.next != s || m != n)
    requires n in g.nodes && Wf(g.nodes[n].table)
    ensures SameSlot(g, Do(k, g, Apply(m, msg)), n, s)
  {
    assert SameSlot(g, Announce(k, g, m, msg), n, s);
  }

  lemma TimeoutAside(k: Config, g: System, m: NodeId, t: StepId, s: StepId, n: NodeId)
    requires Enabled(k, g, Timeout(m, t)) && (t != s || m != n)
    requires n in g.nodes && Wf(g.nodes[n].table)
    requires n in Do(k, g, Timeout(m, t)).nodes && !Do(k, g, Timeout(m, t)).nodes[n].stopped
    ensures SameSlot(g, Do(k, g, Timeout(m, t)), n, s)
  {
  }

  lemma DeliverAside(k: Config, g: System, p: Packet, keep: bool, s: StepId, n: NodeId)
    requires Enabled(k, g, Deliver(p, keep)) && (p.step != s || p.dst != n || s < g.nodes[n].table.cur)
    requires n in g.nodes && Wf(g.nodes[n].table)
    ensures SameSlot(g, Do(k, g, Deliver(p, keep)), n, s)
  {
    assert SameSlot(g, Receive(k, g, p.dst, p.step, p.body), n, s);
  }

  lemma AsideNet(k: Config, g: System, a: Action, s: StepId, p: Packet)
    requires Enabled(k, g, a) && Aside(k, g, a, s) && p.dst in k.live(s)
    requires p in g.net && p.step == s && p.dst in k.live(s) && !Done(g, p.dst, s)
    ensures p in Do(k, g, a).net
  {
  }

  lemma OtherStep(k: Config, g: System, a: Action, s: StepId)
    requires NodesOk(k, g) && Enabled(k, g, a) && Aside(k, g, a, s) && Running(k, g, s) && Running(k, Do(k, g, a), s)
    ensures Unmoved(k, g, Do(k, g, a), s)
  {
    var g' := Do(k, g, a);
    forall n | n in k.live(s) ensures SameSlot(g, g', n, s) {
      NodeWf(k, g, n);
      AsideSlot(k, g, a, s, n);
    }
    forall p | p in g.net && p.step == s && p.dst in k.live(s) && !Done(g, p.dst, s) ensures p in g'.net {
      AsideNet(k, g, a, s, p);
    }
  }

  lemma StepNarrows(k: Config, g: System, a: Action, st: Stamps, clock: nat, s: StepId) returns (st': Stamps)
    requires Regular(k, s) && Inv(k, g) && Enabled(k, g, a) && Spares(k, a, s)
    requires Running(k, g, s) && Running(k, Do(k, g, a), s) && Narrowing(k, g, st, clock, s) && Watched(k, g, s)
    ensures Narrowing(k, Do(k, g, a), st', clock + 1, s) && Watched(k, Do(k, g, a), s)
  {
    var g' := Do(k, g, a);
    if Aside(k, g, a, s) {
      AsideNarrows(k, g, a, st, s);
      st' := st;
    } else {
      var x, body, r, gone := LiveTurn(k, g, a, s);
      st' := Stamped(st, clock, x, r);
      TurnNarrows(k, g, g', st, clock, x, s, body, r, gone);
      TurnedWatch(k, g, a, s, x, body, r, gone);
    }
  }

  lemma AsideNarrows(k: Config, g: System, a: Action, st: Stamps, s: StepId)
    requires Inv(k, g) && Enabled(k, g, a) && Aside(k, g, a, s)
    requires Running(k, g, s) && Running(k, Do(k, g, a), s) && AllTold(k, g, st, s) && Watched(k, g, s)
    ensures AllTold(k, Do(k, g, a), st, s) && Watched(k, Do(k, g, a), s)
  {
    OtherStep(k, g, a, s);
    UnmovedAll(k, g, Do(k, g, a), st, s);
    UnmovedWatch(k, g, a, s);
  }

  lemma TurnNarrows(k: Config, g: System, g': System, st: Stamps, clock: nat, x: NodeId, s: StepId, body: Body,
                    r: (Slot, Option<Body>), gone: set<Packet>)
    requires WfConfig(k) && NodesOk(k, g) && Turned(k, g, g', x, s, body, r, gone) && Narrowing(k, g, st, clock, s)
    ensures Narrowing(k, g', Stamped(st, clock, x, r), clock + 1, s)
  {
    NodeWf(k, g, x);
    TurnedAll(k, g, g', st, clock, x, s, body, r, gone);
  }

  lemma LiveTurn(k: Config, g: System, a: Action, s: StepId)
    returns (x: NodeId, body: Body, r: (Slot, Option<Body>), gone: set<Packet>)
    requires Regular(k, s) && Inv(k, g) && Enabled(k, g, a) && Spares(k, a, s) && !Aside(k, g, a, s)
    requires Running(k, g, s)
    ensures Turned(k, g, Do(k, g, a), x, s, body, r, gone)
    ensures a.Apply? ==> x == a.n && s == g.nodes[x].table.next
    ensures a.Timeout? ==> a == Timeout(x, s) && body.Vote? && body.nodes == k.live(s)
    ensures a.Apply? || a.Timeout? || a.Deliver?
  {
    match a
    case Apply(n, msg) =>
      body := Vote(map[MsgId(n, g.nodes[n].ids) := msg], n, k.nodes);
      x, r, gone := n, OnBody(FRESH, n, body), {};
      NodeWf(k, g, n);
      ApplyTurned(k, g, n, msg);
    case Deliver(p, keep) =>
      x, body, gone := p.dst, p.body, if keep then {} else {p};
      r := OnBody(Get(g.nodes[x].table, s, FRESH), x, body);
      DeliverTurned(k, g, p, keep, s);
    case Timeout(n, t) =>
      var v := g.nodes[n].table.steps[s];
      x, body, gone := n, Vote(v.carries, n, v.voted), {};
      r := OnBody(v, n, body);
      SlotOf(k, g, n, s);
      TimeoutTurned(k, g, n, s, v, body);
  }

  // ------------------------------------------------------------------ the starter's timer

  lemma OldArmed(k: Config, g: System, a: Action, s: StepId, n: NodeId)
    requires Enabled(k, g, a) && n in g.nodes && n in Do(k, g, a).nodes && !Do(k, g, a).nodes[n].stopped
    requires s in g.nodes[n].armed && a != Timeout(n, s) && !Done(Do(k, g, a), n, s)
    ensures s in Do(k, g, a).nodes[n].armed
  {
  }

  lemma NewStarted(k: Config, g: System, a: Action, s: StepId, id: MsgId)
    requires Enabled(k, g, a) && id in At(Do(k, g, a).started, s) && id !in At(g.started, s)
    ensures id.node in Do(k, g, a).nodes && s in Do(k, g, a).nodes[id.node].armed
  {
  }

  lemma UnmovedWatch(k: Config, g: System, a: Action, s: StepId)
    requires Inv(k, g) && Enabled(k, g, a) && Aside(k, g, a, s) && Unmoved(k, g, Do(k, g, a), s)
    requires Running(k, g, s) && Running(k, Do(k, g, a), s) && Watched(k, g, s)
    ensures Watched(k, Do(k, g, a), s)
  {
    var g' := Do(k, g, a);
    forall id | id in At(g'.started, s) && AtAll(k, g', id.node, s) ensures s in g'.nodes[id.node].armed {
      if id !in At(g.started, s) {
        NewStarted(k, g, a, s, id);
      } else {
        assert HistoricId(k, g, s, id);
        assert SameSlot(g, g', id.node, s);
        NotDone(k, g, id.node, s);
        OldArmed(k, g, a, s, id.node);
      }
    }
  }

  lemma NotDone(k: Config, g: System, n: NodeId, s: StepId)
    requires NodesOk(k, g)
    ensures HasVoted(g, n, s) ==> !Done(g, n, s)
  {
    if HasVoted(g, n, s) {
      NodeWf(k, g, n);
    }
  }

  lemma TurnedWatch(k: Config, g: System, a: Action, s: StepId, x: NodeId, body: Body, r: (Slot, Option<Body>),
                    gone: set<Packet>)
    requires Inv(k, g) && Enabled(k, g, a) && Turned(k, g, Do(k, g, a), x, s, body, r, gone)
    requires Running(k, g, s) && Running(k, Do(k, g, a), s) && Watched(k, g, s)
    requires a.Timeout? ==> a == Timeout(x, s) && body.Vote? && body.nodes == k.live(s)
    ensures Watched(k, Do(k, g, a), s)
  {
    var g' := Do(k, g, a);
    forall id | id in At(g'.started, s) && AtAll(k, g', id.node, s) ensures s in g'.nodes[id.node].armed {
      if id !in At(g.started, s) {
        NewStarted(k, g, a, s, id);
      } else {
        assert HistoricId(k, g, s, id);
        StarterHas(k, g, id, s);
        TurnedStarter(k, g, g', s, x, body, r, gone, id.node);
        OldArmed(k, g, a, s, id.node);
      }
    }
  }

  /** Handling a message never brings a node back to counting on all nodes. */
  lemma TurnedStarter(k: Config, g: System, g': System, s: StepId, x: NodeId, body: Body, r: (Slot, Option<Body>),
                      gone: set<Packet>, n: NodeId)
    requires NodesOk(k, g) && Turned(k, g, g', x, s, body, r, gone) && AtAll(k, g', n, s)
    requires HasVoted(g, n, s) || Done(g, n, s)
    ensures AtAll(k, g, n, s) && !Done(g', n, s)
    ensures n == x && body.Vote? ==> body.nodes != k.live(s)
  {
    NodeWf(k, g, n);
  }

  lemma StarterHas(k: Config, g: System, id: MsgId, s: StepId)
    requires Inv(k, g) && id in At(g.started, s) && Running(k, g, s)
    ensures HasVoted(g, id.node, s) || Done(g, id.node, s)
  {
    assert HistoricId(k, g, s, id);
    assert Holds(g, id.node, g.nodes[id.node]);
    SlotOf(k, g, id.node, s);
  }

  // ------------------------------------------------------------------ runs

  lemma StaysStopped(k: Config, g: System, a: Action, n: NodeId)
    requires Enabled(k, g, a) && n in g.nodes && g.nodes[n].stopped
    ensures n in Do(k, g, a).nodes && Do(k, g, a).nodes[n].stopped
  {
  }

  lemma {:induction false} RunsOn(k: Config, g: System, acts: seq<Action>, n: NodeId)
    requires Legal(k, g, acts) && n in g.nodes && n in After(k, g, acts).nodes && !After(k, g, acts).nodes[n].stopped
    ensures !g.nodes[n].stopped
    decreases |acts|
  {
    if acts != [] {
      Forward(k, g, acts[0]);
      RunsOn(k, Do(k, g, acts[0]), acts[1..], n);
      if g.nodes[n].stopped {
        StaysStopped(k, g, acts[0], n);
      }
    }
  }

  lemma RanAlways(k: Config, g: System, acts: seq<Action>, s: StepId)
    requires Sound(k) && Inv(k, g) && Legal(k, g, acts) && Running(k, After(k, g, acts), s)
    ensures Running(k, g, s)
  {
    forall n | n in k.live(s) ensures n in g.nodes && !g.nodes[n].stopped {
      RunsOn(k, g, acts, n);
    }
  }

  lemma {:induction false} RunNarrows(k: Config, g: System, acts: seq<Action>, st: Stamps, clock: nat, s: StepId)
    returns (st': Stamps, clock': nat)
    requires Regular(k, s) && Inv(k, g) && Legal(k, g, acts) && forall a :: a in acts ==> Spares(k, a, s)
    requires Running(k, After(k, g, acts), s) && Narrowing(k, g, st, clock, s) && Watched(k, g, s)
    ensures Narrowing(k, After(k, g, acts), st', clock', s) && Watched(k, After(k, g, acts), s)
    decreases |acts|
  {
    if acts == [] {
      st', clock' := st, clock;
    } else {
      var g' := Do(k, g, acts[0]);
      StepKeeps(k, g, acts[0]);
      RanAlways(k, g, acts, s);
      RanAlways(k, g', acts[1..], s);
      st' := StepNarrows(k, g, acts[0], st, clock, s);
      st', clock' := RunNarrows(k, g', acts[1..], st', clock + 1, s);
    }
  }

  // ------------------------------------------------------------------ at rest

  /** No message about step s is on its way to a live node, and no live node has a timer that can fire. */
  ghost predicate AtRest(k: Config, g: System, s: StepId) {
    && (forall p :: p in g.net && p.step == s ==> p.dst !in k.live(s))
    && (forall n :: n in k.live(s) ==> !Enabled(k, g, Timeout(n, s)))
  }

  lemma Resting(k: Config, g: System, st: Stamps, m: NodeId, n: NodeId, s: StepId)
    requires AtRest(k, g, s) && AllTold(k, g, st, s) && m in k.live(s) && n in k.live(s) && m != n
    ensures Done(g, m, s) ==> Done(g, n, s)
    ensures AtAll(k, g, m, s) ==> AtLive(k, g, n, s) || Done(g, n, s) || Counted(g, m, n, s)
    ensures AtLive(k, g, m, s) ==> Done(g, n, s) || (AtLive(k, g, n, s) && (Counted(g, m, n, s) || st[n] > st[m]))
    ensures m in st && n in st
  {
    assert Told(k, g, st, m, n, s);
  }

  /** At rest the starter of a step does not count on all nodes any more: otherwise everybody live would,
      and its timer could fire. */
  lemma StarterMoved(k: Config, g: System, st: Stamps, id: MsgId, s: StepId)
    requires Regular(k, s) && Inv(k, g) && Running(k, g, s) && AtRest(k, g, s)
    requires AllTold(k, g, st, s) && Watched(k, g, s) && id in At(g.started, s)
    ensures id.node in k.live(s) && !AtAll(k, g, id.node, s)
  {
    var x := id.node;
    assert HistoricId(k, g, s, id);
    if AtAll(k, g, x, s) {
      var v := g.nodes[x].table.steps[s];
      NodeWf(k, g, x);
      SlotOf(k, g, x, s);
      forall m | m in k.live(s) ensures m in v.voted {
        if m != x {
          Resting(k, g, st, x, m, s);
          Resting(k, g, st, m, x, s);
        }
      }
      assert Enabled(k, g, Timeout(x, s));
    }
  }

  ghost function Earliest(st: Stamps, s: set<NodeId>): (n: NodeId)
    requires s != {} && s <= st.Keys
    ensures n in s && forall m :: m in s ==> st[n] <= st[m]
  {
    var x :| x in s;
    if s == {x} then x
    else
      var y := Earliest(st, s - {x});
      if st[y] <= st[x] then y else x
  }

  /** Not all live nodes wait for each other: the one that voted first has heard the others. */
  lemma FirstHasHeardAll(k: Config, g: System, st: Stamps, s: StepId)
    requires WfConfig(k) && Inv(k, g) && AtRest(k, g, s) && AllTold(k, g, st, s) && k.live(s) <= st.Keys
    ensures exists n :: n in k.live(s) && !AtLive(k, g, n, s)
  {
    var n := Earliest(st, k.live(s));
    if AtLive(k, g, n, s) && forall m :: m in k.live(s) ==> AtLive(k, g, m, s) {
      var v := g.nodes[n].table.steps[s];
      SlotOf(k, g, n, s);
      forall m | m in k.live(s) ensures m in v.voted {
        if m != n {
          Resting(k, g, st, m, n, s);
        }
      }
      assert false;
    }
  }

  lemma RestIsDone(k: Config, g: System, st: Stamps, id: MsgId, n: NodeId, s: StepId)
    requires Regular(k, s) && Inv(k, g) && Running(k, g, s) && AtRest(k, g, s) && k.live(s) <= st.Keys
    requires AllTold(k, g, st, s) && Watched(k, g, s) && id in At(g.started, s) && n in k.live(s)
    ensures Done(g, n, s)
  {
    var x := id.node;
    StarterMoved(k, g, st, id, s);
    StarterHas(k, g, id, s);
    FirstHasHeardAll(k, g, st, s);
    var y :| y in k.live(s) && !AtLive(k, g, y, s);
    if !Done(g, x, s) {
      assert x != y;
      Resting(k, g, st, x, y, s);
      Resting(k, g, st, y, x, s);
    }
    if n != x {
      Resting(k, g, st, x, n, s);
    }
  }

  /** A step that a live node has started is finished at every live node when nothing more can happen,
      although nodes that are cut off are never heard of: the live ones vote once more without them. */
  lemma {:induction false} ExclusionCompleteness(k: Config, acts: seq<Action>, s: StepId, id: MsgId, n: NodeId)
    requires Run(k, acts) && Regular(k, s) && forall a :: a in acts ==> Spares(k, a, s)
    requires Running(k, Final(k, acts), s) && AtRest(k, Final(k, acts), s)
    requires id in At(Final(k, acts).started, s) && n in k.live(s)
    ensures Done(Final(k, acts), n, s)
  {
    var g0 := Start(k);
    InitInv(k);
    var st0: Stamps := map m | m in k.live(s) :: 0;
    var st, clock := RunNarrows(k, g0, acts, st0, 1, s);
    Reached(k, acts);
    RestIsDone(k, Final(k, acts), st, id, n, s);
  }

  /** Node n is live in step t, some live node has started it, and nothing more can happen there. */
  ghost predicate Settled(k: Config, acts: seq<Action>, t: StepId, n: NodeId)
    requires Run(k, acts)
  {
    var g := Final(k, acts);
    && Regular(k, t) && n in k.live(t) && (forall a :: a in acts ==> Spares(k, a, t))
    && Running(k, g, t) && AtRest(k, g, t) && At(g.started, t) != map[]
  }

  lemma {:induction false} SettledDone(k: Config, acts: seq<Action>, t: StepId, n: NodeId)
    requires Run(k, acts) && Settled(k, acts, t, n)
    ensures Done(Final(k, acts), n, t) && !Final(k, acts).nodes[n].stopped
  {
    var batch := At(Final(k, acts).started, t);
    assert batch.Keys != {} by {
      assert batch != map[];
    }
    var id :| id in batch;
    ExclusionCompleteness(k, acts, t, id, n);
  }

  lemma HeadRuns(k: Config, g: System, n: NodeId)
    requires n in g.nodes && !g.nodes[n].stopped && Done(g, n, g.nodes[n].table.cur)
    ensures Enabled(k, g, Exec(n))
  {
  }

  lemma LogHolds(k: Config, g: System, n: NodeId, s: StepId)
    requires NodesOk(k, g) && LiveSoFar(k, g, n) && s < g.nodes[n].table.cur
    ensures LogUpTo(g.started, s + 1) <= g.nodes[n].log
  {
    LogOf(k, g, n);
    LogPrefix(g.started, s + 1, g.nodes[n].table.cur);
  }

  lemma {:induction false} HeadPast(k: Config, acts: seq<Action>, s: StepId, n: NodeId)
    requires Run(k, acts) && forall t: StepId :: t <= s ==> Settled(k, acts, t, n)
    requires n in Final(k, acts).nodes && !Enabled(k, Final(k, acts), Exec(n))
    ensures s < Final(k, acts).nodes[n].table.cur
  {
    var c := Final(k, acts).nodes[n].table.cur;
    if c <= s {
      SettledDone(k, acts, c, n);
      HeadRuns(k, Final(k, acts), n);
    }
  }

  /** A node has executed every step up to s when all of them have settled with it and its head waits. */
  lemma {:induction false} ExclusionExecutes(k: Config, acts: seq<Action>, s: StepId, n: NodeId)
    requires Run(k, acts) && forall t: StepId :: t <= s ==> Settled(k, acts, t, n)
    requires n in Final(k, acts).nodes && !Enabled(k, Final(k, acts), Exec(n))
    ensures var g := Final(k, acts);
            s < g.nodes[n].table.cur && (LiveSoFar(k, g, n) ==> LogUpTo(g.started, s + 1) <= g.nodes[n].log)
  {
    Reached(k, acts);
    HeadPast(k, acts, s, n);
    if LiveSoFar(k, Final(k, acts), n) {
      LogHolds(k, Final(k, acts), n, s);
    }
  }

  /** The timers never stop node n: where it is live they wait for the live nodes, who may go on. */
  ghost predicate Cared(k: Config, n: NodeId) {
    forall s: StepId :: n in k.live(s) && k.live(s) <= k.waits(s) && Consistent(k.live(s), k.nodes)
  }

  lemma FiresWell(k: Config, g: System, n: NodeId, s: StepId)
    requires Cared(k, n) && Inv(k, g) && Enabled(k, g, Timeout(n, s))
    ensures !Do(k, g, Timeout(n, s)).nodes[n].stopped
  {
    assert n in k.live(s);
    SlotOf(k, g, n, s);
    FiredBy(k, g, n, s, g.nodes[n].table.steps[s]);
  }

  lemma StoppedBy(k: Config, g: System, a: Action, n: NodeId)
    requires Enabled(k, g, a) && n in g.nodes && !g.nodes[n].stopped && !(a.Timeout? && a.n == n)
    ensures n in Do(k, g, a).nodes && !Do(k, g, a).nodes[n].stopped
  {
  }

  lemma {:induction false} NeverStops(k: Config, g: System, acts: seq<Action>, n: NodeId)
    requires Sound(k) && Inv(k, g) && Cared(k, n) && Legal(k, g, acts) && n in g.nodes && !g.nodes[n].stopped
    ensures n in After(k, g, acts).nodes && !After(k, g, acts).nodes[n].stopped
    decreases |acts|
  {
    if acts != [] {
      var a := acts[0];
      StillRuns(k, g, a, n);
      StepKeeps(k, g, a);
      NeverStops(k, Do(k, g, a), acts[1..], n);
    }
  }

  lemma StillRuns(k: Config, g: System, a: Action, n: NodeId)
    requires Cared(k, n) && Inv(k, g) && Enabled(k, g, a) && n in g.nodes && !g.nodes[n].stopped
    ensures n in Do(k, g, a).nodes && !Do(k, g, a).nodes[n].stopped
  {
    if a.Timeout? && a.n == n {
      FiresWell(k, g, n, a.s);
    } else {
      StoppedBy(k, g, a, n);
    }
  }

  /** Where the timers of all steps wait for the live nodes, who may go on, those nodes are never stopped. */
  lemma {:induction false} CaredRunning(k: Config, acts: seq<Action>, s: StepId)
    requires Run(k, acts) && forall n :: n in k.live(s) ==> Cared(k, n)
    ensures Running(k, Final(k, acts), s)
  {
    InitInv(k);
    forall n | n in k.live(s) ensures n in Final(k, acts).nodes && !Final(k, acts).nodes[n].stopped {
      assert k.live(s) <= k.nodes;
      NeverStops(k, Start(k), acts, n);
    }
  }
}
