/** The whole system: any number of nodes running Voting inside Phantom over a network that
    reorders, duplicates and loses messages.

    A configuration fixes the membership and, step by step, the nodes that are live in the step and the
    nodes a timer waits for.  A node that is not live in a step starts, hears, times out and commits
    there as it likes, but whatever it sends about the step is lost.  The timer of a step fires at most
    once, and at a live node only when all nodes it waits for have been heard. */
module ReplicatedLog {
  import opened Types
  import opened BatchLog
  import opened VotingSpec
  import opened PhantomTable

  datatype Config = Config(nodes: set<NodeId>, live: StepId -> set<NodeId>, waits: StepId -> set<NodeId>)

  ghost predicate WfConfig(k: Config) {
    forall s: StepId :: k.live(s) != {} && k.live(s) <= k.nodes
  }

  /** A timer may fire at nodes that have heard v only and go on without the rest, a live node among it. */
  ghost predicate SplitsOff(k: Config, s: StepId, v: set<NodeId>) {
    k.waits(s) <= v && v < k.nodes && Consistent(v, k.nodes) && !(k.live(s) <= v)
  }

  /** No timer leaves a live node behind. */
  ghost predicate Sound(k: Config) {
    WfConfig(k) && forall s: StepId, v :: !SplitsOff(k, s, v)
  }

  /** Timers that wait for every live node are sound. */
  lemma AccurateIsSound(k: Config)
    requires WfConfig(k) && forall s: StepId :: k.live(s) <= k.waits(s)
    ensures Sound(k)
  {
    forall s: StepId, v ensures !SplitsOff(k, s, v) {
      assert k.live(s) <= k.waits(s);
    }
  }

  /** `armed` are the steps whose one-shot timer is set. */
  datatype Node = Node(table: Table<Slot>, ids: nat, log: seq<Entry>, stopped: bool, armed: set<StepId>)

  datatype Packet = Packet(dst: NodeId, step: StepId, body: Body)

  /** `started` and `applied` are history: what was started at each step by a node live in it, and the
      step of every such message. */
  datatype System = System(nodes: map<NodeId, Node>, net: set<Packet>, started: History, applied: map<MsgId, StepId>)

  datatype Action =
    | Apply(n: NodeId, msg: Msg)          // Replob2::apply, from outside or from a running handler
    | Deliver(p: Packet, keep: bool)      // keep: the network will deliver the packet again
    | Drop(p: Packet)
    | Timeout(n: NodeId, s: StepId)
    | Exec(n: NodeId)                     // one turn of the loop of Phantom::complete

  const NEW_NODE := Node(Table(0, 0, map[]), 0, [], false, {})

  function Start(k: Config): System {
    System(map n | n in k.nodes :: NEW_NODE, {}, map[], map[])
  }

  /** Messages go to all other nodes of the configuration, unless the sender is cut off. */
  function Broadcast(k: Config, self: NodeId, s: StepId, sent: Option<Body>): set<Packet> {
    if sent.None? || self !in k.live(s) then {}
    else set n | n in k.nodes && n != self :: Packet(n, s, sent.value)
  }

  /** Node n stores the new state of step s and broadcasts. */
  function Store(k: Config, g: System, n: NodeId, s: StepId, r: (Slot, Option<Body>)): System
    requires n in g.nodes && g.nodes[n].table.cur <= s
  {
    g.(nodes := g.nodes[n := g.nodes[n].(table := Write(g.nodes[n].table, s, r.0))],
       net := g.net + Broadcast(k, n, s, r.1))
  }

  /** `create`, `genUniqueId` and the timer of `start`: take the next step and the next id. */
  function Announce(k: Config, g: System, n: NodeId, msg: Msg): System
    requires n in g.nodes
  {
    var nd := g.nodes[n];
    var s, id := nd.table.next, MsgId(n, nd.ids);
    var g1 := g.(nodes := g.nodes[n := nd.(table := nd.table.(next := s + 1), ids := nd.ids + 1,
                                           armed := nd.armed + {s})]);
    if n in k.live(s) then g1.(started := g.started[s := At(g.started, s)[id := msg]], applied := g.applied[id := s])
    else g1
  }

  /** The timer of step s has fired at node n. */
  function Disarm(g: System, n: NodeId, s: StepId): System
    requires n in g.nodes
  {
    g.(nodes := g.nodes[n := g.nodes[n].(armed := g.nodes[n].armed - {s})])
  }

  /** `fail`: the node drops all its steps and handles nothing any more. */
  function Halt(g: System, n: NodeId): System
    requires n in g.nodes
  {
    g.(nodes := g.nodes[n := g.nodes[n].(stopped := true, table := g.nodes[n].table.(steps := map[]), armed := {})])
  }

  /** `onComplete` of the head step. */
  ghost function Execute(g: System, n: NodeId): System
    requires n in g.nodes && g.nodes[n].table.cur in g.nodes[n].table.steps
  {
    var nd := g.nodes[n];
    g.(nodes := g.nodes[n := nd.(table := Advance(nd.table), armed := nd.armed - {nd.table.cur},
                                 log := nd.log + Ordered(nd.table.steps[nd.table.cur].carries))])
  }

  ghost predicate Enabled(k: Config, g: System, a: Action) {
    match a
    case Apply(n, msg) => n in g.nodes && !g.nodes[n].stopped && g.nodes[n].table.cur <= g.nodes[n].table.next
    case Deliver(p, keep) => p in g.net && p.dst in g.nodes
    case Drop(p) => p in g.net
    case Timeout(n, s) => n in g.nodes && !g.nodes[n].stopped && s in g.nodes[n].armed
                          && s in g.nodes[n].table.steps && g.nodes[n].table.cur <= s
                          && (n in k.live(s) ==> k.waits(s) <= g.nodes[n].table.steps[s].voted)
    case Exec(n) => n in g.nodes && !g.nodes[n].stopped
                    && g.nodes[n].table.cur in g.nodes[n].table.steps
                    && g.nodes[n].table.steps[g.nodes[n].table.cur].state == Completed
  }

  /** A message for a step that is past, or to a stopped node, is dropped. */
  ghost function Receive(k: Config, g: System, n: NodeId, s: StepId, body: Body): System
    requires n in g.nodes
  {
    var nd := g.nodes[n];
    if nd.stopped || s < nd.table.cur then g
    else Store(k, g, n, s, OnBody(Get(nd.table, s, FRESH), n, body))
  }

  ghost function Do(k: Config, g: System, a: Action): System
    requires Enabled(k, g, a)
  {
    match a
    case Apply(n, msg) =>
      var g1 := Announce(k, g, n, msg);
      var s, id := g.nodes[n].table.next, MsgId(n, g.nodes[n].ids);
      Store(k, g1, n, s, OnVote(Get(g.nodes[n].table, s, FRESH), n, map[id := msg], n, k.nodes))
    case Deliver(p, keep) =>
      var g1 := Receive(k, g, p.dst, p.step, p.body);
      if keep then g1 else g1.(net := g1.net - {p})
    case Drop(p) => g.(net := g.net - {p})
    case Timeout(n, s) =>
      (match OnTimeout(g.nodes[n].table.steps[s], n)
       case Proceed(v, sent) => Store(k, Disarm(g, n, s), n, s, (v, sent))
       case Fail => Halt(g, n))
    case Exec(n) => Execute(g, n)
  }

  ghost predicate Legal(k: Config, g: System, acts: seq<Action>)
    decreases |acts|
  {
    acts == [] || (Enabled(k, g, acts[0]) && Legal(k, Do(k, g, acts[0]), acts[1..]))
  }

  ghost function After(k: Config, g: System, acts: seq<Action>): System
    requires Legal(k, g, acts)
    decreases |acts|
  {
    if acts == [] then g else After(k, Do(k, g, acts[0]), acts[1..])
  }

  // ------------------------------------------------------------------ the invariant

  /** Node m can no longer start anything at step s. */
  ghost predicate Passed(g: System, m: NodeId, s: StepId) {
    m in g.nodes && s < g.nodes[m].table.next
  }

  /** The batch of step s is final. */
  ghost predicate Closed(k: Config, g: System, s: StepId) {
    forall m :: m in k.live(s) ==> Passed(g, m, s)
  }

  /** c carries everything node m started at step s, and m will start no more there. */
  ghost predicate Heard(g: System, m: NodeId, s: StepId, c: Carry) {
    Passed(g, m, s) && forall id :: id in At(g.started, s) && id.node == m ==> id in c
  }

  ghost predicate Membership(k: Config, s: StepId, nodes: set<NodeId>) {
    nodes == k.nodes || nodes == k.live(s)
  }

  ghost predicate SlotOk(k: Config, g: System, n: NodeId, s: StepId, v: Slot) {
    match v.state
    case Initial => false
    case Completed =>
      && v.carries == At(g.started, s) && Closed(k, g, s)
      && v.voted <= k.live(s) && (v.voted != {} ==> Membership(k, s, v.nodes))
    case Voted =>
      && Membership(k, s, v.nodes) && v.voted != v.nodes
      && n in v.voted && v.voted <= k.live(s)
      && Submap(v.carries, At(g.started, s))
      && forall m :: m in v.voted ==> Heard(g, m, s, v.carries)
  }

  ghost predicate BodyOk(k: Config, g: System, s: StepId, body: Body) {
    match body
    case Vote(c, src, nodes) =>
      src in k.live(s) && Membership(k, s, nodes) && Submap(c, At(g.started, s)) && Heard(g, src, s, c)
    case Commit(c) => c == At(g.started, s) && Closed(k, g, s)
  }

  /** Node n has been live in the first `cur` steps. */
  ghost predicate LiveUpTo(k: Config, n: NodeId, cur: StepId) {
    forall s: StepId :: s < cur ==> n in k.live(s)
  }

  ghost predicate StepsOk(k: Config, g: System, n: NodeId, steps: map<StepId, Slot>) {
    forall s :: s in steps && n in k.live(s) ==> SlotOk(k, g, n, s, steps[s])
  }

  /** Every step below has been started, unless somebody was cut off from it. */
  ghost predicate NoGaps(k: Config, g: System, next: StepId) {
    forall s: StepId :: s < next && k.live(s) == k.nodes ==> At(g.started, s) != map[]
  }

  ghost predicate NodeOk(k: Config, g: System, n: NodeId, nd: Node) {
    && Wf(nd.table)
    && (LiveUpTo(k, n, nd.table.cur) ==> nd.log == LogUpTo(g.started, nd.table.cur))
    && (forall s: StepId :: s < nd.table.cur && n in k.live(s) ==> Closed(k, g, s))
    && StepsOk(k, g, n, nd.table.steps)
    && NoGaps(k, g, nd.table.next)
  }

  /** Ids are used once, by their own node, at a live step it has passed. */
  ghost predicate HistoryOk(k: Config, g: System) {
    && (forall s: StepId, id :: id in At(g.started, s) ==> HistoricId(k, g, s, id))
    && (forall id :: id in g.applied ==> id in At(g.started, g.applied[id]))
  }

  ghost predicate HistoricId(k: Config, g: System, s: StepId, id: MsgId) {
    && id.node in k.live(s) && Passed(g, id.node, s) && id.count < g.nodes[id.node].ids
    && id in g.applied && g.applied[id] == s
  }

  ghost predicate NodesOk(k: Config, g: System) {
    g.nodes.Keys == k.nodes && forall n :: n in g.nodes ==> NodeOk(k, g, n, g.nodes[n])
  }

  ghost predicate NetOk(k: Config, g: System) {
    forall p :: p in g.net ==> p.dst in k.nodes && BodyOk(k, g, p.step, p.body)
  }

  /** A running node keeps every step it started until it has executed it. */
  ghost predicate Holds(g: System, n: NodeId, nd: Node) {
    forall s: StepId, id :: id in At(g.started, s) && id.node == n ==>
      nd.stopped || s < nd.table.cur || s in nd.table.steps
  }

  ghost predicate AllHold(g: System) {
    forall n :: n in g.nodes ==> Holds(g, n, g.nodes[n])
  }

  ghost predicate Inv(k: Config, g: System) {
    HistoryOk(k, g) && NodesOk(k, g) && NetOk(k, g) && AllHold(g)
  }

  lemma InitInv(k: Config)
    requires WfConfig(k)
    ensures Inv(k, Start(k))
  {
  }

  /** Nodes only move forward and the history of the steps in question stays. */
  ghost predicate Later(g: System, g': System) {
    g.nodes.Keys == g'.nodes.Keys && forall n :: n in g.nodes ==> g.nodes[n].table.next <= g'.nodes[n].table.next
  }

  lemma SlotKept(k: Config, g: System, g': System, n: NodeId, s: StepId, v: Slot)
    requires Later(g, g') && At(g.started, s) == At(g'.started, s) && SlotOk(k, g, n, s, v)
    ensures SlotOk(k, g', n, s, v)
  {
  }

  lemma BodyKept(k: Config, g: System, g': System, s: StepId, b: Body)
    requires Later(g, g') && At(g.started, s) == At(g'.started, s) && BodyOk(k, g, s, b)
    ensures BodyOk(k, g', s, b)
  {
  }

  lemma NodeKept(k: Config, g: System, g': System, n: NodeId, nd: Node)
    requires Later(g, g') && g.started == g'.started && NodeOk(k, g, n, nd)
    ensures NodeOk(k, g', n, nd)
  {
    StepsKept(k, g, g', n, nd.table.steps);
    forall s: StepId | s < nd.table.cur && n in k.live(s) ensures Closed(k, g', s) {
      assert Closed(k, g, s);
    }
  }

  lemma StepsKept(k: Config, g: System, g': System, n: NodeId, steps: map<StepId, Slot>)
    requires Later(g, g') && g.started == g'.started && StepsOk(k, g, n, steps)
    ensures StepsOk(k, g', n, steps)
  {
    forall s | s in steps && n in k.live(s) ensures SlotOk(k, g', n, s, steps[s]) {
      SlotKept(k, g, g', n, s, steps[s]);
    }
  }

  /** A vote that carries a node's own messages leaves a good slot and sends a good message. */
  lemma VoteOk(k: Config, g: System, n: NodeId, s: StepId, v: Slot, c: Carry, src: NodeId, nodes: set<NodeId>)
    requires WfConfig(k) && HistoryOk(k, g) && n in k.live(s) && Passed(g, n, s)
    requires v == FRESH || SlotOk(k, g, n, s, v)
    requires BodyOk(k, g, s, Vote(c, src, nodes))
    requires v == FRESH ==> forall id :: id in At(g.started, s) && id.node == n ==> id in c
    ensures SlotOk(k, g, n, s, OnVote(v, n, c, src, nodes).0)
    ensures OnVote(v, n, c, src, nodes).1.Some? ==> BodyOk(k, g, s, OnVote(v, n, c, src, nodes).1.value)
  {
    if v.state != Completed {
      var w := Admit(v, n, c, src, nodes);
      AdmitOk(k, g, n, s, v, c, src, nodes);
      if w.voted == w.nodes {
        AllHeard(k, g, s, w);
      }
    }
  }

  lemma AdmitOk(k: Config, g: System, n: NodeId, s: StepId, v: Slot, c: Carry, src: NodeId, nodes: set<NodeId>)
    requires WfConfig(k) && n in k.live(s) && Passed(g, n, s)
    requires v == FRESH || (SlotOk(k, g, n, s, v) && v.state == Voted)
    requires BodyOk(k, g, s, Vote(c, src, nodes))
    requires v == FRESH ==> forall id :: id in At(g.started, s) && id.node == n ==> id in c
    ensures var w := Admit(v, n, c, src, nodes);
            && Membership(k, s, w.nodes) && n in w.voted && w.voted <= k.live(s)
            && Submap(w.carries, At(g.started, s))
            && (forall m :: m in w.voted ==> Heard(g, m, s, w.carries))
            && w.state != Completed
  {
    var w := Admit(v, n, c, src, nodes);
    assert k.nodes * k.live(s) == k.live(s) && k.live(s) * k.nodes == k.live(s);
    assert w.voted <= v.voted + {src, n};
    assert Heard(g, n, s, w.carries) by {
      if v != FRESH {
        assert Heard(g, n, s, v.carries);
      }
    }
    forall m | m in w.voted ensures Heard(g, m, s, w.carries) {
      if m != src && m != n {
        assert Heard(g, m, s, v.carries);
      }
    }
  }

  /** Having heard every live node is having everything. */
  lemma AllHeard(k: Config, g: System, s: StepId, w: Slot)
    requires WfConfig(k) && HistoryOk(k, g)
    requires Membership(k, s, w.nodes) && w.voted == w.nodes && w.voted <= k.live(s)
    requires Submap(w.carries, At(g.started, s))
    requires forall m :: m in w.voted ==> Heard(g, m, s, w.carries)
    ensures w.carries == At(g.started, s) && Closed(k, g, s)
  {
    assert w.voted == k.live(s);
    forall id | id in At(g.started, s) ensures id in w.carries {
      assert Heard(g, id.node, s, w.carries);
    }
    assert w.carries.Keys == At(g.started, s).Keys;
  }

  // ------------------------------------------------------------------ every action keeps it

  lemma HistoryKept(k: Config, g: System, g': System)
    requires HistoryOk(k, g) && Later(g, g') && g.started == g'.started && g.applied == g'.applied
    requires forall n :: n in g.nodes ==> g.nodes[n].ids <= g'.nodes[n].ids
    ensures HistoryOk(k, g')
  {
  }

  lemma NodesKept(k: Config, g: System, g': System, n: NodeId)
    requires NodesOk(k, g) && n in g.nodes && Later(g, g') && g.started == g'.started
    requires g'.nodes == g.nodes[n := g'.nodes[n]] && NodeOk(k, g', n, g'.nodes[n])
    ensures NodesOk(k, g')
  {
    forall m | m in g'.nodes ensures NodeOk(k, g', m, g'.nodes[m]) {
      if m != n {
        NodeKept(k, g, g', m, g.nodes[m]);
      }
    }
  }

  lemma NetKept(k: Config, g: System, g': System, s: StepId, sent: Option<Body>, n: NodeId)
    requires NetOk(k, g) && Later(g, g') && g.started == g'.started
    requires g'.net <= g.net + Broadcast(k, n, s, sent)
    requires sent.Some? && n in k.live(s) ==> BodyOk(k, g, s, sent.value)
    ensures NetOk(k, g')
  {
    forall p | p in g'.net ensures p.dst in k.nodes && BodyOk(k, g', p.step, p.body) {
      BodyKept(k, g, g', p.step, p.body);
    }
  }

  lemma HoldKept(g: System, g': System, n: NodeId)
    requires n in g.nodes && g.started == g'.started && g'.nodes.Keys == g.nodes.Keys
    requires forall m :: m in g.nodes && m != n ==> Holds(g, m, g.nodes[m]) && g'.nodes[m] == g.nodes[m]
    requires Holds(g', n, g'.nodes[n])
    ensures AllHold(g')
  {
    forall m | m in g'.nodes ensures Holds(g', m, g'.nodes[m]) {
      if m != n {
        assert Holds(g, m, g.nodes[m]);
      }
    }
  }

  /** Node n is now nd, nobody else has changed, and the net holds nothing new but n's broadcast. */
  ghost predicate Became(k: Config, g: System, g': System, n: NodeId, nd: Node, s: StepId, sent: Option<Body>) {
    && n in g.nodes && g'.nodes == g.nodes[n := nd]
    && g'.started == g.started && g'.applied == g.applied
    && g'.net <= g.net + Broadcast(k, n, s, sent)
    && g.nodes[n].table.next <= nd.table.next && g.nodes[n].ids <= nd.ids
  }

  lemma BecameKeeps(k: Config, g: System, g': System, n: NodeId, nd: Node, s: StepId, sent: Option<Body>)
    requires HistoryOk(k, g) && NodesOk(k, g) && NetOk(k, g) && Became(k, g, g', n, nd, s, sent)
    requires forall m :: m in g.nodes && m != n ==> Holds(g, m, g.nodes[m])
    requires sent.Some? && n in k.live(s) ==> BodyOk(k, g, s, sent.value)
    requires NodeOk(k, g, n, nd) && Holds(g, n, nd)
    ensures Inv(k, g')
  {
    HistoryKept(k, g, g');
    NetKept(k, g, g', s, sent, n);
    HoldKept(g, g', n);
    NodeKept(k, g, g', n, nd);
    NodesKept(k, g, g', n);
  }

  /** Storing a good slot and broadcasting a good message; a node that is cut off may store anything. */
  lemma StoreKeeps(k: Config, g: System, n: NodeId, s: StepId, r: (Slot, Option<Body>))
    requires HistoryOk(k, g) && NodesOk(k, g) && NetOk(k, g)
    requires n in g.nodes && g.nodes[n].table.cur <= s && Passed(g, n, s)
    requires n in k.live(s) ==> SlotOk(k, g, n, s, r.0) && (r.1.Some? ==> BodyOk(k, g, s, r.1.value))
    requires forall m :: m in g.nodes && m != n ==> Holds(g, m, g.nodes[m])
    requires Holds(g, n, g.nodes[n].(table := Write(g.nodes[n].table, s, r.0)))
    ensures Inv(k, Store(k, g, n, s, r))
  {
    var nd := g.nodes[n].(table := Write(g.nodes[n].table, s, r.0));
    assert NodeOk(k, g, n, nd) by {
      assert NodeOk(k, g, n, g.nodes[n]);
    }
    BecameKeeps(k, g, Store(k, g, n, s, r), n, nd, s, r.1);
  }

  /** A message about a later step moves `next` behind that step. */
  ghost function Bump(g: System, n: NodeId, s: StepId): System
    requires n in g.nodes
  {
    var t := g.nodes[n].table;
    g.(nodes := g.nodes[n := g.nodes[n].(table := t.(next := if t.next <= s then s + 1 else t.next))])
  }

  lemma BumpKeeps(k: Config, g: System, n: NodeId, s: StepId, m: NodeId)
    requires Inv(k, g) && n in g.nodes && Passed(g, m, s)
    ensures Inv(k, Bump(g, n, s))
  {
    var nd := Bump(g, n, s).nodes[n];
    assert NodeOk(k, g, n, nd) by {
      assert NodeOk(k, g, n, g.nodes[n]) && NodeOk(k, g, m, g.nodes[m]);
    }
    assert Holds(g, n, nd) by {
      assert Holds(g, n, g.nodes[n]);
    }
    BecameKeeps(k, g, Bump(g, n, s), n, nd, s, None);
  }

  /** Somebody has passed the step a good message is about. */
  lemma Sender(k: Config, g: System, s: StepId, body: Body) returns (m: NodeId)
    requires WfConfig(k) && BodyOk(k, g, s, body)
    ensures Passed(g, m, s)
  {
    if body.Vote? {
      m := body.src;
    } else {
      assert k.live(s) != {};
      m :| m in k.live(s);
    }
  }

  lemma BumpReceive(k: Config, g: System, n: NodeId, s: StepId, body: Body)
    requires n in g.nodes && !g.nodes[n].stopped && g.nodes[n].table.cur <= s
    ensures Receive(k, Bump(g, n, s), n, s, body) == Receive(k, g, n, s, body)
  {
    var g1, r := Bump(g, n, s), OnBody(Get(g.nodes[n].table, s, FRESH), n, body);
    assert Store(k, g1, n, s, r).nodes == Store(k, g, n, s, r).nodes;
  }

  lemma ReceiveKeeps(k: Config, g: System, n: NodeId, s: StepId, body: Body)
    requires WfConfig(k) && Inv(k, g) && n in g.nodes && BodyOk(k, g, s, body)
    ensures Inv(k, Receive(k, g, n, s, body))
  {
    if !g.nodes[n].stopped && g.nodes[n].table.cur <= s {
      BumpReceive(k, g, n, s, body);
      var m := Sender(k, g, s, body);
      BumpKeeps(k, g, n, s, m);
      BumpBody(k, g, n, s, body);
      PassedReceive(k, Bump(g, n, s), n, s, body);
    }
  }

  lemma BumpBody(k: Config, g: System, n: NodeId, s: StepId, body: Body)
    requires n in g.nodes && BodyOk(k, g, s, body)
    ensures BodyOk(k, Bump(g, n, s), s, body) && Passed(Bump(g, n, s), n, s)
  {
    BodyKept(k, g, Bump(g, n, s), s, body);
  }

  lemma PassedReceive(k: Config, g: System, n: NodeId, s: StepId, body: Body)
    requires WfConfig(k) && Inv(k, g) && n in g.nodes && BodyOk(k, g, s, body) && Passed(g, n, s)
    ensures Inv(k, Receive(k, g, n, s, body))
  {
    var nd := g.nodes[n];
    if !nd.stopped && nd.table.cur <= s {
      var r := OnBody(Get(nd.table, s, FRESH), n, body);
      assert Holds(g, n, nd) && NodeOk(k, g, n, nd);
      if n in k.live(s) {
        HandledOk(k, g, n, s, body);
      }
      assert Holds(g, n, nd.(table := Write(nd.table, s, r.0)));
      StoreKeeps(k, g, n, s, r);
    }
  }

  lemma HandledOk(k: Config, g: System, n: NodeId, s: StepId, body: Body)
    requires WfConfig(k) && HistoryOk(k, g) && n in g.nodes && n in k.live(s) && BodyOk(k, g, s, body)
    requires NodeOk(k, g, n, g.nodes[n]) && Holds(g, n, g.nodes[n]) && Passed(g, n, s)
    requires !g.nodes[n].stopped && g.nodes[n].table.cur <= s
    ensures var r := OnBody(Get(g.nodes[n].table, s, FRESH), n, body);
            SlotOk(k, g, n, s, r.0) && (r.1.Some? ==> BodyOk(k, g, s, r.1.value))
  {
    var v := Get(g.nodes[n].table, s, FRESH);
    if body.Vote? {
      VoteOk(k, g, n, s, v, body.carries, body.src, body.nodes);
    }
  }

  lemma NewId(k: Config, g: System, n: NodeId, t: StepId)
    requires HistoryOk(k, g) && n in g.nodes
    ensures MsgId(n, g.nodes[n].ids) !in At(g.started, t)
  {
    assert MsgId(n, g.nodes[n].ids) in At(g.started, t) ==> Passed(g, n, t);
  }

  /** What a step number and an id taken by a live node change. */
  ghost predicate Announced(k: Config, g: System, g': System, n: NodeId, s: StepId, id: MsgId, msg: Msg) {
    && Later(g, g') && n in g.nodes && n in k.live(s) && id.node == n
    && s == g.nodes[n].table.next && id.count == g.nodes[n].ids
    && id !in At(g.started, s) && g'.net == g.net
    && g'.started == g.started[s := At(g.started, s)[id := msg]] && g'.applied == g.applied[id := s]
    && g'.nodes == g.nodes[n := g'.nodes[n]]
    && g'.nodes[n] == g.nodes[n].(table := g.nodes[n].table.(next := s + 1), ids := id.count + 1,
                                  armed := g'.nodes[n].armed)
  }

  lemma AnnouncedHistory(k: Config, g: System, g': System, n: NodeId, s: StepId, id: MsgId, msg: Msg)
    requires HistoryOk(k, g) && Announced(k, g, g', n, s, id, msg)
    ensures HistoryOk(k, g')
  {
    forall t: StepId, i | i in At(g'.started, t) ensures HistoricId(k, g', t, i) {
      if i != id || t != s {
        assert HistoricId(k, g, t, i);
        NewId(k, g, n, t);
      }
    }
    forall i | i in g'.applied ensures i in At(g'.started, g'.applied[i]) {
      assert i == id || i in At(g.started, g.applied[i]);
    }
  }

  lemma AnnouncedNode(k: Config, g: System, g': System, n: NodeId, s: StepId, id: MsgId, msg: Msg, m: NodeId, nd: Node)
    requires NodeOk(k, g, m, nd) && Announced(k, g, g', n, s, id, msg)
    ensures NodeOk(k, g', m, nd)
  {
    assert !Closed(k, g, s);
    if LiveUpTo(k, m, nd.table.cur) {
      assert nd.table.cur <= s;
      LogFrame(g.started, g'.started, nd.table.cur);
    }
    AnnouncedSteps(k, g, g', n, s, id, msg, m, nd.table.steps);
    forall t: StepId | t < nd.table.cur && m in k.live(t) ensures Closed(k, g', t) {
      assert Closed(k, g, t);
    }
    AnnouncedGaps(k, g, g', n, s, id, msg, nd.table.next);
  }

  lemma AnnouncedGaps(k: Config, g: System, g': System, n: NodeId, s: StepId, id: MsgId, msg: Msg, next: StepId)
    requires NoGaps(k, g, next) && Announced(k, g, g', n, s, id, msg)
    ensures NoGaps(k, g', next)
    ensures next == s ==> NoGaps(k, g', next + 1)
  {
    assert id in At(g'.started, s);
  }

  lemma AnnouncedSteps(k: Config, g: System, g': System, n: NodeId, s: StepId, id: MsgId, msg: Msg,
                       m: NodeId, steps: map<StepId, Slot>)
    requires StepsOk(k, g, m, steps) && Announced(k, g, g', n, s, id, msg)
    ensures StepsOk(k, g', m, steps)
  {
    forall t | t in steps && m in k.live(t) ensures SlotOk(k, g', m, t, steps[t]) {
      if t != s {
        SlotKept(k, g, g', m, t, steps[t]);
      } else {
        SlotAnnounced(k, g, g', m, s, steps[t], id, msg);
      }
    }
  }

  lemma SlotAnnounced(k: Config, g: System, g': System, m: NodeId, s: StepId, v: Slot, id: MsgId, msg: Msg)
    requires SlotOk(k, g, m, s, v) && Later(g, g') && id !in At(g.started, s)
    requires At(g'.started, s) == At(g.started, s)[id := msg]
    requires !Passed(g, id.node, s) && id.node in k.live(s)
    ensures SlotOk(k, g', m, s, v)
  {
    assert !Closed(k, g, s);
    forall x | x in v.voted && v.state == Voted ensures Heard(g', x, s, v.carries) {
      assert Heard(g, x, s, v.carries);
    }
  }

  lemma BodyAnnounced(k: Config, g: System, g': System, s: StepId, b: Body, id: MsgId, msg: Msg)
    requires BodyOk(k, g, s, b) && Later(g, g') && id !in At(g.started, s)
    requires At(g'.started, s) == At(g.started, s)[id := msg]
    requires !Passed(g, id.node, s) && id.node in k.live(s)
    ensures BodyOk(k, g', s, b)
  {
    assert !Closed(k, g, s);
  }

  /** Taking a step number and an id: nobody can have counted on this node at this step. */
  lemma AnnounceKeeps(k: Config, g: System, g': System, n: NodeId, s: StepId, id: MsgId, msg: Msg)
    requires HistoryOk(k, g) && NodesOk(k, g) && NetOk(k, g) && Announced(k, g, g', n, s, id, msg)
    ensures HistoryOk(k, g') && NodesOk(k, g') && NetOk(k, g')
  {
    AnnouncedHistory(k, g, g', n, s, id, msg);
    AnnouncedNodes(k, g, g', n, s, id, msg);
    AnnouncedNet(k, g, g', n, s, id, msg);
  }

  lemma AnnouncedNodes(k: Config, g: System, g': System, n: NodeId, s: StepId, id: MsgId, msg: Msg)
    requires NodesOk(k, g) && Announced(k, g, g', n, s, id, msg)
    ensures NodesOk(k, g')
  {
    forall m | m in g'.nodes ensures NodeOk(k, g', m, g'.nodes[m]) {
      AnnouncedNode(k, g, g', n, s, id, msg, m, g.nodes[m]);
      if m == n {
        AnnouncedGaps(k, g, g', n, s, id, msg, s);
      }
    }
  }

  lemma AnnouncedNet(k: Config, g: System, g': System, n: NodeId, s: StepId, id: MsgId, msg: Msg)
    requires NetOk(k, g) && Announced(k, g, g', n, s, id, msg)
    ensures NetOk(k, g')
  {
    forall p | p in g'.net ensures p.dst in k.nodes && BodyOk(k, g', p.step, p.body) {
      if p.step != s {
        BodyKept(k, g, g', p.step, p.body);
      } else {
        BodyAnnounced(k, g, g', s, p.body, id, msg);
      }
    }
  }

  /** A node that is cut off starts a step: nobody else will ever know. */
  lemma CutOffApply(k: Config, g: System, n: NodeId, msg: Msg, r: (Slot, Option<Body>))
    requires Inv(k, g) && n in g.nodes && n !in k.live(g.nodes[n].table.next)
    requires g.nodes[n].table.cur <= g.nodes[n].table.next
    ensures Inv(k, Store(k, Announce(k, g, n, msg), n, g.nodes[n].table.next, r))
  {
    var g1, s := Announce(k, g, n, msg), g.nodes[n].table.next;
    var nd := g1.nodes[n].(table := Write(g1.nodes[n].table, s, r.0));
    assert NodeOk(k, g, n, g.nodes[n]) && Holds(g, n, g.nodes[n]);
    CutOffNode(k, g, n, g.nodes[n], nd, s, r.0);
    BecameKeeps(k, g, Store(k, g1, n, s, r), n, nd, s, r.1);
  }

  lemma CutOffNode(k: Config, g: System, n: NodeId, nd: Node, nd': Node, s: StepId, v: Slot)
    requires NodeOk(k, g, n, nd) && Holds(g, n, nd) && n in g.nodes && g.nodes.Keys == k.nodes
    requires n !in k.live(s) && s == nd.table.next && nd'.stopped == nd.stopped && nd'.log == nd.log
    requires nd'.table == Table(s + 1, nd.table.cur, nd.table.steps[s := v])
    ensures NodeOk(k, g, n, nd') && Holds(g, n, nd')
  {
  }

  lemma TakesId(k: Config, g: System, n: NodeId, msg: Msg)
    requires HistoryOk(k, g) && n in g.nodes && n in k.live(g.nodes[n].table.next)
    ensures var s, id := g.nodes[n].table.next, MsgId(n, g.nodes[n].ids);
            Announced(k, g, Announce(k, g, n, msg), n, s, id, msg)
  {
    NewId(k, g, n, g.nodes[n].table.next);
  }

  /** A step that a node starts was untouched. */
  lemma StartsFresh(k: Config, g: System, n: NodeId, msg: Msg)
    requires n in g.nodes && Wf(g.nodes[n].table) && Enabled(k, g, Apply(n, msg))
    ensures var r := OnVote(FRESH, n, map[MsgId(n, g.nodes[n].ids) := msg], n, k.nodes);
            Do(k, g, Apply(n, msg)) == Store(k, Announce(k, g, n, msg), n, g.nodes[n].table.next, r)
  {
  }

  lemma ApplyKeeps(k: Config, g: System, n: NodeId, msg: Msg)
    requires WfConfig(k) && Inv(k, g) && Enabled(k, g, Apply(n, msg))
    ensures Inv(k, Do(k, g, Apply(n, msg)))
  {
    var s, id := g.nodes[n].table.next, MsgId(n, g.nodes[n].ids);
    var r := OnVote(FRESH, n, map[id := msg], n, k.nodes);
    assert Wf(g.nodes[n].table) by {
      assert NodeOk(k, g, n, g.nodes[n]);
    }
    StartsFresh(k, g, n, msg);
    if n in k.live(s) {
      TakesId(k, g, n, msg);
      LiveApply(k, g, Announce(k, g, n, msg), n, s, id, msg, r);
    } else {
      CutOffApply(k, g, n, msg, r);
    }
  }

  lemma LiveApply(k: Config, g: System, g1: System, n: NodeId, s: StepId, id: MsgId, msg: Msg, r: (Slot, Option<Body>))
    requires WfConfig(k) && Inv(k, g) && Announced(k, g, g1, n, s, id, msg) && g.nodes[n].table.cur <= s
    requires r == OnVote(FRESH, n, map[id := msg], n, k.nodes)
    ensures Inv(k, Store(k, g1, n, s, r))
  {
    AnnounceKeeps(k, g, g1, n, s, id, msg);
    AnnouncedVote(k, g, g1, n, s, id, msg);
    VoteOk(k, g1, n, s, FRESH, map[id := msg], n, k.nodes);
    AnnouncedHold(k, g, g1, n, s, id, msg, r.0);
    StoreKeeps(k, g1, n, s, r);
  }

  lemma AnnouncedVote(k: Config, g: System, g1: System, n: NodeId, s: StepId, id: MsgId, msg: Msg)
    requires HistoryOk(k, g) && Announced(k, g, g1, n, s, id, msg)
    ensures BodyOk(k, g1, s, Vote(map[id := msg], n, k.nodes))
    ensures forall i :: i in At(g1.started, s) && i.node == n ==> i == id
  {
    forall i | i in At(g.started, s) ensures i.node != n {
      assert HistoricId(k, g, s, i);
    }
  }

  lemma AnnouncedHold(k: Config, g: System, g1: System, n: NodeId, s: StepId, id: MsgId, msg: Msg, v: Slot)
    requires AllHold(g) && Announced(k, g, g1, n, s, id, msg) && g.nodes[n].table.cur <= s
    ensures forall m :: m in g1.nodes && m != n ==> Holds(g1, m, g1.nodes[m])
    ensures Holds(g1, n, g1.nodes[n].(table := Write(g1.nodes[n].table, s, v)))
  {
    forall m | m in g1.nodes && m != n ensures Holds(g1, m, g1.nodes[m]) {
      assert Holds(g, m, g.nodes[m]);
    }
    assert Holds(g, n, g.nodes[n]);
  }

  lemma DisarmKeeps(k: Config, g: System, n: NodeId, s: StepId)
    requires Inv(k, g) && n in g.nodes
    ensures Inv(k, Disarm(g, n, s))
  {
    var nd := Disarm(g, n, s).nodes[n];
    assert NodeOk(k, g, n, nd) by {
      assert NodeOk(k, g, n, g.nodes[n]);
    }
    assert Holds(g, n, nd) by {
      assert Holds(g, n, g.nodes[n]);
    }
    BecameKeeps(k, g, Disarm(g, n, s), n, nd, s, None);
  }

  /** The membership shrinks once at most: with sound timers none goes on inside the smaller one. */
  lemma ShrinksOnce(k: Config, s: StepId, voted: set<NodeId>)
    requires Sound(k) && k.waits(s) <= voted && voted <= k.live(s) && voted != {}
    ensures voted == k.live(s) || k.live(s) == k.nodes
  {
    if voted != k.live(s) && k.live(s) != k.nodes {
      var z :| z in k.live(s) && z !in voted;
      var x :| x in k.nodes && x !in k.live(s);
      var y :| y in voted;
      var v := k.nodes - {z};
      assert |{x, y, z}| == 3;
      SetSize({x, y, z}, k.nodes);
      assert |v| == |k.nodes| - 1;
      assert Consistent(v, k.nodes);
      assert SplitsOff(k, s, v);
      assert false;
    }
  }

  lemma SetSize(a: set<NodeId>, b: set<NodeId>)
    requires a <= b
    ensures |a| <= |b|
  {
    assert b == a + (b - a);
  }

  /** A timer that goes on has heard every live node. */
  lemma FiresOnLive(k: Config, g: System, n: NodeId, s: StepId, v: Slot)
    requires Sound(k) && n in k.live(s) && SlotOk(k, g, n, s, v) && v.state == Voted
    requires k.waits(s) <= v.voted && Consistent(v.voted, v.nodes)
    ensures v.voted == k.live(s)
  {
    assert !SplitsOff(k, s, v.voted);
    if v.nodes == k.live(s) {
      ShrinksOnce(k, s, v.voted);
    }
  }

  lemma TimeoutKeeps(k: Config, g: System, n: NodeId, s: StepId)
    requires Sound(k) && Inv(k, g) && Enabled(k, g, Timeout(n, s))
    ensures Inv(k, Do(k, g, Timeout(n, s)))
  {
    var v := g.nodes[n].table.steps[s];
    match OnTimeout(v, n)
    case Proceed(w, sent) =>
      DisarmKeeps(k, g, n, s);
      FiredKeeps(k, Disarm(g, n, s), n, s, v, (w, sent));
    case Fail => FailKeeps(k, g, n);
  }

  lemma FiredKeeps(k: Config, g: System, n: NodeId, s: StepId, v: Slot, r: (Slot, Option<Body>))
    requires Sound(k) && Inv(k, g) && n in g.nodes && s in g.nodes[n].table.steps && v == g.nodes[n].table.steps[s]
    requires n in k.live(s) ==> k.waits(s) <= v.voted
    requires Consistent(v.voted, v.nodes) && r == OnVote(v, n, v.carries, n, v.voted)
    ensures g.nodes[n].table.cur <= s && Inv(k, Store(k, g, n, s, r))
  {
    var nd := g.nodes[n];
    assert NodeOk(k, g, n, nd) && Holds(g, n, nd);
    if n in k.live(s) {
      assert SlotOk(k, g, n, s, v);
      if v.state == Voted {
        FiresOnLive(k, g, n, s, v);
        assert Heard(g, n, s, v.carries);
        VoteOk(k, g, n, s, v, v.carries, n, v.voted);
      }
    }
    assert Holds(g, n, nd.(table := Write(nd.table, s, r.0)));
    StoreKeeps(k, g, n, s, r);
  }

  lemma FailKeeps(k: Config, g: System, n: NodeId)
    requires Inv(k, g) && n in g.nodes
    ensures Inv(k, Halt(g, n))
  {
    var nd := Halt(g, n).nodes[n];
    assert NodeOk(k, g, n, nd) by {
      assert NodeOk(k, g, n, g.nodes[n]);
    }
    BecameKeeps(k, g, Halt(g, n), n, nd, 0, None);
  }

  lemma ExecKeeps(k: Config, g: System, n: NodeId)
    requires Inv(k, g) && Enabled(k, g, Exec(n))
    ensures Inv(k, Execute(g, n))
  {
    var nd := Execute(g, n).nodes[n];
    assert NodeOk(k, g, n, g.nodes[n]) && Holds(g, n, g.nodes[n]);
    ExecutedNode(k, g, n, g.nodes[n], nd);
    BecameKeeps(k, g, Execute(g, n), n, nd, 0, None);
  }

  lemma ExecutedNode(k: Config, g: System, n: NodeId, nd: Node, nd': Node)
    requires NodeOk(k, g, n, nd) && nd.table.cur in nd.table.steps
    requires nd.table.steps[nd.table.cur].state == Completed
    requires nd'.table == Advance(nd.table)
    requires nd'.log == nd.log + Ordered(nd.table.steps[nd.table.cur].carries)
    ensures NodeOk(k, g, n, nd')
  {
    var s := nd.table.cur;
    if n in k.live(s) {
      assert SlotOk(k, g, n, s, nd.table.steps[s]);
    }
    if LiveUpTo(k, n, s + 1) {
      assert LiveUpTo(k, n, s);
    }
  }

  lemma LoseKeeps(k: Config, g: System, p: Packet)
    requires Inv(k, g)
    ensures Inv(k, g.(net := g.net - {p}))
  {
    var g' := g.(net := g.net - {p});
    HistoryKept(k, g, g');
    NetKept(k, g, g', 0, None, 0);
    forall n | n in g'.nodes ensures NodeOk(k, g', n, g'.nodes[n]) && Holds(g', n, g'.nodes[n]) {
      NodeKept(k, g, g', n, g.nodes[n]);
      assert Holds(g, n, g.nodes[n]);
    }
  }

  lemma StepKeeps(k: Config, g: System, a: Action)
    requires Sound(k) && Inv(k, g) && Enabled(k, g, a)
    ensures Inv(k, Do(k, g, a))
  {
    match a
    case Apply(n, msg) => ApplyKeeps(k, g, n, msg);
    case Deliver(p, keep) =>
      ReceiveKeeps(k, g, p.dst, p.step, p.body);
      LoseKeeps(k, Receive(k, g, p.dst, p.step, p.body), p);
    case Drop(p) => LoseKeeps(k, g, p);
    case Timeout(n, s) => TimeoutKeeps(k, g, n, s);
    case Exec(n) => ExecKeeps(k, g, n);
  }

  /** Every reachable state is consistent. */
  lemma {:induction false} RunKeeps(k: Config, g: System, acts: seq<Action>)
    requires Sound(k) && Inv(k, g) && Legal(k, g, acts)
    ensures Inv(k, After(k, g, acts))
    decreases |acts|
  {
    if acts != [] {
      StepKeeps(k, g, acts[0]);
      RunKeeps(k, Do(k, g, acts[0]), acts[1..]);
    }
  }
}
