/** The older protocol over any number of nodes with a static membership, under reordering, loss and
    duplication.  It commits by counting, yet it implements the same log as Voting. */
module OldReplobLog {
  import opened Types
  import opened BatchLog
  import opened PhantomTable
  import opened OldReplobSpec
  import opened OldReplobObject

  datatype Node = Node(table: Table<Slot>, ids: nat, log: seq<Entry>)

  datatype Packet = Packet(dst: NodeId, step: StepId, body: Body)

  /** `started`, `applied` and `choice` are history: what was started at each step, the step of every
      message applied, and which message each node voted for at each step. */
  datatype System = System(nodes: map<NodeId, Node>, net: set<Packet>, started: History,
                           applied: map<MsgId, StepId>, choice: map<(StepId, NodeId), MsgId>)

  datatype Action =
    | Apply(n: NodeId, msg: Msg)
    | Deliver(p: Packet, keep: bool)
    | Drop(p: Packet)
    | Exec(n: NodeId)

  function Start(nodes: set<NodeId>): System {
    System(map n | n in nodes :: Node(Table(0, 0, map[]), 0, []), {}, map[], map[], map[])
  }

  function Broadcast(nodes: set<NodeId>, self: NodeId, s: StepId, sent: Option<Body>): set<Packet> {
    if sent.None? then {}
    else set n | n in nodes && n != self :: Packet(n, s, sent.value)
  }

  /** Does handling this message make the node cast its vote? */
  predicate Casts(v: Slot, body: Body) {
    body.Vote? && v.state == Initial
  }

  /** Node n stores step s and broadcasts. */
  function Put(nodes: set<NodeId>, g: System, n: NodeId, s: StepId, r: (Slot, Option<Body>)): System
    requires n in g.nodes && g.nodes[n].table.cur <= s
  {
    g.(nodes := g.nodes[n := g.nodes[n].(table := Write(g.nodes[n].table, s, r.0))],
       net := g.net + Broadcast(nodes, n, s, r.1))
  }

  /** The vote that handling this message makes node n cast, if any. */
  function Recorded(g: System, n: NodeId, s: StepId, body: Body): System
    requires n in g.nodes
  {
    if Casts(Get(g.nodes[n].table, s, FRESH), body) then g.(choice := g.choice[(s, n) := body.id]) else g
  }

  ghost function Receive(nodes: set<NodeId>, g: System, n: NodeId, s: StepId, body: Body): System
    requires n in g.nodes
  {
    if !Open(g.nodes[n].table, s) then g
    else Put(nodes, Recorded(g, n, s, body), n, s, OnBody(Get(g.nodes[n].table, s, FRESH), n, body, |nodes|))
  }

  function Announce(g: System, n: NodeId, msg: Msg): System
    requires n in g.nodes
  {
    var nd := g.nodes[n];
    var s, id := nd.table.next, MsgId(n, nd.ids);
    g.(nodes := g.nodes[n := nd.(table := nd.table.(next := s + 1), ids := nd.ids + 1)],
       started := g.started[s := At(g.started, s)[id := msg]], applied := g.applied[id := s])
  }

  ghost predicate Enabled(g: System, a: Action) {
    match a
    case Apply(n, msg) => n in g.nodes
    case Deliver(p, keep) => p in g.net && p.dst in g.nodes
    case Drop(p) => p in g.net
    case Exec(n) => n in g.nodes && g.nodes[n].table.cur in g.nodes[n].table.steps
                    && g.nodes[n].table.steps[g.nodes[n].table.cur].state == Completed
  }

  ghost function Do(nodes: set<NodeId>, g: System, a: Action): System
    requires Enabled(g, a)
  {
    match a
    case Apply(n, msg) =>
      var s, id := g.nodes[n].table.next, MsgId(n, g.nodes[n].ids);
      Receive(nodes, Announce(g, n, msg), n, s, Vote(id, msg, n))
    case Deliver(p, keep) =>
      var g1 := Receive(nodes, g, p.dst, p.step, p.body);
      if keep then g1 else g1.(net := g1.net - {p})
    case Drop(p) => g.(net := g.net - {p})
    case Exec(n) => Execute(g, n)
  }

  /** One turn of the loop of tryProcess. */
  function Execute(g: System, n: NodeId): System
    requires n in g.nodes && g.nodes[n].table.cur in g.nodes[n].table.steps
  {
    var nd := g.nodes[n];
    g.(nodes := g.nodes[n := nd.(table := Advance(nd.table), log := nd.log + nd.table.steps[nd.table.cur].msgs)])
  }

  ghost predicate Legal(nodes: set<NodeId>, g: System, acts: seq<Action>)
    decreases |acts|
  {
    acts == [] || (Enabled(g, acts[0]) && Legal(nodes, Do(nodes, g, acts[0]), acts[1..]))
  }

  ghost function After(nodes: set<NodeId>, g: System, acts: seq<Action>): System
    requires Legal(nodes, g, acts)
    decreases |acts|
  {
    if acts == [] then g else After(nodes, Do(nodes, g, acts[0]), acts[1..])
  }

  // ------------------------------------------------------------------ the invariant

  ghost predicate Passed(g: System, m: NodeId, s: StepId) {
    m in g.nodes && s < g.nodes[m].table.next
  }

  ghost predicate Closed(nodes: set<NodeId>, g: System, s: StepId) {
    forall m :: m in nodes ==> Passed(g, m, s)
  }

  ghost predicate Chose(g: System, s: StepId, m: NodeId, id: MsgId) {
    (s, m) in g.choice && g.choice[(s, m)] == id
  }

  ghost predicate BallotOk(g: System, s: StepId, id: MsgId, b: Ballot) {
    && id in At(g.started, s) && At(g.started, s)[id] == b.msg
    && forall m :: m in b.voted ==> Chose(g, s, m, id)
  }

  ghost predicate SlotOk(nodes: set<NodeId>, g: System, s: StepId, v: Slot) {
    match v.state
    case Initial => false
    case Voted =>
      && Voters(v.ballots) != nodes
      && forall id :: id in v.ballots ==> BallotOk(g, s, id, v.ballots[id])
    case Completed => v.msgs == Ordered(At(g.started, s)) && Closed(nodes, g, s)
  }

  ghost predicate BodyOk(nodes: set<NodeId>, g: System, s: StepId, b: Body) {
    match b
    case Vote(id, msg, voter) => BallotOk(g, s, id, Ballot({voter}, msg))
    case Commit(msgs) => msgs == Ordered(At(g.started, s)) && Closed(nodes, g, s)
  }

  ghost predicate NodeOk(nodes: set<NodeId>, g: System, n: NodeId, nd: Node) {
    && Wf(nd.table)
    && nd.log == LogUpTo(g.started, nd.table.cur)
    && (forall s: StepId :: s < nd.table.cur ==> Closed(nodes, g, s))
    && (forall s :: s in nd.table.steps ==> SlotOk(nodes, g, s, nd.table.steps[s]))
    && (forall s: StepId :: (s, n) in g.choice ==> s < nd.table.cur || s in nd.table.steps)
  }

  ghost predicate HistoricId(g: System, s: StepId, id: MsgId) {
    Passed(g, id.node, s) && id.count < g.nodes[id.node].ids && id in g.applied && g.applied[id] == s
  }

  ghost predicate ChoicesOk(nodes: set<NodeId>, g: System) {
    forall s: StepId, m: NodeId :: (s, m) in g.choice ==> m in nodes && Passed(g, m, s)
  }

  ghost predicate HistoryOk(nodes: set<NodeId>, g: System) {
    && (forall s: StepId, id :: id in At(g.started, s) ==> HistoricId(g, s, id))
    && (forall id :: id in g.applied ==> id in At(g.started, g.applied[id]))
    && ChoicesOk(nodes, g)
  }

  /** Who starts a message votes for it. */
  ghost predicate OwnVotes(g: System) {
    forall s: StepId, id :: id in At(g.started, s) ==> Chose(g, s, id.node, id)
  }

  ghost predicate NodesOk(nodes: set<NodeId>, g: System) {
    g.nodes.Keys == nodes && forall n :: n in g.nodes ==> NodeOk(nodes, g, n, g.nodes[n])
  }

  ghost predicate NetOk(nodes: set<NodeId>, g: System) {
    forall p :: p in g.net ==> p.dst in nodes && BodyOk(nodes, g, p.step, p.body)
  }

  ghost predicate Inv(nodes: set<NodeId>, g: System) {
    HistoryOk(nodes, g) && OwnVotes(g) && NodesOk(nodes, g) && NetOk(nodes, g)
  }

  /** Nodes move forward, votes stay, and the history of step s stays. */
  ghost predicate Later(g: System, g': System) {
    && g.nodes.Keys == g'.nodes.Keys
    && (forall n :: n in g.nodes ==> g.nodes[n].table.next <= g'.nodes[n].table.next)
    && (forall c :: c in g.choice ==> c in g'.choice && g'.choice[c] == g.choice[c])
  }

  lemma BallotKept(g: System, g': System, s: StepId, id: MsgId, b: Ballot)
    requires Later(g, g') && BallotOk(g, s, id, b)
    requires forall i :: i in At(g.started, s) ==> i in At(g'.started, s) && At(g'.started, s)[i] == At(g.started, s)[i]
    ensures BallotOk(g', s, id, b)
  {
    forall m | m in b.voted ensures Chose(g', s, m, id) {
      assert Chose(g, s, m, id);
    }
  }

  /** Good slots and messages stay good while their step only grows, and it can only grow before it
      is closed. */
  ghost predicate Grows(nodes: set<NodeId>, g: System, g': System, s: StepId) {
    && (forall i :: i in At(g.started, s) ==> i in At(g'.started, s) && At(g'.started, s)[i] == At(g.started, s)[i])
    && (Closed(nodes, g, s) ==> At(g'.started, s) == At(g.started, s))
  }

  lemma SlotKept(nodes: set<NodeId>, g: System, g': System, s: StepId, v: Slot)
    requires Later(g, g') && Grows(nodes, g, g', s) && SlotOk(nodes, g, s, v)
    ensures SlotOk(nodes, g', s, v)
  {
    if v.state == Voted {
      forall id | id in v.ballots ensures BallotOk(g', s, id, v.ballots[id]) {
        BallotKept(g, g', s, id, v.ballots[id]);
      }
    }
  }

  lemma BodyKept(nodes: set<NodeId>, g: System, g': System, s: StepId, b: Body)
    requires Later(g, g') && Grows(nodes, g, g', s) && BodyOk(nodes, g, s, b)
    ensures BodyOk(nodes, g', s, b)
  {
    if b.Vote? {
      BallotKept(g, g', s, b.id, Ballot({b.voter}, b.msg));
    }
  }

  lemma NodeKept(nodes: set<NodeId>, g: System, g': System, n: NodeId, nd: Node)
    requires Later(g, g') && NodeOk(nodes, g, n, nd)
    requires forall s: StepId :: Grows(nodes, g, g', s)
    requires forall s: StepId :: (s, n) in g'.choice ==> (s, n) in g.choice
    ensures NodeOk(nodes, g', n, nd)
  {
    forall s: StepId | s < nd.table.cur ensures Closed(nodes, g', s) && At(g.started, s) == At(g'.started, s) {
      assert Closed(nodes, g, s) && Grows(nodes, g, g', s);
      forall m | m in nodes ensures Passed(g', m, s) {
        assert Passed(g, m, s);
      }
    }
    LogFrame(g.started, g'.started, nd.table.cur);
    forall s | s in nd.table.steps ensures SlotOk(nodes, g', s, nd.table.steps[s]) {
      assert Grows(nodes, g, g', s);
      SlotKept(nodes, g, g', s, nd.table.steps[s]);
    }
  }

  lemma NetKept(nodes: set<NodeId>, g: System, g': System, n: NodeId, s: StepId, sent: Option<Body>)
    requires NetOk(nodes, g) && Later(g, g') && forall t: StepId :: Grows(nodes, g, g', t)
    requires g'.net <= g.net + Broadcast(nodes, n, s, sent)
    requires sent.Some? ==> BodyOk(nodes, g', s, sent.value)
    ensures NetOk(nodes, g')
  {
    forall p | p in g'.net ensures p.dst in nodes && BodyOk(nodes, g', p.step, p.body) {
      if p in g.net {
        assert Grows(nodes, g, g', p.step);
        BodyKept(nodes, g, g', p.step, p.body);
      }
    }
  }

  // ------------------------------------------------------------------ voting

  /** Ballots of one step cannot share a voter: a node has one choice. */
  lemma Disjoint(nodes: set<NodeId>, g: System, s: StepId, b: Ballots)
    requires ChoicesOk(nodes, g) && forall id :: id in b ==> BallotOk(g, s, id, b[id])
    ensures OneVoteEach(b) && Voters(b) <= nodes
  {
    forall i, j | i in b && j in b && i != j ensures b[i].voted * b[j].voted == {} {
      forall m | m in b[i].voted ensures m !in b[j].voted {
        assert Chose(g, s, m, i) && !Chose(g, s, m, j);
      }
    }
    forall m | m in Voters(b) ensures m in nodes {
      var i :| i in b && m in b[i].voted;
      assert Chose(g, s, m, i);
    }
  }

  lemma AddedOk(g: System, s: StepId, b: Ballots, id: MsgId, msg: Msg, voter: NodeId)
    requires forall i :: i in b ==> BallotOk(g, s, i, b[i])
    requires BallotOk(g, s, id, Ballot({voter}, msg))
    ensures var r := AddVote(b, id, msg, voter); forall i :: i in r ==> BallotOk(g, s, i, r[i])
  {
    var r := AddVote(b, id, msg, voter);
    assert voter in Ballot({voter}, msg).voted;
    forall i | i in r ensures BallotOk(g, s, i, r[i]) {
      if i in b {
        assert BallotOk(g, s, i, b[i]);
      }
    }
  }

  /** When every node's vote is known, the ballots hold everything started at the step. */
  lemma AllVoted(nodes: set<NodeId>, g: System, s: StepId, b: Ballots)
    requires ChoicesOk(nodes, g) && OwnVotes(g) && Voters(b) == nodes && g.nodes.Keys == nodes
    requires forall id :: id in b ==> BallotOk(g, s, id, b[id])
    ensures Messages(b) == At(g.started, s) && Closed(nodes, g, s)
  {
    forall m | m in nodes ensures Passed(g, m, s) {
      var i :| i in b && m in b[i].voted;
      assert Chose(g, s, m, i);
    }
    forall id | id in At(g.started, s) ensures id in b {
      assert Chose(g, s, id.node, id);
      assert id.node in Voters(b);
      var i :| i in b && id.node in b[i].voted;
      assert Chose(g, s, id.node, i);
    }
    assert Messages(b).Keys == At(g.started, s).Keys;
  }

  /** The slot and the message a vote leaves behind; g already records the vote cast, if any. */
  lemma VoteOk(nodes: set<NodeId>, g: System, n: NodeId, s: StepId, v: Slot, id: MsgId, msg: Msg, voter: NodeId)
    requires ChoicesOk(nodes, g) && OwnVotes(g) && g.nodes.Keys == nodes
    requires v == FRESH || (v.state == Voted && SlotOk(nodes, g, s, v))
    requires BallotOk(g, s, id, Ballot({voter}, msg)) && (v == FRESH ==> Chose(g, s, n, id))
    ensures var r := OnVote(v, n, id, msg, voter, |nodes|);
            SlotOk(nodes, g, s, r.0) && (r.1.Some? ==> BodyOk(nodes, g, s, r.1.value))
  {
    var w := Cast(v, n, id, msg, voter);
    AddedOk(g, s, v.ballots, id, msg, voter);
    if v == FRESH {
      AddedOk(g, s, AddVote(v.ballots, id, msg, voter), id, msg, n);
    }
    Disjoint(nodes, g, s, w.ballots);
    MayCommitIffAllVoted(w.ballots, nodes);
    if Tally(w.ballots) == |nodes| {
      AllVoted(nodes, g, s, w.ballots);
    }
  }

  /** The state after `next` has moved and the vote, if any, is recorded, but before it is stored. */
  ghost function Noted(g: System, n: NodeId, s: StepId, body: Body): System
    requires n in g.nodes
  {
    Bumped(Recorded(g, n, s, body), n, s)
  }

  ghost function Bumped(g: System, n: NodeId, s: StepId): System
    requires n in g.nodes
  {
    var nd := g.nodes[n];
    g.(nodes := g.nodes[n := nd.(table := nd.table.(next := if nd.table.next <= s then s + 1 else nd.table.next))])
  }

  lemma NotedHistory(nodes: set<NodeId>, g: System, n: NodeId, s: StepId, body: Body)
    requires HistoryOk(nodes, g) && n in g.nodes && n in nodes
    ensures HistoryOk(nodes, Noted(g, n, s, body))
  {
    var g' := Noted(g, n, s, body);
    NotedChoices(nodes, g, n, s, body);
    forall t: StepId, id | id in At(g'.started, t) ensures HistoricId(g', t, id) {
      assert HistoricId(g, t, id);
    }
  }

  lemma NotedChoices(nodes: set<NodeId>, g: System, n: NodeId, s: StepId, body: Body)
    requires ChoicesOk(nodes, g) && n in g.nodes && n in nodes
    ensures ChoicesOk(nodes, Noted(g, n, s, body))
  {
    var g' := Noted(g, n, s, body);
    forall t: StepId, m: NodeId | (t, m) in g'.choice ensures m in nodes && Passed(g', m, t) {
      assert (t, m) in g.choice || (t == s && m == n);
    }
  }

  lemma NotedOwn(g: System, n: NodeId, s: StepId, body: Body)
    requires n in g.nodes && OwnVotes(g)
    requires Casts(Get(g.nodes[n].table, s, FRESH), body) ==> (s, n) !in g.choice
    ensures OwnVotes(Noted(g, n, s, body))
  {
    var g' := Noted(g, n, s, body);
    forall t: StepId, id | id in At(g'.started, t) ensures Chose(g', t, id.node, id) {
      assert Chose(g, t, id.node, id);
    }
  }

  lemma NotedLater(g: System, n: NodeId, s: StepId, body: Body)
    requires n in g.nodes && (Casts(Get(g.nodes[n].table, s, FRESH), body) ==> (s, n) !in g.choice)
    ensures Later(g, Noted(g, n, s, body))
  {
  }

  lemma NotedOk(nodes: set<NodeId>, g: System, n: NodeId, s: StepId, body: Body)
    requires n in g.nodes && Open(g.nodes[n].table, s) && NodeOk(nodes, g, n, g.nodes[n])
    requires var g1 := Noted(g, n, s, body);
             ChoicesOk(nodes, g1) && OwnVotes(g1) && g1.nodes.Keys == nodes && BodyOk(nodes, g1, s, body)
    ensures Casts(Get(g.nodes[n].table, s, FRESH), body) ==> (s, n) !in g.choice
    ensures var g1, r := Noted(g, n, s, body), OnBody(Get(g.nodes[n].table, s, FRESH), n, body, |nodes|);
            SlotOk(nodes, g1, s, r.0) && (r.1.Some? ==> BodyOk(nodes, g1, s, r.1.value))
  {
    var g1 := Noted(g, n, s, body);
    var v := Get(g.nodes[n].table, s, FRESH);
    assert s in g.nodes[n].table.steps ==> SlotOk(nodes, g, s, v);
    if body.Vote? {
      NotedLater(g, n, s, body);
      assert Grows(nodes, g, g1, s);
      if v != FRESH {
        SlotKept(nodes, g, g1, s, v);
      }
      VoteOk(nodes, g1, n, s, v, body.id, body.msg, body.voter);
    }
  }

  /** Handling a good message at an open step. */
  lemma HandleKeeps(nodes: set<NodeId>, g: System, n: NodeId, s: StepId, body: Body)
    requires n in g.nodes && Open(g.nodes[n].table, s) && NodesOk(nodes, g) && NetOk(nodes, g)
    requires var g1 := Noted(g, n, s, body); HistoryOk(nodes, g1) && OwnVotes(g1) && BodyOk(nodes, g1, s, body)
    ensures Inv(nodes, Receive(nodes, g, n, s, body))
  {
    var h, r := Recorded(g, n, s, body), OnBody(Get(g.nodes[n].table, s, FRESH), n, body, |nodes|);
    assert NodeOk(nodes, g, n, g.nodes[n]);
    HandledFacts(nodes, g, n, s, body);
    PutKeeps(nodes, g, h, n, s, r);
  }

  lemma HandledFacts(nodes: set<NodeId>, g: System, n: NodeId, s: StepId, body: Body)
    requires n in g.nodes && Open(g.nodes[n].table, s) && g.nodes.Keys == nodes && NodeOk(nodes, g, n, g.nodes[n])
    requires var g1 := Noted(g, n, s, body); ChoicesOk(nodes, g1) && OwnVotes(g1) && BodyOk(nodes, g1, s, body)
    ensures var h, r := Recorded(g, n, s, body), OnBody(Get(g.nodes[n].table, s, FRESH), n, body, |nodes|);
            && h.nodes == g.nodes && h.started == g.started && h.net == g.net && Later(g, h)
            && (forall t: StepId, m: NodeId :: (t, m) in h.choice ==> (t, m) in g.choice || (t == s && m == n))
            && SlotOk(nodes, Bumped(h, n, s), s, r.0)
            && (r.1.Some? ==> BodyOk(nodes, Bumped(h, n, s), s, r.1.value))
  {
    NotedOk(nodes, g, n, s, body);
    RecordedFacts(g, n, s, body);
  }

  lemma RecordedFacts(g: System, n: NodeId, s: StepId, body: Body)
    requires n in g.nodes && (Casts(Get(g.nodes[n].table, s, FRESH), body) ==> (s, n) !in g.choice)
    ensures var h := Recorded(g, n, s, body);
            && h.nodes == g.nodes && h.started == g.started && h.net == g.net && Later(g, h)
            && forall t: StepId, m: NodeId :: (t, m) in h.choice ==> (t, m) in g.choice || (t == s && m == n)
  {
  }

  lemma PutQuiet(nodes: set<NodeId>, g: System, h: System, n: NodeId, s: StepId, r: (Slot, Option<Body>))
    requires n in g.nodes && g.nodes[n].table.cur <= s && Later(g, h)
    requires h.nodes == g.nodes && h.started == g.started
    ensures var g' := Put(nodes, h, n, s, r);
            Quiet(Bumped(h, n, s), g') && Later(g, g') && forall t: StepId :: Grows(nodes, g, g', t)
  {
  }

  /** h is g with the vote recorded. */
  lemma PutKeeps(nodes: set<NodeId>, g: System, h: System, n: NodeId, s: StepId, r: (Slot, Option<Body>))
    requires n in g.nodes && g.nodes[n].table.cur <= s && NodesOk(nodes, g) && NetOk(nodes, g) && Later(g, h)
    requires h.nodes == g.nodes && h.started == g.started && h.net == g.net
    requires forall t: StepId, m: NodeId :: (t, m) in h.choice ==> (t, m) in g.choice || (t == s && m == n)
    requires var g1 := Bumped(h, n, s);
             && HistoryOk(nodes, g1) && OwnVotes(g1)
             && SlotOk(nodes, g1, s, r.0) && (r.1.Some? ==> BodyOk(nodes, g1, s, r.1.value))
    ensures Inv(nodes, Put(nodes, h, n, s, r))
  {
    var g1, g' := Bumped(h, n, s), Put(nodes, h, n, s, r);
    PutQuiet(nodes, g, h, n, s, r);
    QuietHistory(nodes, g1, g');
    if r.1.Some? {
      BodyKept(nodes, g1, g', s, r.1.value);
    }
    assert NetOk(nodes, g') by {
      NetKept(nodes, g, g', n, s, r.1);
    }
    assert NodesOk(nodes, g') by {
      PutNodes(nodes, g, g1, g', n, s, r.0);
    }
  }

  lemma PutNodes(nodes: set<NodeId>, g: System, g1: System, g': System, n: NodeId, s: StepId, w: Slot)
    requires NodesOk(nodes, g) && n in g.nodes && Later(g, g') && Later(g1, g')
    requires g.started == g1.started == g'.started && forall t: StepId :: Grows(nodes, g, g', t)
    requires g.nodes[n].table.cur <= s && SlotOk(nodes, g1, s, w)
    requires g'.nodes == g.nodes[n := g.nodes[n].(table := Write(g.nodes[n].table, s, w))]
    requires forall t: StepId, m: NodeId :: (t, m) in g'.choice ==> (t, m) in g.choice || (t == s && m == n)
    ensures NodesOk(nodes, g')
  {
    forall m | m in g'.nodes ensures NodeOk(nodes, g', m, g'.nodes[m]) {
      if m != n {
        NodeKept(nodes, g, g', m, g.nodes[m]);
      } else {
        HandledNode(nodes, g, g1, g', n, s, w);
      }
    }
  }

  lemma HandledNode(nodes: set<NodeId>, g: System, g1: System, g': System, n: NodeId, s: StepId, w: Slot)
    requires n in g.nodes && n in g'.nodes && NodeOk(nodes, g, n, g.nodes[n]) && Later(g, g') && Later(g1, g')
    requires g.started == g1.started == g'.started
    requires g.nodes[n].table.cur <= s && SlotOk(nodes, g1, s, w)
    requires g'.nodes[n] == g.nodes[n].(table := Write(g.nodes[n].table, s, w))
    requires forall t: StepId :: (t, n) in g'.choice ==> t == s || (t, n) in g.choice
    ensures NodeOk(nodes, g', n, g'.nodes[n])
  {
    var nd, nd' := g.nodes[n], g'.nodes[n];
    forall t | t in nd'.table.steps ensures SlotOk(nodes, g', t, nd'.table.steps[t]) {
      if t == s {
        assert Grows(nodes, g1, g', s);
        SlotKept(nodes, g1, g', s, w);
      } else {
        assert Grows(nodes, g, g', t);
        SlotKept(nodes, g, g', t, nd.table.steps[t]);
      }
    }
    forall t: StepId | t < nd.table.cur ensures Closed(nodes, g', t) {
      assert Closed(nodes, g, t);
    }
  }

  lemma ReceiveKeeps(nodes: set<NodeId>, g: System, n: NodeId, s: StepId, body: Body)
    requires Inv(nodes, g) && n in g.nodes && BodyOk(nodes, g, s, body)
    ensures Inv(nodes, Receive(nodes, g, n, s, body))
  {
    if Open(g.nodes[n].table, s) {
      var g1 := Noted(g, n, s, body);
      assert Casts(Get(g.nodes[n].table, s, FRESH), body) ==> (s, n) !in g.choice by {
        NoVoteYet(nodes, g, n, s, body);
      }
      assert HistoryOk(nodes, g1) by {
        NotedHistory(nodes, g, n, s, body);
      }
      assert OwnVotes(g1) by {
        NotedOwn(g, n, s, body);
      }
      assert BodyOk(nodes, g1, s, body) by {
        NotedLater(g, n, s, body);
        assert Grows(nodes, g, g1, s);
        BodyKept(nodes, g, g1, s, body);
      }
      HandleKeeps(nodes, g, n, s, body);
    }
  }

  lemma NoVoteYet(nodes: set<NodeId>, g: System, n: NodeId, s: StepId, body: Body)
    requires NodesOk(nodes, g) && n in g.nodes && Open(g.nodes[n].table, s)
    ensures Casts(Get(g.nodes[n].table, s, FRESH), body) ==> (s, n) !in g.choice
  {
    var nd := g.nodes[n];
    assert NodeOk(nodes, g, n, nd);
    if s in nd.table.steps {
      assert SlotOk(nodes, g, s, nd.table.steps[s]);
    }
  }

  lemma NewId(nodes: set<NodeId>, g: System, n: NodeId, t: StepId)
    requires HistoryOk(nodes, g) && n in g.nodes
    ensures MsgId(n, g.nodes[n].ids) !in At(g.started, t)
  {
    assert MsgId(n, g.nodes[n].ids) in At(g.started, t) ==> Passed(g, n, t);
  }

  /** What a step number and an id change. */
  ghost predicate Announced(g: System, g': System, n: NodeId, s: StepId, id: MsgId, msg: Msg) {
    && Later(g, g') && n in g.nodes && id.node == n && s == g.nodes[n].table.next && id.count == g.nodes[n].ids
    && id !in At(g.started, s) && g'.choice == g.choice
    && g'.started == g.started[s := At(g.started, s)[id := msg]] && g'.applied == g.applied[id := s]
    && g'.nodes == g.nodes[n := g'.nodes[n]]
    && g'.nodes[n] == g.nodes[n].(table := g.nodes[n].table.(next := s + 1), ids := id.count + 1)
  }

  lemma AnnouncedHistory(nodes: set<NodeId>, g: System, g': System, n: NodeId, s: StepId, id: MsgId, msg: Msg)
    requires HistoryOk(nodes, g) && Announced(g, g', n, s, id, msg)
    ensures HistoryOk(nodes, g')
  {
    forall t: StepId, i | i in At(g'.started, t) ensures HistoricId(g', t, i) {
      if i != id || t != s {
        assert HistoricId(g, t, i);
        NewId(nodes, g, n, t);
      }
    }
    forall i | i in g'.applied ensures i in At(g'.started, g'.applied[i]) {
      assert i == id || i in At(g.started, g.applied[i]);
    }
    AnnouncedChoices(nodes, g, g');
  }

  lemma AnnouncedChoices(nodes: set<NodeId>, g: System, g': System)
    requires ChoicesOk(nodes, g) && Later(g, g') && g'.choice == g.choice
    ensures ChoicesOk(nodes, g')
  {
    forall t: StepId, m: NodeId | (t, m) in g'.choice ensures m in nodes && Passed(g', m, t) {
      assert Passed(g, m, t);
    }
  }

  lemma AnnounceKeeps(nodes: set<NodeId>, g: System, n: NodeId, msg: Msg)
    requires Inv(nodes, g) && n in g.nodes
    ensures var g' := Announce(g, n, msg); HistoryOk(nodes, g') && NodesOk(nodes, g') && NetOk(nodes, g')
  {
    var g', s, id := Announce(g, n, msg), g.nodes[n].table.next, MsgId(n, g.nodes[n].ids);
    assert Announced(g, g', n, s, id, msg) by {
      NewId(nodes, g, n, s);
    }
    assert HistoryOk(nodes, g') by {
      AnnouncedHistory(nodes, g, g', n, s, id, msg);
    }
    AnnouncedGrows(nodes, g, n, msg);
    assert NetOk(nodes, g') by {
      NetKept(nodes, g, g', n, s, None);
    }
    AnnouncedNodes(nodes, g, g', n, s, id, msg);
  }

  lemma AnnouncedNodes(nodes: set<NodeId>, g: System, g': System, n: NodeId, s: StepId, id: MsgId, msg: Msg)
    requires NodesOk(nodes, g) && Announced(g, g', n, s, id, msg) && forall t: StepId :: Grows(nodes, g, g', t)
    ensures NodesOk(nodes, g')
  {
    forall m | m in g'.nodes ensures NodeOk(nodes, g', m, g'.nodes[m]) {
      NodeKept(nodes, g, g', m, g.nodes[m]);
    }
  }

  lemma AnnouncedGrows(nodes: set<NodeId>, g: System, n: NodeId, msg: Msg)
    requires n in nodes && n in g.nodes && MsgId(n, g.nodes[n].ids) !in At(g.started, g.nodes[n].table.next)
    ensures forall t: StepId :: Grows(nodes, g, Announce(g, n, msg), t)
  {
    forall t: StepId ensures Grows(nodes, g, Announce(g, n, msg), t) {
      if t == g.nodes[n].table.next {
        assert !Passed(g, n, t);
      }
    }
  }

  lemma ApplyKeeps(nodes: set<NodeId>, g: System, n: NodeId, msg: Msg)
    requires Inv(nodes, g) && n in g.nodes
    ensures Inv(nodes, Do(nodes, g, Apply(n, msg)))
  {
    var s, id := g.nodes[n].table.next, MsgId(n, g.nodes[n].ids);
    var g1, body := Announce(g, n, msg), Vote(id, msg, n);
    AnnounceKeeps(nodes, g, n, msg);
    assert NodeOk(nodes, g, n, g.nodes[n]);
    assert Get(g1.nodes[n].table, s, FRESH) == FRESH;
    NotedHistory(nodes, g1, n, s, body);
    AnnouncedOwn(nodes, g, n, msg);
    HandleKeeps(nodes, g1, n, s, body);
  }

  lemma AnnouncedOwn(nodes: set<NodeId>, g: System, n: NodeId, msg: Msg)
    requires HistoryOk(nodes, g) && OwnVotes(g) && n in g.nodes && g.nodes[n].table.next !in g.nodes[n].table.steps
    ensures var s, id := g.nodes[n].table.next, MsgId(n, g.nodes[n].ids);
            var g2 := Noted(Announce(g, n, msg), n, s, Vote(id, msg, n));
            OwnVotes(g2) && BodyOk(nodes, g2, s, Vote(id, msg, n))
  {
    var s, id := g.nodes[n].table.next, MsgId(n, g.nodes[n].ids);
    var g2 := Noted(Announce(g, n, msg), n, s, Vote(id, msg, n));
    forall t: StepId, i | i in At(g2.started, t) ensures Chose(g2, t, i.node, i) {
      if i in At(g.started, t) {
        assert Chose(g, t, i.node, i) && Passed(g, i.node, t);
      }
    }
  }

  /** Transitions that leave the history alone. */
  ghost predicate Quiet(g: System, g': System) {
    && Later(g, g') && g.started == g'.started && g.choice == g'.choice && g.applied == g'.applied
    && (forall n :: n in g.nodes ==> g.nodes[n].ids == g'.nodes[n].ids)
  }

  lemma QuietHistory(nodes: set<NodeId>, g: System, g': System)
    requires HistoryOk(nodes, g) && OwnVotes(g) && Quiet(g, g')
    ensures HistoryOk(nodes, g') && OwnVotes(g')
    ensures forall t: StepId :: Grows(nodes, g, g', t)
  {
    forall t: StepId, id | id in At(g'.started, t) ensures Chose(g', t, id.node, id) {
      assert Chose(g, t, id.node, id);
    }
  }

  lemma QuietNodes(nodes: set<NodeId>, g: System, g': System, n: NodeId)
    requires NodesOk(nodes, g) && Quiet(g, g') && (forall t: StepId :: Grows(nodes, g, g', t))
    requires forall m :: m in g.nodes && m != n ==> g'.nodes[m] == g.nodes[m]
    requires n in g'.nodes ==> NodeOk(nodes, g', n, g'.nodes[n])
    ensures NodesOk(nodes, g')
  {
    forall m | m in g'.nodes ensures NodeOk(nodes, g', m, g'.nodes[m]) {
      if m != n {
        NodeKept(nodes, g, g', m, g.nodes[m]);
      }
    }
  }

  lemma ExecutedNode(nodes: set<NodeId>, g: System, n: NodeId, nd: Node, nd': Node)
    requires NodeOk(nodes, g, n, nd) && nd.table.cur in nd.table.steps
    requires nd.table.steps[nd.table.cur].state == Completed
    requires nd'.table == Advance(nd.table) && nd'.log == nd.log + nd.table.steps[nd.table.cur].msgs
    ensures NodeOk(nodes, g, n, nd')
  {
    assert SlotOk(nodes, g, nd.table.cur, nd.table.steps[nd.table.cur]);
  }

  lemma ExecQuiet(g: System, n: NodeId)
    requires Enabled(g, Exec(n))
    ensures Quiet(g, Execute(g, n))
  {
  }

  lemma ExecKeeps(nodes: set<NodeId>, g: System, n: NodeId)
    requires Inv(nodes, g) && Enabled(g, Exec(n))
    ensures Inv(nodes, Execute(g, n))
  {
    var g' := Execute(g, n);
    ExecQuiet(g, n);
    QuietHistory(nodes, g, g');
    assert NetOk(nodes, g') by {
      NetKept(nodes, g, g', n, 0, None);
    }
    assert NodeOk(nodes, g', n, g'.nodes[n]) by {
      assert NodeOk(nodes, g, n, g.nodes[n]);
      ExecutedNode(nodes, g, n, g.nodes[n], g'.nodes[n]);
      NodeKept(nodes, g, g', n, g'.nodes[n]);
    }
    QuietNodes(nodes, g, g', n);
  }

  lemma LoseKeeps(nodes: set<NodeId>, g: System, p: Packet)
    requires Inv(nodes, g)
    ensures Inv(nodes, g.(net := g.net - {p}))
  {
    var g' := g.(net := g.net - {p});
    QuietHistory(nodes, g, g');
    NetKept(nodes, g, g', 0, 0, None);
    if 0 in g.nodes {
      NodeKept(nodes, g, g', 0, g.nodes[0]);
    }
    QuietNodes(nodes, g, g', 0);
  }

  lemma StepKeeps(nodes: set<NodeId>, g: System, a: Action)
    requires Inv(nodes, g) && Enabled(g, a)
    ensures Inv(nodes, Do(nodes, g, a))
  {
    match a
    case Apply(n, msg) => ApplyKeeps(nodes, g, n, msg);
    case Deliver(p, keep) =>
      ReceiveKeeps(nodes, g, p.dst, p.step, p.body);
      LoseKeeps(nodes, Receive(nodes, g, p.dst, p.step, p.body), p);
    case Drop(p) => LoseKeeps(nodes, g, p);
    case Exec(n) => ExecKeeps(nodes, g, n);
  }

  lemma {:induction false} RunKeeps(nodes: set<NodeId>, g: System, acts: seq<Action>)
    requires Inv(nodes, g) && Legal(nodes, g, acts)
    ensures Inv(nodes, After(nodes, g, acts))
    decreases |acts|
  {
    if acts != [] {
      StepKeeps(nodes, g, acts[0]);
      RunKeeps(nodes, Do(nodes, g, acts[0]), acts[1..]);
    }
  }

  ghost function Final(nodes: set<NodeId>, acts: seq<Action>): System
    requires Legal(nodes, Start(nodes), acts)
  {
    After(nodes, Start(nodes), acts)
  }

  lemma {:induction false} Reached(nodes: set<NodeId>, acts: seq<Action>)
    requires Legal(nodes, Start(nodes), acts)
    ensures Inv(nodes, Final(nodes, acts))
  {
    RunKeeps(nodes, Start(nodes), acts);
  }

  /** Splitting a run. */
  lemma {:induction false} Split(nodes: set<NodeId>, g: System, a: seq<Action>, b: seq<Action>)
    requires Legal(nodes, g, a + b)
    ensures Legal(nodes, g, a) && Legal(nodes, After(nodes, g, a), b)
    ensures After(nodes, g, a + b) == After(nodes, After(nodes, g, a), b)
    decreases |a|
  {
    if a == [] {
      assert a + b == b;
    } else {
      assert (a + b)[0] == a[0] && (a + b)[1..] == a[1..] + b;
      Split(nodes, Do(nodes, g, a[0]), a[1..], b);
    }
  }

  /** Nodes stay and only move forward. */
  lemma Forward(nodes: set<NodeId>, g: System, a: Action)
    requires Enabled(g, a)
    ensures Do(nodes, g, a).nodes.Keys == g.nodes.Keys
    ensures forall m: NodeId, s: StepId :: Passed(g, m, s) ==> Passed(Do(nodes, g, a), m, s)
  {
    match a
    case Apply(n, msg) =>
    case Deliver(p, keep) =>
    case Drop(p) =>
    case Exec(n) =>
  }

  /** Only apply starts anything, at a step its node has not passed. */
  lemma StartedAt(nodes: set<NodeId>, g: System, a: Action, s: StepId)
    requires Enabled(g, a)
    ensures At(Do(nodes, g, a).started, s) == At(g.started, s) || (a.Apply? && s == g.nodes[a.n].table.next)
  {
  }

  lemma ClosedStep(nodes: set<NodeId>, g: System, a: Action, s: StepId)
    requires Enabled(g, a) && Closed(nodes, g, s) && g.nodes.Keys == nodes
    ensures Closed(nodes, Do(nodes, g, a), s) && At(Do(nodes, g, a).started, s) == At(g.started, s)
  {
    assert Closed(nodes, Do(nodes, g, a), s) by {
      Forward(nodes, g, a);
    }
    StartedAt(nodes, g, a, s);
    assert a.Apply? ==> Passed(g, a.n, s);
  }

  lemma {:induction false} ClosedRun(nodes: set<NodeId>, g: System, acts: seq<Action>, s: StepId)
    requires Legal(nodes, g, acts) && Closed(nodes, g, s) && g.nodes.Keys == nodes
    ensures At(After(nodes, g, acts).started, s) == At(g.started, s)
    decreases |acts|
  {
    if acts != [] {
      ClosedStep(nodes, g, acts[0], s);
      Forward(nodes, g, acts[0]);
      ClosedRun(nodes, Do(nodes, g, acts[0]), acts[1..], s);
    }
  }

  /** Whatever any node commits for a step, at any time of the run, is the MsgId-ordered list of everything
      that is ever started there. */
  lemma {:induction false} CommitIsBatch(nodes: set<NodeId>, a: seq<Action>, b: seq<Action>, n: NodeId, s: StepId)
    requires Legal(nodes, Start(nodes), a + b)
    ensures Legal(nodes, Start(nodes), a)
    ensures var g := Final(nodes, a);
            n in g.nodes && s in g.nodes[n].table.steps && g.nodes[n].table.steps[s].state == Completed ==>
              g.nodes[n].table.steps[s].msgs == Ordered(At(Final(nodes, a + b).started, s))
    ensures forall p :: p in Final(nodes, a).net && p.step == s && p.body.Commit? ==>
              p.body.msgs == Ordered(At(Final(nodes, a + b).started, s))
  {
    Split(nodes, Start(nodes), a, b);
    Reached(nodes, a);
    var g := Final(nodes, a);
    if Closed(nodes, g, s) {
      ClosedRun(nodes, g, b, s);
    }
    if n in g.nodes && s in g.nodes[n].table.steps {
      assert NodeOk(nodes, g, n, g.nodes[n]);
      assert SlotOk(nodes, g, s, g.nodes[n].table.steps[s]);
    }
    forall p | p in g.net && p.step == s && p.body.Commit?
      ensures p.body.msgs == Ordered(At(Final(nodes, a + b).started, s))
    {
      assert BodyOk(nodes, g, p.step, p.body);
    }
  }

  lemma LogOf(nodes: set<NodeId>, g: System, n: NodeId)
    requires NodesOk(nodes, g) && n in nodes
    ensures n in g.nodes && g.nodes[n].log == LogUpTo(g.started, g.nodes[n].table.cur)
  {
    assert NodeOk(nodes, g, n, g.nodes[n]);
  }

  /** The older protocol keeps the same promise: prefix-comparable logs of the batches started. */
  lemma {:induction false} LogAgreement(nodes: set<NodeId>, acts: seq<Action>, n: NodeId, m: NodeId)
    requires Legal(nodes, Start(nodes), acts) && n in nodes && m in nodes
    ensures var g := Final(nodes, acts);
            && n in g.nodes && m in g.nodes
            && g.nodes[n].log == LogUpTo(g.started, g.nodes[n].table.cur)
            && (g.nodes[n].log <= g.nodes[m].log || g.nodes[m].log <= g.nodes[n].log)
            && Distinct(g.nodes[n].log)
  {
    Reached(nodes, acts);
    var g := Final(nodes, acts);
    LogOf(nodes, g, n);
    LogOf(nodes, g, m);
    var i, j := g.nodes[n].table.cur, g.nodes[m].table.cur;
    LogDistinct(g.started, i, g.applied);
    if i <= j {
      LogPrefix(g.started, i, j);
    } else {
      LogPrefix(g.started, j, i);
    }
  }
}
