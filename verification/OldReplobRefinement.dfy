/** The methods of the older protocol's object are runs of the older protocol's system. */
module OldReplobRefinement {
  import opened Types
  import opened BatchLog
  import opened PhantomTable
  import opened OldReplobSpec
  import opened OldReplobObject
  import opened OldReplobLog

  /** Node n goes on executing for as long as its head is finished. */
  function Execs(n: NodeId, k: nat): seq<Action> {
    seq(k, _ => Exec(n))
  }

  function Become(g: System, n: NodeId, t: Table<Slot>, log: seq<Entry>): System
    requires n in g.nodes
  {
    g.(nodes := g.nodes[n := g.nodes[n].(table := t, log := log)])
  }

  lemma DrainedOnce(t: Table<Slot>, log: seq<Entry>, t': Table<Slot>, log': seq<Entry>)
    requires Drained(t, log, t', log') && t.cur < t'.cur
    ensures Finished(t, t.cur) && Drained(Advance(t), log + t.steps[t.cur].msgs, t', log')
  {
    assert Finished(t, t.cur);
    BatchesSplit(t.steps, t.cur, t.cur, t'.cur);
    BatchesFrame(t.steps, Advance(t).steps, t.cur + 1, t'.cur);
    Join(log, t.steps[t.cur].msgs, Batches(t.steps, t.cur + 1, t'.cur));
    forall s | t.cur < s < t'.cur ensures Finished(Advance(t), s) {
      assert Finished(t, s);
    }
  }

  lemma NothingDrained(t: Table<Slot>, log: seq<Entry>, t': Table<Slot>, log': seq<Entry>)
    requires Drained(t, log, t', log') && t.cur == t'.cur
    ensures t' == t && log' == log
  {
    assert t'.steps == t.steps;
    assert Batches(t.steps, t.cur, t.cur) == [];
  }

  lemma ExecBecomes(nodes: set<NodeId>, g: System, n: NodeId)
    requires n in g.nodes && Finished(g.nodes[n].table, g.nodes[n].table.cur)
    ensures var t, log := g.nodes[n].table, g.nodes[n].log;
            Enabled(g, Exec(n)) && Do(nodes, g, Exec(n)) == Become(g, n, Advance(t), log + t.steps[t.cur].msgs)
  {
  }

  lemma OneMoreExec(nodes: set<NodeId>, g: System, n: NodeId, k: nat, g1: System)
    requires Enabled(g, Exec(n)) && Do(nodes, g, Exec(n)) == g1 && Legal(nodes, g1, Execs(n, k))
    ensures Legal(nodes, g, Execs(n, k + 1)) && After(nodes, g, Execs(n, k + 1)) == After(nodes, g1, Execs(n, k))
  {
    assert Execs(n, k + 1)[1..] == Execs(n, k);
  }

  lemma BecomeTwice(g: System, n: NodeId, t: Table<Slot>, log: seq<Entry>, t': Table<Slot>, log': seq<Entry>)
    requires n in g.nodes
    ensures Become(Become(g, n, t, log), n, t', log') == Become(g, n, t', log')
  {
    assert Become(Become(g, n, t, log), n, t', log').nodes == Become(g, n, t', log').nodes;
  }

  /** What tryProcess does to a node is a run of single executions. */
  lemma {:induction false} DrainIsExecs(nodes: set<NodeId>, g: System, n: NodeId, t': Table<Slot>, log': seq<Entry>)
    requires n in g.nodes && Drained(g.nodes[n].table, g.nodes[n].log, t', log')
    ensures var acts := Execs(n, t'.cur - g.nodes[n].table.cur);
            Legal(nodes, g, acts) && After(nodes, g, acts) == Become(g, n, t', log')
    decreases t'.cur - g.nodes[n].table.cur
  {
    var t, log := g.nodes[n].table, g.nodes[n].log;
    if t.cur == t'.cur {
      NothingDrained(t, log, t', log');
      assert Become(g, n, t, log).nodes == g.nodes;
    } else {
      DrainedOnce(t, log, t', log');
      ExecBecomes(nodes, g, n);
      var t1, log1 := Advance(t), log + t.steps[t.cur].msgs;
      var g1 := Become(g, n, t1, log1);
      assert g1.nodes[n].table == t1 && g1.nodes[n].log == log1;
      DrainIsExecs(nodes, g1, n, t', log');
      OneMoreExec(nodes, g, n, t'.cur - t1.cur, g1);
      BecomeTwice(g, n, t1, log1, t', log');
    }
  }

  /** The handled message before any execution. */
  lemma HandleIsReceive(nodes: set<NodeId>, g: System, n: NodeId, s: StepId, body: Body)
    requires n in g.nodes
    ensures var r, g1 := Handle(g.nodes[n].table, n, s, body, |nodes|), Receive(nodes, g, n, s, body);
            && g1.nodes == g.nodes[n := g.nodes[n].(table := r.0)] && g1.net == g.net + Broadcast(nodes, n, s, r.1)
            && g1.started == g.started && g1.applied == g.applied
  {
    if Open(g.nodes[n].table, s) {
      var g0 := Recorded(g, n, s, body);
      assert g0.nodes == g.nodes && g0.net == g.net;
    } else {
      assert g.nodes == g.nodes[n := g.nodes[n].(table := g.nodes[n].table)] && g.net == g.net + {};
    }
  }

  lemma UpdateTwice(m: map<NodeId, Node>, n: NodeId, x: Node, y: Node)
    ensures m[n := x][n := y] == m[n := y]
  {
  }

  lemma Leads(nodes: set<NodeId>, g: System, a: Action, rest: seq<Action>, g1: System)
    requires Enabled(g, a) && Do(nodes, g, a) == g1 && Legal(nodes, g1, rest)
    ensures Legal(nodes, g, [a] + rest) && After(nodes, g, [a] + rest) == After(nodes, g1, rest)
  {
    assert ([a] + rest)[1..] == rest;
  }

  /** The node after the methods Vote or Commit. */
  lemma {:induction false} HandledRun(nodes: set<NodeId>, g: System, g1: System, n: NodeId, s: StepId, body: Body,
                                      t: Table<Slot>, t': Table<Slot>, log': seq<Entry>)
    requires n in g.nodes && t == Handle(g.nodes[n].table, n, s, body, |nodes|).0
    requires g1 == Receive(nodes, g, n, s, body) && Drained(t, g.nodes[n].log, t', log')
    ensures var acts := Execs(n, t'.cur - t.cur);
            && Legal(nodes, g1, acts)
            && After(nodes, g1, acts).nodes == g.nodes[n := g.nodes[n].(table := t', log := log')]
            && After(nodes, g1, acts).net
               == g.net + Broadcast(nodes, n, s, Handle(g.nodes[n].table, n, s, body, |nodes|).1)
  {
    HandleIsReceive(nodes, g, n, s, body);
    assert g1.nodes[n] == g.nodes[n].(table := t);
    DrainIsExecs(nodes, g1, n, t', log');
    UpdateTwice(g.nodes, n, g1.nodes[n], g.nodes[n].(table := t', log := log'));
  }

  /** What the methods Vote and Commit do to a node is the delivery of a message followed by executions. */
  lemma {:induction false} MessageIsSystem(nodes: set<NodeId>, g: System, p: Packet, t': Table<Slot>, log': seq<Entry>)
    requires Enabled(g, Deliver(p, true))
    requires Drained(Handle(g.nodes[p.dst].table, p.dst, p.step, p.body, |nodes|).0, g.nodes[p.dst].log, t', log')
    ensures var r := Handle(g.nodes[p.dst].table, p.dst, p.step, p.body, |nodes|);
            var acts := [Deliver(p, true)] + Execs(p.dst, t'.cur - r.0.cur);
            && Legal(nodes, g, acts)
            && After(nodes, g, acts).nodes == g.nodes[p.dst := g.nodes[p.dst].(table := t', log := log')]
            && After(nodes, g, acts).net == g.net + Broadcast(nodes, p.dst, p.step, r.1)
  {
    var t := Handle(g.nodes[p.dst].table, p.dst, p.step, p.body, |nodes|).0;
    var g1 := Receive(nodes, g, p.dst, p.step, p.body);
    HandledRun(nodes, g, g1, p.dst, p.step, p.body, t, t', log');
    Leads(nodes, g, Deliver(p, true), Execs(p.dst, t'.cur - t.cur), g1);
  }

  /** What the method Apply does to a node is the action Apply followed by executions. */
  lemma {:induction false} ApplyIsSystem(nodes: set<NodeId>, g: System, n: NodeId, msg: Msg, t': Table<Slot>,
                                         log': seq<Entry>)
    requires n in g.nodes
    requires Drained(Applied(nodes, g.nodes[n], n, msg).0, g.nodes[n].log, t', log')
    ensures var r, s := Applied(nodes, g.nodes[n], n, msg), g.nodes[n].table.next;
            var acts := [Apply(n, msg)] + Execs(n, t'.cur - r.0.cur);
            && Legal(nodes, g, acts)
            && After(nodes, g, acts).nodes == g.nodes[n := Node(t', g.nodes[n].ids + 1, log')]
            && After(nodes, g, acts).net == g.net + Broadcast(nodes, n, s, r.1)
  {
    var s, t := g.nodes[n].table.next, Applied(nodes, g.nodes[n], n, msg).0;
    var g0, body := Announce(g, n, msg), Vote(MsgId(n, g.nodes[n].ids), msg, n);
    AnnounceIs(g, n, msg);
    AppliedRun(nodes, g, g0, n, s, body, t, t', log');
    Leads(nodes, g, Apply(n, msg), Execs(n, t'.cur - t.cur), Receive(nodes, g0, n, s, body));
  }

  lemma AnnounceIs(g: System, n: NodeId, msg: Msg)
    requires n in g.nodes
    ensures var g0, nd := Announce(g, n, msg), g.nodes[n];
            && g0.net == g.net
            && g0.nodes
               == g.nodes[n := Node(Table(nd.table.next + 1, nd.table.cur, nd.table.steps), nd.ids + 1, nd.log)]
  {
  }

  lemma {:induction false} AppliedRun(nodes: set<NodeId>, g: System, g0: System, n: NodeId, s: StepId, body: Body,
                                      t: Table<Slot>, t': Table<Slot>, log': seq<Entry>)
    requires n in g.nodes && n in g0.nodes && g0.nodes == g.nodes[n := g0.nodes[n]] && g0.net == g.net
    requires t == Handle(g0.nodes[n].table, n, s, body, |nodes|).0 && Drained(t, g0.nodes[n].log, t', log')
    ensures var acts, g1 := Execs(n, t'.cur - t.cur), Receive(nodes, g0, n, s, body);
            && Legal(nodes, g1, acts)
            && After(nodes, g1, acts).nodes == g.nodes[n := Node(t', g0.nodes[n].ids, log')]
            && After(nodes, g1, acts).net
               == g.net + Broadcast(nodes, n, s, Handle(g0.nodes[n].table, n, s, body, |nodes|).1)
  {
    HandledRun(nodes, g0, Receive(nodes, g0, n, s, body), n, s, body, t, t', log');
    UpdateTwice(g.nodes, n, g0.nodes[n], Node(t', g0.nodes[n].ids, log'));
  }

  /** The self vote of the method Apply, before the drain. */
  ghost function Applied(nodes: set<NodeId>, nd: Node, n: NodeId, msg: Msg): (Table<Slot>, Option<Body>) {
    var t := nd.table;
    Handle(Table(t.next + 1, t.cur, t.steps), n, t.next, Vote(MsgId(n, nd.ids), msg, n), |nodes|)
  }
}
