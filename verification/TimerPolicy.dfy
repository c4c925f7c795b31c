/** How long must a timer wait?  With everybody live, agreement holds in every run exactly when no timer can
    go on with fewer than all nodes. */
module TimerPolicy {
  import opened Types
  import opened BatchLog
  import opened VotingSpec
  import opened PhantomTable
  import opened ReplicatedLog
  import opened Agreement

  ghost predicate Everybody(k: Config) {
    WfConfig(k) && forall s: StepId :: k.live(s) == k.nodes
  }

  /** No two nodes ever hold different batches for one step. */
  ghost predicate Agree(k: Config) {
    forall acts, n, m, s: StepId, c, d ::
      Legal(k, Start(k), acts)
      && Committed(After(k, Start(k), acts), n, s, c) && Committed(After(k, Start(k), acts), m, s, d)
      ==> c == d
  }

  /** At step s a timer may fire at nodes that have heard v only, not everybody, and v may go on alone. */
  ghost predicate Alone(k: Config, s: StepId, v: set<NodeId>) {
    k.waits(s) <= v && v < k.nodes && Consistent(v, k.nodes)
  }

  // ------------------------------------------------------------------ building a run

  lemma {:induction false} Join(k: Config, g: System, a: seq<Action>, b: seq<Action>)
    requires Legal(k, g, a) && Legal(k, After(k, g, a), b)
    ensures Legal(k, g, a + b) && After(k, g, a + b) == After(k, After(k, g, a), b)
    decreases |a|
  {
    if a == [] {
      assert a + b == b;
    } else {
      Join(k, Do(k, g, a[0]), a[1..], b);
      assert (a + b)[0] == a[0] && (a + b)[1..] == a[1..] + b;
    }
  }

  lemma Prepend(k: Config, g: System, a: Action, b: seq<Action>)
    requires Enabled(k, g, a) && Legal(k, Do(k, g, a), b)
    ensures Legal(k, g, [a] + b) && After(k, g, [a] + b) == After(k, Do(k, g, a), b)
  {
    assert ([a] + b)[1..] == b;
  }

  /** Nothing is lost, and no packet is delivered twice. */
  ghost predicate OnceEach(acts: seq<Action>) {
    forall a :: a in acts ==> !a.Drop? && (a.Deliver? ==> !a.keep)
  }

  /** A vote to x about the given membership. */
  predicate VoteTo(p: Packet, x: NodeId, s: StepId, nodes: set<NodeId>) {
    p.dst == x && p.step == s && p.body.Vote? && p.body.nodes == nodes
  }

  /** Only node x has moved, and it has taken from the net only votes to it about the given membership. */
  ghost predicate Only(g: System, g': System, x: NodeId, s: StepId, nodes: set<NodeId>) {
    g'.nodes.Keys == g.nodes.Keys
    && (forall p :: p in g.net ==> p in g'.net || VoteTo(p, x, s, nodes))
    && forall m :: m in g.nodes && m != x ==> g'.nodes[m] == g.nodes[m]
  }

  /** Node n runs, has executed nothing, and has slot w at step s. */
  ghost predicate Has(g: System, n: NodeId, s: StepId, w: Slot) {
    n in g.nodes && !g.nodes[n].stopped && g.nodes[n].table.cur == 0
    && s in g.nodes[n].table.steps && g.nodes[n].table.steps[s] == w
  }

  /** The vote body of node n is on its way to everybody else. */
  ghost predicate Sent(k: Config, g: System, n: NodeId, s: StepId, body: Body) {
    forall d :: d in k.nodes && d != n ==> Packet(d, s, body) in g.net
  }

  function Own(n: NodeId, s: StepId): Carry {
    map[MsgId(n, s) := 0]
  }

  /** Node n has started step s and heard nobody. */
  ghost predicate Ready(k: Config, g: System, n: NodeId, s: StepId) {
    Has(g, n, s, Slot(Voted, k.nodes, {n}, Own(n, s))) && s in g.nodes[n].armed
  }

  /** The first vote of node n is on its way to the nodes ds. */
  ghost predicate FirstVote(k: Config, g: System, n: NodeId, s: StepId, ds: set<NodeId>) {
    forall d :: d in ds && d != n ==> Packet(d, s, Vote(Own(n, s), n, k.nodes)) in g.net
  }

  ghost predicate AllReady(k: Config, g: System, ns: set<NodeId>, s: StepId) {
    forall n :: n in ns ==> Ready(k, g, n, s)
  }

  ghost predicate FirstVotes(k: Config, g: System, ns: set<NodeId>, s: StepId, ds: set<NodeId>) {
    forall n :: n in ns ==> FirstVote(k, g, n, s, ds)
  }

  /** What other nodes take from the net does not matter. */
  lemma VotesStay(k: Config, g: System, g': System, ns: set<NodeId>, s: StepId, ds: set<NodeId>, ds': set<NodeId>)
    requires FirstVotes(k, g, ns, s, ds) && ds' <= ds
    requires forall p :: p in g.net && p.dst in ds' ==> p in g'.net
    ensures FirstVotes(k, g', ns, s, ds')
  {
    forall n | n in ns ensures FirstVote(k, g', n, s, ds') {
      assert FirstVote(k, g, n, s, ds);
    }
  }

  // ------------------------------------------------------------------ everybody starts

  /** Only node x has moved, and nothing has left the net. */
  ghost predicate OnlyAdds(g: System, g': System, x: NodeId) {
    g'.nodes.Keys == g.nodes.Keys && g.net <= g'.net
    && forall m :: m in g.nodes && m != x ==> g'.nodes[m] == g.nodes[m]
  }

  /** Node n has started the steps below t and nothing else has happened to it. */
  ghost predicate At0(g: System, n: NodeId, t: StepId) {
    n in g.nodes && !g.nodes[n].stopped && g.nodes[n].ids == t
    && g.nodes[n].table.cur == 0 && g.nodes[n].table.next == t && Wf(g.nodes[n].table)
  }

  lemma OwnVote(k: Config, n: NodeId, s: StepId)
    requires n in k.nodes && k.nodes != {n}
    ensures OnVote(FRESH, n, Own(n, s), n, k.nodes)
         == (Slot(Voted, k.nodes, {n}, Own(n, s)), Some(Vote(Own(n, s), n, k.nodes)))
  {
    assert Merge(map[], Own(n, s)) == Own(n, s);
    assert {} + {n} + {n} == {n};
  }

  lemma StartOne(k: Config, g: System, n: NodeId, t: StepId)
    requires Everybody(k) && n in k.nodes && k.nodes != {n} && At0(g, n, t)
    ensures Enabled(k, g, Apply(n, 0))
    ensures var g' := Do(k, g, Apply(n, 0));
            OnlyAdds(g, g', n) && At0(g', n, t + 1) && Ready(k, g', n, t) && FirstVote(k, g', n, t, k.nodes)
  {
    OwnVote(k, n, t);
    StartsFresh(k, g, n, 0);
    assert n in k.live(t);
  }

  lemma {:induction false} StartNode(k: Config, g: System, n: NodeId, t: StepId, s: StepId) returns (acts: seq<Action>)
    requires Everybody(k) && n in k.nodes && k.nodes != {n} && At0(g, n, t) && t <= s
    ensures Legal(k, g, acts) && OnceEach(acts)
    ensures var g' := After(k, g, acts);
            OnlyAdds(g, g', n) && Ready(k, g', n, s) && FirstVote(k, g', n, s, k.nodes)
    decreases s - t
  {
    StartOne(k, g, n, t);
    var g1 := Do(k, g, Apply(n, 0));
    var rest := [];
    if t < s {
      rest := StartNode(k, g1, n, t + 1, s);
    }
    Prepend(k, g, Apply(n, 0), rest);
    acts := [Apply(n, 0)] + rest;
  }

  lemma {:induction false} StartAll(k: Config, g: System, todo: set<NodeId>, s: StepId) returns (acts: seq<Action>)
    requires Everybody(k) && todo <= k.nodes && (forall n :: n in k.nodes ==> k.nodes != {n})
    requires forall n :: n in todo ==> At0(g, n, 0)
    requires AllReady(k, g, k.nodes - todo, s) && FirstVotes(k, g, k.nodes - todo, s, k.nodes)
    ensures Legal(k, g, acts) && OnceEach(acts)
    ensures var g' := After(k, g, acts); AllReady(k, g', k.nodes, s) && FirstVotes(k, g', k.nodes, s, k.nodes)
    decreases todo
  {
    acts := [];
    if todo == {} {
      assert k.nodes - todo == k.nodes;
    } else {
      var n :| n in todo;
      var a := StartNode(k, g, n, 0, s);
      var g1 := After(k, g, a);
      OneMoreReady(k, g, g1, n, k.nodes - todo, s);
      assert k.nodes - (todo - {n}) == (k.nodes - todo) + {n};
      var b := StartAll(k, g1, todo - {n}, s);
      Join(k, g, a, b);
      acts := a + b;
    }
  }

  lemma OneMoreReady(k: Config, g: System, g': System, n: NodeId, ns: set<NodeId>, s: StepId)
    requires AllReady(k, g, ns, s) && FirstVotes(k, g, ns, s, k.nodes) && n !in ns
    requires OnlyAdds(g, g', n) && Ready(k, g', n, s) && FirstVote(k, g', n, s, k.nodes)
    ensures AllReady(k, g', ns + {n}, s) && FirstVotes(k, g', ns + {n}, s, k.nodes)
  {
    VotesStay(k, g, g', ns, s, k.nodes, k.nodes);
    forall m | m in ns ensures Ready(k, g', m, s) {
      assert Ready(k, g, m, s);
    }
  }

  // ------------------------------------------------------------------ hearing votes

  /** A vote of each node of `todo` is on its way to x. */
  ghost predicate Mail(g: System, x: NodeId, s: StepId, nodes: set<NodeId>, todo: set<NodeId>,
                       mail: map<NodeId, Carry>)
  {
    todo <= mail.Keys && forall z :: z in todo ==> Packet(x, s, Vote(mail[z], z, nodes)) in g.net
  }

  ghost predicate Without(id: MsgId, c: Carry, todo: set<NodeId>, mail: map<NodeId, Carry>) {
    id !in c && forall z :: z in todo && z in mail ==> id !in mail[z]
  }

  lemma HearOne(k: Config, g: System, x: NodeId, s: StepId, w: Slot, z: NodeId, c: Carry)
    requires Has(g, x, s, w) && w.state == Voted && x in w.voted && w.nodes != {}
    requires Packet(x, s, Vote(c, z, w.nodes)) in g.net
    ensures var p := Packet(x, s, Vote(c, z, w.nodes));
            && Enabled(k, g, Deliver(p, false))
            && var g' := Do(k, g, Deliver(p, false));
               Only(g, g', x, s, w.nodes) && g'.nodes[x].armed == g.nodes[x].armed
               && (forall q :: q in g.net && q != p ==> q in g'.net)
               && var heard := w.voted + {z};
                  var w' := Slot(if heard == w.nodes then Completed else Voted, w.nodes, heard, Merge(w.carries, c));
                  Has(g', x, s, w')
  {
    assert w.voted + {z} + {x} == w.voted + {z};
  }

  /** x hears the nodes of todo one after another, and finishes the step when they are all it lacked. */
  lemma {:induction false} Hear(k: Config, g: System, x: NodeId, s: StepId, w: Slot, todo: set<NodeId>,
                                mail: map<NodeId, Carry>, id: MsgId) returns (acts: seq<Action>, c: Carry)
    requires Has(g, x, s, w) && w.state == Voted && x in w.voted
    requires w.voted + todo <= w.nodes && w.voted * todo == {} && w.voted != w.nodes
    requires Mail(g, x, s, w.nodes, todo, mail)
    ensures Legal(k, g, acts) && OnceEach(acts)
    ensures var g' := After(k, g, acts);
            Only(g, g', x, s, w.nodes) && g'.nodes[x].armed == g.nodes[x].armed
            && Has(g', x, s, Slot(if w.voted + todo == w.nodes then Completed else Voted, w.nodes, w.voted + todo, c))
    ensures id in w.carries ==> id in c
    ensures Without(id, w.carries, todo, mail) ==> id !in c
    decreases todo
  {
    if todo == {} {
      assert w.voted + todo == w.voted;
      acts, c := [], w.carries;
    } else {
      var z :| z in todo;
      var a := Deliver(Packet(x, s, Vote(mail[z], z, w.nodes)), false);
      HearOne(k, g, x, s, w, z, mail[z]);
      var g1, rest := Do(k, g, a), todo - {z};
      assert w.voted + {z} + rest == w.voted + todo;
      if rest == {} {
        assert w.voted + {z} == w.voted + todo;
        Prepend(k, g, a, []);
        acts, c := [a] + [], Merge(w.carries, mail[z]);
      } else {
        var y :| y in rest;
        assert y !in w.voted + {z} && y in w.nodes;
        var w1 := Slot(Voted, w.nodes, w.voted + {z}, Merge(w.carries, mail[z]));
        var b;
        b, c := Hear(k, g1, x, s, w1, rest, mail, id);
        Prepend(k, g, a, b);
        acts := [a] + b;
      }
    }
  }

  // ------------------------------------------------------------------ going on alone

  /** Node x has gone on with v and heard nobody since. */
  ghost predicate Fired(k: Config, g: System, x: NodeId, s: StepId, v: set<NodeId>, c: Carry) {
    Has(g, x, s, Slot(if v == {x} then Completed else Voted, v, {x}, c))
    && (v != {x} ==> Sent(k, g, x, s, Vote(c, x, v)))
  }

  lemma FireOne(k: Config, g: System, x: NodeId, s: StepId, v: set<NodeId>, c: Carry)
    requires Everybody(k) && Alone(k, s, v) && x in v
    requires Has(g, x, s, Slot(Voted, k.nodes, v, c)) && s in g.nodes[x].armed
    ensures Enabled(k, g, Timeout(x, s))
    ensures var g' := Do(k, g, Timeout(x, s)); Only(g, g', x, s, k.nodes) && Fired(k, g', x, s, v, c)
  {
    var w := Slot(Voted, k.nodes, v, c);
    GoesOn(k, x, v, c);
    assert x in k.live(s);
    assert Do(k, g, Timeout(x, s)) == Store(k, Disarm(g, x, s), x, s, OnVote(w, x, c, x, v));
  }

  lemma GoesOn(k: Config, x: NodeId, v: set<NodeId>, c: Carry)
    requires v < k.nodes && x in v
    ensures OnVote(Slot(Voted, k.nodes, v, c), x, c, x, v)
         == if v == {x} then (Slot(Completed, v, {x}, c), Some(Commit(c)))
            else (Slot(Voted, v, {x}, c), Some(Vote(c, x, v)))
  {
    assert k.nodes * v == v;
    assert {} + {x} + {x} == {x};
    assert Merge(c, c) == c;
  }

  /** x hears v, and nobody else, and its timer fires. */
  lemma {:induction false} GoAlone(k: Config, g: System, x: NodeId, s: StepId, v: set<NodeId>, id: MsgId)
    returns (acts: seq<Action>, c: Carry)
    requires Everybody(k) && Alone(k, s, v) && x in v && id.node !in v
    requires Ready(k, g, x, s) && FirstVotes(k, g, v, s, {x})
    ensures Legal(k, g, acts) && OnceEach(acts)
    ensures var g' := After(k, g, acts); Only(g, g', x, s, k.nodes) && Fired(k, g', x, s, v, c) && id !in c
  {
    var mail := map z | z in v :: Own(z, s);
    var todo := v - {x};
    assert {x} + todo == v;
    forall z | z in todo ensures Packet(x, s, Vote(mail[z], z, k.nodes)) in g.net {
      assert FirstVote(k, g, z, s, {x});
    }
    var w := Slot(Voted, k.nodes, {x}, Own(x, s));
    var a;
    a, c := Hear(k, g, x, s, w, todo, mail, id);
    assert Without(id, w.carries, todo, mail);
    var g1 := After(k, g, a);
    FireOne(k, g1, x, s, v, c);
    Prepend(k, g1, Timeout(x, s), []);
    Join(k, g, a, [Timeout(x, s)] + []);
    acts := a + ([Timeout(x, s)] + []);
  }

  /** The nodes in mail have gone on alone with what mail says, which misses id. */
  ghost predicate AllFired(k: Config, g: System, s: StepId, v: set<NodeId>, mail: map<NodeId, Carry>, id: MsgId) {
    forall z :: z in mail ==> Fired(k, g, z, s, v, mail[z]) && id !in mail[z]
  }

  /** The nodes of todo have yet to go on, and what they need is on its way to them; the others have. */
  ghost predicate Progressing(k: Config, g: System, todo: set<NodeId>, s: StepId, v: set<NodeId>, id: MsgId,
                              mail: map<NodeId, Carry>)
  {
    todo <= v && mail.Keys == v - todo
    && AllReady(k, g, todo, s) && FirstVotes(k, g, v, s, todo) && AllFired(k, g, s, v, mail, id)
  }

  lemma {:induction false} OneGoesAlone(k: Config, g: System, x: NodeId, todo: set<NodeId>, s: StepId, v: set<NodeId>,
                                        id: MsgId, mail: map<NodeId, Carry>) returns (acts: seq<Action>, c: Carry)
    requires Everybody(k) && Alone(k, s, v) && x in todo && id.node !in v && Progressing(k, g, todo, s, v, id, mail)
    ensures Legal(k, g, acts) && OnceEach(acts)
    ensures var g' := After(k, g, acts); Others(g, g', v) && Progressing(k, g', todo - {x}, s, v, id, mail[x := c])
  {
    assert Ready(k, g, x, s);
    VotesStay(k, g, g, v, s, todo, {x});
    acts, c := GoAlone(k, g, x, s, v, id);
    var g1 := After(k, g, acts);
    OneMoreFired(k, g, g1, x, s, v, mail, id, c);
    OthersReady(k, g, g1, x, todo, s);
    VotesStay(k, g, g1, v, s, todo, todo - {x});
    assert mail[x := c].Keys == v - (todo - {x});
  }

  /** All of v go on alone. */
  lemma {:induction false} AllGoAlone(k: Config, g: System, todo: set<NodeId>, s: StepId, v: set<NodeId>, id: MsgId,
                                      mail: map<NodeId, Carry>) returns (acts: seq<Action>, mail': map<NodeId, Carry>)
    requires Everybody(k) && Alone(k, s, v) && id.node !in v && Progressing(k, g, todo, s, v, id, mail)
    ensures Legal(k, g, acts) && OnceEach(acts) && mail'.Keys == v
    ensures var g' := After(k, g, acts); Others(g, g', v) && AllFired(k, g', s, v, mail', id)
    decreases todo
  {
    if todo == {} {
      acts, mail' := [], mail;
    } else {
      var x :| x in todo;
      var a, c := OneGoesAlone(k, g, x, todo, s, v, id, mail);
      var g1 := After(k, g, a);
      var b;
      b, mail' := AllGoAlone(k, g1, todo - {x}, s, v, id, mail[x := c]);
      OthersJoin(g, g1, After(k, g1, b), v);
      Join(k, g, a, b);
      acts := a + b;
    }
  }

  lemma OthersJoin(g: System, g1: System, g2: System, v: set<NodeId>)
    requires Others(g, g1, v) && Others(g1, g2, v)
    ensures Others(g, g2, v)
  {
  }

  /** Nobody outside v has moved or lost a packet. */
  ghost predicate Others(g: System, g': System, v: set<NodeId>) {
    g'.nodes.Keys == g.nodes.Keys
    && (forall p :: p in g.net && p.dst !in v ==> p in g'.net)
    && forall m :: m in g.nodes && m !in v ==> g'.nodes[m] == g.nodes[m]
  }

  lemma OneMoreFired(k: Config, g: System, g': System, x: NodeId, s: StepId, v: set<NodeId>,
                     mail: map<NodeId, Carry>, id: MsgId, c: Carry)
    requires AllFired(k, g, s, v, mail, id) && Only(g, g', x, s, k.nodes) && x !in mail && v != k.nodes
    requires Fired(k, g', x, s, v, c) && id !in c
    ensures AllFired(k, g', s, v, mail[x := c], id)
  {
    forall z | z in mail ensures Fired(k, g', z, s, v, mail[z]) && id !in mail[z] {
      assert Fired(k, g, z, s, v, mail[z]);
    }
  }

  lemma OthersReady(k: Config, g: System, g': System, x: NodeId, ns: set<NodeId>, s: StepId)
    requires AllReady(k, g, ns, s) && Only(g, g', x, s, k.nodes)
    ensures AllReady(k, g', ns - {x}, s)
  {
    forall z | z in ns - {x} ensures Ready(k, g', z, s) {
      assert Ready(k, g, z, s);
    }
  }

  /** Having gone on alone, v commits without the rest. */
  lemma {:induction false} AloneCommits(k: Config, g: System, x: NodeId, s: StepId, v: set<NodeId>, id: MsgId,
                                        mail: map<NodeId, Carry>) returns (acts: seq<Action>, c: Carry)
    requires v <= k.nodes && x in v && mail.Keys == v && AllFired(k, g, s, v, mail, id)
    ensures Legal(k, g, acts) && OnceEach(acts)
    ensures var g' := After(k, g, acts); Only(g, g', x, s, v) && Committed(g', x, s, c) && id !in c
  {
    assert Fired(k, g, x, s, v, mail[x]);
    if v == {x} {
      acts, c := [], mail[x];
    } else {
      var todo := v - {x};
      assert {x} + todo == v;
      forall z | z in todo ensures Packet(x, s, Vote(mail[z], z, v)) in g.net {
        assert Fired(k, g, z, s, v, mail[z]);
      }
      acts, c := Hear(k, g, x, s, Slot(Voted, v, {x}, mail[x]), todo, mail, id);
    }
  }

  /** y hears everybody's first vote and commits its own message among all others. */
  lemma {:induction false} AllCommits(k: Config, g: System, y: NodeId, s: StepId) returns (acts: seq<Action>, d: Carry)
    requires y in k.nodes && k.nodes != {y} && Ready(k, g, y, s)
    requires FirstVotes(k, g, k.nodes, s, {y})
    ensures Legal(k, g, acts) && OnceEach(acts)
    ensures var g' := After(k, g, acts); Only(g, g', y, s, k.nodes) && Committed(g', y, s, d) && MsgId(y, s) in d
  {
    var mail := map z | z in k.nodes :: Own(z, s);
    var todo := k.nodes - {y};
    assert {y} + todo == k.nodes;
    forall z | z in todo ensures Packet(y, s, Vote(mail[z], z, k.nodes)) in g.net {
      assert FirstVote(k, g, z, s, {y});
    }
    acts, d := Hear(k, g, y, s, Slot(Voted, k.nodes, {y}, Own(y, s)), todo, mail, MsgId(y, s));
  }

  // ------------------------------------------------------------------ the theorem

  lemma NobodyAlone(k: Config, s: StepId, v: set<NodeId>)
    requires Alone(k, s, v)
    ensures v != {} && forall n :: n in k.nodes ==> k.nodes != {n}
  {
    var y :| y in k.nodes && y !in v;
    assert v != {};
    var x :| x in v;
  }

  lemma {:induction false} SameNodes(k: Config, g: System, acts: seq<Action>)
    requires Legal(k, g, acts)
    ensures After(k, g, acts).nodes.Keys == g.nodes.Keys
    decreases |acts|
  {
    if acts != [] {
      Forward(k, g, acts[0]);
      SameNodes(k, Do(k, g, acts[0]), acts[1..]);
    }
  }

  /** The run that splits, once all have started: the nodes of v hear v, time out and exchange their new
      votes; a node outside hears everybody's first vote. */
  lemma {:induction false} SplitFrom(k: Config, g: System, s: StepId, v: set<NodeId>, x: NodeId, y: NodeId)
    returns (acts: seq<Action>, c: Carry, d: Carry)
    requires Everybody(k) && Alone(k, s, v) && x in v && y in k.nodes && y !in v
    requires AllReady(k, g, k.nodes, s) && FirstVotes(k, g, k.nodes, s, k.nodes)
    ensures Legal(k, g, acts) && OnceEach(acts)
    ensures Committed(After(k, g, acts), x, s, c) && Committed(After(k, g, acts), y, s, d) && c != d
  {
    var id := MsgId(y, s);
    assert Progressing(k, g, v, s, v, id, map[]) by {
      VotesStay(k, g, g, k.nodes, s, k.nodes, v);
    }
    var b, mail := AllGoAlone(k, g, v, s, v, id, map[]);
    var g1 := After(k, g, b);
    var e;
    e, c := AloneCommits(k, g1, x, s, v, id, mail);
    var g2 := After(k, g1, e);
    Untouched(k, g, g1, g2, x, y, s, v);
    var f;
    f, d := AllCommits(k, g2, y, s);
    Join(k, g1, e, f);
    Join(k, g, b, e + f);
    acts := b + (e + f);
  }

  /** Meanwhile nothing has happened to the node outside. */
  lemma Untouched(k: Config, g: System, g1: System, g2: System, x: NodeId, y: NodeId, s: StepId, v: set<NodeId>)
    requires x in v && y in k.nodes && y !in v && Others(g, g1, v) && Only(g1, g2, x, s, v)
    requires AllReady(k, g, k.nodes, s) && FirstVotes(k, g, k.nodes, s, k.nodes)
    ensures Ready(k, g2, y, s) && FirstVotes(k, g2, k.nodes, s, {y})
  {
    assert Ready(k, g, y, s);
    VotesStay(k, g, g2, k.nodes, s, k.nodes, {y});
  }

  lemma {:induction false} SplitRun(k: Config, s: StepId, v: set<NodeId>)
    returns (acts: seq<Action>, x: NodeId, y: NodeId, c: Carry, d: Carry)
    requires Everybody(k) && Alone(k, s, v)
    ensures Legal(k, Start(k), acts) && OnceEach(acts)
    ensures Committed(After(k, Start(k), acts), x, s, c) && Committed(After(k, Start(k), acts), y, s, d) && c != d
  {
    NobodyAlone(k, s, v);
    var a := StartAll(k, Start(k), k.nodes, s);
    y :| y in k.nodes && y !in v;
    x :| x in v;
    var b;
    b, c, d := SplitFrom(k, After(k, Start(k), a), s, v, x, y);
    Join(k, Start(k), a, b);
    acts := a + b;
  }

  lemma AloneSplits(k: Config)
    requires Everybody(k)
    ensures Sound(k) <==> forall s: StepId, v :: !Alone(k, s, v)
  {
    forall s: StepId, v ensures SplitsOff(k, s, v) <==> Alone(k, s, v) {
      assert k.live(s) == k.nodes;
    }
  }

  /** With everybody live, all nodes agree in all runs if and only if at no step a set of nodes that is not
      all of them, but all a timer waits for, may go on alone. */
  lemma AgreementIff(k: Config)
    requires Everybody(k)
    ensures Agree(k) <==> forall s: StepId, v :: !Alone(k, s, v)
  {
    AloneSplits(k);
    if s: StepId, v :| Alone(k, s, v) {
      var acts, x, y, c, d := SplitRun(k, s, v);
      assert !Agree(k);
    } else {
      forall acts, n, m, s: StepId, c, d |
        Legal(k, Start(k), acts)
        && Committed(After(k, Start(k), acts), n, s, c) && Committed(After(k, Start(k), acts), m, s, d)
        ensures c == d {
        SameNodes(k, Start(k), acts);
        ExclusionAgreement(k, acts, n, m, s, c, d);
      }
    }
  }

  /** Among three nodes or more the timers of a step must wait for everybody. */
  lemma ThreeMustWait(k: Config, s: StepId)
    requires k.waits(s) <= k.nodes && |k.nodes| >= 3
    ensures (forall v :: !Alone(k, s, v)) <==> k.nodes <= k.waits(s)
  {
    if !(k.nodes <= k.waits(s)) {
      var z :| z in k.nodes && z !in k.waits(s);
      var v := k.nodes - {z};
      assert |v| == |k.nodes| - 1;
      assert Alone(k, s, v);
    }
  }

  /** Of two nodes the timers must wait for the greater; the smaller may be alone. */
  lemma TwoMustWait(k: Config, s: StepId, x: NodeId, y: NodeId)
    requires k.nodes == {x, y} && x < y && k.waits(s) <= k.nodes
    ensures (forall v :: !Alone(k, s, v)) <==> y in k.waits(s)
  {
    assert |k.nodes| == 2;
    if y !in k.waits(s) {
      assert IsLeast(x, {x}) && IsLeast(x, k.nodes);
      assert Alone(k, s, {x});
    } else {
      forall v ensures !Alone(k, s, v) {
        if k.waits(s) <= v && v < k.nodes {
          assert v == {y};
          assert !IsLeast(y, k.nodes);
          assert !Consistent({y}, k.nodes);
        }
      }
    }
  }
}
