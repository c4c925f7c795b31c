/** One step under any timeouts: premature ones, changing memberships, disjoint memberships that
    empty `nodes_` and later refill it.  Packets arrive at most once, each node starts the step at
    most once and a start arms one one-shot timer.  Every run ends, within an explicit bound. */
module Termination {
  import opened Types
  import opened VotingSpec

  datatype Packet = Packet(dst: NodeId, body: Body)

  /** ids lists the nodes of the configuration, each once. */
  datatype Step = Step(slots: map<NodeId, Slot>, armed: set<NodeId>, failed: set<NodeId>, net: seq<Packet>)

  datatype Action =
    | Begin(n: NodeId, carries: Carry, nodes: set<NodeId>)   // any membership may be configured
    | Deliver(i: nat)
    | Drop(i: nat)
    | Fire(n: NodeId)

  ghost predicate Distinct(ids: seq<NodeId>) {
    forall i, j :: 0 <= i < j < |ids| ==> ids[i] != ids[j]
  }

  ghost function Members(ids: seq<NodeId>): set<NodeId> {
    set n | n in ids
  }

  function ToOthers(ids: seq<NodeId>, self: NodeId, body: Body): seq<Packet> {
    if ids == [] then []
    else (if ids[0] == self then [] else [Packet(ids[0], body)]) + ToOthers(ids[1..], self, body)
  }

  function Sent(ids: seq<NodeId>, self: NodeId, out: Option<Body>): seq<Packet> {
    if out.None? then [] else ToOthers(ids, self, out.value)
  }

  ghost predicate Enabled(ids: seq<NodeId>, g: Step, a: Action) {
    match a
    case Begin(n, c, nodes) => n in g.slots && n !in g.failed && g.slots[n] == FRESH && nodes <= Members(ids)
    case Deliver(i) => i < |g.net|
    case Drop(i) => i < |g.net|
    case Fire(n) => n in g.slots && n in g.armed && n !in g.failed
  }

  function Without(net: seq<Packet>, i: nat): seq<Packet>
    requires i < |net|
  {
    net[..i] + net[i + 1..]
  }

  function Store(ids: seq<NodeId>, g: Step, n: NodeId, r: (Slot, Option<Body>)): Step {
    g.(slots := g.slots[n := r.0], net := g.net + Sent(ids, n, r.1))
  }

  ghost function Do(ids: seq<NodeId>, g: Step, a: Action): Step
    requires Enabled(ids, g, a)
  {
    match a
    case Begin(n, c, nodes) =>
      Store(ids, g.(armed := g.armed + {n}), n, OnVote(FRESH, n, c, n, nodes))
    case Deliver(i) =>
      var p, g1 := g.net[i], g.(net := Without(g.net, i));
      if p.dst !in g.slots || p.dst in g.failed then g1
      else Store(ids, g1, p.dst, OnBody(g.slots[p.dst], p.dst, p.body))
    case Drop(i) => g.(net := Without(g.net, i))
    case Fire(n) =>
      var g1 := g.(armed := g.armed - {n});
      (match OnTimeout(g.slots[n], n)
       case Proceed(w, out) => Store(ids, g1, n, (w, out))
       case Fail => g1.(failed := g1.failed + {n}))
  }

  ghost predicate Legal(ids: seq<NodeId>, g: Step, acts: seq<Action>)
    decreases |acts|
  {
    acts == [] || (Enabled(ids, g, acts[0]) && Legal(ids, Do(ids, g, acts[0]), acts[1..]))
  }

  ghost function Start(ids: seq<NodeId>): Step {
    Step(map n | n in Members(ids) :: FRESH, {}, {}, [])
  }

  // ------------------------------------------------------------------ weights

  /** Powers of c + 2, c being the number of nodes. */
  function Pow(c: nat, j: nat): nat {
    if j == 0 then 1 else (c + 2) * Pow(c, j - 1)
  }

  /** A vote weighs more than the membership it may refill; a bigger membership weighs more than a
      smaller one together with a broadcast about it. */
  function NodeWeight(c: nat, k: nat): nat { Pow(c, 2 * k) }

  function VoteWeight(c: nat, k: nat): nat { Pow(c, 2 * k + 1) }

  function Top(c: nat): nat { NodeWeight(c, c) + c * VoteWeight(c, c) }

  function TimerWeight(c: nat): nat { Top(c) + 1 }

  function FreshWeight(c: nat): nat { c + 1 + Top(c) + TimerWeight(c) + 1 }

  function SlotWeight(c: nat, v: Slot): nat {
    match v.state
    case Initial => FreshWeight(c)
    case Voted => c + 1 + NodeWeight(c, |v.nodes|)
    case Completed => 0
  }

  function BodyWeight(c: nat, b: Body): nat {
    if b.Vote? then VoteWeight(c, |b.nodes|) else 1
  }

  function SentWeight(c: nat, out: Option<Body>): nat {
    if out.None? then 0 else c * BodyWeight(c, out.value)
  }

  function AtNode(c: nat, g: Step, n: NodeId): nat {
    (if n in g.slots && n !in g.failed then SlotWeight(c, g.slots[n]) else 0)
    + if n in g.armed then TimerWeight(c) else 0
  }

  function NodesWeight(c: nat, g: Step, ids: seq<NodeId>): nat {
    if ids == [] then 0 else AtNode(c, g, ids[0]) + NodesWeight(c, g, ids[1..])
  }

  function NetWeight(c: nat, net: seq<Packet>): nat {
    if net == [] then 0 else BodyWeight(c, net[0].body) + NetWeight(c, net[1..])
  }

  function Weight(ids: seq<NodeId>, g: Step): nat {
    NodesWeight(|ids|, g, ids) + NetWeight(|ids|, g.net)
  }

  lemma {:induction false} PowMonotone(c: nat, i: nat, j: nat)
    requires i <= j
    ensures 1 <= Pow(c, i) <= Pow(c, j)
  {
    if i == 0 && j == 0 {
    } else if i == j {
      PowMonotone(c, i - 1, j - 1);
      assert (c + 2) * Pow(c, i - 1) >= Pow(c, i - 1);
    } else {
      PowMonotone(c, i, j - 1);
      assert (c + 2) * Pow(c, j - 1) >= Pow(c, j - 1);
    }
  }

  lemma VoteOverNode(c: nat, k: nat)
    ensures NodeWeight(c, k) < VoteWeight(c, k)
  {
    PowMonotone(c, 0, 2 * k);
    assert (c + 2) * Pow(c, 2 * k) == c * Pow(c, 2 * k) + 2 * Pow(c, 2 * k);
  }

  lemma VoteOverSmallerVotes(c: nat, k: nat, j: nat)
    requires j < k
    ensures c * VoteWeight(c, j) < VoteWeight(c, k)
  {
    var p := VoteWeight(c, j);
    PowMonotone(c, 0, 2 * j + 1);
    PowMonotone(c, 2 * j + 2, 2 * k + 1);
    assert Pow(c, 2 * j + 2) == (c + 2) * p == c * p + 2 * p;
  }

  lemma NodeOverSmaller(c: nat, k: nat, j: nat)
    requires j < k
    ensures NodeWeight(c, j) + c * VoteWeight(c, j) <= NodeWeight(c, k)
  {
    var p := VoteWeight(c, j);
    VoteOverNode(c, j);
    PowMonotone(c, 2 * j + 2, 2 * k);
    assert Pow(c, 2 * j + 2) == (c + 2) * p == c * p + 2 * p;
  }

  lemma TopBounds(c: nat, k: nat)
    requires k <= c
    ensures NodeWeight(c, k) <= NodeWeight(c, c) && c * VoteWeight(c, k) <= c * VoteWeight(c, c)
    ensures c <= Top(c)
  {
    PowMonotone(c, 2 * k, 2 * c);
    PowMonotone(c, 2 * k + 1, 2 * c + 1);
    PowMonotone(c, 0, 2 * c + 1);
    Scale(c, VoteWeight(c, k), VoteWeight(c, c));
    Scale(c, 1, VoteWeight(c, c));
  }

  lemma Scale(c: nat, x: nat, y: nat)
    requires x <= y
    ensures c * x <= c * y
  {
  }

  /** Handling a vote at a node that has voted already costs less than the vote weighed. */
  lemma VoteCosts(c: nat, v: Slot, self: NodeId, carries: Carry, src: NodeId, nodes: set<NodeId>)
    requires v.state == Voted
    ensures var r := OnVote(v, self, carries, src, nodes);
            SlotWeight(c, r.0) + SentWeight(c, r.1) < SlotWeight(c, v) + VoteWeight(c, |nodes|)
  {
    var w := Admit(v, self, carries, src, nodes);
    PowMonotone(c, 0, 2 * |nodes| + 1);
    PowMonotone(c, 0, 2 * |v.nodes|);
    if w.voted == w.nodes {
      assert SentWeight(c, OnVote(v, self, carries, src, nodes).1) == c * 1;
    } else if v.nodes == {} {
      VoteOverNode(c, |nodes|);
    } else if v.nodes != nodes {
      var both := v.nodes * nodes;
      Smaller(both, v.nodes);
      if both == nodes {
        assert nodes < v.nodes;
        StrictlySmaller(nodes, v.nodes);
        NodeOverSmaller(c, |v.nodes|, |nodes|);
      } else {
        StrictlySmaller(both, nodes);
        VoteOverSmallerVotes(c, |nodes|, |both|);
        PowMonotone(c, 2 * |both|, 2 * |v.nodes|);
      }
    }
  }

  lemma Smaller(a: set<NodeId>, b: set<NodeId>)
    requires a <= b
    ensures |a| <= |b|
  {
    assert b == a + (b - a);
    assert |b| == |a| + |b - a|;
  }

  lemma StrictlySmaller(a: set<NodeId>, b: set<NodeId>)
    requires a < b
    ensures |a| < |b|
  {
    var x :| x in b && x !in a;
    Smaller(a + {x}, b);
  }

  /** Any vote handled anywhere leaves at most the top weight. */
  lemma VoteLeaves(c: nat, v: Slot, self: NodeId, carries: Carry, src: NodeId, nodes: set<NodeId>)
    requires |v.nodes| <= c && |nodes| <= c
    ensures var r := OnVote(v, self, carries, src, nodes);
            v.state != Completed ==> SlotWeight(c, r.0) + SentWeight(c, r.1) <= c + 1 + Top(c)
  {
    var w := Admit(v, self, carries, src, nodes);
    assert |w.nodes| <= c by {
      Smaller(v.nodes * nodes, nodes);
    }
    OutcomeBound(c, w.(state := Completed), Some(Commit(w.carries)));
    OutcomeBound(c, w.(state := Voted), Some(Vote(w.carries, self, w.nodes)));
    OutcomeBound(c, w, None);
  }

  lemma OutcomeBound(c: nat, w: Slot, out: Option<Body>)
    requires |w.nodes| <= c && (out.Some? && out.value.Vote? ==> out.value.nodes == w.nodes)
    ensures w.state != Initial ==> SlotWeight(c, w) + SentWeight(c, out) <= c + 1 + Top(c)
  {
    TopBounds(c, |w.nodes|);
    if out.Some? {
      var x := BodyWeight(c, out.value);
      assert SentWeight(c, out) == c * x;
      assert c * x <= c * VoteWeight(c, c) by {
        PowMonotone(c, 0, 2 * c + 1);
        PowMonotone(c, 2 * |w.nodes| + 1, 2 * c + 1);
        Scale(c, x, VoteWeight(c, c));
      }
    }
  }

  // ------------------------------------------------------------------ sums

  lemma {:induction false} OneNode(c: nat, g: Step, g': Step, ids: seq<NodeId>, n: NodeId)
    requires Distinct(ids) && forall m :: m in ids && m != n ==> AtNode(c, g, m) == AtNode(c, g', m)
    ensures NodesWeight(c, g', ids) + (if n in ids then AtNode(c, g, n) else 0)
         == NodesWeight(c, g, ids) + (if n in ids then AtNode(c, g', n) else 0)
  {
    if ids != [] {
      OneNode(c, g, g', ids[1..], n);
      assert ids == [ids[0]] + ids[1..];
    }
  }

  lemma {:induction false} NetAppend(c: nat, a: seq<Packet>, b: seq<Packet>)
    ensures NetWeight(c, a + b) == NetWeight(c, a) + NetWeight(c, b)
  {
    if a == [] {
      assert a + b == b;
    } else {
      assert (a + b)[1..] == a[1..] + b;
      NetAppend(c, a[1..], b);
    }
  }

  lemma NetWithout(c: nat, net: seq<Packet>, i: nat)
    requires i < |net|
    ensures NetWeight(c, net) == NetWeight(c, Without(net, i)) + BodyWeight(c, net[i].body)
  {
    assert net == net[..i] + net[i..];
    NetAppend(c, net[..i], net[i..]);
    NetAppend(c, net[..i], net[i + 1..]);
  }

  lemma OnceMore(n: nat, w: nat)
    ensures (n + 1) * w == n * w + w
  {
  }

  lemma {:induction false} OthersWeight(c: nat, ids: seq<NodeId>, self: NodeId, body: Body)
    ensures NetWeight(c, ToOthers(ids, self, body)) <= |ids| * BodyWeight(c, body)
  {
    if ids != [] {
      var head := if ids[0] == self then [] else [Packet(ids[0], body)];
      NetAppend(c, head, ToOthers(ids[1..], self, body));
      OthersWeight(c, ids[1..], self, body);
      OnceMore(|ids[1..]|, BodyWeight(c, body));
    }
  }

  lemma SentBound(ids: seq<NodeId>, self: NodeId, out: Option<Body>)
    ensures NetWeight(|ids|, Sent(ids, self, out)) <= SentWeight(|ids|, out)
  {
    if out.Some? {
      OthersWeight(|ids|, ids, self, out.value);
    }
  }

  // ------------------------------------------------------------------ the bound

  ghost predicate SlotIn(ids: seq<NodeId>, v: Slot) {
    v.nodes <= Members(ids) && v.voted <= Members(ids) && (v.state == Initial ==> v == FRESH)
  }

  ghost predicate BodyIn(ids: seq<NodeId>, b: Body) {
    b.Vote? ==> b.nodes <= Members(ids) && b.src in Members(ids)
  }

  /** Memberships mention configured nodes only, and an untouched slot is fresh. */
  ghost predicate Inv(ids: seq<NodeId>, g: Step) {
    && g.slots.Keys == Members(ids)
    && (forall n :: n in g.slots ==> SlotIn(ids, g.slots[n]))
    && (forall p :: p in g.net ==> BodyIn(ids, p.body))
  }

  lemma {:induction false} ToOthersBodies(ids: seq<NodeId>, self: NodeId, body: Body)
    ensures forall p :: p in ToOthers(ids, self, body) ==> p.body == body
  {
    if ids != [] {
      ToOthersBodies(ids[1..], self, body);
    }
  }

  lemma HandledIn(ids: seq<NodeId>, v: Slot, self: NodeId, b: Body)
    requires SlotIn(ids, v) && BodyIn(ids, b) && self in Members(ids)
    ensures var r := OnBody(v, self, b); SlotIn(ids, r.0) && (r.1.Some? ==> BodyIn(ids, r.1.value))
  {
  }

  lemma StoreIn(ids: seq<NodeId>, g: Step, n: NodeId, r: (Slot, Option<Body>))
    requires Inv(ids, g) && n in g.slots && SlotIn(ids, r.0) && (r.1.Some? ==> BodyIn(ids, r.1.value))
    ensures Inv(ids, Store(ids, g, n, r))
  {
    if r.1.Some? {
      ToOthersBodies(ids, n, r.1.value);
    }
  }

  lemma StepIn(ids: seq<NodeId>, g: Step, a: Action)
    requires Inv(ids, g) && Enabled(ids, g, a)
    ensures Inv(ids, Do(ids, g, a))
  {
    match a
    case Begin(n, c, nodes) =>
      HandledIn(ids, FRESH, n, Vote(c, n, nodes));
      StoreIn(ids, g.(armed := g.armed + {n}), n, OnVote(FRESH, n, c, n, nodes));
    case Deliver(i) =>
      var p, g1 := g.net[i], g.(net := Without(g.net, i));
      assert p in g.net && Inv(ids, g1);
      if p.dst in g.slots && p.dst !in g.failed {
        HandledIn(ids, g.slots[p.dst], p.dst, p.body);
        StoreIn(ids, g1, p.dst, OnBody(g.slots[p.dst], p.dst, p.body));
      }
    case Drop(i) =>
    case Fire(n) =>
      var v := g.slots[n];
      if Consistent(v.voted, v.nodes) {
        HandledIn(ids, v, n, Vote(v.carries, n, v.voted));
        StoreIn(ids, g.(armed := g.armed - {n}), n, OnVote(v, n, v.carries, n, v.voted));
      }
  }

  lemma {:induction false} MembersSize(ids: seq<NodeId>)
    ensures |Members(ids)| <= |ids|
  {
    if ids != [] {
      MembersSize(ids[1..]);
      assert Members(ids) == Members(ids[1..]) + {ids[0]};
    } else {
      assert Members(ids) == {};
    }
  }

  lemma MembershipSize(ids: seq<NodeId>, s: set<NodeId>)
    requires s <= Members(ids)
    ensures |s| <= |ids|
  {
    MembersSize(ids);
    Smaller(s, Members(ids));
  }

  /** The weight after node n has stored r: only n's share and the new packets count. */
  lemma StoreWeight(ids: seq<NodeId>, g: Step, g1: Step, n: NodeId, r: (Slot, Option<Body>))
    requires Distinct(ids) && n in ids && g1.slots == g.slots && g1.failed == g.failed && n !in g.failed
    requires n in g.slots && g1.armed - {n} == g.armed - {n}
    ensures var c := |ids|;
            Weight(ids, Store(ids, g1, n, r)) + SlotWeight(c, g.slots[n]) + (if n in g.armed then TimerWeight(c) else 0)
              <= NodesWeight(c, g, ids) + NetWeight(c, g1.net)
                 + SlotWeight(c, r.0) + SentWeight(c, r.1) + (if n in g1.armed then TimerWeight(c) else 0)
  {
    var c, g' := |ids|, Store(ids, g1, n, r);
    assert forall m :: m != n ==> (m in g.armed <==> m in g.armed - {n}) && (m in g1.armed <==> m in g1.armed - {n});
    OneNode(c, g, g', ids, n);
    NetAppend(c, g1.net, Sent(ids, n, r.1));
    SentBound(ids, n, r.1);
  }

  lemma BeginDescends(ids: seq<NodeId>, g: Step, n: NodeId, carries: Carry, nodes: set<NodeId>)
    requires Distinct(ids) && Inv(ids, g) && Enabled(ids, g, Begin(n, carries, nodes))
    ensures Weight(ids, Do(ids, g, Begin(n, carries, nodes))) < Weight(ids, g)
  {
    var c, r := |ids|, OnVote(FRESH, n, carries, n, nodes);
    MembershipSize(ids, nodes);
    VoteLeaves(c, FRESH, n, carries, n, nodes);
    StoreWeight(ids, g, g.(armed := g.armed + {n}), n, r);
  }

  lemma DeliverDescends(ids: seq<NodeId>, g: Step, i: nat)
    requires Distinct(ids) && Inv(ids, g) && Enabled(ids, g, Deliver(i))
    ensures Weight(ids, Do(ids, g, Deliver(i))) < Weight(ids, g)
  {
    var c, p, g1 := |ids|, g.net[i], g.(net := Without(g.net, i));
    NetWithout(c, g.net, i);
    assert p in g.net && BodyIn(ids, p.body);
    if p.body.Vote? {
      PowMonotone(c, 0, 2 * |p.body.nodes| + 1);
    }
    if p.dst !in g.slots || p.dst in g.failed {
      OneNode(c, g, g1, ids, p.dst);
    } else {
      var v := g.slots[p.dst];
      HandledCosts(ids, v, p.dst, p.body);
      StoreWeight(ids, g, g1, p.dst, OnBody(v, p.dst, p.body));
    }
  }

  lemma HandledCosts(ids: seq<NodeId>, v: Slot, self: NodeId, b: Body)
    requires SlotIn(ids, v) && BodyIn(ids, b)
    ensures var c, r := |ids|, OnBody(v, self, b);
            SlotWeight(c, r.0) + SentWeight(c, r.1) < SlotWeight(c, v) + BodyWeight(c, b)
  {
    var c := |ids|;
    match b
    case Commit(carries) =>
      TopBounds(c, c);
    case Vote(carries, src, nodes) =>
      PowMonotone(c, 0, 2 * |nodes| + 1);
      MembershipSize(ids, nodes);
      if v.state == Voted {
        VoteCosts(c, v, self, carries, src, nodes);
      } else if v.state == Initial {
        VoteLeaves(c, v, self, carries, src, nodes);
      }
  }

  lemma FireDescends(ids: seq<NodeId>, g: Step, n: NodeId)
    requires Distinct(ids) && Inv(ids, g) && Enabled(ids, g, Fire(n))
    ensures Weight(ids, Do(ids, g, Fire(n))) < Weight(ids, g)
  {
    var c, v, g1 := |ids|, g.slots[n], g.(armed := g.armed - {n});
    assert SlotIn(ids, v);
    match OnTimeout(v, n)
    case Fail =>
      OneNode(c, g, g1.(failed := g1.failed + {n}), ids, n);
    case Proceed(w, out) =>
      MembershipSize(ids, v.nodes);
      MembershipSize(ids, v.voted);
      VoteLeaves(c, v, n, v.carries, n, v.voted);
      StoreWeight(ids, g, g1, n, (w, out));
  }

  /** Every step of every run costs weight. */
  lemma Descends(ids: seq<NodeId>, g: Step, a: Action)
    requires Distinct(ids) && Inv(ids, g) && Enabled(ids, g, a)
    ensures Weight(ids, Do(ids, g, a)) < Weight(ids, g)
  {
    match a
    case Begin(n, c, nodes) => BeginDescends(ids, g, n, c, nodes);
    case Deliver(i) => DeliverDescends(ids, g, i);
    case Drop(i) =>
      NetWithout(|ids|, g.net, i);
      if g.net[i].body.Vote? {
        PowMonotone(|ids|, 0, 2 * |g.net[i].body.nodes| + 1);
      }
      OneNode(|ids|, g, g.(net := Without(g.net, i)), ids, 0);
    case Fire(n) => FireDescends(ids, g, n);
  }

  lemma {:induction false} RunLength(ids: seq<NodeId>, g: Step, acts: seq<Action>)
    requires Distinct(ids) && Inv(ids, g) && Legal(ids, g, acts)
    ensures |acts| <= Weight(ids, g)
    decreases |acts|
  {
    if acts != [] {
      Descends(ids, g, acts[0]);
      StepIn(ids, g, acts[0]);
      RunLength(ids, Do(ids, g, acts[0]), acts[1..]);
    }
  }

  lemma {:induction false} StartWeight(c: nat, g: Step, ids: seq<NodeId>)
    requires forall n :: n in ids ==> n in g.slots && g.slots[n] == FRESH && n !in g.failed && n !in g.armed
    ensures NodesWeight(c, g, ids) == |ids| * FreshWeight(c)
  {
    if ids != [] {
      StartWeight(c, g, ids[1..]);
      OnceMore(|ids[1..]|, FreshWeight(c));
    }
  }

  /** Every run of one step has at most |ids| * FreshWeight(|ids|) steps, whatever the timers do. */
  lemma {:induction false} StepTerminates(ids: seq<NodeId>, acts: seq<Action>)
    requires Distinct(ids) && Legal(ids, Start(ids), acts)
    ensures |acts| <= |ids| * FreshWeight(|ids|)
  {
    StartWeight(|ids|, Start(ids), ids);
    RunLength(ids, Start(ids), acts);
  }
}
