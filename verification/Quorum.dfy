/** Why two groups cannot both go on after a timeout: `Voting::isConsistent`. */
module Quorum {
  import opened Types
  import opened VotingSpec

  lemma Counts(a: set<NodeId>, b: set<NodeId>, nodes: set<NodeId>)
    requires a <= nodes && b <= nodes
    ensures |a * b| >= |a| + |b| - |nodes|
  {
    assert |a + b| == |a| + |b| - |a * b|;
    var rest := nodes - (a + b);
    assert nodes == (a + b) + rest;
    assert |nodes| == |a + b| + |rest|;
  }

  /** Two groups of one membership that may both go on share a node. */
  lemma NoSplitBrain(a: set<NodeId>, b: set<NodeId>, nodes: set<NodeId>)
    requires a <= nodes && b <= nodes && Consistent(a, nodes) && Consistent(b, nodes)
    ensures a * b != {}
  {
    Counts(a, b, nodes);
    if |a| * 2 == |nodes| && |b| * 2 == |nodes| {
      var x :| IsLeast(x, a) && IsLeast(x, nodes);
      var y :| IsLeast(y, b) && IsLeast(y, nodes);
      assert x == y && x in a * b;
    }
  }

  /** However a membership falls into two non-empty parts, exactly one part may go on. */
  lemma ExactlyOnePart(a: set<NodeId>, b: set<NodeId>, nodes: set<NodeId>)
    requires a + b == nodes && a * b == {} && a != {} && b != {}
    ensures Consistent(a, nodes) <==> !Consistent(b, nodes)
  {
    assert |nodes| == |a| + |b|;
    if |a| == |b| {
      var x := LeastExists(a);
      var y := LeastExists(b);
      assert forall z :: z in nodes ==> z in a || z in b;
      if x < y {
        assert IsLeast(x, nodes);
      } else {
        assert x !in b by { assert x !in a * b; }
        assert IsLeast(y, nodes);
      }
      OnlyOneLeast(a, b, nodes);
    }
  }

  lemma OnlyOneLeast(a: set<NodeId>, b: set<NodeId>, nodes: set<NodeId>)
    requires a * b == {}
    ensures !(exists x, y :: IsLeast(x, a) && IsLeast(x, nodes) && IsLeast(y, b) && IsLeast(y, nodes))
  {
    forall x, y | IsLeast(x, a) && IsLeast(x, nodes) && IsLeast(y, nodes) ensures y !in b {
      assert x == y && y !in a * b;
    }
  }

  /** A timeout that goes on narrows the membership to the nodes heard from. */
  lemma TimeoutNarrows(v: Slot, self: NodeId)
    requires v.state == Voted && v.voted < v.nodes && OnTimeout(v, self).Proceed?
    ensures OnTimeout(v, self).slot.nodes == v.voted
  {
    assert v.nodes * v.voted == v.voted;
  }

  /** Two nodes whose timers fire on the same membership keep a common node. */
  lemma TimeoutsOverlap(v: Slot, self: NodeId, w: Slot, other: NodeId)
    requires v.state == Voted && w.state == Voted && v.nodes == w.nodes && v.voted < v.nodes && w.voted < w.nodes
    requires OnTimeout(v, self).Proceed? && OnTimeout(w, other).Proceed?
    ensures OnTimeout(v, self).slot.nodes * OnTimeout(w, other).slot.nodes != {}
  {
    TimeoutNarrows(v, self);
    TimeoutNarrows(w, other);
    NoSplitBrain(v.voted, w.voted, v.nodes);
  }
}
