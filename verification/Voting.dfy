/** One step of the replicated protocol on one node: `Voting` of include/synca/once/replob.h. */
module VotingSpec {
  import opened Types
  import opened BatchLog

  datatype State = Initial | Voted | Completed

  datatype Slot = Slot(state: State, nodes: set<NodeId>, voted: set<NodeId>, carries: Carry)

  const FRESH := Slot(Initial, {}, {}, map[])

  /** What a step broadcasts to the other nodes. */
  datatype Body =
    | Vote(carries: Carry, src: NodeId, nodes: set<NodeId>)
    | Commit(carries: Carry)

  /** Merge the carried messages, then take over, intersect or keep the membership. */
  function Admit(v: Slot, self: NodeId, carries: Carry, src: NodeId, nodes: set<NodeId>): Slot {
    var all := Merge(v.carries, carries);
    if v.nodes == {} then Slot(v.state, nodes, v.voted + {src} + {self}, all)
    else if v.nodes != nodes then Slot(Initial, v.nodes * nodes, {} + {src} + {self}, all)
    else Slot(v.state, v.nodes, v.voted + {src} + {self}, all)
  }

  function OnVote(v: Slot, self: NodeId, carries: Carry, src: NodeId, nodes: set<NodeId>): (Slot, Option<Body>) {
    if v.state == Completed then (v, None)
    else
      var w := Admit(v, self, carries, src, nodes);
      if w.voted == w.nodes then (w.(state := Completed), Some(Commit(w.carries)))
      else if w.state == Initial then (w.(state := Voted), Some(Vote(w.carries, self, w.nodes)))
      else (w, None)
  }

  function OnCommit(v: Slot, carries: Carry): (Slot, Option<Body>) {
    if v.state == Completed then (v, None)
    else (v.(state := Completed, carries := carries), Some(Commit(carries)))
  }

  function OnBody(v: Slot, self: NodeId, body: Body): (Slot, Option<Body>) {
    match body
    case Vote(carries, src, nodes) => OnVote(v, self, carries, src, nodes)
    case Commit(carries) => OnCommit(v, carries)
  }

  /** The smallest id of a set, which a C++ `std::set` yields as `*begin()`. */
  ghost predicate IsLeast(x: NodeId, s: set<NodeId>) {
    x in s && forall y :: y in s ==> x <= y
  }

  lemma LeastExists(s: set<NodeId>) returns (x: NodeId)
    requires s != {}
    ensures IsLeast(x, s)
  {
    var some :| some in s;
    x := some;
    var rest := s - {some};
    assert forall z :: z in s ==> z == some || z in rest;
    if rest != {} {
      var y := LeastExists(rest);
      x := if y < some then y else some;
    }
  }

  /** May the nodes heard from go on without the rest?  A strict majority may; half may exactly when
      it has the smallest id of all. */
  ghost predicate Consistent(voted: set<NodeId>, nodes: set<NodeId>) {
    || |voted| * 2 > |nodes|
    || (|voted| * 2 == |nodes| && exists x :: IsLeast(x, voted) && IsLeast(x, nodes))
  }

  datatype TimeoutOutcome = Proceed(slot: Slot, sent: Option<Body>) | Fail

  ghost function OnTimeout(v: Slot, self: NodeId): TimeoutOutcome {
    if Consistent(v.voted, v.nodes) then
      var (w, sent) := OnVote(v, self, v.carries, self, v.voted);
      Proceed(w, sent)
    else Fail
  }
}

/** The object itself: fields updated in place, each method proved against VotingSpec. */
module VotingObject {
  import opened Types
  import opened BatchLog
  import opened VotingSpec

  method LeastOf(s: set<NodeId>) returns (x: NodeId)
    requires s != {}
    ensures IsLeast(x, s)
  {
    x :| x in s;
    var rest := s - {x};
    while rest != {}
      invariant x in s && rest <= s
      invariant forall y :: y in s ==> x <= y || y in rest
      decreases rest
    {
      var y :| y in rest;
      if y < x {
        x := y;
      }
      rest := rest - {y};
    }
  }

  class Voting {
    const self: NodeId
    var state: State
    var nodes: set<NodeId>
    var voted: set<NodeId>
    var carries: Carry
    var armed: bool          // the one-shot availability timer
    var completed: bool      // `complete()` was called on the phantom
    var failed: bool         // `fail()` ran: cleanupAll stops the node
    var sent: seq<Body>      // broadcasts, oldest first
    ghost var executed: seq<Entry>

    ghost function View(): Slot
      reads this
    {
      Slot(state, nodes, voted, carries)
    }

    ghost predicate Valid()
      reads this
    {
      && (completed <==> state == Completed)
      && (state != Completed ==> executed == [])
      && (state != Initial ==> voted != {} || state == Completed)
    }

    constructor (self: NodeId)
      ensures this.self == self && View() == FRESH && Valid()
      ensures !armed && !failed && sent == [] && executed == []
    {
      this.self := self;
      state, nodes, voted, carries := Initial, {}, {}, map[];
      armed, completed, failed, sent, executed := false, false, false, [], [];
    }

    method Start(id: MsgId, msg: Msg, config: set<NodeId>)
      requires Valid()
      modifies this
      ensures Valid() && failed == old(failed) && executed == old(executed)
      ensures armed
      ensures var r := OnVote(old(View()), self, map[id := msg], self, config);
              View() == r.0 && sent == old(sent) + (if r.1.Some? then [r.1.value] else [])
    {
      // The timer comes first: voting can complete and destroy the step.
      armed := true;
      Vote(map[id := msg], self, config);
    }

    method Vote(carrySet: Carry, src: NodeId, nodesSet: set<NodeId>)
      requires Valid()
      modifies this
      ensures Valid() && armed == old(armed) && failed == old(failed) && executed == old(executed)
      ensures var r := OnVote(old(View()), self, carrySet, src, nodesSet);
              View() == r.0 && sent == old(sent) + (if r.1.Some? then [r.1.value] else [])
    {
      if state == Completed {
        return;
      }
      carries := Merge(carries, carrySet);
      if nodes == {} {
        nodes := nodesSet;
      } else if nodes != nodesSet {
        state := Initial;
        nodes := nodes * nodesSet;
        voted := {};
      }
      voted := voted + {src};
      voted := voted + {self};
      ghost var w := Admit(old(View()), self, carrySet, src, nodesSet);
      assert self in voted && View() == w;
      if voted == nodes {
        Commit(carries);
      } else if state == Initial {
        state := Voted;
        sent := sent + [Body.Vote(carries, self, nodes)];
      }
    }

    method Commit(carrySet: Carry)
      requires (completed <==> state == Completed) && (state != Completed ==> executed == [])
      requires state == Voted ==> voted != {}
      modifies this
      ensures Valid() && armed == old(armed) && failed == old(failed) && executed == old(executed)
      ensures var r := OnCommit(old(View()), carrySet);
              View() == r.0 && sent == old(sent) + (if r.1.Some? then [r.1.value] else [])
    {
      if state == Completed {
        return;
      }
      state := Completed;
      carries := carrySet;
      sent := sent + [Body.Commit(carries)];
      completed := true;
    }

    method IsConsistent() returns (b: bool)
      requires voted != {}
      ensures b <==> Consistent(voted, nodes)
    {
      if |voted| * 2 > |nodes| {
        return true;
      }
      if |voted| * 2 < |nodes| {
        return false;
      }
      assert nodes != {};
      var v := LeastOf(voted);
      var n := LeastOf(nodes);
      return v == n;
    }

    /** The timer handler.  `start` has voted, so the node has heard at least itself. */
    method Timeout()
      requires Valid() && voted != {}
      modifies this
      ensures Valid() && executed == old(executed) && !armed
      ensures match OnTimeout(old(View()), self)
              case Proceed(w, b) =>
                View() == w && failed == old(failed) && sent == old(sent) + (if b.Some? then [b.value] else [])
              case Fail => View() == old(View()) && failed && sent == old(sent)
    {
      armed := false;
      var ok := IsConsistent();
      if ok {
        Vote(carries, self, voted);
      } else {
        failed := true;
      }
    }

    /** `onComplete`: cancel the timer and run the messages in MsgId order. */
    method OnComplete()
      requires Valid() && state == Completed
      modifies this
      ensures Valid() && View() == old(View()) && sent == old(sent) && failed == old(failed)
      ensures !armed && executed == old(executed) + Ordered(carries)
    {
      armed := false;
      var entries := Visit(carries);
      executed := executed + entries;
    }
  }
}
