/** One step of the older protocol on one node: `Replob::StepData` of include/synca/once/replob.h
    and the functions of src/replob.cpp that change it. */
module OldReplobSpec {
  import opened Types
  import opened BatchLog

  datatype State = Initial | Voted | Completed

  /** The voters for one message. */
  datatype Ballot = Ballot(voted: set<NodeId>, msg: Msg)

  type Ballots = map<MsgId, Ballot>

  datatype Slot = Slot(state: State, ballots: Ballots, msgs: seq<Entry>)

  const FRESH := Slot(Initial, map[], [])

  datatype Body =
    | Vote(id: MsgId, msg: Msg, voter: NodeId)
    | Commit(msgs: seq<Entry>)

  function AddVote(b: Ballots, id: MsgId, msg: Msg, voter: NodeId): Ballots {
    if id in b then b[id := Ballot(b[id].voted + {voter}, b[id].msg)] else b[id := Ballot({voter}, msg)]
  }

  ghost function Tally(b: Ballots): nat
    decreases b.Keys
  {
    if b.Keys == {} then 0
    else
      var id :| id in b.Keys;
      assert (b - {id}).Keys < b.Keys;
      |b[id].voted| + Tally(b - {id})
  }

  function Messages(b: Ballots): Carry {
    map id | id in b :: b[id].msg
  }

  /** A node votes at most once per step, for the first message it sees. */
  function Cast(v: Slot, self: NodeId, id: MsgId, msg: Msg, voter: NodeId): Slot {
    var b := AddVote(v.ballots, id, msg, voter);
    if v.state == Initial then Slot(Voted, AddVote(b, id, msg, self), v.msgs) else v.(ballots := b)
  }

  ghost function OnVote(v: Slot, self: NodeId, id: MsgId, msg: Msg, voter: NodeId, count: nat): (Slot, Option<Body>) {
    if v.state == Completed then (v, None)
    else
      var w := Cast(v, self, id, msg, voter);
      if Tally(w.ballots) == count then
        var msgs := Ordered(Messages(w.ballots));
        (Slot(Completed, map[], msgs), Some(Commit(msgs)))
      else (w, if v.state == Initial then Some(Vote(id, msg, self)) else None)
  }

  function OnCommit(v: Slot, msgs: seq<Entry>): (Slot, Option<Body>) {
    if v.state == Completed then (v, None)
    else (Slot(Completed, map[], msgs), Some(Commit(msgs)))
  }

  ghost function OnBody(v: Slot, self: NodeId, b: Body, count: nat): (Slot, Option<Body>) {
    match b
    case Vote(id, msg, voter) => OnVote(v, self, id, msg, voter, count)
    case Commit(msgs) => OnCommit(v, msgs)
  }

  // ------------------------------------------------------------------ counting

  ghost function Voters(b: Ballots): set<NodeId> {
    set id, n | id in b && n in b[id].voted :: n
  }

  /** No node is counted for two messages. */
  ghost predicate OneVoteEach(b: Ballots) {
    forall i, j :: i in b && j in b && i != j ==> b[i].voted * b[j].voted == {}
  }

  lemma VotersUnion(b: Ballots, id: MsgId)
    requires id in b
    ensures Voters(b) == b[id].voted + Voters(b - {id})
  {
    var rest := b - {id};
    forall n ensures n in Voters(b) <==> n in b[id].voted || n in Voters(rest) {
      if n in Voters(b) && n !in b[id].voted {
        var j :| j in b && n in b[j].voted;
        assert j in rest && n in rest[j].voted;
      }
      if n in Voters(rest) {
        var j :| j in rest && n in rest[j].voted;
        assert j in b && n in b[j].voted;
      }
    }
  }

  lemma VotersSplit(b: Ballots, id: MsgId)
    requires OneVoteEach(b) && id in b
    ensures OneVoteEach(b - {id}) && |Voters(b)| == |b[id].voted| + |Voters(b - {id})|
  {
    var rest := b - {id};
    VotersUnion(b, id);
    forall n | n in Voters(rest) ensures n !in b[id].voted {
      var j :| j in rest && n in rest[j].voted;
      assert n !in b[id].voted * b[j].voted;
    }
    assert b[id].voted * Voters(rest) == {};
  }

  lemma {:induction false} TallyIsVoters(b: Ballots)
    requires OneVoteEach(b)
    ensures Tally(b) == |Voters(b)|
    decreases b.Keys
  {
    if b.Keys != {} {
      var id :| id in b.Keys && Tally(b) == |b[id].voted| + Tally(b - {id});
      assert (b - {id}).Keys == b.Keys - {id};
      VotersSplit(b, id);
      TallyIsVoters(b - {id});
    } else {
      assert Voters(b) == {};
    }
  }

  lemma FullSet(a: set<NodeId>, nodes: set<NodeId>)
    requires a <= nodes && |a| == |nodes|
    ensures a == nodes
  {
    var rest := nodes - a;
    assert nodes == a + rest;
    assert |nodes| == |a| + |rest|;
  }

  /** `mayCommit`: the sizes of the voter sets add up to the node count exactly when everybody has
      voted. */
  lemma MayCommitIffAllVoted(b: Ballots, nodes: set<NodeId>)
    requires OneVoteEach(b) && Voters(b) <= nodes
    ensures Tally(b) == |nodes| <==> Voters(b) == nodes
  {
    TallyIsVoters(b);
    if Tally(b) == |nodes| {
      FullSet(Voters(b), nodes);
    }
  }

  /** The sum does not depend on the order of the summands. */
  lemma {:induction false} TallySplit(b: Ballots, id: MsgId)
    requires id in b
    ensures Tally(b) == |b[id].voted| + Tally(b - {id})
    decreases b.Keys
  {
    var x :| x in b.Keys && Tally(b) == |b[x].voted| + Tally(b - {x});
    if x != id {
      assert (b - {x}).Keys < b.Keys && (b - {id}).Keys < b.Keys;
      TallySplit(b - {x}, id);
      TallySplit(b - {id}, x);
      assert b - {x} - {id} == b - {id} - {x};
    }
  }

  /** The accumulating loop of `mayCommit`. */
  method MayCommit(b: Ballots, count: nat) returns (ok: bool)
    ensures ok <==> Tally(b) == count
  {
    var sum := 0;
    var rest := b;
    while rest.Keys != {}
      invariant sum + Tally(rest) == Tally(b)
      decreases rest.Keys
    {
      var id :| id in rest.Keys;
      TallySplit(rest, id);
      sum := sum + |rest[id].voted|;
      assert (rest - {id}).Keys < rest.Keys;
      rest := rest - {id};
    }
    return sum == count;
  }

  /** The accumulating loop of `votedNodesSet`. */
  method VotedNodesSet(b: Ballots) returns (s: set<NodeId>)
    ensures s == Voters(b)
  {
    s := {};
    var todo := b.Keys;
    assert Voters(b - todo) == {};
    while todo != {}
      invariant todo <= b.Keys
      invariant s == Voters(b - todo)
      decreases todo
    {
      var id :| id in todo;
      var seen := b - (todo - {id});
      assert seen - {id} == b - todo;
      VotersUnion(seen, id);
      s := s + b[id].voted;
      todo := todo - {id};
    }
    assert b - todo == b;
  }
}

/** The object: steps, the next step and the first step not yet executed. */
module OldReplobObject {
  import opened Types
  import opened BatchLog
  import opened PhantomTable
  import opened OldReplobSpec

  /** `getStep`: no step when it is executed or already committed. */
  ghost predicate Open(t: Table<Slot>, s: StepId) {
    t.cur <= s && Get(t, s, FRESH).state != Completed
  }

  ghost function Handle(t: Table<Slot>, self: NodeId, s: StepId, body: Body, count: nat): (Table<Slot>, Option<Body>) {
    if !Open(t, s) then (t, None)
    else
      var r := OnBody(Get(t, s, FRESH), self, body, count);
      (Write(t, s, r.0), r.1)
  }

  ghost predicate Finished(t: Table<Slot>, s: StepId) {
    s in t.steps && t.steps[s].state == Completed
  }

  /** The messages of the steps a, ..., b - 1, step after step. */
  function Batches(steps: map<StepId, Slot>, a: StepId, b: StepId): seq<Entry> {
    if b <= a then [] else Batches(steps, a, b - 1) + MsgsAt(steps, b - 1)
  }

  function MsgsAt(steps: map<StepId, Slot>, s: StepId): seq<Entry> {
    if s in steps then steps[s].msgs else []
  }

  /** The messages of every step stand between those of the earlier and those of the later steps. */
  lemma {:induction false} BatchesSplit(steps: map<StepId, Slot>, a: StepId, s: StepId, b: StepId)
    requires a <= s < b && s in steps
    ensures Batches(steps, a, b) == Batches(steps, a, s) + steps[s].msgs + Batches(steps, s + 1, b)
    ensures Batches(steps, a, a) == []
    decreases b
  {
    if s < b - 1 {
      BatchesSplit(steps, a, s, b - 1);
      Join(Batches(steps, a, s) + steps[s].msgs, Batches(steps, s + 1, b - 1), MsgsAt(steps, b - 1));
    }
  }

  lemma Join(a: seq<Entry>, b: seq<Entry>, c: seq<Entry>)
    ensures a + b + c == a + (b + c)
  {
  }

  lemma {:induction false} BatchesFrame(steps: map<StepId, Slot>, rest: map<StepId, Slot>, a: StepId, b: StepId)
    requires forall x :: a <= x < b ==> MsgsAt(steps, x) == MsgsAt(rest, x)
    ensures Batches(steps, a, b) == Batches(rest, a, b)
    decreases b
  {
    if a < b {
      BatchesFrame(steps, rest, a, b - 1);
    }
  }

  /** The finished steps at the head are gone, their messages are executed in the order of the steps, and
      the step now at the head is not finished. */
  ghost predicate Drained(t: Table<Slot>, log: seq<Entry>, t': Table<Slot>, log': seq<Entry>) {
    && t.cur <= t'.cur && t'.next == t.next
    && (forall s :: t.cur <= s < t'.cur ==> Finished(t, s)) && !Finished(t, t'.cur)
    && (forall s :: s in t'.steps <==> s in t.steps && !(t.cur <= s < t'.cur))
    && (forall s :: s in t'.steps ==> t'.steps[s] == t.steps[s])
    && log' == log + Batches(t.steps, t.cur, t'.cur)
  }

  lemma WriteTwice(t: Table<Slot>, s: StepId, v: Slot, w: Slot)
    requires t.cur <= s
    ensures Write(Write(t, s, v), s, w) == Write(t, s, w)
    ensures Write(Touch(t, s, FRESH), s, w) == Write(t, s, w)
  {
  }

  class Replob {
    const self: NodeId
    const count: nat
    var next: StepId
    var cur: StepId
    var steps: map<StepId, Slot>
    var log: seq<Entry>
    var sent: seq<(StepId, Body)>

    constructor (self: NodeId, count: nat)
      ensures this.self == self && this.count == count
      ensures View() == Table(0, 0, map[]) && log == [] && sent == []
    {
      this.self, this.count := self, count;
      next, cur, steps, log, sent := 0, 0, map[], [], [];
    }

    ghost function View(): Table<Slot>
      reads this
    {
      Table(next, cur, steps)
    }

    ghost predicate HeadOpen()
      reads this
    {
      cur in steps ==> steps[cur].state != Completed
    }

    method GetStep(s: StepId) returns (found: bool)
      modifies this`next, this`steps
      ensures found <==> Open(old(View()), s)
      ensures found ==> s in steps && View() == Touch(old(View()), s, FRESH)
      ensures !found ==> View() == old(View())
    {
      if s < cur {
        return false;
      }
      if s !in steps {
        steps := steps[s := FRESH];
      }
      if steps[s].state == Completed {
        return false;
      }
      if next <= s {
        next := s + 1;
      }
      return true;
    }

    method Apply(id: MsgId, msg: Msg)
      requires HeadOpen() && cur <= next
      modifies this`next, this`cur, this`steps, this`log, this`sent
      ensures HeadOpen()
      ensures var t := Table(old(next) + 1, old(cur), old(steps));
              var r := Handle(t, self, old(next), Body.Vote(id, msg, self), count);
              && Drained(r.0, old(log), View(), log)
              && sent == old(sent) + (if r.1.Some? then [(old(next), r.1.value)] else [])
    {
      var s := next;
      next := next + 1;
      Vote(s, id, msg, self);
    }

    method Vote(s: StepId, id: MsgId, msg: Msg, voter: NodeId)
      requires HeadOpen()
      modifies this`next, this`cur, this`steps, this`log, this`sent
      ensures HeadOpen()
      ensures var r := Handle(old(View()), self, s, Body.Vote(id, msg, voter), count);
              && Drained(r.0, old(log), View(), log)
              && sent == old(sent) + (if r.1.Some? then [(s, r.1.value)] else [])
    {
      var found := GetStep(s);
      if !found {
        return;
      }
      var v := steps[s];
      var w := Cast(v, self, id, msg, voter);
      steps := steps[s := w];
      WriteTwice(old(View()), s, FRESH, w);
      assert View() == Write(old(View()), s, w);
      var enough := MayCommit(w.ballots, count);
      if enough {
        var msgs := Visit(Messages(w.ballots));
        WriteTwice(old(View()), s, w, Slot(Completed, map[], msgs));
        Finish(s, msgs);
      } else if v.state == Initial {
        sent := sent + [(s, Body.Vote(id, msg, self))];
      }
    }

    /** `commit`: the step number comes with the messages, of which there must be one. */
    method Commit(s: StepId, msgs: seq<Entry>)
      requires HeadOpen() && msgs != []
      modifies this`next, this`cur, this`steps, this`log, this`sent
      ensures HeadOpen()
      ensures var r := Handle(old(View()), self, s, Body.Commit(msgs), count);
              && Drained(r.0, old(log), View(), log)
              && sent == old(sent) + (if r.1.Some? then [(s, r.1.value)] else [])
    {
      var found := GetStep(s);
      if found {
        WriteTwice(old(View()), s, FRESH, Slot(Completed, map[], msgs));
        Finish(s, msgs);
      }
    }

    /** The rest of `commit` once the step is known to be open. */
    method Finish(s: StepId, msgs: seq<Entry>)
      requires HeadOpen() && s in steps && steps[s].state != Completed && cur <= s < next
      modifies this`next, this`cur, this`steps, this`log, this`sent
      ensures HeadOpen() && next == old(next)
      ensures Drained(Write(old(View()), s, Slot(Completed, map[], msgs)), old(log), View(), log)
      ensures sent == old(sent) + [(s, Body.Commit(msgs))]
    {
      steps := steps[s := Slot(Completed, map[], msgs)];
      sent := sent + [(s, Body.Commit(msgs))];
      if s == cur {
        TryProcess();
      }
    }

    method TryProcess()
      modifies this`cur, this`steps, this`log
      ensures HeadOpen() && Drained(old(View()), old(log), View(), log)
    {
      while cur in steps && steps[cur].state == Completed
        invariant old(cur) <= cur && next == old(next)
        invariant forall s :: old(cur) <= s < cur ==> Finished(old(View()), s)
        invariant forall s :: s in steps <==> s in old(steps) && !(old(cur) <= s < cur)
        invariant forall s :: s in steps ==> steps[s] == old(steps)[s]
        invariant log == old(log) + Batches(old(steps), old(cur), cur)
        decreases steps.Keys
      {
        log := log + steps[cur].msgs;
        assert (steps - {cur}).Keys < steps.Keys;
        steps := steps - {cur};
        cur := cur + 1;
      }
    }
  }
}
