/** The abstract replicated log that both protocols implement: the batch of a step is exactly the
    set of messages started at that step, and it is executed in MsgId order. */
module BatchLog {
  import opened Types

  datatype Entry = Entry(id: MsgId, msg: Msg)

  predicate Before(a: MsgId, b: MsgId) {
    a.node < b.node || (a.node == b.node && a.count < b.count)
  }

  ghost predicate IsFirst(x: MsgId, ids: set<MsgId>) {
    x in ids && forall y :: y in ids && y != x ==> Before(x, y)
  }

  lemma FirstExists(ids: set<MsgId>) returns (x: MsgId)
    requires ids != {}
    ensures IsFirst(x, ids)
  {
    var some :| some in ids;
    x := some;
    var rest := ids - {some};
    assert forall z :: z in ids ==> z == some || z in rest;
    if rest != {} {
      var y := FirstExists(rest);
      x := if Before(y, some) then y else some;
    }
  }

  /** The messages of a carry set in the order `for (auto&& carry: carries_)` visits them. */
  ghost function Ordered(c: Carry): seq<Entry>
    decreases c.Keys
  {
    if c.Keys == {} then []
    else
      var ids := c.Keys;
      assert exists x :: IsFirst(x, ids) by { var x := FirstExists(ids); }
      var x :| IsFirst(x, ids);
      assert (c - {x}).Keys < ids;
      [Entry(x, c[x])] + Ordered(c - {x})
  }

  lemma {:induction false} OrderedContents(c: Carry)
    ensures |Ordered(c)| == |c.Keys|
    ensures forall e :: e in Ordered(c) <==> e.id in c && c[e.id] == e.msg
    decreases c.Keys
  {
    if c.Keys != {} {
      var x := Ordered(c)[0].id;
      var rest := c - {x};
      assert rest.Keys == c.Keys - {x};
      OrderedContents(rest);
      assert Ordered(c) == [Entry(x, c[x])] + Ordered(rest);
    }
  }

  lemma {:induction false} OrderedSorted(c: Carry, i: nat, j: nat)
    requires i < j < |Ordered(c)|
    ensures var a, b := Ordered(c)[i].id, Ordered(c)[j].id;
            Before(a, b) && (a.node < b.node || (a.node == b.node && a.count < b.count))
    decreases c.Keys
  {
    var x := Ordered(c)[0].id;
    var rest := c - {x};
    assert rest.Keys == c.Keys - {x};
    assert Ordered(c) == [Entry(x, c[x])] + Ordered(rest);
    if i > 0 {
      OrderedSorted(rest, i - 1, j - 1);
    } else {
      OrderedContents(rest);
      assert Ordered(c)[j] in Ordered(rest);
    }
  }

  /** Visiting an ordered container of messages. */
  method Visit(c: Carry) returns (entries: seq<Entry>)
    ensures entries == Ordered(c)
  {
    entries := [];
    var rest := c;
    while rest.Keys != {}
      invariant entries + Ordered(rest) == Ordered(c)
      decreases rest.Keys
    {
      var id :| id in rest.Keys;
      var todo := rest.Keys - {id};
      while todo != {}
        invariant id in rest.Keys && todo <= rest.Keys
        invariant forall y :: y in rest.Keys && y !in todo && y != id ==> Before(id, y)
        decreases todo
      {
        var y :| y in todo;
        if Before(y, id) {
          id := y;
        }
        todo := todo - {y};
      }
      assert IsFirst(id, rest.Keys);
      assert Ordered(rest)[0].id == id;
      entries := entries + [Entry(id, rest[id])];
      assert (rest - {id}).Keys < rest.Keys;
      rest := rest - {id};
    }
  }

  /** What was started, step by step. */
  type History = map<StepId, Carry>

  function At(h: History, s: StepId): Carry {
    if s in h then h[s] else map[]
  }

  /** The log after the first k steps. */
  ghost function LogUpTo(h: History, k: StepId): seq<Entry> {
    if k == 0 then [] else LogUpTo(h, k - 1) + Ordered(At(h, k - 1))
  }

  lemma LogFrame(h: History, h': History, k: StepId)
    requires forall s: StepId :: s < k ==> At(h, s) == At(h', s)
    ensures LogUpTo(h, k) == LogUpTo(h', k)
  {
  }

  lemma {:induction false} LogPrefix(h: History, j: StepId, k: StepId)
    requires j <= k
    ensures LogUpTo(h, j) <= LogUpTo(h, k)
    decreases k
  {
    if j < k {
      LogPrefix(h, j, k - 1);
    }
  }

  /** A log holds exactly the messages started in its steps. */
  lemma {:induction false} LogContents(h: History, k: StepId)
    ensures forall e :: e in LogUpTo(h, k) <==> exists s: StepId :: s < k && e.id in At(h, s) && At(h, s)[e.id] == e.msg
  {
    if k > 0 {
      LogContents(h, k - 1);
      OrderedContents(At(h, k - 1));
      forall e
        ensures e in LogUpTo(h, k) <==> exists s: StepId :: s < k && e.id in At(h, s) && At(h, s)[e.id] == e.msg
      {
        if e in Ordered(At(h, k - 1)) {
          assert e.id in At(h, k - 1);
        }
      }
    }
  }

  ghost predicate Distinct(log: seq<Entry>) {
    forall i, j :: 0 <= i < j < |log| ==> log[i].id != log[j].id
  }

  /** When every id belongs to one step, no id is executed twice. */
  lemma {:induction false} LogDistinct(h: History, k: StepId, step: map<MsgId, StepId>)
    requires forall s: StepId, id :: id in At(h, s) ==> id in step && step[id] == s
    ensures Distinct(LogUpTo(h, k))
  {
    if k > 0 {
      LogDistinct(h, k - 1, step);
      var a, b, log := LogUpTo(h, k - 1), Ordered(At(h, k - 1)), LogUpTo(h, k);
      forall i, j | 0 <= i < j < |log| ensures log[i].id != log[j].id {
        if |a| <= i {
          OrderedSorted(At(h, k - 1), i - |a|, j - |a|);
        } else if |a| <= j {
          EntryStep(h, k - 1, step, a[i]);
          OrderedContents(At(h, k - 1));
          assert b[j - |a|] in b;
        }
      }
    }
  }

  lemma EntryStep(h: History, k: StepId, step: map<MsgId, StepId>, e: Entry)
    requires forall s: StepId, id :: id in At(h, s) ==> id in step && step[id] == s
    requires e in LogUpTo(h, k)
    ensures e.id in step && step[e.id] < k
  {
    LogContents(h, k);
    var s: StepId :| s < k && e.id in At(h, s) && At(h, s)[e.id] == e.msg;
  }
}
