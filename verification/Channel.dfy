/** The channel between journeys of include/synca/channel.h, with no raise events. */
module ChannelSystem {
  import opened Types
  import opened Parking
  import J = Journey

  type Value = nat

  datatype Role =
    | Outside
    | Getting                                  // inside get, waiting
    | Putting(to: JId, v: Value)               // inside put: the doer of `to` is acquired, nothing set yet
    | Closing(ws: seq<Waiter>, taken: bool)    // inside close: waiters still to reset; is the first acquired?

  /** Who is responsible for waking a waiting get. */
  datatype Place = Free | InQueue | ByPut(k: JId) | ByClose(k: JId)

  /** A journey: `slot` is what its `val` and `wasSet` hold. */
  datatype Cell = Cell(h: Guest, role: Role, slot: Option<Value>, place: Place)

  /** What the channel has decided to answer to a get: a value, or false. */
  datatype Answer = Answer(j: JId, v: Option<Value>)

  /** The last four fields are history, and only ever appended to: every value put; the gets in the order of
      request; the answers in the order in which they were decided; and what the gets of each journey have
      returned, read from its slot when they return. */
  datatype System = System(closed: bool, queue: seq<Value>, waiters: seq<Waiter>, cells: map<JId, Cell>,
                           puts: seq<Value>, asked: seq<JId>, answers: seq<Answer>,
                           returned: map<JId, seq<Option<Value>>>)

  datatype Action =
    | Put(j: JId, v: Value)    // critical section of put; on a closed channel put throws instead
    | SetValue(j: JId)         // Waiter::set, after the critical section
    | Get(j: JId)
    | Return(j: JId)           // waitForDone returns inside get
    | Open(j: JId)
    | Close(j: JId)            // critical section of close
    | ResetTake(j: JId)        // Waiter::reset: acquire
    | ResetDone(j: JId)        // Waiter::reset: releaseAndDone
    | Own(j: JId, a: J.Action)

  function Start(js: set<JId>): System {
    System(false, [], [], map j | j in js :: Cell(Guest(J.Start(), Busy), Outside, None, Free), [], [], [],
           map j | j in js :: [])
  }

  predicate Ready(c: System, j: JId) {
    j in c.cells && c.cells[j].role == Outside && InUserCode(c.cells[j].h)
  }

  predicate CanTake(h: Guest) {
    h.phase.Parked? && Acquires(h.g.word, h.phase.d)
  }

  predicate Enabled(c: System, a: Action) {
    match a
    case Put(j, v) => Ready(c, j) && !c.closed
                      && (c.waiters != [] ==> c.waiters[0].j in c.cells && CanTake(c.cells[c.waiters[0].j].h))
    case SetValue(j) => j in c.cells && c.cells[j].role.Putting? && c.cells[j].role.to in c.cells
                        && c.cells[c.cells[j].role.to].h.phase.Taken?
    case Get(j) => Ready(c, j) && j in c.returned
    case Return(j) => j in c.cells && c.cells[j].role == Getting && c.cells[j].h.phase == Woken
                      && InUserCode(c.cells[j].h) && j in c.returned
    case Open(j) => Ready(c, j)
    case Close(j) => Ready(c, j)
    case ResetTake(j) => j in c.cells && c.cells[j].role.Closing? && !c.cells[j].role.taken && c.cells[j].role.ws != []
                         && c.cells[j].role.ws[0].j in c.cells && CanTake(c.cells[c.cells[j].role.ws[0].j].h)
    case ResetDone(j) => j in c.cells && c.cells[j].role.Closing? && c.cells[j].role.taken && c.cells[j].role.ws != []
                         && c.cells[j].role.ws[0].j in c.cells && c.cells[c.cells[j].role.ws[0].j].h.phase.Taken?
    case Own(j, a) => j in c.cells && Inner(c.cells[j].h, a)
  }

  function With(c: System, j: JId, x: Cell): System {
    c.(cells := c.cells[j := x])
  }

  /** The first waiter, now h, is promised value v by j. */
  function Promise(c: System, j: JId, v: Value, h: Guest): System
    requires c.waiters != [] && c.waiters[0].j in c.cells && j in c.cells
  {
    var k := c.waiters[0].j;
    With(With(c, k, c.cells[k].(h := h, place := ByPut(j))), j, c.cells[j].(role := Putting(k, v)))
      .(waiters := c.waiters[1..], puts := c.puts + [v], answers := c.answers + [Answer(k, Some(v))])
  }

  /** j writes the value it holds through the pointers of the waiter k, now h. */
  function Deliver(c: System, j: JId, k: JId, v: Value, h: Guest): System
    requires j in c.cells && k in c.cells
  {
    With(With(c, k, c.cells[k].(h := h, slot := Some(v), place := Free)), j, c.cells[j].(role := Outside))
  }

  /** j's get ends at once with the given slot. */
  function Ended(c: System, j: JId, slot: Option<Value>): System
    requires j in c.cells && j in c.returned
  {
    var c1 := With(c, j, c.cells[j].(slot := slot));
    c1.(returned := c.returned[j := c.returned[j] + [c1.cells[j].slot]])
  }

  function Enqueue(c: System, j: JId, h: Guest): System
    requires j in c.cells && h.phase.Parked?
  {
    With(c, j, c.cells[j].(h := h, role := Getting, slot := None, place := InQueue))
      .(waiters := c.waiters + [Waiter(j, h.phase.d)], asked := c.asked + [j])
  }

  /** j's get returns from waiting with what its slot holds. */
  function Returned(c: System, j: JId, h: Guest): System
    requires j in c.cells && j in c.returned
  {
    With(c, j, c.cells[j].(h := h, role := Outside))
      .(returned := c.returned[j := c.returned[j] + [c.cells[j].slot]])
  }

  /** The values answered, in order. */
  function Values(s: seq<Answer>): seq<Value> {
    if s == [] then []
    else
      var r := Values(s[..|s| - 1]);
      if s[|s| - 1].v.Some? then r + [s[|s| - 1].v.value] else r
  }

  function Askers(s: seq<Answer>): seq<JId> {
    seq(|s|, i requires 0 <= i < |s| => s[i].j)
  }

  /** The answers to one journey, in order. */
  function AnswersTo(s: seq<Answer>, j: JId): seq<Option<Value>> {
    if s == [] then []
    else
      var r := AnswersTo(s[..|s| - 1], j);
      if s[|s| - 1].j == j then r + [s[|s| - 1].v] else r
  }

  /** False to each waiter. */
  function Refusals(ws: seq<Waiter>): seq<Answer> {
    seq(|ws|, i requires 0 <= i < |ws| => Answer(ws[i].j, None))
  }

  /** close answers false to every waiting get; j then resets them one by one. */
  function Refused(c: System, j: JId): System
    requires j in c.cells
  {
    c.(closed := true, waiters := [], answers := c.answers + Refusals(c.waiters),
       cells := map k | k in c.cells ::
         if k == j then c.cells[j].(role := if c.waiters == [] then Outside else Closing(c.waiters, false))
         else if c.cells[k].place == InQueue then c.cells[k].(place := ByClose(j))
         else c.cells[k])
  }

  function Do(c: System, a: Action): System
    requires Enabled(c, a)
  {
    match a
    case Put(j, v) =>
      if c.waiters != [] then Promise(c, j, v, Take(c.cells[c.waiters[0].j].h))
      else c.(queue := c.queue + [v], puts := c.puts + [v])
    case SetValue(j) =>
      var k := c.cells[j].role.to;
      Deliver(c, j, k, c.cells[j].role.v, Wake(c.cells[k].h, c.cells[k].h.phase.d.enabled))
    case Get(j) =>
      if c.queue != [] then
        Ended(c.(queue := c.queue[1..], asked := c.asked + [j], answers := c.answers + [Answer(j, Some(c.queue[0]))]),
              j, Some(c.queue[0]))
      else if c.closed then
        Ended(c.(asked := c.asked + [j], answers := c.answers + [Answer(j, None)]), j, None)
      else Enqueue(c, j, Park(c.cells[j].h))
    case Return(j) => Returned(c, j, Parking.Return(c.cells[j].h))
    case Open(j) => c.(closed := false)
    case Close(j) => if c.closed then c else Refused(c, j)
    case ResetTake(j) =>
      var k := c.cells[j].role.ws[0].j;
      TakenBy(c, j, k, Take(c.cells[k].h))
    case ResetDone(j) =>
      var k := c.cells[j].role.ws[0].j;
      ResetBy(c, j, k, Wake(c.cells[k].h, c.cells[k].h.phase.d.enabled))
    case Own(j, a) => With(c, j, c.cells[j].(h := c.cells[j].h.(g := J.Do(c.cells[j].h.g, a))))
  }

  /** j has acquired the doer of its first waiter k, now h. */
  function TakenBy(c: System, j: JId, k: JId, h: Guest): System
    requires j in c.cells && k in c.cells && c.cells[j].role.Closing?
  {
    With(With(c, k, c.cells[k].(h := h)), j, c.cells[j].(role := Closing(c.cells[j].role.ws, true)))
  }

  /** j has reset its first waiter k, now h; with the last one, close returns. */
  function ResetBy(c: System, j: JId, k: JId, h: Guest): System
    requires j in c.cells && k in c.cells && c.cells[j].role.Closing? && c.cells[j].role.ws != []
  {
    With(With(c, k, c.cells[k].(h := h, place := Free)), j,
         c.cells[j].(role := if |c.cells[j].role.ws| == 1 then Outside else Closing(c.cells[j].role.ws[1..], false)))
  }

  predicate Legal(c: System, acts: seq<Action>)
    decreases |acts|
  {
    acts == [] || (Enabled(c, acts[0]) && Legal(Do(c, acts[0]), acts[1..]))
  }

  function After(c: System, acts: seq<Action>): System
    requires Legal(c, acts)
    decreases |acts|
  {
    if acts == [] then c else After(Do(c, acts[0]), acts[1..])
  }

  // ------------------------------------------------------------------ the invariant

  ghost predicate PlaceOk(c: System, j: JId, x: Cell) {
    match x.place
    case Free => x.h.phase == Busy || x.h.phase == Woken
    case InQueue => x.h.phase.Parked? && Waiter(j, x.h.phase.d) in c.waiters && x.slot == None
    case ByPut(k) =>
      x.h.phase.Taken? && x.slot == None && k in c.cells && c.cells[k].role.Putting? && c.cells[k].role.to == j
    case ByClose(k) =>
      && (x.h.phase.Parked? || x.h.phase.Taken?) && x.slot == None
      && k in c.cells && c.cells[k].role.Closing? && Waiter(j, x.h.phase.d) in c.cells[k].role.ws
  }

  ghost predicate RoleOk(c: System, j: JId, x: Cell) {
    match x.role
    case Outside => x.h.phase == Busy
    case Getting => x.h.phase != Busy
    case Putting(t, v) => x.h.phase == Busy && t in c.cells && c.cells[t].place == ByPut(j)
    case Closing(ws, taken) =>
      && x.h.phase == Busy && ws != []
      && Distinct(ws)
      && forall i :: 0 <= i < |ws| ==> ToReset(c, j, ws[i], if i == 0 && taken then Taken(ws[i].d) else Parked(ws[i].d))
  }

  ghost predicate ToReset(c: System, j: JId, w: Waiter, phase: Phase) {
    w.j in c.cells && c.cells[w.j].place == ByClose(j) && c.cells[w.j].h.phase == phase
  }

  ghost predicate InLine(c: System, w: Waiter) {
    w.j in c.cells && c.cells[w.j].place == InQueue && c.cells[w.j].h.phase == Parked(w.d)
  }

  ghost predicate Distinct(ws: seq<Waiter>) {
    forall i, k :: 0 <= i < k < |ws| ==> ws[i].j != ws[k].j
  }

  ghost predicate CellOk(c: System, j: JId) {
    j in c.cells && PlaceOk(c, j, c.cells[j]) && RoleOk(c, j, c.cells[j])
  }

  ghost predicate CellsOk(c: System) {
    forall j {:trigger CellOk(c, j)} :: j in c.cells ==> CellOk(c, j)
  }

  ghost predicate QueueOk(c: System) {
    && (forall i :: 0 <= i < |c.waiters| ==> InLine(c, c.waiters[i]))
    && Distinct(c.waiters)
    && (c.closed ==> c.waiters == [])
    && (c.queue == [] || c.waiters == [])
  }

  /** First in, first out: the answers are decided request by request, with the values put, in order. */
  ghost predicate Fifo(c: System) {
    && c.puts == Values(c.answers) + c.queue
    && c.asked == Askers(c.answers) + Names(c.waiters)
  }

  /** The answer that is decided and not returned yet: it is with the put that will set it, it is false,
      or it lies in the slot. */
  function Pending(c: System, j: JId): seq<Option<Value>>
    requires j in c.cells
  {
    var x := c.cells[j];
    if x.role != Getting then []
    else
      match x.place
      case InQueue => []
      case ByPut(k) => if k in c.cells && c.cells[k].role.Putting? then [Some(c.cells[k].role.v)] else []
      case ByClose(_) => [None]
      case Free => [x.slot]
  }

  ghost predicate LedgerOf(c: System, j: JId) {
    j in c.cells && j in c.returned && AnswersTo(c.answers, j) == c.returned[j] + Pending(c, j)
  }

  /** What a journey's gets have returned is what they were answered. */
  ghost predicate Ledger(c: System) {
    forall j {:trigger LedgerOf(c, j)} :: j in c.cells ==> LedgerOf(c, j)
  }

  ghost predicate Shape(c: System) {
    CellsOk(c) && QueueOk(c) && Fifo(c)
  }

  ghost predicate GuestOk(c: System, j: JId) {
    j in c.cells && Ok(c.cells[j].h)
  }

  ghost predicate GuestsOk(c: System) {
    forall j {:trigger GuestOk(c, j)} :: j in c.cells ==> GuestOk(c, j)
  }

  ghost predicate Books(c: System) {
    Shape(c) && Ledger(c)
  }

  ghost predicate Inv(c: System) {
    Books(c) && GuestsOk(c)
  }

  lemma InitInv(js: set<JId>)
    ensures Inv(Start(js))
  {
    var c := Start(js);
    assert Shape(c) by {
      assert Askers(c.answers) == [] && Names(c.waiters) == [];
    }
    assert GuestsOk(c) by {
      StartOk();
    }
    assert forall j :: j in c.cells ==> LedgerOf(c, j);
  }

  // ------------------------------------------------------------------ answers

  lemma {:induction false} ValuesAppend(a: seq<Answer>, b: seq<Answer>)
    ensures Values(a + b) == Values(a) + Values(b)
  {
    if b == [] {
      assert a + b == a;
    } else {
      assert (a + b)[..|a + b| - 1] == a + b[..|b| - 1];
      ValuesAppend(a, b[..|b| - 1]);
    }
  }

  lemma {:induction false} AnswersAppend(a: seq<Answer>, b: seq<Answer>, j: JId)
    ensures AnswersTo(a + b, j) == AnswersTo(a, j) + AnswersTo(b, j)
  {
    if b == [] {
      assert a + b == a;
    } else {
      assert (a + b)[..|a + b| - 1] == a + b[..|b| - 1];
      AnswersAppend(a, b[..|b| - 1], j);
    }
  }

  /** One more answer. */
  lemma OneAnswer(s: seq<Answer>, x: Answer, j: JId)
    ensures Values(s + [x]) == Values(s) + if x.v.Some? then [x.v.value] else []
    ensures Askers(s + [x]) == Askers(s) + [x.j]
    ensures AnswersTo(s + [x], j) == AnswersTo(s, j) + if x.j == j then [x.v] else []
  {
    assert (s + [x])[..|s|] == s;
  }

  lemma {:induction false} NothingRefused(ws: seq<Waiter>)
    ensures Values(Refusals(ws)) == []
  {
    if ws != [] {
      assert Refusals(ws)[..|ws| - 1] == Refusals(ws[..|ws| - 1]);
      NothingRefused(ws[..|ws| - 1]);
    }
  }

  /** Each waiter is refused once. */
  lemma {:induction false} RefusedOnce(ws: seq<Waiter>, j: JId)
    requires Distinct(ws)
    ensures AnswersTo(Refusals(ws), j) == if exists i :: 0 <= i < |ws| && ws[i].j == j then [None] else []
  {
    if ws != [] {
      var n := |ws| - 1;
      assert Refusals(ws)[..n] == Refusals(ws[..n]);
      RefusedOnce(ws[..n], j);
      if ws[n].j == j {
        assert forall i :: 0 <= i < n ==> ws[..n][i].j != j;
      } else if i :| 0 <= i < n && ws[i].j == j {
        assert ws[..n][i].j == j;
      }
    }
  }

  // ------------------------------------------------------------------ every action keeps the shape

  /** A new state of one cell that keeps its phase, role, place and slot. */
  lemma OwnShape(c: System, j: JId, h: Guest)
    requires Shape(c) && j in c.cells && h.phase == c.cells[j].h.phase
    ensures Shape(With(c, j, c.cells[j].(h := h)))
  {
    var c' := With(c, j, c.cells[j].(h := h));
    forall k | k in c'.cells ensures CellOk(c', k) {
      assert CellOk(c, k);
    }
  }

  lemma PromiseCells(c: System, j: JId, v: Value, h: Guest)
    requires Shape(c) && j in c.cells && c.cells[j].role == Outside && c.waiters != [] && c.waiters[0].j in c.cells
    requires h.phase == Taken(c.waiters[0].d)
    ensures CellsOk(Promise(c, j, v, h))
  {
    var c', k := Promise(c, j, v, h), c.waiters[0].j;
    assert CellOk(c, j) && CellOk(c, k);
    assert c.waiters == [c.waiters[0]] + c'.waiters;
    forall x | x in c'.cells ensures CellOk(c', x) {
      assert CellOk(c, x);
    }
  }

  lemma PromiseQueue(c: System, j: JId, v: Value, h: Guest)
    requires QueueOk(c) && j in c.cells && c.cells[j].place != InQueue && c.waiters != [] && c.waiters[0].j in c.cells
    ensures QueueOk(Promise(c, j, v, h))
  {
    var c' := Promise(c, j, v, h);
    forall i | 0 <= i < |c'.waiters| ensures InLine(c', c'.waiters[i]) {
      assert InLine(c, c.waiters[i + 1]) && c.waiters[i + 1].j != c.waiters[0].j;
    }
  }

  lemma PromiseFifo(c: System, j: JId, v: Value, h: Guest)
    requires Fifo(c) && c.queue == [] && j in c.cells && c.waiters != [] && c.waiters[0].j in c.cells
    ensures Fifo(Promise(c, j, v, h))
  {
    var c', k := Promise(c, j, v, h), c.waiters[0].j;
    OneAnswer(c.answers, Answer(k, Some(v)), k);
    assert Names(c.waiters) == [k] + Names(c'.waiters);
  }

  lemma PromiseShape(c: System, j: JId, v: Value, h: Guest)
    requires Shape(c) && j in c.cells && c.cells[j].role == Outside && c.waiters != [] && c.waiters[0].j in c.cells
    requires h.phase == Taken(c.waiters[0].d)
    ensures Shape(Promise(c, j, v, h))
  {
    assert CellOk(c, j);
    PromiseCells(c, j, v, h);
    PromiseQueue(c, j, v, h);
    PromiseFifo(c, j, v, h);
  }

  lemma DeliverShape(c: System, j: JId, h: Guest)
    requires Shape(c) && j in c.cells && c.cells[j].role.Putting? && h.phase == Woken
    ensures c.cells[j].role.to in c.cells && Shape(Deliver(c, j, c.cells[j].role.to, c.cells[j].role.v, h))
  {
    var k := c.cells[j].role.to;
    assert CellOk(c, j) && CellOk(c, k);
    var c' := Deliver(c, j, k, c.cells[j].role.v, h);
    forall x | x in c'.cells ensures CellOk(c', x) {
      DeliverPlace(c, j, k, h, x);
      DeliverRole(c, j, k, h, x);
    }
    forall i | 0 <= i < |c'.waiters| ensures InLine(c', c'.waiters[i]) {
      assert InLine(c, c.waiters[i]);
    }
  }

  lemma DeliverPlace(c: System, j: JId, k: JId, h: Guest, x: JId)
    requires CellsOk(c) && CellOk(c, j) && CellOk(c, k) && x in c.cells && h.phase == Woken
    requires c.cells[j].role.Putting? && c.cells[j].role.to == k
    ensures var c' := Deliver(c, j, k, c.cells[j].role.v, h); PlaceOk(c', x, c'.cells[x])
  {
    assert CellOk(c, x);
  }

  lemma DeliverRole(c: System, j: JId, k: JId, h: Guest, x: JId)
    requires CellsOk(c) && CellOk(c, j) && CellOk(c, k) && x in c.cells && h.phase == Woken
    requires c.cells[j].role.Putting? && c.cells[j].role.to == k
    ensures var c' := Deliver(c, j, k, c.cells[j].role.v, h); RoleOk(c', x, c'.cells[x])
  {
    assert CellOk(c, x);
  }

  lemma EnqueueShape(c: System, j: JId, h: Guest)
    requires Shape(c) && j in c.cells && c.cells[j].role == Outside && c.queue == [] && !c.closed && h.phase.Parked?
    ensures Shape(Enqueue(c, j, h))
  {
    var c' := Enqueue(c, j, h);
    assert CellOk(c, j);
    assert c'.waiters[|c.waiters|] == Waiter(j, h.phase.d);
    forall x | x in c'.cells ensures CellOk(c', x) {
      assert CellOk(c, x);
    }
    assert Names(c'.waiters) == Names(c.waiters) + [j];
  }

  lemma RefusedShape(c: System, j: JId)
    requires Shape(c) && j in c.cells && c.cells[j].role == Outside
    ensures Shape(Refused(c, j))
  {
    var c' := Refused(c, j);
    assert CellOk(c, j);
    forall x | x in c'.cells ensures CellOk(c', x) {
      RefusedPlace(c, j, x);
      RefusedRole(c, j, x);
    }
    RefusedFifo(c, j);
  }

  lemma RefusedPlace(c: System, j: JId, x: JId)
    requires Shape(c) && j in c.cells && c.cells[j].role == Outside && c.cells[j].h.phase == Busy && x in c.cells
    ensures var c' := Refused(c, j); PlaceOk(c', x, c'.cells[x])
  {
    assert CellOk(c, x);
  }

  lemma RefusedRole(c: System, j: JId, x: JId)
    requires Shape(c) && j in c.cells && c.cells[j].role == Outside && c.cells[j].h.phase == Busy && x in c.cells
    ensures var c' := Refused(c, j); RoleOk(c', x, c'.cells[x])
  {
    var c' := Refused(c, j);
    assert CellOk(c, x);
    if x == j {
      forall i | 0 <= i < |c.waiters| ensures ToReset(c', j, c.waiters[i], Parked(c.waiters[i].d)) {
        assert InLine(c, c.waiters[i]);
      }
    } else if c.cells[x].role.Closing? {
      var r := c.cells[x].role;
      forall i | 0 <= i < |r.ws|
        ensures ToReset(c', x, r.ws[i], if i == 0 && r.taken then Taken(r.ws[i].d) else Parked(r.ws[i].d))
      {
        assert ToReset(c, x, r.ws[i], if i == 0 && r.taken then Taken(r.ws[i].d) else Parked(r.ws[i].d));
      }
    }
  }

  lemma RefusedFifo(c: System, j: JId)
    requires Fifo(c) && j in c.cells
    ensures Fifo(Refused(c, j))
  {
    var c' := Refused(c, j);
    ValuesAppend(c.answers, Refusals(c.waiters));
    NothingRefused(c.waiters);
    assert Askers(c'.answers) == Askers(c.answers) + Names(c.waiters);
  }

  /** w is the waiter that j resets next. */
  ghost predicate Resets(c: System, j: JId, w: Waiter, taken: bool) {
    j in c.cells && c.cells[j].role.Closing? && c.cells[j].role.taken == taken
    && c.cells[j].role.ws != [] && c.cells[j].role.ws[0] == w
    && ToReset(c, j, w, if taken then Taken(w.d) else Parked(w.d))
  }

  lemma FirstReset(c: System, j: JId)
    requires CellsOk(c) && j in c.cells && c.cells[j].role.Closing?
    ensures c.cells[j].role.ws != [] && Resets(c, j, c.cells[j].role.ws[0], c.cells[j].role.taken)
    ensures c.cells[j].role.ws[0].j != j
  {
    assert CellOk(c, j);
  }

  lemma TakenByShape(c: System, j: JId, w: Waiter, h: Guest)
    requires Shape(c) && Resets(c, j, w, false) && h.phase == Taken(w.d)
    ensures Shape(TakenBy(c, j, w.j, h))
  {
    var c' := TakenBy(c, j, w.j, h);
    forall x | x in c'.cells ensures CellOk(c', x) {
      TakenByPlace(c, j, w, h, x);
      TakenByRole(c, j, w, h, x);
    }
    TakenByQueue(c, j, w, h);
  }

  lemma TakenByQueue(c: System, j: JId, w: Waiter, h: Guest)
    requires QueueOk(c) && Resets(c, j, w, false)
    ensures QueueOk(TakenBy(c, j, w.j, h))
  {
    var c' := TakenBy(c, j, w.j, h);
    forall i | 0 <= i < |c'.waiters| ensures InLine(c', c'.waiters[i]) {
      assert InLine(c, c.waiters[i]);
    }
  }

  lemma TakenByPlace(c: System, j: JId, w: Waiter, h: Guest, x: JId)
    requires CellsOk(c) && Resets(c, j, w, false) && x in c.cells && h.phase == Taken(w.d)
    ensures var c' := TakenBy(c, j, w.j, h); PlaceOk(c', x, c'.cells[x])
  {
    assert CellOk(c, x) && CellOk(c, j) && CellOk(c, w.j);
  }

  lemma TakenByRole(c: System, j: JId, w: Waiter, h: Guest, x: JId)
    requires CellsOk(c) && Resets(c, j, w, false) && x in c.cells && h.phase == Taken(w.d)
    ensures var c' := TakenBy(c, j, w.j, h); RoleOk(c', x, c'.cells[x])
  {
    assert CellOk(c, x) && CellOk(c, j);
    assert CellOk(c, w.j);
  }

  /** The waiters j still has to reset after the first one. */
  lemma ResetRest(c: System, j: JId, w: Waiter, h: Guest)
    requires Resets(c, j, w, true) && RoleOk(c, j, c.cells[j]) && h.phase == Woken && w.j != j
    ensures var c' := ResetBy(c, j, w.j, h); RoleOk(c', j, c'.cells[j])
  {
    var ws := c.cells[j].role.ws;
    var c' := ResetBy(c, j, w.j, h);
    var rest := ws[1..];
    forall i | 0 <= i < |rest| ensures rest[i].j != j && ToReset(c', j, rest[i], Parked(rest[i].d)) {
      assert ToReset(c, j, ws[i + 1], Parked(ws[i + 1].d)) && ws[i + 1].j != ws[0].j;
    }
  }

  lemma ResetByOthers(c: System, j: JId, w: Waiter, h: Guest, x: JId)
    requires CellsOk(c) && Resets(c, j, w, true) && h.phase == Woken && x in c.cells && x != j
    ensures var c' := ResetBy(c, j, w.j, h); RoleOk(c', x, c'.cells[x])
  {
    assert CellOk(c, x);
    assert CellOk(c, w.j);
  }

  lemma ResetByPlaces(c: System, j: JId, w: Waiter, h: Guest, x: JId)
    requires CellsOk(c) && Resets(c, j, w, true) && h.phase == Woken && x in c.cells
    ensures var c' := ResetBy(c, j, w.j, h); PlaceOk(c', x, c'.cells[x])
  {
    assert CellOk(c, x) && CellOk(c, j);
    assert CellOk(c, w.j);
    assert c.cells[j].role.ws == [w] + c.cells[j].role.ws[1..];
  }

  lemma ResetByShape(c: System, j: JId, w: Waiter, h: Guest)
    requires Shape(c) && Resets(c, j, w, true) && h.phase == Woken
    ensures Shape(ResetBy(c, j, w.j, h))
  {
    assert CellOk(c, j);
    var c' := ResetBy(c, j, w.j, h);
    ResetRest(c, j, w, h);
    forall x | x in c'.cells ensures CellOk(c', x) {
      ResetByPlaces(c, j, w, h, x);
      if x != j {
        ResetByOthers(c, j, w, h, x);
      }
    }
    ResetByQueue(c, j, w.j, h);
  }

  lemma ResetByQueue(c: System, j: JId, k: JId, h: Guest)
    requires QueueOk(c) && j in c.cells && k in c.cells && c.cells[j].role.Closing? && c.cells[j].role.ws != []
    requires c.cells[j].place != InQueue && c.cells[k].place != InQueue
    ensures QueueOk(ResetBy(c, j, k, h))
  {
    var c' := ResetBy(c, j, k, h);
    forall i | 0 <= i < |c'.waiters| ensures InLine(c', c'.waiters[i]) {
      assert InLine(c, c.waiters[i]);
    }
  }

  /** A get that ends at once: v is the answer, which comes from the queue when it is a value. */
  lemma EndedShape(c: System, c1: System, j: JId, slot: Option<Value>)
    requires Shape(c) && j in c.cells && c.cells[j].role == Outside && j in c1.returned
    requires c1 == c.(queue := c1.queue, asked := c.asked + [j], answers := c.answers + [Answer(j, slot)])
    requires c.waiters == [] && (c.queue != [] || c.closed)
    requires c.queue == (if slot.Some? then [slot.value] else []) + c1.queue
    ensures Shape(Ended(c1, j, slot))
  {
    var c' := Ended(c1, j, slot);
    assert CellOk(c, j);
    OneAnswer(c.answers, Answer(j, slot), j);
    forall x | x in c'.cells ensures CellOk(c', x) {
      assert CellOk(c, x);
    }
  }

  lemma ReturnShape(c: System, j: JId, h: Guest)
    requires Shape(c) && j in c.cells && c.cells[j].h.phase == Woken && h.phase == Busy && j in c.returned
    ensures Shape(Returned(c, j, h))
  {
    var c' := Returned(c, j, h);
    assert CellOk(c, j);
    forall x | x in c'.cells ensures CellOk(c', x) {
      assert CellOk(c, x);
    }
  }

  // ------------------------------------------------------------------ every action keeps the ledger

  /** A get in line, answered or woken belongs to a journey inside get. */
  lemma InsideGet(c: System, x: JId)
    requires CellsOk(c) && x in c.cells
    ensures c.cells[x].place != Free ==> c.cells[x].role == Getting
    ensures forall k :: c.cells[x].place == ByPut(k) ==>
              k in c.cells && c.cells[k].role.Putting? && c.cells[k].role.to == x
    ensures c.cells[x].role != Getting ==> Pending(c, x) == []
  {
    assert CellOk(c, x);
  }

  /** Answers and returns as before, and nothing pending has changed. */
  lemma SameLedger(c: System, c': System)
    requires Ledger(c) && c'.cells.Keys == c.cells.Keys && c'.answers == c.answers && c'.returned == c.returned
    requires forall x :: x in c.cells ==> Pending(c', x) == Pending(c, x)
    ensures Ledger(c')
  {
    forall x | x in c'.cells ensures LedgerOf(c', x) {
      assert LedgerOf(c, x);
    }
  }

  lemma PromiseLedger(c: System, j: JId, v: Value, h: Guest)
    requires Shape(c) && Ledger(c) && j in c.cells && c.cells[j].role == Outside && c.waiters != []
    requires c.waiters[0].j in c.cells
    ensures Ledger(Promise(c, j, v, h))
  {
    var c', k := Promise(c, j, v, h), c.waiters[0].j;
    assert InLine(c, c.waiters[0]);
    forall x | x in c'.cells ensures LedgerOf(c', x) {
      assert LedgerOf(c, x);
      PromisePending(c, j, v, h, x);
      OneAnswer(c.answers, Answer(k, Some(v)), x);
    }
  }

  lemma PromisePending(c: System, j: JId, v: Value, h: Guest, x: JId)
    requires CellsOk(c) && j in c.cells && c.cells[j].role == Outside && c.waiters != [] && x in c.cells
    requires InLine(c, c.waiters[0])
    ensures Pending(Promise(c, j, v, h), x) == Pending(c, x) + if x == c.waiters[0].j then [Some(v)] else []
  {
    InsideGet(c, c.waiters[0].j);
    InsideGet(c, x);
  }

  lemma DeliverLedger(c: System, j: JId, h: Guest)
    requires Shape(c) && Ledger(c) && j in c.cells && c.cells[j].role.Putting?
    ensures c.cells[j].role.to in c.cells && Ledger(Deliver(c, j, c.cells[j].role.to, c.cells[j].role.v, h))
  {
    var k := c.cells[j].role.to;
    assert CellOk(c, j);
    InsideGet(c, k);
    var c' := Deliver(c, j, k, c.cells[j].role.v, h);
    forall x | x in c.cells ensures Pending(c', x) == Pending(c, x) {
      InsideGet(c, x);
    }
    SameLedger(c, c');
  }

  lemma EnqueueLedger(c: System, j: JId, h: Guest)
    requires Shape(c) && Ledger(c) && j in c.cells && c.cells[j].role == Outside && h.phase.Parked?
    ensures Ledger(Enqueue(c, j, h))
  {
    var c' := Enqueue(c, j, h);
    forall x | x in c.cells ensures Pending(c', x) == Pending(c, x) {
      InsideGet(c, x);
    }
    SameLedger(c, c');
  }

  lemma RefusedLedger(c: System, j: JId)
    requires Shape(c) && Ledger(c) && j in c.cells && c.cells[j].role == Outside
    ensures Ledger(Refused(c, j))
  {
    var c' := Refused(c, j);
    forall x | x in c'.cells ensures LedgerOf(c', x) {
      assert LedgerOf(c, x);
      RefusedPending(c, j, x);
      InLineOnce(c, x);
      AnswersAppend(c.answers, Refusals(c.waiters), x);
    }
  }

  lemma RefusedPending(c: System, j: JId, x: JId)
    requires CellsOk(c) && j in c.cells && c.cells[j].role == Outside && x in c.cells
    ensures Pending(Refused(c, j), x) == Pending(c, x) + if c.cells[x].place == InQueue then [None] else []
  {
    InsideGet(c, x);
    InsideGet(c, j);
  }

  lemma InLineOnce(c: System, x: JId)
    requires CellsOk(c) && QueueOk(c) && x in c.cells
    ensures AnswersTo(Refusals(c.waiters), x) == if c.cells[x].place == InQueue then [None] else []
  {
    RefusedOnce(c.waiters, x);
    assert CellOk(c, x);
    forall i | 0 <= i < |c.waiters| && c.waiters[i].j == x ensures c.cells[x].place == InQueue {
      assert InLine(c, c.waiters[i]);
    }
  }

  lemma ResetByLedger(c: System, j: JId, w: Waiter, h: Guest)
    requires CellsOk(c) && Ledger(c) && Resets(c, j, w, true)
    ensures Ledger(ResetBy(c, j, w.j, h))
  {
    var c' := ResetBy(c, j, w.j, h);
    assert forall x :: x in c.cells ==> Pending(c', x) == Pending(c, x) by {
      forall x | x in c.cells ensures Pending(c', x) == Pending(c, x) {
        ResetByPending(c, j, w, h, x);
      }
    }
    SameLedger(c, c');
  }

  lemma ResetByPending(c: System, j: JId, w: Waiter, h: Guest, x: JId)
    requires CellsOk(c) && Resets(c, j, w, true) && x in c.cells
    ensures Pending(ResetBy(c, j, w.j, h), x) == Pending(c, x)
  {
    InsideGet(c, x);
    assert CellOk(c, w.j);
  }

  lemma TakenByLedger(c: System, j: JId, w: Waiter, h: Guest)
    requires Ledger(c) && Resets(c, j, w, false)
    ensures Ledger(TakenBy(c, j, w.j, h))
  {
    var c' := TakenBy(c, j, w.j, h);
    assert forall x :: x in c.cells ==> Pending(c', x) == Pending(c, x) by {
      forall x | x in c.cells ensures Pending(c', x) == Pending(c, x) {
        TakenByPending(c, j, w, h, x);
      }
    }
    SameLedger(c, c');
  }

  lemma TakenByPending(c: System, j: JId, w: Waiter, h: Guest, x: JId)
    requires Resets(c, j, w, false) && x in c.cells
    ensures Pending(TakenBy(c, j, w.j, h), x) == Pending(c, x)
  {
  }

  lemma EndedLedger(c: System, c1: System, j: JId, slot: Option<Value>)
    requires Shape(c) && Ledger(c) && j in c.cells && c.cells[j].role == Outside && j in c1.returned
    requires c1 == c.(queue := c1.queue, asked := c1.asked, answers := c.answers + [Answer(j, slot)])
    ensures Ledger(Ended(c1, j, slot))
  {
    var c' := Ended(c1, j, slot);
    forall x | x in c'.cells ensures LedgerOf(c', x) {
      assert LedgerOf(c, x);
      InsideGet(c, x);
      OneAnswer(c.answers, Answer(j, slot), x);
    }
  }

  lemma ReturnLedger(c: System, j: JId, h: Guest)
    requires Shape(c) && Ledger(c) && j in c.cells && c.cells[j].role == Getting && c.cells[j].h.phase == Woken
    requires j in c.returned
    ensures Ledger(Returned(c, j, h))
  {
    var c' := Returned(c, j, h);
    assert CellOk(c, j);
    forall x | x in c'.cells ensures LedgerOf(c', x) {
      assert LedgerOf(c, x);
      InsideGet(c, x);
    }
  }

  // ------------------------------------------------------------------ every action keeps all of it

  /** Only the guest of k is new. */
  ghost predicate NewGuest(c: System, c': System, k: JId, h: Guest) {
    c'.cells.Keys == c.cells.Keys && k in c.cells && c'.cells[k].h == h
    && forall x :: x in c.cells && x != k ==> c'.cells[x].h == c.cells[x].h
  }

  lemma GuestsKept(c: System, c': System, k: JId, h: Guest)
    requires GuestsOk(c) && Ok(h) && NewGuest(c, c', k, h)
    ensures GuestsOk(c')
  {
    forall x | x in c'.cells ensures GuestOk(c', x) {
      assert x in c.cells && GuestOk(c, x);
    }
  }

  lemma SameGuests(c: System, c': System)
    requires GuestsOk(c) && c'.cells == c.cells
    ensures GuestsOk(c')
  {
    forall x | x in c'.cells ensures GuestOk(c', x) {
      assert GuestOk(c, x);
    }
  }

  /** Both ends of a reset or a hand-over, of which k is the one that waits. */
  lemma PairGuest(c: System, j: JId, k: JId, x: Cell, y: Cell)
    requires j in c.cells && k in c.cells && j != k && y.h == c.cells[j].h
    ensures NewGuest(c, With(With(c, k, x), j, y), k, x.h)
  {
  }

  lemma OneGuest(c: System, j: JId, x: Cell)
    requires j in c.cells
    ensures NewGuest(c, With(c, j, x), j, x.h)
  {
  }

  lemma SameCells(c: System, c': System)
    requires CellsOk(c) && c'.cells == c.cells && c'.waiters == c.waiters
    ensures CellsOk(c')
  {
    forall x | x in c'.cells ensures CellOk(c', x) {
      assert CellOk(c, x);
    }
  }

  lemma QueuedBooks(c: System, v: Value)
    requires Books(c) && c.waiters == [] && !c.closed
    ensures Books(c.(queue := c.queue + [v], puts := c.puts + [v]))
  {
    var c' := c.(queue := c.queue + [v], puts := c.puts + [v]);
    SameCells(c, c');
    SameLedger(c, c');
  }

  lemma PromiseBooks(c: System, j: JId, v: Value, h: Guest)
    requires Books(c) && c.waiters != [] && j in c.cells && c.cells[j].role == Outside && InLine(c, c.waiters[0])
    requires h.phase == Taken(c.waiters[0].d)
    ensures Books(Promise(c, j, v, h)) && NewGuest(c, Promise(c, j, v, h), c.waiters[0].j, h)
  {
    PromiseShape(c, j, v, h);
    PromiseLedger(c, j, v, h);
    InsideGet(c, c.waiters[0].j);
  }

  lemma PutKeeps(c: System, j: JId, v: Value)
    requires Inv(c) && Enabled(c, Put(j, v))
    ensures Inv(Do(c, Put(j, v)))
  {
    if c.waiters != [] {
      var k := c.waiters[0].j;
      assert InLine(c, c.waiters[0]);
      PromiseBooks(c, j, v, Take(c.cells[k].h));
      assert Ok(Take(c.cells[k].h)) by {
        assert GuestOk(c, k);
        TakeOk(c.cells[k].h);
      }
      GuestsKept(c, Promise(c, j, v, Take(c.cells[k].h)), k, Take(c.cells[k].h));
    } else {
      QueuedBooks(c, v);
      SameGuests(c, c.(queue := c.queue + [v], puts := c.puts + [v]));
    }
  }

  lemma DeliverBooks(c: System, j: JId, k: JId, h: Guest)
    requires Books(c) && j in c.cells && c.cells[j].role.Putting? && c.cells[j].role.to == k && h.phase == Woken
    ensures k in c.cells && Books(Deliver(c, j, k, c.cells[j].role.v, h))
    ensures NewGuest(c, Deliver(c, j, k, c.cells[j].role.v, h), k, h)
  {
    DeliverShape(c, j, h);
    DeliverLedger(c, j, h);
    assert CellOk(c, j);
    InsideGet(c, k);
  }

  lemma SetValueKeeps(c: System, j: JId)
    requires Inv(c) && Enabled(c, SetValue(j))
    ensures Inv(Do(c, SetValue(j)))
  {
    var k := c.cells[j].role.to;
    var release := c.cells[k].h.phase.d.enabled;
    DeliverBooks(c, j, k, Wake(c.cells[k].h, release));
    assert Ok(Wake(c.cells[k].h, release)) by {
      assert GuestOk(c, k);
      WakeOk(c.cells[k].h, release);
    }
    GuestsKept(c, Do(c, SetValue(j)), k, Wake(c.cells[k].h, release));
  }

  lemma EndedBooks(c: System, c1: System, j: JId, slot: Option<Value>)
    requires Books(c) && j in c.cells && c.cells[j].role == Outside && j in c1.returned
    requires c1 == c.(queue := c1.queue, asked := c.asked + [j], answers := c.answers + [Answer(j, slot)])
    requires c.waiters == [] && (c.queue != [] || c.closed)
    requires c.queue == (if slot.Some? then [slot.value] else []) + c1.queue
    ensures Books(Ended(c1, j, slot)) && NewGuest(c, Ended(c1, j, slot), j, c.cells[j].h)
  {
    EndedShape(c, c1, j, slot);
    EndedLedger(c, c1, j, slot);
  }

  lemma EndedKeeps(c: System, c1: System, j: JId, slot: Option<Value>)
    requires Inv(c) && j in c.cells && c.cells[j].role == Outside && j in c1.returned
    requires c1 == c.(queue := c1.queue, asked := c.asked + [j], answers := c.answers + [Answer(j, slot)])
    requires c.waiters == [] && (c.queue != [] || c.closed)
    requires c.queue == (if slot.Some? then [slot.value] else []) + c1.queue
    ensures Inv(Ended(c1, j, slot))
  {
    var c' := Ended(c1, j, slot);
    EndedBooks(c, c1, j, slot);
    assert GuestOk(c, j);
    GuestsKept(c, c', j, c.cells[j].h);
  }

  lemma WaitBooks(c: System, j: JId, h: Guest)
    requires Books(c) && j in c.cells && c.cells[j].role == Outside && c.queue == [] && !c.closed && h.phase.Parked?
    ensures Books(Enqueue(c, j, h)) && NewGuest(c, Enqueue(c, j, h), j, h) && c.cells[j].h.phase == Busy
  {
    EnqueueShape(c, j, h);
    EnqueueLedger(c, j, h);
    assert CellOk(c, j);
  }

  lemma WaitKeeps(c: System, j: JId)
    requires Inv(c) && Ready(c, j) && c.queue == [] && !c.closed
    ensures Inv(Enqueue(c, j, Park(c.cells[j].h)))
  {
    var h := Park(c.cells[j].h);
    var c' := Enqueue(c, j, h);
    WaitBooks(c, j, h);
    assert Ok(h) by {
      assert GuestOk(c, j);
      ParkOk(c.cells[j].h);
    }
    GuestsKept(c, c', j, h);
  }

  lemma GetKeeps(c: System, j: JId)
    requires Inv(c) && Enabled(c, Get(j))
    ensures Inv(Do(c, Get(j)))
  {
    if c.queue != [] {
      var v := c.queue[0];
      assert c.queue == [v] + c.queue[1..];
      EndedKeeps(c, c.(queue := c.queue[1..], asked := c.asked + [j], answers := c.answers + [Answer(j, Some(v))]),
                 j, Some(v));
    } else if c.closed {
      EndedKeeps(c, c.(asked := c.asked + [j], answers := c.answers + [Answer(j, None)]), j, None);
    } else {
      WaitKeeps(c, j);
    }
  }

  lemma RefusedBooks(c: System, j: JId)
    requires Books(c) && j in c.cells && c.cells[j].role == Outside
    ensures Books(Refused(c, j)) && NewGuest(c, Refused(c, j), j, c.cells[j].h)
  {
    RefusedShape(c, j);
    RefusedLedger(c, j);
  }

  lemma CloseKeeps(c: System, j: JId)
    requires Inv(c) && Enabled(c, Close(j)) && !c.closed
    ensures Inv(Refused(c, j))
  {
    var c' := Refused(c, j);
    RefusedBooks(c, j);
    assert GuestOk(c, j);
    GuestsKept(c, c', j, c.cells[j].h);
  }

  lemma TakenByBooks(c: System, j: JId, w: Waiter, h: Guest)
    requires Books(c) && Resets(c, j, w, false) && w.j != j && h.phase == Taken(w.d)
    ensures Books(TakenBy(c, j, w.j, h))
  {
    TakenByShape(c, j, w, h);
    TakenByLedger(c, j, w, h);
  }

  lemma ResetTakeKeeps(c: System, j: JId)
    requires Inv(c) && Enabled(c, ResetTake(j))
    ensures Inv(Do(c, ResetTake(j)))
  {
    var w := c.cells[j].role.ws[0];
    assert Resets(c, j, w, false) && w.j != j by {
      FirstReset(c, j);
    }
    var c' := TakenBy(c, j, w.j, Take(c.cells[w.j].h));
    TakenByBooks(c, j, w, Take(c.cells[w.j].h));
    PairGuest(c, j, w.j, c'.cells[w.j], c'.cells[j]);
    assert Ok(Take(c.cells[w.j].h)) by {
      assert GuestOk(c, w.j);
      TakeOk(c.cells[w.j].h);
    }
    GuestsKept(c, c', w.j, Take(c.cells[w.j].h));
  }

  lemma ResetByBooks(c: System, j: JId, w: Waiter, h: Guest)
    requires Books(c) && Resets(c, j, w, true) && w.j != j && h.phase == Woken
    ensures Books(ResetBy(c, j, w.j, h))
  {
    ResetByShape(c, j, w, h);
    ResetByLedger(c, j, w, h);
  }

  lemma ResetDoneKeeps(c: System, j: JId)
    requires Inv(c) && Enabled(c, ResetDone(j))
    ensures Inv(Do(c, ResetDone(j)))
  {
    var w := c.cells[j].role.ws[0];
    assert Resets(c, j, w, true) && w.j != j by {
      FirstReset(c, j);
    }
    var release := c.cells[w.j].h.phase.d.enabled;
    var c' := ResetBy(c, j, w.j, Wake(c.cells[w.j].h, release));
    ResetByBooks(c, j, w, Wake(c.cells[w.j].h, release));
    PairGuest(c, j, w.j, c'.cells[w.j], c'.cells[j]);
    assert Ok(Wake(c.cells[w.j].h, release)) by {
      assert GuestOk(c, w.j);
      WakeOk(c.cells[w.j].h, release);
    }
    GuestsKept(c, c', w.j, Wake(c.cells[w.j].h, release));
  }

  lemma OpenBooks(c: System)
    requires Books(c)
    ensures Books(c.(closed := false))
  {
    SameCells(c, c.(closed := false));
    SameLedger(c, c.(closed := false));
  }

  lemma ReturnedBooks(c: System, j: JId, h: Guest)
    requires Books(c) && j in c.cells && c.cells[j].role == Getting && c.cells[j].h.phase == Woken
    requires h.phase == Busy && j in c.returned
    ensures Books(Returned(c, j, h)) && NewGuest(c, Returned(c, j, h), j, h)
  {
    ReturnShape(c, j, h);
    ReturnLedger(c, j, h);
  }

  lemma ReturnKeeps(c: System, j: JId)
    requires Inv(c) && Enabled(c, Return(j))
    ensures Inv(Do(c, Return(j)))
  {
    var h := Parking.Return(c.cells[j].h);
    var c' := Returned(c, j, h);
    ReturnedBooks(c, j, h);
    assert Ok(h) by {
      assert GuestOk(c, j);
      ReturnOk(c.cells[j].h);
    }
    GuestsKept(c, c', j, h);
  }

  lemma OwnBooks(c: System, j: JId, h: Guest)
    requires Books(c) && j in c.cells && h.phase == c.cells[j].h.phase
    ensures Books(With(c, j, c.cells[j].(h := h)))
  {
    OwnShape(c, j, h);
    SameLedger(c, With(c, j, c.cells[j].(h := h)));
  }

  lemma OwnKeeps(c: System, j: JId, a: J.Action)
    requires Inv(c) && Enabled(c, Own(j, a))
    ensures Inv(Do(c, Own(j, a)))
  {
    var h := c.cells[j].h.(g := J.Do(c.cells[j].h.g, a));
    var c' := With(c, j, c.cells[j].(h := h));
    OwnBooks(c, j, h);
    OneGuest(c, j, c'.cells[j]);
    assert Ok(h) by {
      assert GuestOk(c, j);
      InnerOk(c.cells[j].h, a);
    }
    GuestsKept(c, c', j, h);
  }

  lemma StepKeeps(c: System, a: Action)
    requires Inv(c) && Enabled(c, a)
    ensures Inv(Do(c, a))
  {
    match a
    case Put(j, v) => PutKeeps(c, j, v);
    case SetValue(j) => SetValueKeeps(c, j);
    case Get(j) => GetKeeps(c, j);
    case Return(j) => ReturnKeeps(c, j);
    case Open(j) =>
      OpenBooks(c);
      SameGuests(c, c.(closed := false));
    case Close(j) =>
      if !c.closed {
        CloseKeeps(c, j);
      }
    case ResetTake(j) => ResetTakeKeeps(c, j);
    case ResetDone(j) => ResetDoneKeeps(c, j);
    case Own(j, a) => OwnKeeps(c, j, a);
  }

  lemma {:induction false} RunKeeps(c: System, acts: seq<Action>)
    requires Inv(c) && Legal(c, acts)
    ensures Inv(After(c, acts))
    decreases |acts|
  {
    if acts != [] {
      StepKeeps(c, acts[0]);
      RunKeeps(Do(c, acts[0]), acts[1..]);
    }
  }

  lemma {:induction false} Reached(js: set<JId>, acts: seq<Action>)
    requires Legal(Start(js), acts)
    ensures Inv(After(Start(js), acts))
  {
    InitInv(js);
    RunKeeps(Start(js), acts);
  }

  /** Requests are answered in order, the values answered are the values put, in order, and the others are
      still queued; none is lost or duplicated, and values and gets never wait together. */
  lemma {:induction false} FifoConservation(js: set<JId>, acts: seq<Action>)
    requires Legal(Start(js), acts)
    ensures var c := After(Start(js), acts);
            && Values(c.answers) + c.queue == c.puts && Values(c.answers) <= c.puts
            && Askers(c.answers) + Names(c.waiters) == c.asked
            && (c.queue == [] || c.waiters == [])
  {
    Reached(js, acts);
  }

  /** What the gets of a journey have returned, values and falses, is what the channel has answered to it,
      in order; one more answer is due at most, and only while the journey is inside get. */
  lemma {:induction false} ReturnsWhatWasAnswered(js: set<JId>, acts: seq<Action>, j: JId)
    requires Legal(Start(js), acts) && j in After(Start(js), acts).cells
    ensures var c := After(Start(js), acts);
            && j in c.returned && c.returned[j] <= AnswersTo(c.answers, j)
            && |AnswersTo(c.answers, j)| <= |c.returned[j]| + 1
            && (c.cells[j].role != Getting ==> c.returned[j] == AnswersTo(c.answers, j))
  {
    Reached(js, acts);
    var c := After(Start(js), acts);
    assert LedgerOf(c, j);
    InsideGet(c, j);
  }

  /** A get is refused only by a closed channel whose values have all been answered to somebody. */
  lemma {:induction false} RefusedWhenClosed(js: set<JId>, acts: seq<Action>, a: Action, i: nat)
    requires Legal(Start(js), acts) && Enabled(After(Start(js), acts), a)
    requires i < |Do(After(Start(js), acts), a).answers|
    ensures var c := After(Start(js), acts);
            var c' := Do(c, a);
            c.answers <= c'.answers
            && (i >= |c.answers| && c'.answers[i].v == None ==>
                  c'.closed && c'.queue == [] && Values(c'.answers) == c'.puts)
  {
    Reached(js, acts);
    RefusedStep(After(Start(js), acts), a, i);
  }

  lemma RefusedStep(c: System, a: Action, i: nat)
    requires Inv(c) && Enabled(c, a) && i < |Do(c, a).answers|
    ensures var c' := Do(c, a);
            c.answers <= c'.answers
            && (i >= |c.answers| && c'.answers[i].v == None ==>
                  c'.closed && c'.queue == [] && Values(c'.answers) == c'.puts)
  {
    assert Fifo(Do(c, a)) by {
      StepKeeps(c, a);
    }
    NewAnswers(c, a);
  }

  lemma NewAnswers(c: System, a: Action)
    requires QueueOk(c) && Enabled(c, a)
    ensures var c' := Do(c, a);
            && c.answers <= c'.answers
            && (c'.answers == c.answers || (c'.closed && c'.queue == [])
                || exists x: Answer :: c'.answers == c.answers + [x] && x.v.Some?)
  {
    var c' := Do(c, a);
    match a
    case Put(j, v) =>
      if c.waiters != [] {
        assert c'.answers == c.answers + [Answer(c.waiters[0].j, Some(v))];
      }
    case Get(j) =>
      if c.queue != [] {
        assert c'.answers == c.answers + [Answer(j, Some(c.queue[0]))];
      }
    case _ =>
  }

  /** close refuses waiting gets only when every value put has been answered to somebody else. */
  lemma {:induction false} CloseRefusesUnmatched(js: set<JId>, acts: seq<Action>)
    requires Legal(Start(js), acts) && After(Start(js), acts).waiters != []
    ensures var c := After(Start(js), acts); c.puts == Values(c.answers)
  {
    Reached(js, acts);
  }

  /** A get that was promised an answer gets it: its put or close can go on, and once woken it leaves
      waitForDone in at most seven steps of its own. */
  lemma {:induction false} AnswerIsNotLost(js: set<JId>, acts: seq<Action>, j: JId, a: J.Action)
    requires Legal(Start(js), acts) && j in After(Start(js), acts).cells
    ensures var c := After(Start(js), acts);
            var x := c.cells[j];
            && (x.place.ByPut? ==> Enabled(c, SetValue(x.place.k)))
            && (x.place.ByClose? ==> Enabled(c, ResetTake(x.place.k)) || Enabled(c, ResetDone(x.place.k)))
            && (x.h.phase == Woken ==>
                  (InUserCode(x.h) || Inner(x.h, NextInner(x.h.g)))
                  && (Inner(x.h, a) ==> Distance(J.Do(x.h.g, a)) < Distance(x.h.g) <= 7))
  {
    Reached(js, acts);
    AnswerOf(After(Start(js), acts), j, a);
  }

  lemma AnswerOf(c: System, j: JId, a: J.Action)
    requires Inv(c) && j in c.cells
    ensures var x := c.cells[j];
            && (x.place.ByPut? ==> Enabled(c, SetValue(x.place.k)))
            && (x.place.ByClose? ==> Enabled(c, ResetTake(x.place.k)) || Enabled(c, ResetDone(x.place.k)))
            && (x.h.phase == Woken ==>
                  (InUserCode(x.h) || Inner(x.h, NextInner(x.h.g)))
                  && (Inner(x.h, a) ==> Distance(J.Do(x.h.g, a)) < Distance(x.h.g) <= 7))
  {
    var x := c.cells[j];
    if x.place.ByPut? {
      assert CellOk(c, j);
    }
    if x.place.ByClose? {
      assert CellOk(c, j);
      CloserGoesOn(c, x.place.k);
    }
    if x.h.phase == Woken {
      assert GuestOk(c, j);
      WokenLeaves(x.h, a);
    }
  }

  lemma CloserGoesOn(c: System, k: JId)
    requires CellsOk(c) && GuestsOk(c) && k in c.cells && c.cells[k].role.Closing?
    ensures Enabled(c, ResetTake(k)) || Enabled(c, ResetDone(k))
  {
    FirstReset(c, k);
    if !c.cells[k].role.taken {
      assert GuestOk(c, c.cells[k].role.ws[0].j);
      TakeOk(c.cells[c.cells[k].role.ws[0].j].h);
    }
  }

  lemma WokenLeaves(h: Guest, a: J.Action)
    requires Ok(h) && h.phase == Woken
    ensures InUserCode(h) || Inner(h, NextInner(h.g))
    ensures Inner(h, a) ==> Distance(J.Do(h.g, a)) < Distance(h.g) <= 7
  {
    WakeIsNotLost(h, a);
  }

  // ------------------------------------------------------------------ get gives events back

  /** Not the code of journey j itself, outside get, setting its events. */
  predicate Leaves(a: Action, j: JId) {
    !(a.Own? && a.j == j && Sets(a.a))
  }

  /** All that an action may do to the journey j. */
  predicate Turns(h: Guest, h': Guest, a: Action, j: JId) {
    || h' == h
    || (CanTake(h) && h' == Take(h))
    || (h.phase.Taken? && h' == Wake(h, h.phase.d.enabled))
    || (h.phase == Busy && InUserCode(h) && h' == Park(h))
    || (h.phase == Woken && h' == Parking.Return(h))
    || (a.Own? && a.j == j && Inner(h, a.a) && h' == h.(g := J.Do(h.g, a.a)))
  }

  lemma StepTurns(c: System, a: Action, j: JId)
    requires Enabled(c, a) && j in c.cells && (c.cells[j].role == Outside ==> c.cells[j].h.phase == Busy)
    ensures j in Do(c, a).cells && Turns(c.cells[j].h, Do(c, a).cells[j].h, a, j)
  {
  }

  lemma TurnGives(h: Guest, h': Guest, a: Action, j: JId)
    requires Ok(h) && Turns(h, h', a, j) && Leaves(a, j)
    ensures Gives(h') == Gives(h)
  {
    GivesTake(h);
    GivesWake(h);
    if h.phase == Busy && InUserCode(h) {
      ParkGives(h);
    }
    if a.Own? && Inner(h, a.a) && !Sets(a.a) {
      InnerGives(h, a.a);
    }
  }

  lemma GivesStep(c: System, a: Action, j: JId)
    requires Inv(c) && Enabled(c, a) && j in c.cells && Leaves(a, j)
    ensures j in Do(c, a).cells && Gives(Do(c, a).cells[j].h) == Gives(c.cells[j].h)
  {
    assert GuestOk(c, j) && CellOk(c, j);
    StepTurns(c, a, j);
    TurnGives(c.cells[j].h, Do(c, a).cells[j].h, a, j);
  }

  lemma GivesTake(h: Guest)
    requires Ok(h)
    ensures CanTake(h) ==> Gives(Take(h)) == Gives(h)
  {
    if CanTake(h) {
      TakeGives(h);
    }
  }

  lemma GivesWake(h: Guest)
    requires Ok(h)
    ensures h.phase.Taken? ==> Gives(Wake(h, h.phase.d.enabled)) == Gives(h)
  {
    if h.phase.Taken? {
      WakeGives(h);
    }
  }

  lemma {:induction false} GivesRun(c: System, acts: seq<Action>, j: JId)
    requires Inv(c) && Legal(c, acts) && j in c.cells && forall a :: a in acts ==> Leaves(a, j)
    ensures j in After(c, acts).cells && Gives(After(c, acts).cells[j].h) == Gives(c.cells[j].h)
    decreases |acts|
  {
    if acts != [] {
      GivesStep(c, acts[0], j);
      StepKeeps(c, acts[0]);
      GivesRun(Do(c, acts[0]), acts[1..], j);
    }
  }

  /** Over every run: while the doer of a waiting get is acquired its journey's events are disabled; at any
      other time, and so when get returns, they are as they were when get was called, unless the journey's own
      code has set them since. */
  lemma {:induction false} EventsComeBack(js: set<JId>, before: seq<Action>, acts: seq<Action>, j: JId)
    requires Legal(Start(js), before) && Legal(After(Start(js), before), acts)
    requires forall a :: a in acts ==> Leaves(a, j)
    requires j in After(Start(js), before).cells && !After(Start(js), before).cells[j].h.phase.Taken?
    ensures j in After(After(Start(js), before), acts).cells
    ensures var c := After(Start(js), before);
            var was, h := c.cells[j].h.g.word.enabled, After(c, acts).cells[j].h;
            if h.phase.Taken? then !h.g.word.enabled && h.phase.d.enabled == was else h.g.word.enabled == was
  {
    Reached(js, before);
    GivesRun(After(Start(js), before), acts, j);
    RunKeeps(After(Start(js), before), acts);
    assert GuestOk(After(After(Start(js), before), acts), j);
  }

  // ------------------------------------------------------------------ the ledgers only grow

  /** The histories say what happens: put appends its value, get appends its caller, and what a get returns is
      appended to its journey's returns when its code goes on. */
  lemma Recorded(c: System, a: Action)
    requires Enabled(c, a)
    ensures var c' := Do(c, a);
            && c'.puts == (if a.Put? then c.puts + [a.v] else c.puts)
            && c'.asked == (if a.Get? then c.asked + [a.j] else c.asked)
            && c.answers <= c'.answers
            && (a.Return? ==> c'.returned == c.returned[a.j := c.returned[a.j] + [c.cells[a.j].slot]])
            && (a.Get? && c'.cells[a.j].role == Outside ==>
                  c'.returned == c.returned[a.j := c.returned[a.j] + [c'.cells[a.j].slot]])
            && (!a.Return? && !(a.Get? && c'.cells[a.j].role == Outside) ==> c'.returned == c.returned)
  {
  }
}

/** The object.  In general an acquire can fail, because a raise event came first; then put goes on to
    the next waiter. */
module ChannelObject {
  import opened Types
  import opened JourneyWord
  import opened Parking
  import opened ChannelSystem

  datatype Got = Value(v: Value) | NoMore | Wait

  /** The critical section of put on an open channel: the value finds a receiver or is queued. */
  function AfterPut(q: seq<Value>, ws: seq<Waiter>, v: Value, words: map<JId, Word<nat>>)
    : (seq<Value>, seq<Waiter>, Option<Waiter>)
  {
    var i := FirstReady(ws, words);
    if i < |ws| then (q, ws[i + 1..], Some(ws[i])) else (q + [v], [], None)
  }

  /** The critical section of get; w is the waiter it would leave. */
  function AfterGet(q: seq<Value>, ws: seq<Waiter>, closed: bool, w: Waiter): (seq<Value>, seq<Waiter>, Got) {
    if q != [] then (q[1..], ws, Got.Value(q[0]))
    else if closed then (q, ws, NoMore)
    else (q, ws + [w], Wait)
  }

  /** Waiters that cannot be acquired are dropped; the first that can gets the value, and those behind it wait
      on in their order. */
  lemma PutFindsFirst(q: seq<Value>, ws: seq<Waiter>, v: Value, words: map<JId, Word<nat>>, i: nat)
    requires i < |ws| && (forall k :: 0 <= k < |ws| ==> ws[k].j in words)
    requires Acquirable(ws[i], words) && forall k :: 0 <= k < i ==> !Acquirable(ws[k], words)
    ensures AfterPut(q, ws, v, words) == (q, ws[i + 1..], Some(ws[i]))
  {
    FirstReadyIs(ws, words, i);
  }

  /** A value that no waiter takes is queued behind the others. */
  lemma PutQueues(q: seq<Value>, ws: seq<Waiter>, v: Value, words: map<JId, Word<nat>>)
    requires forall k :: 0 <= k < |ws| ==> ws[k].j in words && !Acquirable(ws[k], words)
    ensures AfterPut(q, ws, v, words) == (q + [v], [], None)
  {
    FirstReadyIs(ws, words, |ws|);
  }

  class Channel {
    var queue: seq<Value>
    var waiters: seq<Waiter>
    var closed: bool

    constructor ()
      ensures queue == [] && waiters == [] && !closed
    {
      queue, waiters, closed := [], [], false;
    }

    /** put, up to the end of its critical section; a closed channel refuses. */
    method Put(v: Value, words: map<JId, Word<nat>>) returns (ok: bool, receiver: Option<Waiter>)
      requires forall w :: w in waiters ==> w.j in words
      modifies this`queue, this`waiters
      ensures ok == !closed
      ensures !ok ==> queue == old(queue) && waiters == old(waiters) && receiver == None
      ensures ok ==> (queue, waiters, receiver) == AfterPut(old(queue), old(waiters), v, words)
    {
      if closed {
        return false, None;
      }
      ghost var i := 0;
      while waiters != []
        invariant i <= |old(waiters)| && waiters == old(waiters)[i..] && queue == old(queue)
        invariant FirstReady(old(waiters), words) == i + FirstReady(waiters, words)
        decreases |waiters|
      {
        var w := waiters[0];
        assert w in waiters && w in old(waiters);
        waiters := waiters[1..];
        if Acquires(words[w.j], w.d) {
          return true, Some(w);
        }
        i := i + 1;
      }
      queue := queue + [v];
      return true, None;
    }

    /** get, up to the end of its critical section. */
    method Get(w: Waiter) returns (r: Got)
      modifies this`queue, this`waiters
      ensures (queue, waiters, r) == AfterGet(old(queue), old(waiters), closed, w)
    {
      if queue != [] {
        r := Got.Value(queue[0]);
        queue := queue[1..];
        return;
      }
      if closed {
        return NoMore;
      }
      waiters := waiters + [w];
      return Wait;
    }

    /** The critical section of close: the waiters it answers false to. */
    method Close() returns (refused: seq<Waiter>)
      modifies this`closed, this`waiters
      ensures closed
      ensures if old(closed) then refused == [] && waiters == old(waiters) else refused == old(waiters) && waiters == []
    {
      if closed {
        return [];
      }
      closed := true;
      refused := waiters;
      waiters := [];
    }
  }

  // ------------------------------------------------------------------ the object is what the system runs

  function Words(c: System): map<JId, Word<nat>> {
    map j | j in c.cells :: c.cells[j].h.g.word
  }

  /** With no raise events the first waiter is the one that is found. */
  lemma FirstIsReady(c: System)
    requires Inv(c) && c.waiters != []
    ensures FirstReady(c.waiters, Words(c)) == 0
  {
    assert InLine(c, c.waiters[0]);
    assert GuestOk(c, c.waiters[0].j);
    TakeOk(c.cells[c.waiters[0].j].h);
  }

  lemma PutIsSystem(c: System, j: JId, v: Value)
    requires Inv(c) && Enabled(c, Put(j, v))
    ensures var c' := Do(c, Put(j, v));
            var r := AfterPut(c.queue, c.waiters, v, Words(c));
            && r.0 == c'.queue && r.1 == c'.waiters
            && (r.2.Some? <==> c.waiters != [])
            && (r.2.Some? ==> r.2.value.j in c.cells && c'.cells[r.2.value.j].h.phase == Taken(r.2.value.d)
                              && c'.cells[j].role == Putting(r.2.value.j, v))
  {
    if c.waiters != [] {
      FirstIsReady(c);
      var w := c.waiters[0];
      assert InLine(c, w);
      assert w.j != j by {
        assert CellOk(c, w.j);
      }
    }
  }

  lemma GetIsSystem(c: System, j: JId)
    requires Enabled(c, Get(j))
    ensures var c' := Do(c, Get(j));
            var r := AfterGet(c.queue, c.waiters, c.closed, Waiter(j, NewDoer(c.cells[j].h)));
            && r.0 == c'.queue && r.1 == c'.waiters
            && (match r.2
                case Value(v) => c'.cells[j].slot == Some(v) && c'.cells[j].role == Outside
                case NoMore => c'.cells[j].slot == None && c'.cells[j].role == Outside
                case Wait => c'.cells[j].role == Getting)
  {
  }
}
