/** Joining jobs: `Completer2` of src/core.cpp as `Awaiter2` uses it, with no raise events. */
module Completer {
  import opened Parking
  import J = Journey

  /** Where the owner is. */
  datatype Place =
    | Outside
    | Adding            // inside wait: jobs_ is made positive, the counter is not yet added to
    | Blocked           // inside wait: calling waitForDone
    | Returned(early: bool)   // wait returned; early: without waitForDone

  /** `jobs` and `counter` are the two fields.  The rest is history: jobs running, jobs launched in
      this round, whether the last one launched is counted by start(), jobs that saw the counter reach
      zero and are about to call doer_.done(), and how many calls of doer_.done() this round saw. */
  datatype System = System(owner: Guest, jobs: int, counter: int, place: Place,
                           running: nat, launched: nat, uncounted: bool, firing: nat, fired: nat)

  datatype Action =
    | Launch             // Awaiter2::go starts a job ...
    | Count              // ... and then calls start()
    | JobDone            // a job ends: fetch_add(-1)
    | Fire               // doer_.done()
    | Wait               // wait(), up to its first atomic operation
    | Add                // fetch_add(jobs_)
    | WaitReturns        // waitForDone returns
    | Again              // the owner goes on after wait
    | Own(a: J.Action)

  function Start(): System {
    System(Guest(J.Start(), Busy), 0, 0, Outside, 0, 0, false, 0, 0)
  }

  datatype Waiting = Ends | Adds | Blocks

  /** What wait does before it touches the counter, or when it only looks at it: the new jobs_ and how it
      goes on.  A second wait, after an interrupted one, finds jobs_ positive. */
  function BeforeAdd(jobs: int, counter: int): (int, Waiting) {
    if jobs == 0 then (0, Ends)
    else if jobs < 0 then (-jobs, Adds)
    else if counter == 0 then (0, Ends)
    else (jobs, Blocks)
  }

  /** What wait does with its fetch_add: the new fields, and must the owner wait? */
  function AfterAdd(jobs: int, counter: int): (int, int, bool) {
    if counter + jobs == 0 then (0, 0, false) else (jobs, counter + jobs, true)
  }

  /** What done does: the new counter, and must the job call doer_.done()? */
  function AfterDone(counter: int): (int, bool) {
    (counter - 1, counter - 1 == 0)
  }

  predicate Enabled(c: System, a: Action) {
    match a
    case Launch => c.place == Outside && InUserCode(c.owner) && !c.uncounted
    case Count => c.uncounted
    case JobDone => c.running > 0
    case Fire => c.firing > 0
    case Wait => c.place == Outside && InUserCode(c.owner) && !c.uncounted
    case Add => c.place == Adding && InUserCode(c.owner)
    case WaitReturns => c.place == Blocked && c.owner.phase == Woken && InUserCode(c.owner)
    case Again => c.place.Returned?
    case Own(a) => Inner(c.owner, a)
  }

  function Do(c: System, a: Action): System
    requires Enabled(c, a)
  {
    match a
    case Launch => c.(running := c.running + 1, launched := c.launched + 1, uncounted := true)
    case Count => c.(jobs := c.jobs - 1, uncounted := false)
    case JobDone =>
      var (counter, last) := AfterDone(c.counter);
      c.(running := c.running - 1, counter := counter, firing := c.firing + if last then 1 else 0)
    case Fire => c.(owner := Wake(c.owner, false), firing := c.firing - 1, fired := c.fired + 1)
    case Wait =>
      var (jobs, how) := BeforeAdd(c.jobs, c.counter);
      (match how
       case Ends => c.(jobs := jobs, place := Returned(true))
       case Adds => c.(jobs := jobs, place := Adding)
       case Blocks => c.(jobs := jobs, owner := Park(c.owner), place := Blocked))
    case Add =>
      var (jobs, counter, blocks) := AfterAdd(c.jobs, c.counter);
      if blocks then c.(jobs := jobs, counter := counter, owner := Park(c.owner), place := Blocked)
      else c.(jobs := jobs, counter := counter, place := Returned(true))
    case WaitReturns => c.(owner := Parking.Return(c.owner), jobs := 0, place := Returned(false))
    case Again => c.(place := Outside, launched := 0, fired := 0)
    case Own(a) => c.(owner := c.owner.(g := J.Do(c.owner.g, a)))
  }

  predicate Legal(c: System, acts: seq<Action>)
    decreases |acts|
  {
    acts == [] || (Enabled(c, acts[0]) && Legal(Do(c, acts[0]), acts[1..]))
  }

  function After(c: System, acts: seq<Action>): System
    requires Legal(c, acts)
    decreases |acts|
  {
    if acts == [] then c else After(Do(c, acts[0]), acts[1..])
  }

  /** The counter is the jobs still running, less those launched that it has not been told of. */
  ghost predicate Counts(c: System) {
    && c.running <= c.launched
    && match c.place
       case Outside =>
         && c.counter == c.running - c.launched && c.jobs == (if c.uncounted then 1 else 0) - c.launched
         && c.firing == 0 && c.fired == 0 && c.owner.phase == Busy && (c.uncounted ==> c.launched > 0)
       case Adding =>
         && c.counter == c.running - c.launched && c.jobs == c.launched > 0 && !c.uncounted
         && c.firing == 0 && c.fired == 0 && c.owner.phase == Busy
       case Blocked =>
         && c.counter == c.running && c.jobs == c.launched > 0 && !c.uncounted
         && c.firing + c.fired == (if c.running == 0 then 1 else 0)
         && (c.owner.phase.Parked? <==> c.fired == 0) && (c.owner.phase == Woken <==> c.fired == 1)
       case Returned(early) =>
         && c.running == 0 && c.counter == 0 && c.jobs == 0 && !c.uncounted && c.firing == 0
         && c.owner.phase == Busy && c.fired == if early then 0 else 1
  }

  lemma StepKeeps(c: System, a: Action)
    requires Ok(c.owner) && Counts(c) && Enabled(c, a)
    ensures Ok(Do(c, a).owner) && Counts(Do(c, a))
  {
    match a
    case Fire => WakeOk(c.owner, false);
    case Wait =>
    case Add =>
      if c.counter + c.jobs != 0 {
        ParkOk(c.owner);
      }
    case WaitReturns => ReturnOk(c.owner);
    case Own(a) => InnerOk(c.owner, a);
    case _ =>
  }

  lemma {:induction false} RunKeeps(c: System, acts: seq<Action>)
    requires Ok(c.owner) && Counts(c) && Legal(c, acts)
    ensures Ok(After(c, acts).owner) && Counts(After(c, acts))
    decreases |acts|
  {
    if acts != [] {
      StepKeeps(c, acts[0]);
      RunKeeps(Do(c, acts[0]), acts[1..]);
    }
  }

  lemma {:induction false} Reached(acts: seq<Action>)
    requires Legal(Start(), acts)
    ensures Ok(After(Start(), acts).owner) && Counts(After(Start(), acts))
  {
    StartOk();
    RunKeeps(Start(), acts);
  }

  /** wait returns only after every job of the round has ended; doer_.done() is called exactly once in
      a round whose wait blocked, before that wait returns, and never otherwise; between rounds both
      fields are zero. */
  ghost predicate Joins(c: System) {
    && (c.place.Returned? ==> c.running == 0 && c.firing == 0 && c.fired == if c.place.early then 0 else 1)
    && (c.firing + c.fired > 0 ==> c.place == Blocked || c.place == Returned(false))
    && (c.place.Returned? || (c.place == Outside && c.launched == 0) ==> c.counter == 0 && c.jobs == 0)
  }

  lemma {:induction false} JoinIsCorrect(acts: seq<Action>)
    requires Legal(Start(), acts)
    ensures Joins(After(Start(), acts))
  {
    Counted(acts);
    CountsJoin(After(Start(), acts));
  }

  lemma {:induction false} Counted(acts: seq<Action>)
    requires Legal(Start(), acts)
    ensures Counts(After(Start(), acts))
  {
    Reached(acts);
  }

  lemma CountsJoin(c: System)
    requires Counts(c)
    ensures Joins(c)
  {
  }

  /** A wait that is interrupted leaves its fields as they are; whenever the next one begins, it blocks exactly
      when jobs of the round still run. */
  lemma {:induction false} SecondWait(acts: seq<Action>)
    requires Legal(Start(), acts) && After(Start(), acts).place == Blocked
    ensures var c := After(Start(), acts);
            && c.jobs > 0
            && (c.running > 0 ==> BeforeAdd(c.jobs, c.counter) == (c.jobs, Blocks))
            && (c.running == 0 ==> BeforeAdd(c.jobs, c.counter) == (0, Ends))
  {
    Counted(acts);
  }

  /** A blocked wait ends: while jobs run they can end, the last one can call doer_.done(), and then
      the owner leaves waitForDone in at most seven steps of its own. */
  lemma {:induction false} JoinIsNotLost(acts: seq<Action>, a: J.Action)
    requires Legal(Start(), acts) && After(Start(), acts).place == Blocked
    ensures var c := After(Start(), acts);
            && (c.running > 0 || Enabled(c, Fire) || c.owner.phase == Woken)
            && (c.owner.phase == Woken ==>
                  (Enabled(c, WaitReturns) || Enabled(c, Own(NextInner(c.owner.g))))
                  && (Enabled(c, Own(a)) ==> Distance(J.Do(c.owner.g, a)) < Distance(c.owner.g) <= 7))
  {
    Reached(acts);
    BlockedEnds(After(Start(), acts), a);
  }

  lemma BlockedEnds(c: System, a: J.Action)
    requires Counts(c) && Ok(c.owner) && c.place == Blocked
    ensures c.running > 0 || Enabled(c, Fire) || c.owner.phase == Woken
    ensures c.owner.phase == Woken ==>
              (Enabled(c, WaitReturns) || Enabled(c, Own(NextInner(c.owner.g))))
              && (Enabled(c, Own(a)) ==> Distance(J.Do(c.owner.g, a)) < Distance(c.owner.g) <= 7)
  {
    if c.owner.phase == Woken {
      WakeIsNotLost(c.owner, a);
    }
  }
}

/** The object: its two fields and what each call does with them. */
module CompleterObject {
  import opened Completer

  class Completer2 {
    var jobs: int
    var counter: int

    constructor ()
      ensures jobs == 0 && counter == 0
    {
      jobs, counter := 0, 0;
    }

    method Start()
      modifies this`jobs
      ensures jobs == old(jobs) - 1
    {
      jobs := jobs - 1;
    }

    method Add(v: int) returns (zero: bool)
      modifies this`counter
      ensures counter == old(counter) + v && zero == (counter == 0)
    {
      counter := counter + v;
      return counter == 0;
    }

    /** Must the caller now call doer_.done()? */
    method Done() returns (last: bool)
      modifies this`counter
      ensures counter == old(counter) - 1 && last == (counter == 0)
    {
      last := Add(-1);
    }

    /** wait up to waitForDone: must the owner wait?  Its one access to the counter is where it takes
        effect, since nobody else sees jobs_. */
    method BeginWait() returns (blocks: bool)
      modifies this
      ensures old(jobs) == 0 ==> !blocks && jobs == 0 && counter == old(counter)
      ensures old(jobs) < 0 ==>
                && counter == old(counter) - old(jobs) && blocks == (counter != 0)
                && jobs == if blocks then -old(jobs) else 0
      ensures old(jobs) > 0 ==>
                && counter == old(counter) && blocks == (counter != 0)
                && jobs == if blocks then old(jobs) else 0
    {
      if jobs == 0 {
        return false;
      }
      if jobs < 0 {
        jobs := -jobs;
        var zero := Add(jobs);
        if zero {
          jobs := 0;
          return false;
        }
      } else if counter == 0 {
        jobs := 0;
        return false;
      }
      return true;
    }

    /** The rest of `wait`. */
    method EndWait()
      modifies this`jobs
      ensures jobs == 0
    {
      jobs := 0;
    }
  }

  // ------------------------------------------------------------------ the object is what the system runs

  /** The fields after start, done and the two halves of wait are what the methods make of them. */
  lemma CallsAreSystem(c: System, a: Action)
    requires Counts(c) && Enabled(c, a)
    ensures var c' := Do(c, a);
            && (a.Count? ==> c'.jobs == c.jobs - 1 && c'.counter == c.counter)
            && (a.JobDone? ==> c'.counter == c.counter - 1 && c'.jobs == c.jobs
                               && c'.firing == c.firing + if c'.counter == 0 then 1 else 0)
            && (a.Wait? && c.jobs == 0 ==> c'.place == Returned(true) && c'.jobs == 0 && c'.counter == c.counter)
            && (a.Wait? && c.jobs < 0 ==> c'.place == Adding && c'.jobs == -c.jobs && c'.counter == c.counter)
            && (a.Add? ==> if c.counter + c.jobs == 0 then c'.place == Returned(true) && c'.jobs == 0 && c'.counter == 0
                           else c'.place == Blocked && c'.jobs == c.jobs && c'.counter == c.counter + c.jobs)
            && (a.WaitReturns? ==> c'.jobs == 0 && c'.counter == c.counter)
  {
  }
}
