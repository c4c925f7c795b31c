/** The table of steps of one node: `Phantom` of include/synca/once/phantom.h. */
module PhantomTable {
  import opened Types

  datatype Table<T> = Table(next: StepId, cur: StepId, steps: map<StepId, T>)

  /** Steps are kept exactly between the first unfinished one and the next free one. */
  ghost predicate Wf<T>(t: Table<T>) {
    t.cur <= t.next && forall s :: s in t.steps ==> t.cur <= s < t.next
  }

  function Get<T>(t: Table<T>, s: StepId, blank: T): T {
    if s in t.steps then t.steps[s] else blank
  }

  /** Store a step; a step at or past `next` moves `next` behind it. */
  function Write<T>(t: Table<T>, s: StepId, x: T): (r: Table<T>)
    requires t.cur <= s
    ensures Wf(t) ==> Wf(r)
  {
    Table(if t.next <= s then s + 1 else t.next, t.cur, t.steps[s := x])
  }

  function Touch<T>(t: Table<T>, s: StepId, blank: T): (r: Table<T>)
    requires t.cur <= s
    ensures Wf(t) ==> Wf(r)
  {
    Write(t, s, Get(t, s, blank))
  }

  /** Forget the head step. */
  function Advance<T>(t: Table<T>): (r: Table<T>)
    ensures Wf(t) && t.cur in t.steps ==> Wf(r)
  {
    Table(t.next, t.cur + 1, t.steps - {t.cur})
  }

  /** What running handlers may do to a table: steps leave it only from the head, in order and
      finished; the other ones keep their flag; new steps take new numbers. */
  ghost predicate Evolved(a: Table<bool>, b: Table<bool>) {
    && a.cur <= b.cur && a.next <= b.next
    && (forall s :: a.cur <= s < b.cur && s < a.next ==> s in a.steps && a.steps[s])
    && (forall s :: s in a.steps && b.cur <= s ==> s in b.steps && b.steps[s] == a.steps[s])
    && (forall s :: s in b.steps && s !in a.steps ==> a.next <= s)
  }

  lemma EvolvedTransitive(a: Table<bool>, b: Table<bool>, c: Table<bool>)
    requires Evolved(a, b) && Evolved(b, c)
    ensures Evolved(a, c)
  {
  }

  lemma EvolvedAdvance(a: Table<bool>, b: Table<bool>)
    requires Evolved(a, b) && b.cur in b.steps && b.steps[b.cur]
    ensures Evolved(a, Advance(b))
  {
  }
}

/** The object: `create`, `getPtr` and `complete`, with handlers that may re-enter. */
module PhantomObject {
  import opened Types
  import opened PhantomTable

  /** The first n steps in their order. */
  function FirstSteps(n: nat): (r: seq<StepId>)
    ensures |r| == n && forall i :: 0 <= i < n ==> r[i] == i
  {
    seq(n, i => i)
  }

  class Phantom {
    var next: StepId
    var cur: StepId
    var steps: map<StepId, bool>      // step -> completed_
    var ran: seq<StepId>              // every onComplete call, oldest first
    /** What the coming onComplete calls do: call i creates one step per flag of script[i], and the
        flag tells whether that step completes at once. */
    var script: seq<seq<bool>>
    ghost var inside: bool            // an onComplete call is running

    ghost function View(): Table<bool>
      reads this
    {
      Table(next, cur, steps)
    }

    /** No finished step waits at the head. */
    ghost predicate HeadOpen()
      reads this
    {
      cur in steps ==> !steps[cur]
    }

    ghost predicate Valid()
      reads this
    {
      && Wf(View())
      && ran == FirstSteps(cur + if inside then 1 else 0)
      && (if inside then cur in steps && steps[cur] else HeadOpen())
    }

    constructor (script: seq<seq<bool>>)
      ensures Valid() && !inside && View() == Table(0, 0, map[]) && this.script == script
    {
      next, cur, steps, ran, inside := 0, 0, map[], [], false;
      this.script := script;
    }

    method Create() returns (s: StepId)
      requires Valid()
      modifies this`next, this`steps
      ensures Valid()
      ensures s == old(next) && s !in old(steps)
      ensures View() == Touch(old(View()), s, false)
    {
      s := next;
      next := next + 1;
      var found := GetPtr(s);
    }

    method GetPtr(s: StepId) returns (found: bool)
      requires Wf(View())
      modifies this`next, this`steps
      ensures found <==> cur <= s
      ensures View() == if cur <= s then Touch(old(View()), s, false) else old(View())
    {
      if s < cur {
        return false;
      }
      if s !in steps {
        steps := steps[s := false];
      }
      if next <= s {
        next := s + 1;
      }
      return true;
    }

    /** `WithPhantom::complete` on step s followed by `Phantom::complete`. */
    method Complete(s: StepId)
      requires Valid() && s in steps && (inside ==> s != cur)
      modifies this`next, this`cur, this`steps, this`ran, this`script, this`inside
      ensures Valid() && inside == old(inside)
      ensures |script| <= old(|script|)
      ensures old(inside) ==> cur == old(cur) && next == old(next) && script == old(script) && ran == old(ran)
      ensures old(inside) ==> steps == old(steps)[s := true]
      ensures Evolved(Table(old(next), old(cur), old(steps)[s := true]), View())
      decreases |script|, 3
    {
      steps := steps[s := true];
      if s != cur {
        return;
      }
      var done := RunHead();
      while done && cur < next && cur in steps
        invariant !done ==> Valid() && !inside
        invariant done ==> Wf(View()) && !inside && ran == FirstSteps(cur)
        invariant |script| <= old(|script|)
        invariant Evolved(Table(old(next), old(cur), old(steps)[s := true]), View())
        decreases done, |script|, next - cur
      {
        ghost var before := View();
        done := RunHead();
        EvolvedTransitive(Table(old(next), old(cur), old(steps)[s := true]), before, View());
      }
    }

    /** One turn of the loop: run the head step if it is finished, then erase it. */
    method RunHead() returns (done: bool)
      requires Wf(View()) && !inside && ran == FirstSteps(cur) && cur in steps
      modifies this`next, this`cur, this`steps, this`ran, this`script, this`inside
      ensures Wf(View()) && !inside && ran == FirstSteps(cur) && Evolved(old(View()), View())
      ensures done == old(steps[cur])
      ensures !done ==> HeadOpen() && unchanged(this)
      ensures done ==> cur == old(cur) + 1
      ensures done ==> if old(script) == [] then script == [] && next == old(next) else |script| < old(|script|)
      decreases |script|, 2
    {
      done := TryComplete(cur);
      if done {
        EvolvedAdvance(old(View()), View());
        steps := steps - {cur};
        cur := cur + 1;
        inside := false;
      }
    }

    method TryComplete(s: StepId) returns (completed: bool)
      requires Wf(View()) && !inside && ran == FirstSteps(cur)
      requires s == cur && s in steps
      modifies this`next, this`cur, this`steps, this`ran, this`script, this`inside
      ensures completed == old(steps[s])
      ensures !completed ==> unchanged(this)
      ensures completed ==> Valid() && inside && cur == s && Evolved(old(View()), View())
      ensures |script| <= old(|script|)
      ensures completed ==> if old(script) == [] then script == [] && next == old(next) else |script| < old(|script|)
      decreases |script|, 1
    {
      if !steps[s] {
        return false;
      }
      OnComplete();
      return steps[s];
    }

    /** The overridable hook: here it records the call and replays the next entry of the script. */
    method OnComplete()
      requires Wf(View()) && !inside && ran == FirstSteps(cur)
      requires cur in steps && steps[cur]
      modifies this`next, this`cur, this`steps, this`ran, this`script, this`inside
      ensures Valid() && inside && cur == old(cur) && Evolved(old(View()), View())
      ensures if old(script) == [] then script == [] && next == old(next) else |script| < old(|script|)
      decreases |script|, 0
    {
      inside := true;
      ran := ran + [cur];
      if script == [] {
        return;
      }
      var flags := script[0];
      script := script[1..];
      ghost var left := script;
      for i := 0 to |flags|
        invariant Valid() && inside && cur == old(cur) && script == left
        invariant Evolved(old(View()), View())
      {
        var s := Create();
        if flags[i] {
          Complete(s);
        }
      }
    }
  }
}
