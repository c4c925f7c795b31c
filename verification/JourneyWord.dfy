/** The wake-up word of a journey: five flags and an event counter, `JourneyState` of src/journey.h. */
module JourneyWord {
  datatype Event = Cancelled | Timedout

  /** The word as a record; C is the type of the event counter. */
  datatype Word<C> = Word(entered: bool, enabled: bool, done: bool, cancelled: bool, timedout: bool, counter: C)

  predicate Raised<C>(w: Word<C>) {
    w.cancelled || w.timedout
  }

  /** Either done, or a raise event that is allowed. */
  predicate MayProceed<C>(w: Word<C>) {
    w.done || (w.enabled && Raised(w))
  }

  function AfterDone<C>(w: Word<C>): Word<C> {
    w.(done := true, entered := true)
  }

  function AfterRelease<C>(w: Word<C>): Word<C> {
    w.(done := true, entered := true, enabled := true)
  }

  function WithEvent<C>(w: Word<C>, e: Event): Word<C> {
    if e.Cancelled? then w.(cancelled := true) else w.(timedout := true)
  }

  /** A raise event always leaves its flag; when events are enabled it also counts and enters. */
  function AfterRaise<C>(w: Word<C>, e: Event, next: C): Word<C> {
    if w.enabled then WithEvent(w, e).(entered := true, counter := next) else WithEvent(w, e)
  }

  function AfterAcquire<C>(w: Word<C>): Word<C> {
    w.(enabled := false)
  }

  function AfterThrow<C>(w: Word<C>, e: Event): Word<C> {
    if e.Cancelled? then w.(cancelled := false, timedout := false, done := false)
    else w.(timedout := false, done := false)
  }

  // ------------------------------------------------------------------ the bits

  const ENTERED: bv32 := 0x1
  const ENABLED: bv32 := 0x2
  const DONE: bv32 := 0x4
  const CANCELLED: bv32 := 0x8
  const TIMEDOUT: bv32 := 0x10
  const VALUE_COUNTER: bv32 := 0x20
  const COUNTER_BITS: bv32 := 0x07FF_FFFF

  type Bits = Word<bv32>

  function Decode(x: bv32): Bits {
    Word(x & ENTERED != 0, x & ENABLED != 0, x & DONE != 0, x & CANCELLED != 0, x & TIMEDOUT != 0, x >> 5)
  }

  function Bit(b: bool, flag: bv32): bv32 {
    if b then flag else 0
  }

  function Encode(w: Bits): bv32 {
    (w.counter << 5) | Bit(w.entered, ENTERED) | Bit(w.enabled, ENABLED) | Bit(w.done, DONE)
    | Bit(w.cancelled, CANCELLED) | Bit(w.timedout, TIMEDOUT)
  }

  lemma DecodeEncode(w: Bits)
    requires w.counter <= COUNTER_BITS
    ensures Decode(Encode(w)) == w
  {
  }

  lemma EncodeDecode(x: bv32)
    ensures Encode(Decode(x)) == x && Decode(x).counter <= COUNTER_BITS
  {
  }

  /** Counting leaves the five flags alone; the counter wraps at 27 bits. */
  lemma CountKeepsFlags(x: bv32)
    ensures Decode(x + VALUE_COUNTER) == Decode(x).(counter := (Decode(x).counter + 1) & COUNTER_BITS)
  {
  }

  /** `mayProceed` on the word itself. */
  predicate MayProceedBits(x: bv32)
    ensures MayProceedBits(x) <==> MayProceed(Decode(x))
  {
    x & DONE != 0 || (x & ENABLED != 0 && x & (CANCELLED | TIMEDOUT) != 0)
  }

  function EventFlag(e: Event): bv32 {
    if e.Cancelled? then CANCELLED else TIMEDOUT
  }

  /** What the successful compare-exchange of `addRaiseEvent` stores. */
  function RaiseBits(x: bv32, e: Event): bv32 {
    if x & ENABLED != 0 then ((x | EventFlag(e)) + VALUE_COUNTER) | ENTERED else x | EventFlag(e)
  }

  lemma DoneBits(x: bv32)
    ensures Decode(x | (DONE | ENTERED)) == AfterDone(Decode(x))
  {
  }

  lemma ReleaseBits(x: bv32)
    ensures Decode(x | (DONE | ENTERED | ENABLED)) == AfterRelease(Decode(x))
  {
  }

  lemma DisableBits(x: bv32)
    ensures Decode(x & !ENABLED) == AfterAcquire(Decode(x))
  {
  }

  lemma EnableBits(x: bv32)
    ensures Decode(x | ENABLED) == Decode(x).(enabled := true)
  {
  }

  lemma LeaveBits(x: bv32)
    ensures Decode(x & !ENTERED) == Decode(x).(entered := false)
  {
  }

  lemma ClearDoneBits(x: bv32)
    ensures Decode(x & !DONE) == Decode(x).(done := false)
  {
  }

  lemma CancelThrowBits(x: bv32)
    ensures Decode(x & !(CANCELLED | TIMEDOUT | DONE)) == AfterThrow(Decode(x), Cancelled)
  {
  }

  lemma TimeoutThrowBits(x: bv32)
    ensures Decode(x & !(TIMEDOUT | DONE)) == AfterThrow(Decode(x), Timedout)
  {
  }

  lemma CancelBits(x: bv32)
    ensures Decode(x | CANCELLED) == WithEvent(Decode(x), Cancelled)
  {
  }

  lemma TimeoutBits(x: bv32)
    ensures Decode(x | TIMEDOUT) == WithEvent(Decode(x), Timedout)
  {
  }

  lemma CountedCancelBits(x: bv32)
    ensures Decode(((x | CANCELLED) + VALUE_COUNTER) | ENTERED)
         == WithEvent(Decode(x), Cancelled).(entered := true, counter := (Decode(x).counter + 1) & COUNTER_BITS)
  {
  }

  lemma CountedTimeoutBits(x: bv32)
    ensures Decode(((x | TIMEDOUT) + VALUE_COUNTER) | ENTERED)
         == WithEvent(Decode(x), Timedout).(entered := true, counter := (Decode(x).counter + 1) & COUNTER_BITS)
  {
  }

  /** What the successful compare-exchange of `addRaiseEvent` stores is the record operation. */
  lemma RaiseBitsIsRaise(x: bv32, e: Event)
    ensures Decode(RaiseBits(x, e)) == AfterRaise(Decode(x), e, (Decode(x).counter + 1) & COUNTER_BITS)
  {
    match e {
      case Cancelled =>
        CancelBits(x);
        CountedCancelBits(x);
      case Timedout =>
        TimeoutBits(x);
        CountedTimeoutBits(x);
    }
  }

  /** The counter after n events, as the word holds it. */
  function Wrapped(n: nat): bv32 {
    if n == 0 then 0 else (Wrapped(n - 1) + 1) & COUNTER_BITS
  }

  /** A word of bits that stands for a record with an unbounded counter. */
  ghost predicate Tracks(x: bv32, w: Word<nat>) {
    Decode(x) == Word(w.entered, w.enabled, w.done, w.cancelled, w.timedout, Wrapped(w.counter))
  }

  /** Each atomic operation on the bits is the record operation. */
  lemma SettingTracksRecord(x: bv32, w: Word<nat>)
    requires Tracks(x, w)
    ensures Tracks(x | (DONE | ENTERED), AfterDone(w))
    ensures Tracks(x | (DONE | ENTERED | ENABLED), AfterRelease(w))
    ensures Tracks(x | ENABLED, w.(enabled := true))
  {
    DoneBits(x);
    ReleaseBits(x);
    EnableBits(x);
  }

  lemma ClearingTracksRecord(x: bv32, w: Word<nat>)
    requires Tracks(x, w)
    ensures Tracks(x & !ENABLED, AfterAcquire(w))
    ensures Tracks(x & !ENTERED, w.(entered := false))
    ensures Tracks(x & !DONE, w.(done := false))
  {
    DisableBits(x);
    LeaveBits(x);
    ClearDoneBits(x);
  }

  lemma ThrowingTracksRecord(x: bv32, w: Word<nat>)
    requires Tracks(x, w)
    ensures Tracks(x & !(CANCELLED | TIMEDOUT | DONE), AfterThrow(w, Cancelled))
    ensures Tracks(x & !(TIMEDOUT | DONE), AfterThrow(w, Timedout))
  {
    CancelThrowBits(x);
    TimeoutThrowBits(x);
  }

  lemma RaisingTracksRecord(x: bv32, w: Word<nat>, e: Event)
    requires Tracks(x, w)
    ensures Tracks(RaiseBits(x, e), AfterRaise(w, e, w.counter + 1))
  {
    RaiseBitsIsRaise(x, e);
  }
}

/** The object: one atomic word, changed by fetch-or, fetch-and and compare-exchange loops, with the
    event counter taken as unbounded.  A loop is given what happens before each of its attempts: the word
    another thread puts in place, and whether the weak compare-exchange then fails for no reason.  It
    reports how many of them it has gone through, and is proved against the word in place at that point. */
module JourneyStateObject {
  import opened JourneyWord

  datatype Outcome = Returns | Throws(event: Event) | Broken

  /** Cancel has priority over timeout. */
  function Throw(w: Word<nat>): Outcome {
    if w.cancelled then Throws(Cancelled) else if w.timedout then Throws(Timedout) else Returns
  }

  /** What `handleEvents` does with the word it loaded: both VERIFYs, then the pending event. */
  function Handled(w: Word<nat>): Outcome {
    if !MayProceed(w) then Broken else if w.enabled then Throw(w) else Returns
  }

  /** The word others have left before an attempt, and does the attempt fail spuriously? */
  datatype Meanwhile = Meanwhile(word: Word<nat>, fails: bool)

  /** The word in place after the first `used` changes by others. */
  function InPlace(word: Word<nat>, others: seq<Meanwhile>, used: nat): Word<nat>
    requires used <= |others|
  {
    if used == 0 then word else others[used - 1].word
  }

  class JourneyState {
    var word: Word<nat>
    var proceeds: nat     // calls of proceed()

    constructor ()
      ensures word == Word(true, true, false, false, false, 0) && proceeds == 0
    {
      word, proceeds := Word(true, true, false, false, false, 0), 0;
    }

    method CompareExchange(prev: Word<nat>, next: Word<nat>, fails: bool) returns (ok: bool, now: Word<nat>)
      modifies this`word
      ensures ok <==> old(word) == prev && !fails
      ensures if ok then word == next && now == prev else word == old(word) == now
    {
      if word == prev && !fails {
        word := next;
        return true, prev;
      }
      return false, word;
    }

    method Done()
      modifies this
      ensures word == old(word).(done := true, entered := true)
      ensures proceeds == old(proceeds) + if old(word).entered then 0 else 1
    {
      var before := word;
      word := word.(done := true, entered := true);
      if !before.entered {
        proceeds := proceeds + 1;
      }
    }

    method DisableEvents() returns (was: bool)
      modifies this`word
      ensures was == old(word).enabled && word == old(word).(enabled := false)
    {
      was := word.enabled;
      word := word.(enabled := false);
    }

    method EnableEvents()
      modifies this`word
      ensures word == old(word).(enabled := true)
    {
      word := word.(enabled := true);
    }

    /** The events checked are those pending before enabling. */
    method EnableEventsAndCheck() returns (r: Outcome)
      modifies this`word
      ensures old(word).cancelled ==>
                r == Throws(Cancelled)
                && word == old(word).(enabled := true, cancelled := false, timedout := false, done := false)
      ensures !old(word).cancelled && old(word).timedout ==>
                r == Throws(Timedout) && word == old(word).(enabled := true, timedout := false, done := false)
      ensures !Raised(old(word)) ==> r == Returns && word == old(word).(enabled := true)
    {
      var before := word;
      word := word.(enabled := true);
      r := HandleRaiseEvents(before);
    }

    /** A pending cancel is thrown and overrides a timeout; either takes the done flag with it. */
    method HandleRaiseEvents(event: Word<nat>) returns (r: Outcome)
      modifies this`word
      ensures event.cancelled ==>
                r == Throws(Cancelled) && word == old(word).(cancelled := false, timedout := false, done := false)
      ensures !event.cancelled && event.timedout ==>
                r == Throws(Timedout) && word == old(word).(timedout := false, done := false)
      ensures !event.cancelled && !event.timedout ==> r == Returns && word == old(word)
    {
      if event.cancelled {
        word := word.(cancelled := false, timedout := false, done := false);
        return Throws(Cancelled);
      }
      if event.timedout {
        word := word.(timedout := false, done := false);
        return Throws(Timedout);
      }
      return Returns;
    }

    method HandleEvents() returns (r: Outcome)
      modifies this`word
      ensures old(word).enabled && old(word).cancelled ==>
                r == Throws(Cancelled) && word == old(word).(cancelled := false, timedout := false, done := false)
      ensures old(word).enabled && !old(word).cancelled && old(word).timedout ==>
                r == Throws(Timedout) && word == old(word).(timedout := false, done := false)
      ensures !(old(word).enabled && (old(word).cancelled || old(word).timedout)) ==>
                if old(word).done then r == Returns && word == old(word).(done := false)
                else r == Broken && word == old(word)
    {
      var event := word;
      if event.enabled {
        if !(event.cancelled || event.timedout || event.done) {
          return Broken;
        }
        r := HandleRaiseEvents(event);
        if r.Throws? {
          return;
        }
      } else {
        if !event.done {
          return Broken;
        }
        r := Returns;
      }
      word := word.(done := false);
    }

    /** `addRaiseEvent`: the word in place gets the flag; with events enabled it is entered and counts, and
        proceed is called exactly when nobody had entered before. */
    method AddRaiseEvent(e: Event, others: seq<Meanwhile>) returns (used: nat)
      modifies this
      ensures used <= |others|
      ensures var w := InPlace(old(word), others, used);
              && word.done == w.done && word.enabled == w.enabled
              && word.cancelled == (w.cancelled || e == Cancelled) && word.timedout == (w.timedout || e == Timedout)
              && word.entered == (w.entered || w.enabled) && word.counter == w.counter + (if w.enabled then 1 else 0)
              && proceeds == old(proceeds) + if w.enabled && !w.entered then 1 else 0
    {
      var prev := word;
      used := 0;
      while true
        invariant used <= |others| && word == prev == InPlace(old(word), others, used)
        invariant proceeds == old(proceeds)
        decreases |others| - used
      {
        var fails := false;
        if used < |others| {
          word, fails := others[used].word, others[used].fails;
          used := used + 1;
        }
        var next := WithEvent(prev, e);
        var ok: bool;
        if prev.enabled {
          ok, prev := CompareExchange(prev, next.(counter := next.counter + 1, entered := true), fails);
          if ok {
            if !next.entered {
              proceeds := proceeds + 1;
            }
            return;
          }
        } else {
          ok, prev := CompareExchange(prev, next, fails);
          if ok {
            return;
          }
        }
      }
    }

    /** `resetEnteredAndCheckEvents`: proceed on a word that may proceed and leave any other. */
    method ResetEnteredAndCheckEvents(others: seq<Meanwhile>) returns (used: nat)
      modifies this
      ensures used <= |others|
      ensures var w := InPlace(old(word), others, used);
              if w.done || (w.enabled && (w.cancelled || w.timedout))
              then proceeds == old(proceeds) + 1 && word == w
              else proceeds == old(proceeds) && word == w.(entered := false)
    {
      var prev := word;
      used := 0;
      while true
        invariant used <= |others| && word == prev == InPlace(old(word), others, used)
        invariant proceeds == old(proceeds)
        decreases |others| - used
      {
        if MayProceed(prev) {
          proceeds := proceeds + 1;
          return;
        }
        var fails := false;
        if used < |others| {
          word, fails := others[used].word, others[used].fails;
          used := used + 1;
        }
        var ok: bool;
        ok, prev := CompareExchange(prev, prev.(entered := false), fails);
        if ok {
          return;
        }
      }
    }

    /** `acquire`: with events enabled it succeeds exactly when the word in place has counted no event
        since; a failure leaves that word alone. */
    method Acquire(oldCounter: nat, wasEventsEnabled: bool, others: seq<Meanwhile>) returns (ok: bool, used: nat)
      modifies this`word
      ensures used <= |others|
      ensures !wasEventsEnabled ==> ok && used == 0 && word == old(word)
      ensures wasEventsEnabled ==>
                var w := InPlace(old(word), others, used);
                (ok <==> w.counter == oldCounter) && word == if ok then w.(enabled := false) else w
    {
      used := 0;
      if !wasEventsEnabled {
        return true, used;
      }
      var prev := word;
      while true
        invariant used <= |others| && word == prev == InPlace(old(word), others, used)
        decreases |others| - used
      {
        if oldCounter != prev.counter {
          return false, used;
        }
        var fails := false;
        if used < |others| {
          word, fails := others[used].word, others[used].fails;
          used := used + 1;
        }
        var done: bool;
        done, prev := CompareExchange(prev, prev.(enabled := false), fails);
        if done {
          return true, used;
        }
      }
    }

    method ReleaseAndDone(wasEventsEnabled: bool)
      modifies this
      ensures word == old(word).(done := true, entered := true, enabled := old(word).enabled || wasEventsEnabled)
      ensures proceeds == old(proceeds) + if old(word).entered then 0 else 1
    {
      if !wasEventsEnabled {
        Done();
        return;
      }
      var before := word;
      word := word.(done := true, entered := true, enabled := true);
      if !before.entered {
        proceeds := proceeds + 1;
      }
    }
  }
}
