/** Words of 64 bits as two cells of 32 bits, with the wrap-around of pointer arithmetic. */
module Words {
  const HALF := 0x1_0000_0000
  const FULL := 0x1_0000_0000_0000_0000

  type Cell = x: int | 0 <= x < HALF
  type Word = x: int | 0 <= x < FULL

  /** A cell read as an int. */
  function Signed(x: Cell): int {
    if x < HALF / 2 then x else x - HALF
  }

  function Low(w: Word): Cell { w % HALF }

  function High(w: Word): Cell { w / HALF }

  function Join(lo: Cell, hi: Cell): Word { lo + HALF * hi }

  lemma JoinSplit(w: Word)
    ensures Join(Low(w), High(w)) == w
  {
  }

  lemma SplitJoin(lo: Cell, hi: Cell)
    ensures Low(Join(lo, hi)) == lo && High(Join(lo, hi)) == hi
  {
    var w := Join(lo, hi);
    assert w == w % HALF + HALF * (w / HALF);
  }

  function Plus(a: Word, b: Word): Word {
    if a + b < FULL then a + b else a + b - FULL
  }

  function Minus(a: Word, b: Word): Word {
    if a >= b then a - b else a - b + FULL
  }

  /** The difference of two words cut down to an int. As an int it may be negative, but whether it is zero,
      and whether it is a given size below 2^31, can be read off this unsigned form as well. */
  function Difference(v: Word, w: Word): Cell {
    Low(Minus(v, w))
  }

  /** Adding the base n times. */
  function Lifted(w: Word, base: Word, n: nat): Word {
    if n == 0 then w else Plus(Lifted(w, base, n - 1), base)
  }

  function WordAt(c: seq<Cell>, i: nat): Word
    requires 2 * i + 1 < |c|
  {
    Join(c[2 * i], c[2 * i + 1])
  }

  function PutWord(c: seq<Cell>, i: nat, w: Word): seq<Cell>
    requires 2 * i + 1 < |c|
  {
    c[2 * i := Low(w)][2 * i + 1 := High(w)]
  }

  lemma PutWordAt(c: seq<Cell>, i: nat, w: Word, j: nat)
    requires 2 * i + 1 < |c| && 2 * j + 1 < |c|
    ensures WordAt(PutWord(c, i, w), j) == if i == j then w else WordAt(c, j)
  {
    JoinSplit(w);
  }
}

/** What the self-relocating serializer computes (include/synca/once/serialization.h). The buffer is a row
    of ints; a word of the object is two of them, the low half first. */
module SerializerSpec {
  import opened Words

  const PTR_SIZE := 8
  const INT_SIZE := 4
  const BUFFER_SIZE := 10485760

  /** Room for two copies of p words, of a size that an int can hold. */
  predicate Roomy(c: seq<Cell>, p: nat) {
    4 * p <= |c| && PTR_SIZE * p < HALF
  }

  // ------------------------------------------------------------------ serialize

  /** The word is taken for a pointer into its own copy. */
  predicate Moved(c: seq<Cell>, p: nat, i: nat)
    requires Roomy(c, p) && i < p
  {
    Difference(WordAt(c, p + i), WordAt(c, i)) != 0
  }

  predicate Fits(c: seq<Cell>, p: nat, i: nat)
    requires Roomy(c, p) && i < p
  {
    Difference(WordAt(c, p + i), WordAt(c, i)) in {0, PTR_SIZE * p}
  }

  /** The first word at or after i whose shift is neither zero nor the size, or p. */
  function FirstMisfit(c: seq<Cell>, p: nat, i: nat): (q: nat)
    requires Roomy(c, p) && i <= p
    ensures i <= q <= p
    ensures forall j :: i <= j < q ==> Fits(c, p, j)
    ensures q < p ==> !Fits(c, p, q)
    decreases p - i
  {
    if i == p || !Fits(c, p, i) then i else FirstMisfit(c, p, i + 1)
  }

  /** The relocation table of the first i words. */
  function Table(c: seq<Cell>, p: nat, i: nat): (t: seq<Cell>)
    requires Roomy(c, p) && i <= p
    ensures |t| <= i
  {
    if i == 0 then [] else if Moved(c, p, i - 1) then Table(c, p, i - 1) + [i - 1] else Table(c, p, i - 1)
  }

  predicate Increasing(t: seq<Cell>) {
    forall j, k :: 0 <= j < k < |t| ==> t[j] < t[k]
  }

  /** It lists the moved words, each of them once. */
  lemma {:induction false} TableContents(c: seq<Cell>, p: nat, i: nat)
    requires Roomy(c, p) && i <= p
    ensures forall x: Cell :: x in Table(c, p, i) <==> x < i && Moved(c, p, x)
    ensures Increasing(Table(c, p, i))
  {
    if i > 0 {
      TableContents(c, p, i - 1);
      var t := Table(c, p, i - 1);
      assert forall k :: 0 <= k < |t| ==> t[k] in t;
    }
  }

  /** A word of the first copy, made relative to the buffer when it is a pointer. */
  function Relative(c: seq<Cell>, p: nat, i: nat, base: Word): Word
    requires Roomy(c, p) && i < p
  {
    if Moved(c, p, i) then Minus(WordAt(c, i), base) else WordAt(c, i)
  }

  /** Cell j after i rounds: the words done are relative, the table so far lies over the head of the second
      copy, and everything else, all words still to be read among it, is as the copies left it. */
  function ProgressCell(c: seq<Cell>, p: nat, i: nat, base: Word, j: nat): Cell
    requires Roomy(c, p) && i <= p && j < |c|
  {
    if j < 2 * i then (if j % 2 == 0 then Low(Relative(c, p, j / 2, base)) else High(Relative(c, p, j / 2, base)))
    else if 2 * p <= j < 2 * p + |Table(c, p, i)| then Table(c, p, i)[j - 2 * p]
    else c[j]
  }

  function Progress(c: seq<Cell>, p: nat, i: nat, base: Word): (r: seq<Cell>)
    requires Roomy(c, p) && i <= p
    ensures |r| == |c|
  {
    seq(|c|, j requires 0 <= j < |c| => ProgressCell(c, p, i, base, j))
  }

  /** Neither the words made relative nor the table have reached what round i reads. */
  lemma StillThere(c: seq<Cell>, p: nat, i: nat, base: Word)
    requires Roomy(c, p) && i < p
    ensures WordAt(Progress(c, p, i, base), i) == WordAt(c, i)
    ensures WordAt(Progress(c, p, i, base), p + i) == WordAt(c, p + i)
  {
    assert ProgressCell(c, p, i, base, 2 * i) == c[2 * i];
    assert ProgressCell(c, p, i, base, 2 * (p + i)) == c[2 * (p + i)];
  }

  /** Round i of serialize. */
  lemma ProgressStep(c: seq<Cell>, p: nat, i: nat, base: Word)
    requires Roomy(c, p) && i < p
    ensures var r := Progress(c, p, i, base);
            var s := PutWord(r, i, Minus(WordAt(c, i), base))[2 * p + |Table(c, p, i)| := i];
            Progress(c, p, i + 1, base) == if Moved(c, p, i) then s else r
  {
    var r, r' := Progress(c, p, i, base), Progress(c, p, i + 1, base);
    var s := if Moved(c, p, i) then PutWord(r, i, Minus(WordAt(c, i), base))[2 * p + |Table(c, p, i)| := i] else r;
    SplitJoin(c[2 * i], c[2 * i + 1]);
    forall j | 0 <= j < |c|
      ensures r'[j] == s[j]
    {
      StepCell(c, p, i, base, j);
      assert r'[j] == ProgressCell(c, p, i + 1, base, j) && r[j] == ProgressCell(c, p, i, base, j);
    }
  }

  lemma StepCell(c: seq<Cell>, p: nat, i: nat, base: Word, j: nat)
    requires Roomy(c, p) && i < p && j < |c|
    ensures ProgressCell(c, p, i + 1, base, j)
         == if j == 2 * i then Low(Relative(c, p, i, base))
            else if j == 2 * i + 1 then High(Relative(c, p, i, base))
            else if Moved(c, p, i) && j == 2 * p + |Table(c, p, i)| then i
            else ProgressCell(c, p, i, base, j)
  {
  }

  /** What one round makes of the buffer: whether the word fits, the cells, the end of the table. */
  function AfterRound(r: seq<Cell>, base: Word, p: nat, i: nat, diffIndex: nat): (bool, seq<Cell>, nat)
    requires Roomy(r, p) && i < p && diffIndex < |r|
  {
    var diff := Difference(WordAt(r, p + i), WordAt(r, i));
    if diff == 0 then (true, r, diffIndex)
    else if diff != PTR_SIZE * p then (false, r, diffIndex)
    else (true, PutWord(r, i, Minus(WordAt(r, i), base))[diffIndex := i], diffIndex + 1)
  }

  lemma ProgressStart(c: seq<Cell>, p: nat, base: Word)
    requires Roomy(c, p)
    ensures Progress(c, p, 0, base) == c
  {
  }

  /** The rounds, each of which sees only the buffer, advance over the copies as they were. */
  lemma RoundIsProgress(c: seq<Cell>, p: nat, i: nat, base: Word)
    requires Roomy(c, p) && i < p && i <= FirstMisfit(c, p, 0)
    ensures var r := AfterRound(Progress(c, p, i, base), base, p, i, 2 * p + |Table(c, p, i)|);
            if r.0 then
              i + 1 <= FirstMisfit(c, p, 0) && r.1 == Progress(c, p, i + 1, base)
              && r.2 == 2 * p + |Table(c, p, i + 1)|
            else i == FirstMisfit(c, p, 0) && r.1 == Progress(c, p, i, base)
  {
    StillThere(c, p, i, base);
    ProgressStep(c, p, i, base);
    assert i == FirstMisfit(c, p, 0) <==> !Fits(c, p, i);
  }

  /** The serialized cells: the relative words, the table, and where the table starts. */
  function Packed(c: seq<Cell>, p: nat, base: Word): (r: seq<Cell>)
    requires Roomy(c, p)
    ensures |r| == 2 * p + |Table(c, p, p)| + 1
  {
    Progress(c, p, p, base)[..2 * p] + Table(c, p, p) + [2 * p]
  }

  datatype Packing = Complete(cells: nat) | Unaligned | Unpredictable | BadShift

  /** Outside: a negative number is used as an index, and deserialize leaves the buffer. */
  datatype Unpacking = Ready | BadSize | NotAligned | BadIndex | BadEntry | Outside

  /** The part of serialize behind its two checks. */
  function AfterRelocation(c: seq<Cell>, base: Word, p: nat): (Packing, seq<Cell>)
    requires Roomy(c, p) && c != []
  {
    var q := FirstMisfit(c, p, 0);
    if q < p then (BadShift, Progress(c, p, q, base))
    else
      var n := 2 * p + |Table(c, p, p)|;
      (Complete(n + 1), Progress(c, p, p, base)[n := 2 * p])
  }

  lemma RelocationEnd(c: seq<Cell>, base: Word, p: nat, q: nat)
    requires Roomy(c, p) && c != [] && q == FirstMisfit(c, p, 0)
    ensures var n := 2 * p + |Table(c, p, q)|;
            n < |c|
            && AfterRelocation(c, base, p)
               == if q < p then (BadShift, Progress(c, p, q, base))
                  else (Complete(n + 1), Progress(c, p, q, base)[n := 2 * p])
  {
  }

  /** What serialize makes of a buffer with two copies of `size` bytes, `total` bytes in all. */
  function AfterSerialize(c: seq<Cell>, base: Word, size: nat, total: nat): (Packing, seq<Cell>)
    requires INT_SIZE * |c| <= BUFFER_SIZE && size <= total <= INT_SIZE * |c| && c != []
  {
    if size % PTR_SIZE != 0 then (Unaligned, c)
    else if size * 2 != total then (Unpredictable, c)
    else
      AfterRelocation(c, base, size / PTR_SIZE)
  }

  lemma PackedPrefix(c: seq<Cell>, p: nat, base: Word, r: seq<Cell>)
    requires Roomy(c, p) && 2 * p + |Table(c, p, p)| < |c|
    requires r == Progress(c, p, p, base)[2 * p + |Table(c, p, p)| := 2 * p]
    ensures var n := 2 * p + |Table(c, p, p)| + 1; r[..n] == Packed(c, p, base) && r[n..] == c[n..]
  {
    var n, t := 2 * p + |Table(c, p, p)| + 1, Table(c, p, p);
    forall j | 0 <= j < |t|
      ensures r[2 * p + j] == t[j]
    {
      assert ProgressCell(c, p, p, base, 2 * p + j) == t[j];
    }
    assert r[2 * p..n - 1] == t;
    assert r[..2 * p] == Progress(c, p, p, base)[..2 * p];
    assert r[..n] == r[..2 * p] + r[2 * p..n - 1] + [r[n - 1]];
  }

  /** On success the announced cells are the packed object and the rest of the buffer is untouched. */
  lemma SerializedCells(c: seq<Cell>, base: Word, size: nat, total: nat)
    requires INT_SIZE * |c| <= BUFFER_SIZE && size <= total <= INT_SIZE * |c| && c != []
    ensures var r := AfterSerialize(c, base, size, total);
            r.0.Complete? ==>
              Roomy(c, size / PTR_SIZE) && r.0.cells <= |r.1| == |c|
              && r.1[..r.0.cells] == Packed(c, size / PTR_SIZE, base) && r.1[r.0.cells..] == c[r.0.cells..]
  {
    var r := AfterSerialize(c, base, size, total);
    if r.0.Complete? {
      PackedPrefix(c, size / PTR_SIZE, base, r.1);
    }
  }

  /** The two ints at the heads of the i-th words of the copies differ, as ints, by nothing or by the size. */
  ghost predicate Shifted(c: seq<Cell>, size: nat, i: nat)
    requires 2 * i < |c| && size / 4 + 2 * i < |c|
  {
    var d: int := c[size / 4 + 2 * i] as int - c[2 * i] as int;
    d == 0 || d == size || d == size - 0x1_0000_0000
  }

  ghost predicate AllShifted(c: seq<Cell>, size: nat)
    requires size / 2 <= |c|
  {
    forall i :: 0 <= i < size / 8 ==> Shifted(c, size, i)
  }

  lemma FitsIsShifted(c: seq<Cell>, p: nat, i: nat)
    requires Roomy(c, p) && i < p
    ensures Fits(c, p, i) <==> Shifted(c, 8 * p, i)
  {
    LowDifference(c[2 * (p + i)], c[2 * (p + i) + 1], c[2 * i], c[2 * i + 1]);
    assert 8 * p / 4 + 2 * i == 2 * (p + i);
  }

  lemma LowDifference(a: Cell, b: Cell, c: Cell, d: Cell)
    ensures Difference(Join(a, b), Join(c, d)) == if a >= c then a - c else a - c + HALF
  {
    var low := if a >= c then a - c else a - c + HALF;
    var x := Minus(Join(a, b), Join(c, d));
    assert x == low + HALF * (b - d) || x == low + HALF * (b - d - 1) || x == low + HALF * (b - d + HALF)
        || x == low + HALF * (b - d - 1 + HALF);
    assert exists k: int :: x == low + HALF * k;
    var k: int :| x == low + HALF * k;
    Remainder(low, k);
  }

  lemma Remainder(low: nat, k: int)
    requires low < HALF
    ensures (low + HALF * k) % HALF == low
  {
  }

  /** serialize accepts exactly the pairs of copies of whole words, equally long, whose words differ in their
      lower int by nothing or by the size; otherwise the first check that fails says why. */
  lemma SerializeDecides(c: seq<Cell>, base: Word, size: nat, total: nat)
    requires 4 * |c| <= BUFFER_SIZE && size <= total <= 4 * |c| && c != []
    ensures var r := AfterSerialize(c, base, size, total);
            && (r.0 == Unaligned <==> size % 8 != 0)
            && (r.0 == Unpredictable <==> size % 8 == 0 && size * 2 != total)
            && (r.0.Complete? <==> size % 8 == 0 && size * 2 == total && AllShifted(c, size))
            && (r.0.Unaligned? || r.0.Unpredictable? || r.0.BadShift? || r.0.Complete?)
            && (r.0.Unaligned? || r.0.Unpredictable? ==> r.1 == c)
  {
    if size % 8 == 0 && size * 2 == total {
      var p := size / 8;
      assert size == 8 * p && Roomy(c, p);
      var q := FirstMisfit(c, p, 0);
      forall i | 0 <= i < p ensures Fits(c, p, i) <==> Shifted(c, size, i) {
        FitsIsShifted(c, p, i);
      }
      assert q < p ==> !Shifted(c, size, q);
      assert q == p ==> forall i :: 0 <= i < p ==> Fits(c, p, i);
    }
  }

  // ------------------------------------------------------------------ deserialize

  /** The first entry in [j, n) that, as an int, is not one of 0, ..., count - 1, or n. */
  function FirstWild(c: seq<Cell>, count: nat, j: nat, n: nat): (q: nat)
    requires j <= n <= |c|
    ensures j <= q <= n
    ensures forall k :: j <= k < q ==> c[k] < count
    ensures q < n ==> c[q] >= count
    decreases n - j
  {
    if j == n || c[j] >= count then j else FirstWild(c, count, j + 1, n)
  }

  predicate Tame(c: seq<Cell>, d: nat, n: nat) {
    d <= n <= |c| && forall j :: d <= j < n ==> c[j] < d / 2
  }

  /** The table entries in [d, n) applied one after another. */
  function Patched(c: seq<Cell>, d: nat, n: nat, base: Word): (r: seq<Cell>)
    requires Tame(c, d, n)
    ensures |r| == |c| && forall j :: d <= j < |c| ==> r[j] == c[j]
  {
    if n == d then c
    else
      var r := Patched(c, d, n - 1, base);
      PutWord(r, c[n - 1], Plus(WordAt(r, c[n - 1]), base))
  }

  /** What deserialize makes of `size` bytes; outside the buffer nothing more is said. Ints are checked from
      above only, so that a negative one passes every check. */
  function AfterDeserialize(c: seq<Cell>, base: Word, size: nat): (Unpacking, seq<Cell>)
    requires |c| == size / INT_SIZE && size < HALF / 2
  {
    if size < INT_SIZE then (BadSize, c)
    else if size % INT_SIZE != 0 then (NotAligned, c)
    else
      var n := |c| - 1;
      if Signed(c[n]) > n then (BadIndex, c)
      else if Signed(c[n]) < 0 then (Outside, c)
      else
        var q := FirstWild(c, c[n] / 2, c[n], n);
        (if q == n then Ready else if Signed(c[q]) < 0 then Outside else BadEntry, Patched(c, c[n], q, base))
  }

  /** The first entry in [j, n) that is too large as an int, or n. */
  function FirstTooLarge(c: seq<Cell>, count: nat, j: nat, n: nat): (q: nat)
    requires j <= n <= |c|
    ensures j <= q <= n
    ensures forall k :: j <= k < q ==> Signed(c[k]) < count
    ensures q < n ==> Signed(c[q]) >= count
    decreases n - j
  {
    if j == n || Signed(c[j]) >= count then j else FirstTooLarge(c, count, j + 1, n)
  }

  /** The table entries before the first one that is too large are not negative. */
  predicate NoneNegative(c: seq<Cell>, d: nat, n: nat)
    requires d <= n <= |c|
  {
    forall j :: d <= j < FirstTooLarge(c, d / 2, d, n) ==> Signed(c[j]) >= 0
  }

  /** The loop leaves the buffer at the first wild entry exactly when that one is negative. */
  lemma WildIsNegative(c: seq<Cell>, d: nat, n: nat)
    requires d <= n <= |c| && d / 2 <= HALF / 2
    ensures var q := FirstWild(c, d / 2, d, n); NoneNegative(c, d, n) <==> q == n || Signed(c[q]) >= 0
  {
    var q, t := FirstWild(c, d / 2, d, n), FirstTooLarge(c, d / 2, d, n);
    assert q <= t;
    if q < n && Signed(c[q]) < 0 {
      assert Signed(c[q]) < d / 2;
      assert q < t;
    } else {
      assert q == t;
    }
  }

  /** The last int says where the table is: too large, and nothing is touched; not negative, and neither
      are the entries the loop gets to. */
  predicate IntsInside(c: seq<Cell>)
    requires c != []
  {
    var n := |c| - 1;
    Signed(c[n]) > n || (0 <= Signed(c[n]) && NoneNegative(c, Signed(c[n]), n))
  }

  /** deserialize stays inside the buffer exactly when the last int, and, unless that one is too large, the
      table entries before the first one that is too large, are not negative. */
  lemma StaysInside(c: seq<Cell>, base: Word, size: nat)
    requires |c| == size / INT_SIZE && INT_SIZE <= size < HALF / 2 && size % INT_SIZE == 0
    ensures AfterDeserialize(c, base, size).0 != Outside <==> IntsInside(c)
  {
    var n := |c| - 1;
    if 0 <= Signed(c[n]) <= n {
      WildIsNegative(c, Signed(c[n]), n);
      LoopEnds(c, base, size, n, Signed(c[n]));
    }
  }

  /** How the loop over the table ends. */
  lemma LoopEnds(c: seq<Cell>, base: Word, size: nat, n: nat, d: nat)
    requires |c| == size / INT_SIZE == n + 1 && INT_SIZE <= size < HALF / 2 && size % INT_SIZE == 0
    requires Signed(c[n]) == d <= n
    ensures var q := FirstWild(c, d / 2, d, n);
            AfterDeserialize(c, base, size).0 == Outside <==> q < n && Signed(c[q]) < 0
  {
  }

  /** The table starts inside the buffer, at d, and its first q - d entries name words before it. */
  ghost predicate TableUpTo(c: seq<Cell>, q: nat) {
    c != [] && q <= |c| - 1 && 0 <= Signed(c[|c| - 1]) <= q
    && forall j :: Signed(c[|c| - 1]) <= j < q ==> 0 <= Signed(c[j]) < Signed(c[|c| - 1]) / 2
  }

  ghost predicate TooLargeAt(c: seq<Cell>, q: nat) {
    TableUpTo(c, q) && q < |c| - 1 && Signed(c[q]) >= Signed(c[|c| - 1]) / 2
  }

  /** deserialize accepts exactly the whole ints that end in the start of a table of words before it, which is
      inside the buffer; otherwise the first check that fails says why. */
  lemma DeserializeDecides(c: seq<Cell>, base: Word, size: nat)
    requires |c| == size / 4 && size < HALF / 2
    ensures var r := AfterDeserialize(c, base, size);
            && (r.0 == BadSize <==> size < 4)
            && (r.0 == NotAligned <==> size >= 4 && size % 4 != 0)
            && (r.0 == BadIndex <==> size >= 4 && size % 4 == 0 && Signed(c[|c| - 1]) > |c| - 1)
            && (r.0 == Ready <==> size >= 4 && size % 4 == 0 && TableUpTo(c, |c| - 1))
            && (r.0 == BadEntry <==> size >= 4 && size % 4 == 0 && exists q :: TooLargeAt(c, q))
            && (r.0 == BadSize || r.0 == NotAligned || r.0 == BadIndex ==> r.1 == c)
  {
    if size >= 4 && size % 4 == 0 && 0 <= Signed(c[|c| - 1]) <= |c| - 1 {
      var n := |c| - 1;
      var d := c[n];
      var q := FirstWild(c, d / 2, d, n);
      assert TableUpTo(c, q);
      assert forall x: nat :: TooLargeAt(c, x) ==> x == q;
      assert q < n && Signed(c[q]) >= 0 ==> TooLargeAt(c, q);
    }
  }

  /** The smallest int as the only one: it is below every bound, and the loop starts before the buffer. */
  lemma NegativeIndexPasses(base: Word)
    ensures AfterDeserialize([HALF / 2], base, INT_SIZE).0 == Outside
  {
  }

  function Count(t: seq<Cell>, x: Cell): nat {
    var m: multiset<Cell> := multiset(t);
    m[x]
  }

  /** Each word gains the base once for every table entry that names it; their order does not matter. */
  lemma {:induction false} PatchedCounts(c: seq<Cell>, d: nat, n: nat, base: Word, i: Cell)
    requires Tame(c, d, n) && i < d / 2
    ensures WordAt(Patched(c, d, n, base), i) == Lifted(WordAt(c, i), base, Count(c[d..n], i))
  {
    if n == d {
      assert c[d..n] == [];
    } else {
      PatchedCounts(c, d, n - 1, base, i);
      PatchedMore(c, d, n, base, i);
    }
  }

  lemma PatchedMore(c: seq<Cell>, d: nat, n: nat, base: Word, i: Cell)
    requires Tame(c, d, n) && d < n && i < d / 2
    requires WordAt(Patched(c, d, n - 1, base), i) == Lifted(WordAt(c, i), base, Count(c[d..n - 1], i))
    ensures WordAt(Patched(c, d, n, base), i) == Lifted(WordAt(c, i), base, Count(c[d..n], i))
  {
    PatchedStep(c, d, n, base, i);
    CountStep(c, d, n, i);
    OneMoreLift(WordAt(c, i), base, Count(c[d..n - 1], i), WordAt(Patched(c, d, n - 1, base), i), c[n - 1] == i,
                Count(c[d..n], i), WordAt(Patched(c, d, n, base), i));
  }

  /** The same of a table that makes up the rest of the buffer but for its last cell. */
  lemma TableCounts(r: seq<Cell>, d: nat, n: nat, t: seq<Cell>, at: Word, i: Cell, w: Word, k: nat)
    requires Tame(r, d, n) && i < d / 2 && r[d..n] == t && k == Count(t, i) && w == WordAt(r, i)
    ensures WordAt(Patched(r, d, n, at), i) == Lifted(w, at, k)
  {
    PatchedCounts(r, d, n, at, i);
  }

  lemma OneMoreLift(w: Word, base: Word, k: nat, v: Word, hit: bool, k': nat, v': Word)
    requires v == Lifted(w, base, k) && k' == (if hit then k + 1 else k) && v' == if hit then Plus(v, base) else v
    ensures v' == Lifted(w, base, k')
  {
    LiftedStep(w, base, k);
  }

  lemma PatchedStep(c: seq<Cell>, d: nat, n: nat, base: Word, i: nat)
    requires Tame(c, d, n) && d < n && i < d / 2
    ensures var w := WordAt(Patched(c, d, n - 1, base), i);
            WordAt(Patched(c, d, n, base), i) == if c[n - 1] == i then Plus(w, base) else w
  {
    var r := Patched(c, d, n - 1, base);
    PutWordAt(r, c[n - 1], Plus(WordAt(r, c[n - 1]), base), i);
  }

  lemma CountStep(c: seq<Cell>, d: nat, n: nat, x: Cell)
    requires d < n <= |c|
    ensures Count(c[d..n], x) == Count(c[d..n - 1], x) + if c[n - 1] == x then 1 else 0
  {
    assert c[d..n] == c[d..n - 1] + [c[n - 1]];
  }

  lemma {:induction false} CountIncreasing(t: seq<Cell>, x: Cell)
    requires Increasing(t)
    ensures Count(t, x) == if x in t then 1 else 0
  {
    if t != [] {
      var n := |t| - 1;
      assert t == t[..n] + [t[n]];
      CountIncreasing(t[..n], x);
    }
  }

  // ------------------------------------------------------------------ round trips

  lemma PackedParts(c: seq<Cell>, p: nat, base: Word)
    requires Roomy(c, p)
    ensures var r := Packed(c, p, base);
            r[2 * p..|r| - 1] == Table(c, p, p) && r[|r| - 1] == 2 * p && Tame(r, 2 * p, |r| - 1)
  {
    var r, t := Packed(c, p, base), Table(c, p, p);
    assert r[2 * p..|r| - 1] == t;
    TableContents(c, p, p);
    forall j | 2 * p <= j < |r| - 1
      ensures r[j] < p
    {
      assert r[j] == t[j - 2 * p];
      assert t[j - 2 * p] in t;
    }
  }

  lemma PackedWord(c: seq<Cell>, p: nat, base: Word, i: nat)
    requires Roomy(c, p) && i < p
    ensures WordAt(Packed(c, p, base), i) == Relative(c, p, i, base)
  {
    var w := Relative(c, p, i, base);
    assert ProgressCell(c, p, p, base, 2 * i) == Low(w);
    assert ProgressCell(c, p, p, base, 2 * i + 1) == High(w);
    JoinSplit(w);
  }

  /** What deserialize makes at address `at` of what serialize made at address `base`. */
  function Rebuilt(c: seq<Cell>, p: nat, base: Word, at: Word): (r: seq<Cell>)
    requires Roomy(c, p)
    ensures |r| == |Packed(c, p, base)|
  {
    PackedParts(c, p, base);
    var r := Packed(c, p, base);
    Patched(r, 2 * p, |r| - 1, at)
  }

  /** Deserializing at any address moves exactly the words that serialize took for pointers. */
  lemma RebuiltWord(c: seq<Cell>, p: nat, base: Word, at: Word, i: nat)
    requires Roomy(c, p) && i < p
    ensures WordAt(Rebuilt(c, p, base, at), i)
         == if Moved(c, p, i) then Plus(Minus(WordAt(c, i), base), at) else WordAt(c, i)
  {
    RebuiltLifted(c, p, base, at, i);
    TableCount(c, p, i);
    LiftedOnce(Relative(c, p, i, base), at, Count(Table(c, p, p), i));
  }

  lemma RebuiltLifted(c: seq<Cell>, p: nat, base: Word, at: Word, i: nat)
    requires Roomy(c, p) && i < p
    ensures WordAt(Rebuilt(c, p, base, at), i) == Lifted(Relative(c, p, i, base), at, Count(Table(c, p, p), i))
  {
    var r := Packed(c, p, base);
    PackedParts(c, p, base);
    PackedWord(c, p, base, i);
    TableCounts(r, 2 * p, |r| - 1, Table(c, p, p), at, i, Relative(c, p, i, base), Count(Table(c, p, p), i));
  }

  lemma TableCount(c: seq<Cell>, p: nat, i: nat)
    requires Roomy(c, p) && i < p
    ensures Count(Table(c, p, p), i) == if Moved(c, p, i) then 1 else 0
  {
    TableContents(c, p, p);
    CountIncreasing(Table(c, p, p), i);
  }

  lemma LiftedStep(w: Word, base: Word, n: nat)
    ensures Plus(Lifted(w, base, n), base) == Lifted(w, base, n + 1)
  {
  }

  lemma LiftedOnce(w: Word, base: Word, n: nat)
    requires n <= 1
    ensures Lifted(w, base, n) == if n == 1 then Plus(w, base) else w
  {
  }

  /** At the address it was serialized from, the first copy comes back bit for bit, whatever the second. */
  lemma FirstCopyReturns(c: seq<Cell>, p: nat, base: Word, i: nat)
    requires Roomy(c, p) && i < p
    ensures WordAt(Rebuilt(c, p, base, base), i) == WordAt(c, i)
  {
    RebuiltWord(c, p, base, base, i);
  }

  /** The difference of the copies in all 64 bits, of which serialize looks at 32. */
  predicate TrulyFits(c: seq<Cell>, p: nat, i: nat)
    requires Roomy(c, p) && i < p
  {
    Minus(WordAt(c, p + i), WordAt(c, i)) in {0, PTR_SIZE * p}
  }

  predicate SecondWordReturns(c: seq<Cell>, p: nat, base: Word, i: nat)
    requires Roomy(c, p) && i < p
  {
    WordAt(Rebuilt(c, p, base, Plus(base, PTR_SIZE * p)), i) == WordAt(c, p + i)
  }

  /** At the address of the second copy the second copy comes back exactly when every pair of words
      differs by nothing or by the size in all 64 bits. */
  lemma SecondCopyReturns(c: seq<Cell>, p: nat, base: Word)
    requires Roomy(c, p) && FirstMisfit(c, p, 0) == p
    ensures (forall i: nat :: i < p ==> SecondWordReturns(c, p, base, i))
       <==> (forall i: nat :: i < p ==> TrulyFits(c, p, i))
  {
    forall i: nat | i < p
      ensures SecondWordReturns(c, p, base, i) <==> TrulyFits(c, p, i)
    {
      assert Fits(c, p, i);
      RebuiltWord(c, p, base, Plus(base, PTR_SIZE * p), i);
      ShiftedWord(WordAt(c, i), WordAt(c, p + i), base, PTR_SIZE * p);
    }
  }

  lemma ShiftedWord(w: Word, v: Word, base: Word, size: Cell)
    requires Difference(v, w) in {0, size}
    ensures (if Difference(v, w) != 0 then Plus(Minus(w, base), Plus(base, size)) else w) == v
       <==> Minus(v, w) in {0, size}
  {
    if Difference(v, w) != 0 {
      assert Plus(Minus(w, base), Plus(base, size)) == Plus(w, size);
    }
  }

  /** Two copies that differ by 2^32: serialize accepts them and the second is lost at every address. */
  lemma WideShiftGoesUnnoticed(base: Word, at: Word)
    ensures var c: seq<Cell> := [0, 0, 0, 1];
            FirstMisfit(c, 1, 0) == 1 && WordAt(Rebuilt(c, 1, base, at), 0) == WordAt(c, 0) != WordAt(c, 1)
  {
    var c: seq<Cell> := [0, 0, 0, 1];
    assert WordAt(c, 1) == HALF && WordAt(c, 0) == 0;
    assert !Moved(c, 1, 0);
    RebuiltWord(c, 1, base, at, 0);
  }

  // ------------------------------------------------------------------ objects

  /** A word of an object: a plain value, or a pointer given by its distance from the object. */
  datatype Field = Const(value: Word) | Pointer(offset: Word)

  function FieldAt(f: Field, base: Word): Word {
    match f
    case Const(w) => w
    case Pointer(o) => Plus(base, o)
  }

  /** The words from `from` on hold the object as it stands at address base. */
  predicate Holds(c: seq<Cell>, from: nat, layout: seq<Field>, base: Word)
    requires 2 * (from + |layout|) <= |c|
  {
    forall i: nat :: i < |layout| ==> WordAt(c, from + i) == FieldAt(layout[i], base)
  }

  /** The two copies serialize starts from. */
  predicate Copies(c: seq<Cell>, layout: seq<Field>, base: Word) {
    layout != [] && Roomy(c, |layout|)
    && Holds(c, 0, layout, base) && Holds(c, |layout|, layout, Plus(base, PTR_SIZE * |layout|))
  }

  lemma FieldShift(f: Field, base: Word, size: Cell, at: Word)
    requires 0 < size
    ensures Difference(FieldAt(f, Plus(base, size)), FieldAt(f, base)) == if f.Pointer? then size else 0
    ensures f.Pointer? ==> Minus(FieldAt(f, base), base) == f.offset
    ensures f.Pointer? ==> Plus(f.offset, at) == FieldAt(f, at)
  {
    if f.Pointer? {
      assert Minus(FieldAt(f, Plus(base, size)), FieldAt(f, base)) == size;
    }
  }

  lemma CopyShift(c: seq<Cell>, layout: seq<Field>, base: Word, i: nat)
    requires Copies(c, layout, base) && i < |layout|
    ensures Fits(c, |layout|, i)
    ensures Moved(c, |layout|, i) <==> layout[i].Pointer?
    ensures Relative(c, |layout|, i, base) == if layout[i].Pointer? then layout[i].offset else layout[i].value
  {
    var p := |layout|;
    assert WordAt(c, 0 + i) == FieldAt(layout[i], base);
    assert WordAt(c, p + i) == FieldAt(layout[i], Plus(base, PTR_SIZE * p));
    FieldShift(layout[i], base, PTR_SIZE * p, base);
  }

  /** The packed form of an object, restored at any address. */
  lemma PackedRoundTrip(c: seq<Cell>, layout: seq<Field>, base: Word, at: Word)
    requires Copies(c, layout, base)
    ensures FirstMisfit(c, |layout|, 0) == |layout|
    ensures var r := Packed(c, |layout|, base);
            r[|r| - 1] == 2 * |layout| && Tame(r, r[|r| - 1], |r| - 1)
            && Holds(Patched(r, r[|r| - 1], |r| - 1, at), 0, layout, at)
  {
    var p := |layout|;
    PackedParts(c, p, base);
    forall i: nat | i < p
      ensures Fits(c, p, i) && WordAt(Rebuilt(c, p, base, at), i) == FieldAt(layout[i], at)
    {
      CopyShift(c, layout, base, i);
      RebuiltWord(c, p, base, at, i);
      FieldShift(layout[i], base, PTR_SIZE * p, at);
    }
    RebuiltHolds(c, layout, base, at);
  }

  /** The cells serialize announced are accepted at address `at` and hold the object there. */
  predicate Arrives(s: (Packing, seq<Cell>), layout: seq<Field>, at: Word) {
    s.0.Complete? && s.0.cells <= |s.1| && INT_SIZE * |s.1| <= BUFFER_SIZE
    && var d := AfterDeserialize(s.1[..s.0.cells], at, INT_SIZE * s.0.cells);
       d.0 == Ready && 2 * |layout| <= |d.1| && Holds(d.1, 0, layout, at)
  }

  /** Every object that is made of plain words and pointers into itself is accepted, its table passes the
      checks of deserialize, and what comes back at any address is that object as it stands there. */
  lemma RoundTrip(c: seq<Cell>, layout: seq<Field>, base: Word, at: Word)
    requires INT_SIZE * |c| <= BUFFER_SIZE && Copies(c, layout, base)
    ensures Arrives(AfterSerialize(c, base, PTR_SIZE * |layout|, 2 * PTR_SIZE * |layout|), layout, at)
  {
    SerializedObject(c, layout, base);
    ObjectArrives(c, layout, base, at, AfterSerialize(c, base, PTR_SIZE * |layout|, 2 * PTR_SIZE * |layout|));
  }

  lemma ObjectArrives(c: seq<Cell>, layout: seq<Field>, base: Word, at: Word, s: (Packing, seq<Cell>))
    requires Copies(c, layout, base)
    requires var r := Packed(c, |layout|, base); s.0 == Complete(|r|) && |r| <= |s.1| && s.1[..|r|] == r
    requires INT_SIZE * |s.1| <= BUFFER_SIZE
    ensures Arrives(s, layout, at)
  {
    var r := Packed(c, |layout|, base);
    assert r[|r| - 1] == 2 * |layout| && Tame(r, r[|r| - 1], |r| - 1)
           && Holds(Patched(r, r[|r| - 1], |r| - 1, at), 0, layout, at) by {
      PackedRoundTrip(c, layout, base, at);
    }
    PackedArrives(s, r, layout, at);
    assert Arrives(s, layout, at);
  }

  lemma PackedArrives(s: (Packing, seq<Cell>), r: seq<Cell>, layout: seq<Field>, at: Word)
    requires s.0 == Complete(|r|) && |r| <= |s.1| && s.1[..|r|] == r && INT_SIZE * |s.1| <= BUFFER_SIZE
    requires r != [] && r[|r| - 1] == 2 * |layout| && Tame(r, r[|r| - 1], |r| - 1)
    requires Holds(Patched(r, r[|r| - 1], |r| - 1, at), 0, layout, at)
    ensures Arrives(s, layout, at)
  {
    assert AfterDeserialize(r, at, INT_SIZE * |r|) == (Ready, Patched(r, r[|r| - 1], |r| - 1, at));
  }

  lemma SerializedObject(c: seq<Cell>, layout: seq<Field>, base: Word)
    requires INT_SIZE * |c| <= BUFFER_SIZE && Copies(c, layout, base)
    ensures var s := AfterSerialize(c, base, PTR_SIZE * |layout|, 2 * PTR_SIZE * |layout|);
            s.0 == Complete(|Packed(c, |layout|, base)|)
            && s.0.cells <= |s.1| == |c| && s.1[..s.0.cells] == Packed(c, |layout|, base)
  {
    var size := PTR_SIZE * |layout|;
    PackedRoundTrip(c, layout, base, base);
    SerializedCells(c, base, size, 2 * size);
    assert size / PTR_SIZE == |layout|;
  }

  lemma RebuiltHolds(c: seq<Cell>, layout: seq<Field>, base: Word, at: Word)
    requires Roomy(c, |layout|)
    requires forall i: nat :: i < |layout| ==> WordAt(Rebuilt(c, |layout|, base, at), i) == FieldAt(layout[i], at)
    ensures Holds(Rebuilt(c, |layout|, base, at), 0, layout, at)
  {
    forall i: nat | i < |layout|
      ensures WordAt(Rebuilt(c, |layout|, base, at), 0 + i) == FieldAt(layout[i], at)
    {
    }
  }

  /** The bytes do not depend on where the object was when it was serialized. */
  lemma PositionIndependent(c: seq<Cell>, c': seq<Cell>, layout: seq<Field>, base: Word, base': Word)
    requires Copies(c, layout, base) && Copies(c', layout, base')
    ensures Packed(c, |layout|, base) == Packed(c', |layout|, base')
  {
    var p := |layout|;
    forall i: nat | i < p
      ensures Moved(c, p, i) == Moved(c', p, i) && Relative(c, p, i, base) == Relative(c', p, i, base')
    {
      CopyShift(c, layout, base, i);
      CopyShift(c', layout, base', i);
    }
    SameTable(c, c', p, p);
    SameWords(c, c', p, base, base');
  }

  lemma {:induction false} SameTable(c: seq<Cell>, c': seq<Cell>, p: nat, i: nat)
    requires Roomy(c, p) && Roomy(c', p) && i <= p
    requires forall j: nat :: j < p ==> Moved(c, p, j) == Moved(c', p, j)
    ensures Table(c, p, i) == Table(c', p, i)
  {
    if i > 0 {
      SameTable(c, c', p, i - 1);
    }
  }

  lemma SameWords(c: seq<Cell>, c': seq<Cell>, p: nat, base: Word, base': Word)
    requires Roomy(c, p) && Roomy(c', p)
    requires forall j: nat :: j < p ==> Relative(c, p, j, base) == Relative(c', p, j, base')
    ensures Progress(c, p, p, base)[..2 * p] == Progress(c', p, p, base')[..2 * p]
  {
    forall j | 0 <= j < 2 * p
      ensures ProgressCell(c, p, p, base, j) == ProgressCell(c', p, p, base', j)
    {
      assert Relative(c, p, j / 2, base) == Relative(c', p, j / 2, base');
    }
  }
}

/** The serializer on its buffer, in place. */
module SerializerBuffer {
  import opened Words
  import opened SerializerSpec

  /** An element of the buffer seen as an array of words. */
  method ReadWord(a: array<Cell>, i: nat) returns (w: Word)
    requires 2 * i + 1 < a.Length
    ensures w == WordAt(a[..], i)
  {
    w := Join(a[2 * i], a[2 * i + 1]);
  }

  method WriteWord(a: array<Cell>, i: nat, w: Word)
    requires 2 * i + 1 < a.Length
    modifies a
    ensures a[..] == PutWord(old(a[..]), i, w)
  {
    a[2 * i], a[2 * i + 1] := Low(w), High(w);
  }

  method WriteInt(a: array<Cell>, i: nat, x: Cell)
    requires i < a.Length
    modifies a
    ensures a[..] == old(a[..])[i := x]
  {
    a[i] := x;
  }

  /** One round of the loop of serialize. */
  method Round(a: array<Cell>, base: Word, p: nat, i: nat, diffIndex: nat) returns (fits: bool, next: nat)
    requires Roomy(a[..], p) && i < p && diffIndex < a.Length
    modifies a
    ensures (fits, a[..], next) == AfterRound(old(a[..]), base, p, i, diffIndex)
  {
    next := diffIndex;
    var w := ReadWord(a, i);
    var v := ReadWord(a, p + i);
    var diff := Difference(v, w);
    if diff != 0 {
      if diff != PTR_SIZE * p {
        return false, next;
      }
      WriteWord(a, i, Minus(w, base));
      WriteInt(a, diffIndex, i);
      next := diffIndex + 1;
    }
    fits := true;
  }

  /** The loop of serialize: the table of the first copy's pointers is written over the second copy while
      that copy is still being read. */
  method Rounds(a: array<Cell>, base: Word, p: nat) returns (done: nat, diffIndex: nat)
    requires Roomy(a[..], p)
    modifies a
    ensures done == FirstMisfit(old(a[..]), p, 0)
    ensures diffIndex == 2 * p + |Table(old(a[..]), p, done)|
    ensures a[..] == Progress(old(a[..]), p, done, base)
  {
    diffIndex := 2 * p;
    ghost var c := a[..];
    ProgressStart(c, p, base);
    for i := 0 to p
      invariant i <= FirstMisfit(c, p, 0)
      invariant diffIndex == 2 * p + |Table(c, p, i)|
      invariant a[..] == Progress(c, p, i, base)
    {
      RoundIsProgress(c, p, i, base);
      var fits;
      fits, diffIndex := Round(a, base, p, i, diffIndex);
      if !fits {
        return i, diffIndex;
      }
    }
    done := p;
  }

  /** Behind the two checks: the loop and the final entry. */
  method Relocate(a: array<Cell>, base: Word, p: nat) returns (r: Packing)
    requires Roomy(a[..], p) && a.Length > 0
    modifies a
    ensures (r, a[..]) == AfterRelocation(old(a[..]), base, p)
  {
    var done, diffIndex := Rounds(a, base, p);
    RelocationEnd(old(a[..]), base, p, done);
    if done < p {
      r := BadShift;
      assert (r, a[..]) == AfterRelocation(old(a[..]), base, p);
      return;
    }
    WriteInt(a, diffIndex, 2 * p);
    r := Complete(diffIndex + 1);
  }

  /** The buffer holds the two copies already: `size` bytes went to the first, `total` to both. */
  method Serialize(a: array<Cell>, base: Word, size: nat, total: nat) returns (r: Packing)
    requires 0 < INT_SIZE * a.Length <= BUFFER_SIZE && size <= total <= INT_SIZE * a.Length
    modifies a
    ensures (r, a[..]) == AfterSerialize(old(a[..]), base, size, total)
  {
    if size % PTR_SIZE != 0 {
      return Unaligned;
    }
    if size * 2 != total {
      return Unpredictable;
    }
    var p := size / PTR_SIZE;
    r := Relocate(a, base, p);
  }

  /** The loop of deserialize. */
  method Restore(buf: array<Cell>, base: Word, diffIndex: nat, intCount: nat) returns (r: Unpacking)
    requires diffIndex <= intCount < buf.Length && diffIndex < HALF / 2
    modifies buf
    ensures var c := old(buf[..]);
            var q := FirstWild(c, diffIndex / 2, diffIndex, intCount);
            buf[..] == Patched(c, diffIndex, q, base)
            && r == if q == intCount then Ready else if Signed(c[q]) < 0 then Outside else BadEntry
  {
    var dataCount := diffIndex * INT_SIZE / PTR_SIZE;
    ghost var c := buf[..];
    for i := diffIndex to intCount
      invariant i <= FirstWild(c, diffIndex / 2, diffIndex, intCount)
      invariant buf[..] == Patched(c, diffIndex, i, base)
    {
      var dataIndex := Signed(buf[i]);
      assert buf[i] == buf[..][i] == c[i];
      if dataIndex >= dataCount {
        return BadEntry;
      }
      if dataIndex < 0 {
        return Outside;
      }
      var x := ReadWord(buf, dataIndex);
      WriteWord(buf, dataIndex, Plus(x, base));
    }
    r := Ready;
  }

  /** The object is rebuilt where its bytes lie. What happens beyond the buffer is not modelled: the method
      stops with Outside where the code would go on there. */
  method Deserialize(buf: array<Cell>, base: Word, size: nat) returns (r: Unpacking)
    requires buf.Length == size / INT_SIZE && size < HALF / 2
    modifies buf
    ensures (r, buf[..]) == AfterDeserialize(old(buf[..]), base, size)
  {
    if size < INT_SIZE {
      return BadSize;
    }
    if size % INT_SIZE != 0 {
      return NotAligned;
    }
    var intCount := size / INT_SIZE - 1;
    var diffIndex := Signed(buf[intCount]);
    if diffIndex > intCount {
      return BadIndex;
    }
    if diffIndex < 0 {
      return Outside;
    }
    r := Restore(buf, base, diffIndex, intCount);
  }
}

/** The bump allocator under the copies, `MemoryAllocator` of src/serialization.cpp. */
module Allocator {
  import opened SerializerSpec

  /** The next multiple of the word size. */
  function Rounded(sz: nat): (r: nat)
    ensures r % PTR_SIZE == 0 && sz <= r < sz + PTR_SIZE
  {
    var diff := sz % PTR_SIZE;
    if diff != 0 then sz + (PTR_SIZE - diff) else sz
  }

  /** The end of a run of allocations that starts at offset `at`. */
  function End(at: nat, sizes: seq<nat>): (r: nat)
    ensures r >= at
    decreases sizes
  {
    if sizes == [] then at else End(at + Rounded(sizes[0]), sizes[1..])
  }

  /** Where the k-th block of the run lies. */
  function Place(at: nat, sizes: seq<nat>, k: nat): nat
    requires k < |sizes|
  {
    End(at, sizes[..k])
  }

  lemma {:induction false} EndShifts(at: nat, shift: nat, sizes: seq<nat>)
    ensures End(at + shift, sizes) == End(at, sizes) + shift
    ensures at % PTR_SIZE == 0 ==> End(at, sizes) % PTR_SIZE == 0
    decreases sizes
  {
    if sizes != [] {
      EndShifts(at + Rounded(sizes[0]), shift, sizes[1..]);
    }
  }

  /** A copy constructor that asks for the same blocks twice passes the first two checks of serialize, and
      its second copy lies one size behind the first, block by block. */
  lemma SecondCopyIsShifted(sizes: seq<nat>, k: nat)
    requires k < |sizes|
    ensures var size := End(0, sizes);
            size % PTR_SIZE == 0 && End(size, sizes) == size * 2 && Place(size, sizes, k) == Place(0, sizes, k) + size
  {
    var size := End(0, sizes);
    EndShifts(0, size, sizes);
    EndShifts(0, size, sizes[..k]);
  }

  /** Blocks do not overlap. */
  lemma {:induction false} BlocksAreApart(at: nat, sizes: seq<nat>, j: nat, k: nat)
    requires j < k < |sizes|
    ensures Place(at, sizes, j) + sizes[j] <= Place(at, sizes, k)
    decreases k
  {
    EndAppend(at, sizes[..k - 1], sizes[k - 1]);
    assert sizes[..k] == sizes[..k - 1] + [sizes[k - 1]];
    if j < k - 1 {
      BlocksAreApart(at, sizes, j, k - 1);
    }
  }

  lemma {:induction false} EndAppend(at: nat, sizes: seq<nat>, sz: nat)
    ensures End(at, sizes + [sz]) == End(at, sizes) + Rounded(sz)
    decreases sizes
  {
    if sizes == [] {
      assert sizes + [sz] == [sz];
      assert [sz][1..] == [];
    } else {
      EndAppend(at + Rounded(sizes[0]), sizes[1..], sz);
      assert (sizes + [sz])[1..] == sizes[1..] + [sz];
    }
  }

  class MemoryAllocator {
    var offset: nat
    const buffer: array<bv8>

    ghost predicate Valid()
      reads this
    {
      offset <= buffer.Length && offset % PTR_SIZE == 0
    }

    constructor (buffer: array<bv8>)
      ensures Valid() && this.buffer == buffer && offset == 0
    {
      this.buffer := buffer;
      offset := 0;
    }

    /** The block is zeroed and nothing else is touched; a block too large changes nothing. */
    method Alloc(sz: nat) returns (ok: bool, p: nat)
      requires Valid()
      modifies `offset, buffer
      ensures Valid() && p == old(offset)
      ensures ok <==> old(offset) + Rounded(sz) <= buffer.Length
      ensures offset == if ok then old(offset) + Rounded(sz) else old(offset)
      ensures forall i :: 0 <= i < buffer.Length ==> buffer[i] == if p <= i < offset then 0 else old(buffer[i])
    {
      p := offset;
      var rounded := sz;
      var diff := sz % PTR_SIZE;
      if diff != 0 {
        rounded := rounded + (PTR_SIZE - diff);
      }
      assert rounded == Rounded(sz);
      if offset + rounded > buffer.Length {
        return false, p;
      }
      offset := offset + rounded;
      for i := p to p + rounded
        invariant offset == p + rounded
        invariant forall j :: 0 <= j < buffer.Length ==> buffer[j] == if p <= j < i then 0 else old(buffer[j])
      {
        buffer[i] := 0;
      }
      ok := true;
    }
  }
}
