/** Balanced placement of a module sequence on devices, `_get_balanced_placement` in
    sllm_store/device_map_utils.py. */
module Placement {
  import opened Collections

  /** A size, or the program's float infinity. */
  datatype Ext = Fin(v: nat) | Inf {
    predicate Less(other: Ext) {
      Fin? && (other.Inf? || v < other.v)
    }
  }

  /** A cell of the table: gap, smallest and largest part, and the parts as ranges of module
      positions. */
  datatype Cell = Cell(gap: Ext, minSize: Ext, maxSize: nat, parts: seq<(nat, nat)>)

  /** Module sizes in order, and the memory of each device. */
  datatype Problem = Problem(sizes: seq<nat>, memory: seq<nat>) {
    function N(): nat {
      |memory|
    }

    /** Total size of modules `[from, to)`. */
    function Size(from: nat, to: nat): nat
      requires to <= |sizes|
    {
      if to <= from then 0 else Size(from, to - 1) + sizes[to - 1]
    }
  }

  const EMPTY_CELL := Cell(Inf, Inf, 0, [])

  function StartCell(n: nat): Cell {
    Cell(Fin(0), Inf, 0, seq(n, _ => (0, 0)))
  }

  function Distance(a: nat, b: nat): nat {
    if a >= b then a - b else b - a
  }

  function Max(a: nat, b: nat): nat {
    if a >= b then a else b
  }

  /** Largest distance of a part of the given size from the parts of `prev`. */
  function GapTo(prev: Cell, size: nat): nat {
    match prev.minSize
    case Inf => 0
    case Fin(m) => Max(Distance(m, size), Distance(prev.maxSize, size))
  }

  /** One round of the innermost loop: try modules `[j, i)` as part `k` behind the best cut `prev`
      of the first `j` modules. */
  function Try(p: Problem, cell: Cell, prev: Cell, i: nat, k: nat, j: nat): Cell
    requires j <= i <= |p.sizes| && 1 <= k <= p.N()
  {
    var size := p.Size(j, i);
    if size > p.memory[k - 1] || prev.gap.Inf? || |prev.parts| < k then cell
    else if !Fin(GapTo(prev, size)).Less(cell.gap) then cell
    else
      Cell(Fin(GapTo(prev, size)),
           Fin(if prev.minSize.Fin? && prev.minSize.v <= size then prev.minSize.v else size),
           Max(prev.maxSize, size),
           prev.parts[k - 1 := (j, i)])
  }

  /** The cell for the first `i` modules on the first `k` devices. */
  function Best(p: Problem, i: nat, k: nat): Cell
    requires i <= |p.sizes| && k <= p.N()
    decreases k, i + 1
  {
    if k == 0 then if i == 0 then StartCell(p.N()) else EMPTY_CELL
    else if i == 0 then EMPTY_CELL
    else BestUpTo(p, i, k, i)
  }

  /** The same, with only the split points below `j` tried. */
  function BestUpTo(p: Problem, i: nat, k: nat, j: nat): Cell
    requires j <= i <= |p.sizes| && 1 <= k <= p.N()
    decreases k, j
  {
    if j == 0 then EMPTY_CELL
    else Try(p, BestUpTo(p, i, k, j - 1), Best(p, j - 1, k - 1), i, k, j - 1)
  }

  // ---- Cuts ----------------------------------------------------------------------------

  /** `parts` cuts the first `i` modules into `k` contiguous non-empty parts, part by part small
      enough for its device. */
  ghost predicate Cut(p: Problem, parts: seq<(nat, nat)>, i: nat, k: nat)
    requires i <= |p.sizes| && k <= p.N()
  {
    if k == 0 then i == 0
    else
      && |parts| >= k && parts[k - 1].1 == i && parts[k - 1].0 < i
      && p.Size(parts[k - 1].0, i) <= p.memory[k - 1]
      && Cut(p, parts, parts[k - 1].0, k - 1)
  }

  ghost predicate Feasible(p: Problem, i: nat, k: nat)
    requires i <= |p.sizes| && k <= p.N()
  {
    exists parts: seq<(nat, nat)> :: Cut(p, parts, i, k)
  }

  /** Smallest and largest part size among the first `k` parts. */
  ghost predicate Extremes(p: Problem, parts: seq<(nat, nat)>, k: nat, lo: nat, hi: nat)
    requires 1 <= k <= |parts| && forall q :: 0 <= q < k ==> parts[q].1 <= |p.sizes|
  {
    && (forall q :: 0 <= q < k ==> lo <= p.Size(parts[q].0, parts[q].1) <= hi)
    && (exists q :: 0 <= q < k && p.Size(parts[q].0, parts[q].1) == lo)
    && (exists q :: 0 <= q < k && p.Size(parts[q].0, parts[q].1) == hi)
  }

  ghost predicate InRange(p: Problem, parts: seq<(nat, nat)>, k: nat)
    requires k <= |parts|
  {
    forall q :: 0 <= q < k ==> parts[q].1 <= |p.sizes|
  }

  lemma {:induction false} CutInRange(p: Problem, parts: seq<(nat, nat)>, i: nat, k: nat)
    requires i <= |p.sizes| && k <= p.N() && Cut(p, parts, i, k)
    ensures k <= |parts| && InRange(p, parts, k)
  {
    if k > 0 {
      CutInRange(p, parts, parts[k - 1].0, k - 1);
    }
  }

  /** A cut depends only on its first `k` parts. */
  lemma {:induction false} CutSame(p: Problem, a: seq<(nat, nat)>, b: seq<(nat, nat)>, i: nat, k: nat)
    requires i <= |p.sizes| && k <= p.N() && Cut(p, a, i, k)
    requires |b| >= k && |a| >= k && forall q :: 0 <= q < k ==> a[q] == b[q]
    ensures Cut(p, b, i, k)
  {
    if k > 0 {
      CutSame(p, a, b, a[k - 1].0, k - 1);
    }
  }

  /** The cell describes a cut, with its true extremes. */
  ghost predicate Describes(p: Problem, cell: Cell, i: nat, k: nat)
    requires i <= |p.sizes| && k <= p.N()
  {
    && |cell.parts| == p.N() && Cut(p, cell.parts, i, k)
    && (k == 0 ==> cell.minSize.Inf? && cell.maxSize == 0)
    && (k > 0 ==> InRange(p, cell.parts, k) && cell.minSize.Fin? && Extremes(p, cell.parts, k, cell.minSize.v, cell.maxSize))
  }

  /** Some cut of the first `i` modules into `k` parts begins its last part before `j`. */
  ghost predicate FeasibleBelow(p: Problem, i: nat, k: nat, j: nat)
    requires i <= |p.sizes| && 1 <= k <= p.N()
  {
    exists parts: seq<(nat, nat)> :: Cut(p, parts, i, k) && parts[k - 1].0 < j
  }

  /** A cell is reached exactly when a cut exists, and then it describes one. */
  lemma {:induction false} BestSound(p: Problem, i: nat, k: nat)
    requires i <= |p.sizes| && k <= p.N()
    ensures Best(p, i, k).gap.Fin? <==> Feasible(p, i, k)
    ensures Best(p, i, k).gap.Fin? ==> Describes(p, Best(p, i, k), i, k)
    decreases k, i + 1
  {
    if k == 0 {
      assert Cut(p, [], 0, 0);
    } else if i > 0 {
      BestUpToSound(p, i, k, i);
      BelowIsAll(p, i, k);
    }
  }

  lemma BelowIsAll(p: Problem, i: nat, k: nat)
    requires i <= |p.sizes| && 1 <= k <= p.N()
    ensures FeasibleBelow(p, i, k, i) <==> Feasible(p, i, k)
  {
    if Feasible(p, i, k) {
      var parts: seq<(nat, nat)> :| Cut(p, parts, i, k);
      assert parts[k - 1].0 < i;
    }
  }

  lemma {:induction false} BestUpToSound(p: Problem, i: nat, k: nat, j: nat)
    requires 1 <= i <= |p.sizes| && 1 <= k <= p.N() && j <= i
    ensures BestUpTo(p, i, k, j).gap.Fin? <==> FeasibleBelow(p, i, k, j)
    ensures BestUpTo(p, i, k, j).gap.Fin? ==> Describes(p, BestUpTo(p, i, k, j), i, k)
    decreases k, j
  {
    if j > 0 {
      BestUpToSound(p, i, k, j - 1);
      BestSound(p, j - 1, k - 1);
      FeasibleStep(p, i, k, j - 1);
      TryDescribes(p, BestUpTo(p, i, k, j - 1), Best(p, j - 1, k - 1), i, k, j - 1);
    }
  }

  /** A cut whose last part begins at `j` is a cut of the first `j` modules and a part that
      fits. */
  lemma FeasibleStep(p: Problem, i: nat, k: nat, j: nat)
    requires 1 <= i <= |p.sizes| && 1 <= k <= p.N() && j < i
    ensures FeasibleBelow(p, i, k, j + 1) <==>
            FeasibleBelow(p, i, k, j) || (p.Size(j, i) <= p.memory[k - 1] && Feasible(p, j, k - 1))
  {
    if FeasibleBelow(p, i, k, j + 1) && !FeasibleBelow(p, i, k, j) {
      var parts: seq<(nat, nat)> :| Cut(p, parts, i, k) && parts[k - 1].0 < j + 1;
      assert parts[k - 1].0 == j && Cut(p, parts, j, k - 1);
    }
    if p.Size(j, i) <= p.memory[k - 1] && Feasible(p, j, k - 1) {
      var parts: seq<(nat, nat)> :| Cut(p, parts, j, k - 1);
      CutInRange(p, parts, j, k - 1);
      var longer := parts[..k - 1] + [(j, i)];
      CutSame(p, parts, longer, j, k - 1);
      assert Cut(p, longer, i, k);
    }
    if FeasibleBelow(p, i, k, j) {
      var parts: seq<(nat, nat)> :| Cut(p, parts, i, k) && parts[k - 1].0 < j;
      assert parts[k - 1].0 < j + 1;
    }
  }

  lemma {:induction false} TryDescribes(p: Problem, cell: Cell, prev: Cell, i: nat, k: nat, j: nat)
    requires 1 <= i <= |p.sizes| && 1 <= k <= p.N() && j < i
    requires cell.gap.Fin? ==> Describes(p, cell, i, k)
    requires prev.gap.Fin? ==> Describes(p, prev, j, k - 1)
    ensures var r := Try(p, cell, prev, i, k, j);
            && (r.gap.Fin? <==> cell.gap.Fin? || (prev.gap.Fin? && p.Size(j, i) <= p.memory[k - 1]))
            && (r.gap.Fin? ==> Describes(p, r, i, k))
  {
    var r := Try(p, cell, prev, i, k, j);
    if r != cell {
      CutSame(p, prev.parts, r.parts, j, k - 1);
      CutInRange(p, r.parts, i, k);
      if k > 1 {
        ExtremesGrow(p, prev.parts, r.parts, k, prev.minSize.v, prev.maxSize);
      } else {
        assert p.Size(r.parts[0].0, r.parts[0].1) == p.Size(j, i);
      }
    }
  }

  lemma {:induction false} ExtremesGrow(p: Problem, a: seq<(nat, nat)>, b: seq<(nat, nat)>, k: nat, lo: nat, hi: nat)
    requires 2 <= k <= |a| && |b| == |a| && InRange(p, a, k - 1) && InRange(p, b, k)
    requires Extremes(p, a, k - 1, lo, hi) && forall q :: 0 <= q < k - 1 ==> a[q] == b[q]
    ensures var size := p.Size(b[k - 1].0, b[k - 1].1);
            Extremes(p, b, k, if lo <= size then lo else size, Max(hi, size))
  {
    var size := p.Size(b[k - 1].0, b[k - 1].1);
    var q :| 0 <= q < k - 1 && p.Size(a[q].0, a[q].1) == lo;
    var r :| 0 <= r < k - 1 && p.Size(a[r].0, a[r].1) == hi;
    assert p.Size(b[q].0, b[q].1) == lo && p.Size(b[r].0, b[r].1) == hi;
    assert p.Size(b[k - 1].0, b[k - 1].1) == size;
  }

  // ---- Which cut the table records -----------------------------------------------------

  /** Largest distance of `size` from the sizes of the first `k` parts. */
  function Gap(p: Problem, parts: seq<(nat, nat)>, k: nat, size: nat): nat {
    if k == 0 || k > |parts| || parts[k - 1].1 > |p.sizes| then 0
    else Max(Gap(p, parts, k - 1, size), Distance(p.Size(parts[k - 1].0, parts[k - 1].1), size))
  }

  /** A cut whose every part, given the parts before it, was put where its gap is smallest: no
      other split point before it, behind parts that were themselves put so, has a smaller gap, and
      none further to the front has the same. */
  ghost predicate Chosen(p: Problem, parts: seq<(nat, nat)>, i: nat, k: nat)
    requires i <= |p.sizes| && k <= p.N()
    decreases k
  {
    if k == 0 then i == 0
    else
      && k <= |parts| && parts[k - 1].1 == i && parts[k - 1].0 < i
      && p.Size(parts[k - 1].0, i) <= p.memory[k - 1]
      && Chosen(p, parts, parts[k - 1].0, k - 1)
      && forall j: nat, other: seq<(nat, nat)> :: j < i && p.Size(j, i) <= p.memory[k - 1] && Chosen(p, other, j, k - 1) ==>
           Beats(p, parts, i, k, j, other)
  }

  /** Part `k` of `parts` is no worse than one from `j` on, behind the parts of `other`. */
  predicate Beats(p: Problem, parts: seq<(nat, nat)>, i: nat, k: nat, j: nat, other: seq<(nat, nat)>)
    requires i <= |p.sizes| && 1 <= k <= |parts|
  {
    NoCloser(parts[k - 1].0, Gap(p, parts, k - 1, p.Size(parts[k - 1].0, i)), j, Gap(p, other, k - 1, p.Size(j, i)))
  }

  /** Splitting at `j` gives no smaller gap than at `s`, and not the same one further in front. */
  predicate NoCloser(s: nat, gap: nat, j: nat, otherGap: nat) {
    gap <= otherGap && (j < s ==> gap < otherGap)
  }

  lemma {:induction false} ChosenIsCut(p: Problem, parts: seq<(nat, nat)>, i: nat, k: nat)
    requires i <= |p.sizes| && k <= p.N() && Chosen(p, parts, i, k)
    ensures Cut(p, parts, i, k)
  {
    if k > 0 {
      ChosenIsCut(p, parts, parts[k - 1].0, k - 1);
    }
  }

  ghost predicate SameParts(a: seq<(nat, nat)>, b: seq<(nat, nat)>, k: nat) {
    k <= |a| && k <= |b| && forall q :: 0 <= q < k ==> a[q] == b[q]
  }

  lemma {:induction false} GapSame(p: Problem, a: seq<(nat, nat)>, b: seq<(nat, nat)>, k: nat, size: nat)
    requires SameParts(a, b, k)
    ensures Gap(p, a, k, size) == Gap(p, b, k, size)
  {
    if k > 0 {
      GapSame(p, a, b, k - 1, size);
    }
  }

  lemma {:induction false} ChosenSame(p: Problem, a: seq<(nat, nat)>, b: seq<(nat, nat)>, i: nat, k: nat)
    requires i <= |p.sizes| && k <= p.N() && SameParts(a, b, k) && Chosen(p, a, i, k)
    ensures Chosen(p, b, i, k)
  {
    if k > 0 {
      ChosenSame(p, a, b, a[k - 1].0, k - 1);
      GapSame(p, a, b, k - 1, p.Size(a[k - 1].0, i));
      forall j: nat, other: seq<(nat, nat)> | j < i && p.Size(j, i) <= p.memory[k - 1] && Chosen(p, other, j, k - 1)
        ensures Beats(p, b, i, k, j, other)
      {
        assert Beats(p, a, i, k, j, other);
      }
    }
  }

  lemma {:induction false} GapBelow(p: Problem, parts: seq<(nat, nat)>, k: nat, size: nat, bound: nat)
    requires k <= |parts| && InRange(p, parts, k)
    requires forall q :: 0 <= q < k ==> Distance(p.Size(parts[q].0, parts[q].1), size) <= bound
    ensures Gap(p, parts, k, size) <= bound
  {
    if k > 0 {
      GapBelow(p, parts, k - 1, size, bound);
    }
  }

  lemma {:induction false} GapAbove(p: Problem, parts: seq<(nat, nat)>, k: nat, size: nat, q: nat)
    requires q < k <= |parts| && InRange(p, parts, k)
    ensures Gap(p, parts, k, size) >= Distance(p.Size(parts[q].0, parts[q].1), size)
  {
    if q < k - 1 {
      GapAbove(p, parts, k - 1, size, q);
    }
  }

  /** The smallest and the largest part are enough to know the gap. */
  lemma {:induction false} GapOfExtremes(p: Problem, parts: seq<(nat, nat)>, k: nat, size: nat, lo: nat, hi: nat)
    requires 1 <= k <= |parts| && InRange(p, parts, k) && Extremes(p, parts, k, lo, hi)
    ensures Gap(p, parts, k, size) == Max(Distance(lo, size), Distance(hi, size))
  {
    GapBelow(p, parts, k, size, Max(Distance(lo, size), Distance(hi, size)));
    var a :| 0 <= a < k && p.Size(parts[a].0, parts[a].1) == lo;
    var b :| 0 <= b < k && p.Size(parts[b].0, parts[b].1) == hi;
    GapAbove(p, parts, k, size, a);
    GapAbove(p, parts, k, size, b);
  }

  lemma {:induction false} GapToMeans(p: Problem, cell: Cell, i: nat, k: nat, size: nat)
    requires i <= |p.sizes| && k <= p.N() && Describes(p, cell, i, k)
    ensures GapTo(cell, size) == Gap(p, cell.parts, k, size)
  {
    if k > 0 {
      GapOfExtremes(p, cell.parts, k, size, cell.minSize.v, cell.maxSize);
    }
  }

  /** The gap of the last part of a cell that is reached, and the prefix behind which it stands. */
  ghost predicate LastPart(p: Problem, cell: Cell, i: nat, k: nat)
    requires 1 <= i <= |p.sizes| && 1 <= k <= p.N()
  {
    && k <= |cell.parts| && cell.parts[k - 1].0 < i
    && p.Size(cell.parts[k - 1].0, i) <= p.memory[k - 1]
    && var s := cell.parts[k - 1].0;
       && Best(p, s, k - 1).gap.Fin?
       && SameParts(cell.parts, Best(p, s, k - 1).parts, k - 1)
       && cell.gap == Fin(GapTo(Best(p, s, k - 1), p.Size(s, i)))
  }

  lemma {:induction false} UpToLastPart(p: Problem, i: nat, k: nat, j: nat)
    requires 1 <= i <= |p.sizes| && 1 <= k <= p.N() && j <= i
    ensures BestUpTo(p, i, k, j).gap.Fin? ==>
              LastPart(p, BestUpTo(p, i, k, j), i, k) && BestUpTo(p, i, k, j).parts[k - 1].0 < j
    decreases j
  {
    if j > 0 {
      UpToLastPart(p, i, k, j - 1);
      BestSound(p, j - 1, k - 1);
    }
  }

  lemma {:induction false} UpToNoCloser(p: Problem, i: nat, k: nat, j: nat, t: nat)
    requires 1 <= i <= |p.sizes| && 1 <= k <= p.N() && t < j <= i
    requires Best(p, t, k - 1).gap.Fin? && p.Size(t, i) <= p.memory[k - 1]
    ensures var cell := BestUpTo(p, i, k, j);
            && cell.gap.Fin? && k <= |cell.parts|
            && NoCloser(cell.parts[k - 1].0, cell.gap.v, t, GapTo(Best(p, t, k - 1), p.Size(t, i)))
    decreases j
  {
    BestSound(p, j - 1, k - 1);
    UpToLastPart(p, i, k, j - 1);
    if t < j - 1 {
      UpToNoCloser(p, i, k, j - 1, t);
    }
  }

  /** A reached cell records a chosen cut, and there is no other. */
  lemma {:induction false} BestChosen(p: Problem, i: nat, k: nat)
    requires i <= |p.sizes| && k <= p.N() && Best(p, i, k).gap.Fin?
    ensures Chosen(p, Best(p, i, k).parts, i, k)
    decreases k, 1
  {
    if k > 0 {
      var cell := Best(p, i, k);
      BestSound(p, i, k);
      UpToLastPart(p, i, k, i);
      var s := cell.parts[k - 1].0;
      BestChosen(p, s, k - 1);
      ChosenSame(p, Best(p, s, k - 1).parts, cell.parts, s, k - 1);
      LastGap(p, i, k);
      forall j: nat, other: seq<(nat, nat)> | j < i && p.Size(j, i) <= p.memory[k - 1] && Chosen(p, other, j, k - 1)
        ensures Beats(p, cell.parts, i, k, j, other)
      {
        ChosenUnique(p, other, j, k - 1);
        UpToNoCloser(p, i, k, i, j);
        OtherGap(p, other, j, k - 1, p.Size(j, i));
      }
    }
  }

  lemma {:induction false} LastGap(p: Problem, i: nat, k: nat)
    requires 1 <= i <= |p.sizes| && 1 <= k <= p.N() && Best(p, i, k).gap.Fin? && LastPart(p, Best(p, i, k), i, k)
    ensures var cell := Best(p, i, k);
            cell.gap == Fin(Gap(p, cell.parts, k - 1, p.Size(cell.parts[k - 1].0, i)))
  {
    var cell := Best(p, i, k);
    var s := cell.parts[k - 1].0;
    OtherGap(p, cell.parts, s, k - 1, p.Size(s, i));
  }

  lemma {:induction false} OtherGap(p: Problem, other: seq<(nat, nat)>, j: nat, k: nat, size: nat)
    requires j <= |p.sizes| && k <= p.N() && Best(p, j, k).gap.Fin? && SameParts(other, Best(p, j, k).parts, k)
    ensures Gap(p, other, k, size) == GapTo(Best(p, j, k), size)
  {
    BestSound(p, j, k);
    GapSame(p, other, Best(p, j, k).parts, k, size);
    GapToMeans(p, Best(p, j, k), j, k, size);
  }

  /** Only the table's cut is chosen. */
  lemma {:induction false} ChosenUnique(p: Problem, parts: seq<(nat, nat)>, i: nat, k: nat)
    requires i <= |p.sizes| && k <= p.N() && Chosen(p, parts, i, k)
    ensures Best(p, i, k).gap.Fin? && SameParts(parts, Best(p, i, k).parts, k)
    decreases k, 0
  {
    if k > 0 {
      var t := parts[k - 1].0;
      ChosenUnique(p, parts, t, k - 1);
      UpToNoCloser(p, i, k, i, t);
      UpToLastPart(p, i, k, i);
      BestSound(p, i, k);
      var cell := Best(p, i, k);
      var s := cell.parts[k - 1].0;
      BestChosen(p, s, k - 1);
      OtherGap(p, parts, t, k - 1, p.Size(t, i));
      OtherGap(p, Best(p, s, k - 1).parts, s, k - 1, p.Size(s, i));
      assert Beats(p, parts, i, k, s, Best(p, s, k - 1).parts);
      assert s == t;
    }
  }

  // ---- Two devices: the gap is minimal -------------------------------------------------

  lemma {:induction false} OnePart(p: Problem, i: nat)
    requires 1 <= i <= |p.sizes| && p.N() >= 1
    ensures Best(p, i, 1).gap.Fin? ==> Best(p, i, 1).minSize == Fin(p.Size(0, i)) && Best(p, i, 1).maxSize == p.Size(0, i)
  {
    BestSound(p, i, 1);
    if Best(p, i, 1).gap.Fin? {
      var parts := Best(p, i, 1).parts;
      assert Cut(p, parts, parts[0].0, 0);
      assert parts[0] == (0, i);
    }
  }

  /** With two devices the gap of a cell is the distance of its two part sizes, and no feasible
      cut has a smaller one. */
  lemma {:induction false} TwoPartsMinimal(p: Problem, i: nat, j: nat)
    requires 1 <= i <= |p.sizes| && p.N() >= 2 && j <= i
    ensures var cell := BestUpTo(p, i, 2, j);
            && (cell.gap.Fin? ==>
                  |cell.parts| >= 2 && cell.parts[0].1 <= |p.sizes| && cell.parts[1].1 <= |p.sizes| &&
                  cell.gap.v == Distance(p.Size(cell.parts[0].0, cell.parts[0].1), p.Size(cell.parts[1].0, cell.parts[1].1)))
            && forall parts: seq<(nat, nat)> :: Cut(p, parts, i, 2) && parts[1].0 < j ==>
                 cell.gap.Fin? && cell.gap.v <= Distance(p.Size(0, parts[1].0), p.Size(parts[1].0, i))
    decreases j
  {
    if j > 0 {
      TwoPartsMinimal(p, i, j - 1);
      TwoPartsStep(p, i, j - 1);
    }
  }

  lemma TwoPartsStep(p: Problem, i: nat, j: nat)
    requires 1 <= i <= |p.sizes| && p.N() >= 2 && j < i
    ensures var cell, cell' := BestUpTo(p, i, 2, j), BestUpTo(p, i, 2, j + 1);
            && (cell' == cell || (cell'.gap == Fin(Distance(p.Size(0, j), p.Size(j, i))) && |cell'.parts| >= 2 &&
                                  cell'.parts[0] == (0, j) && cell'.parts[1] == (j, i)))
            && (cell.gap.Fin? ==> cell'.gap.Fin? && cell'.gap.v <= cell.gap.v)
            && (p.Size(j, i) <= p.memory[1] && Feasible(p, j, 1) ==>
                  cell'.gap.Fin? && cell'.gap.v <= Distance(p.Size(0, j), p.Size(j, i)))
  {
    BestSound(p, j, 1);
    if j > 0 {
      OnePart(p, j);
      if Best(p, j, 1).gap.Fin? {
        var parts := Best(p, j, 1).parts;
        assert Cut(p, parts, parts[0].0, 0);
        assert parts[0] == (0, j);
      }
    }
  }

  /** With two devices, the parts the table ends on are at most as far apart as those of any other
      cut that fits. */
  lemma {:induction false} TwoDevicesBalanced(p: Problem, split: nat)
    requires p.N() == 2 && 0 < split < |p.sizes|
    requires p.Size(0, split) <= p.memory[0] && p.Size(split, |p.sizes|) <= p.memory[1]
    ensures var cell := Best(p, |p.sizes|, 2);
            && cell.gap.Fin? && |cell.parts| == 2 && Cut(p, cell.parts, |p.sizes|, 2)
            && cell.parts[0].1 <= |p.sizes| && cell.parts[1].1 <= |p.sizes|
            && Distance(p.Size(cell.parts[0].0, cell.parts[0].1), p.Size(cell.parts[1].0, cell.parts[1].1))
               <= Distance(p.Size(0, split), p.Size(split, |p.sizes|))
  {
    var n := |p.sizes|;
    var other := [(0, split), (split, n)];
    assert Cut(p, other, split, 1);
    assert Cut(p, other, n, 2) && other[1].0 < n;
    TwoPartsMinimal(p, n, n);
    BestSound(p, n, 2);
  }

  // ---- How many devices are balanced ---------------------------------------------------

  /** On `n` devices, whatever the modules and memories, the placement's largest and smallest part
      are no further apart than those of any other cut that fits. */
  ghost predicate AlwaysBalanced(n: nat) {
    forall p: Problem, other: seq<(nat, nat)>, lo: nat, hi: nat ::
      p.N() == n && HasExtremes(p, other, n, lo, hi) ==> NoWider(Best(p, |p.sizes|, n), lo, hi)
  }

  ghost predicate HasExtremes(p: Problem, parts: seq<(nat, nat)>, n: nat, lo: nat, hi: nat) {
    && 1 <= n == p.N() && Cut(p, parts, |p.sizes|, n) && n <= |parts| && InRange(p, parts, n)
    && Extremes(p, parts, n, lo, hi)
  }

  predicate NoWider(cell: Cell, lo: nat, hi: nat) {
    cell.minSize.Fin? && cell.maxSize - cell.minSize.v <= hi - lo
  }

  lemma {:induction false} OneDeviceNoWider(p: Problem, other: seq<(nat, nat)>, lo: nat, hi: nat)
    requires HasExtremes(p, other, 1, lo, hi)
    ensures NoWider(Best(p, |p.sizes|, 1), lo, hi)
  {
    BestSound(p, |p.sizes|, 1);
    OnePart(p, |p.sizes|);
  }

  lemma {:induction false} ExtremesOfTwo(p: Problem, parts: seq<(nat, nat)>, lo: nat, hi: nat)
    requires 2 <= |parts| && InRange(p, parts, 2) && Extremes(p, parts, 2, lo, hi)
    ensures lo <= hi && hi - lo == Distance(p.Size(parts[0].0, parts[0].1), p.Size(parts[1].0, parts[1].1))
  {
    assert lo <= p.Size(parts[0].0, parts[0].1) <= hi && lo <= p.Size(parts[1].0, parts[1].1) <= hi;
  }

  lemma {:induction false} TwoDevicesNoWider(p: Problem, other: seq<(nat, nat)>, lo: nat, hi: nat)
    requires HasExtremes(p, other, 2, lo, hi)
    ensures NoWider(Best(p, |p.sizes|, 2), lo, hi)
  {
    var n := |p.sizes|;
    CutMeans(p, other, n, 2);
    assert other[0] == (0, other[1].0) && other[1].1 == n && Cut(p, other, n, 2);
    BestSound(p, n, 2);
    TwoPartsMinimal(p, n, n);
    ExtremesOfTwo(p, other, lo, hi);
    var cell := Best(p, n, 2);
    ExtremesOfTwo(p, cell.parts, cell.minSize.v, cell.maxSize);
  }

  lemma {:induction false} SizesOf(p: Problem, from: nat, to: nat)
    requires from < to <= |p.sizes|
    ensures p.Size(from, to) == p.sizes[from] + p.Size(from + 1, to)
  {
    if from + 1 < to {
      SizesOf(p, from, to - 1);
    }
  }

  // Modules of sizes 1, 4, 1, 3 and, for each further device, one of size 3 that fits only there.

  function Uneven(n: nat): Problem
    requires n >= 3
  {
    Problem([1, 4, 1, 3] + seq(n - 3, _ => 3), [9, 9, 9] + seq(n - 3, _ => 3))
  }

  ghost predicate BeginsUneven(p: Problem) {
    && |p.sizes| >= 4 && p.sizes[0] == 1 && p.sizes[1] == 4 && p.sizes[2] == 1 && p.sizes[3] == 3
    && p.N() >= 3 && p.memory[0] == 9 && p.memory[1] == 9 && p.memory[2] == 9
  }

  ghost predicate Is(p: Problem, cell: Cell, gap: nat, lo: nat, hi: nat) {
    cell.gap == Fin(gap) && cell.minSize == Fin(lo) && cell.maxSize == hi && |cell.parts| == p.N()
  }

  lemma {:induction false} UnevenSizes(p: Problem)
    requires BeginsUneven(p)
    ensures p.Size(0, 1) == 1 && p.Size(0, 2) == 5 && p.Size(1, 2) == 4 && p.Size(1, 3) == 5 && p.Size(2, 3) == 1
    ensures p.Size(1, 4) == 8 && p.Size(2, 4) == 4 && p.Size(3, 4) == 3
  {
    assert p.Size(0, 1) == 1 && p.Size(1, 2) == 4 && p.Size(2, 3) == 1 && p.Size(3, 4) == 3;
    SizesOf(p, 0, 2);
    SizesOf(p, 1, 3);
    SizesOf(p, 2, 4);
    SizesOf(p, 1, 4);
  }

  lemma {:induction false} TryTaken(p: Problem, cell: Cell, prev: Cell, i: nat, k: nat, j: nat, gap: nat, lo: nat, hi: nat)
    requires j <= i <= |p.sizes| && 1 <= k <= p.N() && Is(p, prev, gap, lo, hi)
    requires p.Size(j, i) <= p.memory[k - 1]
    ensures var size := p.Size(j, i);
            var wider := Max(Distance(lo, size), Distance(hi, size));
            if Fin(wider).Less(cell.gap)
            then Is(p, Try(p, cell, prev, i, k, j), wider, if lo <= size then lo else size, Max(hi, size))
            else Try(p, cell, prev, i, k, j) == cell
  {
  }

  lemma {:induction false} UnevenFirst(p: Problem, i: nat)
    requires BeginsUneven(p) && 1 <= i <= 2
    ensures Is(p, Best(p, i, 1), 0, p.Size(0, i), p.Size(0, i))
  {
    UnevenSizes(p);
    assert BestUpTo(p, i, 1, 1) == Try(p, EMPTY_CELL, StartCell(p.N()), i, 1, 0);
    if i == 2 {
      assert BestUpTo(p, 2, 1, 2) == Try(p, BestUpTo(p, 2, 1, 1), EMPTY_CELL, 2, 1, 1);
    }
  }

  lemma {:induction false} UnevenSecond(p: Problem)
    requires BeginsUneven(p)
    ensures Best(p, 1, 2) == EMPTY_CELL && Is(p, Best(p, 2, 2), 3, 1, 4) && Is(p, Best(p, 3, 2), 4, 1, 5)
  {
    UnevenSizes(p);
    UnevenFirst(p, 1);
    UnevenFirst(p, 2);
    assert BestUpTo(p, 1, 2, 1) == EMPTY_CELL && BestUpTo(p, 2, 2, 1) == EMPTY_CELL && BestUpTo(p, 3, 2, 1) == EMPTY_CELL;
    TryTaken(p, EMPTY_CELL, Best(p, 1, 1), 2, 2, 1, 0, 1, 1);
    TryTaken(p, EMPTY_CELL, Best(p, 1, 1), 3, 2, 1, 0, 1, 1);
    TryTaken(p, BestUpTo(p, 3, 2, 2), Best(p, 2, 1), 3, 2, 2, 0, 5, 5);
  }

  lemma {:induction false} UnevenThird(p: Problem)
    requires BeginsUneven(p)
    ensures Is(p, Best(p, 4, 3), 2, 1, 5)
  {
    UnevenSizes(p);
    UnevenSecond(p);
    assert BestUpTo(p, 4, 3, 1) == EMPTY_CELL && BestUpTo(p, 4, 3, 2) == EMPTY_CELL;
    TryTaken(p, EMPTY_CELL, Best(p, 2, 2), 4, 3, 2, 3, 1, 4);
    TryTaken(p, BestUpTo(p, 4, 3, 3), Best(p, 3, 2), 4, 3, 3, 4, 1, 5);
  }

  lemma {:induction false} SizeGrows(p: Problem, j: nat, i: nat, to: nat)
    requires j <= i < to <= |p.sizes|
    ensures p.Size(j, to) >= p.Size(i, to)
    decreases i - j
  {
    if j < i {
      SizesOf(p, j, to);
      SizeGrows(p, j + 1, i, to);
    }
  }

  lemma {:induction false} TooLarge(p: Problem, i: nat, k: nat, j: nat, from: nat)
    requires j <= from + 1 && from < i <= |p.sizes| && 1 <= k <= p.N() && p.Size(from, i) > p.memory[k - 1]
    ensures BestUpTo(p, i, k, j) == EMPTY_CELL
    decreases j
  {
    if j > 0 {
      TooLarge(p, i, k, j - 1, from);
      SizeGrows(p, j - 1, from, i);
    }
  }

  lemma {:induction false} UnevenLater(n: nat, k: nat)
    requires 3 <= k <= n
    ensures Is(Uneven(n), Best(Uneven(n), k + 1, k), 2, 1, 5)
    decreases k
  {
    var p := Uneven(n);
    if k == 3 {
      UnevenThird(p);
    } else {
      UnevenLater(n, k - 1);
      assert p.sizes[k - 1] == 3 && p.sizes[k] == 3 && p.memory[k - 1] == 3;
      assert p.Size(k, k + 1) == 3;
      SizesOf(p, k - 1, k + 1);
      TooLarge(p, k + 1, k, k, k - 1);
      TryTaken(p, EMPTY_CELL, Best(p, k, k - 1), k + 1, k, k, 2, 1, 5);
    }
  }

  function EvenParts(n: nat): seq<(nat, nat)>
    requires n >= 3
  {
    seq(n, q requires 0 <= q < n => if q < 2 then (q, q + 1) else if q == 2 then (2, 4) else (q + 1, q + 2))
  }

  lemma EvenSizes(n: nat, q: nat)
    requires q < n && n >= 3
    ensures EvenParts(n)[q].0 < EvenParts(n)[q].1 <= |Uneven(n).sizes|
    ensures Uneven(n).Size(EvenParts(n)[q].0, EvenParts(n)[q].1) == if q == 0 then 1 else if q <= 2 then 4 else 3
  {
    UnevenSizes(Uneven(n));
    if q > 2 {
      assert Uneven(n).sizes[q + 1] == 3;
      assert Uneven(n).Size(q + 1, q + 1) == 0;
    }
  }

  lemma EvenCut(n: nat)
    requires n >= 3
    ensures HasExtremes(Uneven(n), EvenParts(n), n, 1, 4)
  {
    var p, parts := Uneven(n), EvenParts(n);
    forall q | 0 <= q < n
      ensures parts[q].0 < parts[q].1 <= |p.sizes| && p.Size(parts[q].0, parts[q].1) <= p.memory[q]
      ensures 1 <= p.Size(parts[q].0, parts[q].1) <= 4
    {
      EvenSizes(n, q);
    }
    EvenSizes(n, 0);
    EvenSizes(n, 1);
    CutMeans(p, parts, n + 1, n);
  }

  /** On three devices or more the table can end on parts 4 apart although a cut with parts 3 apart
      fits. */
  lemma {:induction false} MoreDevicesNotBalanced(n: nat)
    requires n >= 3
    ensures HasExtremes(Uneven(n), EvenParts(n), n, 1, 4)
    ensures Is(Uneven(n), Best(Uneven(n), n + 1, n), 2, 1, 5)
    ensures !AlwaysBalanced(n)
  {
    EvenCut(n);
    UnevenLater(n, n);
    assert |Uneven(n).sizes| == n + 1;
    assert !NoWider(Best(Uneven(n), |Uneven(n).sizes|, n), 1, 4);
  }

  /** The balanced placement is balanced for one and two devices, and for no other number. */
  lemma BalancedIffTwo(n: nat)
    requires n >= 1
    ensures AlwaysBalanced(n) <==> n <= 2
  {
    if n >= 3 {
      MoreDevicesNotBalanced(n);
    } else {
      forall p: Problem, other: seq<(nat, nat)>, lo: nat, hi: nat | p.N() == n && HasExtremes(p, other, n, lo, hi)
        ensures NoWider(Best(p, |p.sizes|, n), lo, hi)
      {
        if n == 1 {
          OneDeviceNoWider(p, other, lo, hi);
        } else {
          TwoDevicesNoWider(p, other, lo, hi);
        }
      }
    }
  }

  // ---- The table -----------------------------------------------------------------------

  /** Row by row, cell by cell, the table holds the best cells; the rest is still empty. */
  ghost predicate Filled(p: Problem, dp: array2<Cell>, i: nat, k: nat)
    reads dp
  {
    && dp.Length0 == |p.sizes| + 1 && dp.Length1 == p.N() + 1
    && forall a, c :: 0 <= a <= |p.sizes| && 0 <= c <= p.N() ==>
         dp[a, c] == if a < i || c == 0 || (a == i && c < k) then Best(p, a, c) else EMPTY_CELL
  }

  method FillTable(p: Problem) returns (dp: array2<Cell>)
    ensures fresh(dp) && Filled(p, dp, |p.sizes| + 1, 1)
  {
    var length, n := |p.sizes|, p.N();
    dp := new Cell[length + 1, n + 1]((i, k) => if i == 0 && k == 0 then StartCell(n) else EMPTY_CELL);
    for i := 1 to length + 1
      invariant Filled(p, dp, i, 1)
    {
      for k := 1 to n + 1
        invariant Filled(p, dp, i, k)
      {
        FillCell(p, dp, i, k);
      }
    }
  }

  method FillCell(p: Problem, dp: array2<Cell>, i: nat, k: nat)
    requires 1 <= i <= |p.sizes| && 1 <= k <= p.N() && Filled(p, dp, i, k)
    modifies dp
    ensures Filled(p, dp, i, k + 1)
  {
    for j := 0 to i
      invariant dp[i, k] == BestUpTo(p, i, k, j)
      invariant forall a, c :: 0 <= a <= |p.sizes| && 0 <= c <= p.N() && (a != i || c != k) ==>
                  dp[a, c] == old(dp[a, c])
    {
      var currentSize := p.Size(j, i);
      if currentSize > p.memory[k - 1] {
        continue;
      }
      var prev := dp[j, k - 1];
      assert prev == Best(p, j, k - 1);
      if prev.gap.Fin? {
        BestSound(p, j, k - 1);
        var maxGap := 0;
        if prev.minSize.Fin? {
          maxGap := Max(Distance(prev.minSize.v, currentSize), Distance(prev.maxSize, currentSize));
        }
        if Fin(maxGap).Less(dp[i, k].gap) {
          var minSize := if prev.minSize.Fin? && prev.minSize.v <= currentSize then prev.minSize.v else currentSize;
          dp[i, k] := Cell(Fin(maxGap), Fin(minSize), Max(prev.maxSize, currentSize), prev.parts[k - 1 := (j, i)]);
        }
      }
    }
  }

  // ---- The device map ------------------------------------------------------------------

  /** A cut, part by part: the parts follow one another from the first module to the `i`th. */
  ghost predicate Contiguous(p: Problem, parts: seq<(nat, nat)>, i: nat, k: nat)
    requires i <= |p.sizes| && k <= p.N()
  {
    && k <= |parts|
    && (if k == 0 then i == 0 else parts[0].0 == 0 && parts[k - 1].1 == i)
    && (forall q :: 0 <= q < k - 1 ==> parts[q].1 == parts[q + 1].0)
    && (forall q :: 0 <= q < k ==> parts[q].0 < parts[q].1 <= i && p.Size(parts[q].0, parts[q].1) <= p.memory[q])
  }

  lemma {:induction false} CutMeans(p: Problem, parts: seq<(nat, nat)>, i: nat, k: nat)
    requires i <= |p.sizes| && k <= p.N() && |parts| >= k
    ensures Cut(p, parts, i, k) <==> Contiguous(p, parts, i, k)
  {
    if k > 0 && parts[k - 1].1 == i && parts[k - 1].0 < i {
      CutMeans(p, parts, parts[k - 1].0, k - 1);
      if Contiguous(p, parts, i, k) {
        ContiguousShorter(p, parts, i, k);
      }
    }
  }

  lemma ContiguousShorter(p: Problem, parts: seq<(nat, nat)>, i: nat, k: nat)
    requires 1 <= k <= p.N() && i <= |p.sizes| && Contiguous(p, parts, i, k)
    ensures Contiguous(p, parts, parts[k - 1].0, k - 1)
  {
    StartsGrow(p, parts, i, k);
  }

  lemma {:induction false} StartsGrow(p: Problem, parts: seq<(nat, nat)>, i: nat, k: nat)
    requires 1 <= k <= p.N() && i <= |p.sizes| && Contiguous(p, parts, i, k)
    ensures forall q, r :: 0 <= q < r < k ==> parts[q].1 <= parts[r].0
  {
    forall q, r | 0 <= q < r < k
      ensures parts[q].1 <= parts[r].0
    {
      StartsGrowTo(p, parts, i, k, q, r);
    }
  }

  lemma {:induction false} StartsGrowTo(p: Problem, parts: seq<(nat, nat)>, i: nat, k: nat, q: nat, r: nat)
    requires 1 <= k <= p.N() && i <= |p.sizes| && Contiguous(p, parts, i, k) && q < r < k
    ensures parts[q].1 <= parts[r].0
    decreases r
  {
    if q < r - 1 {
      StartsGrowTo(p, parts, i, k, q, r - 1);
    }
    assert parts[r - 1].1 == parts[r].0;
  }

  /** An ordered dictionary: keys in insertion order. */
  datatype Dict = Dict(keys: seq<string>, at: map<string, nat>) {
    function Put(key: string, value: nat): Dict {
      Dict(if key in at then keys else keys + [key], at[key := value])
    }

    ghost predicate Valid() {
      forall key :: key in keys <==> key in at
    }
  }

  datatype Outcome =
    | Placed(devices: Dict)
    | NoDevices
    | AssertionFailed

  /** The first `i` names are the keys, each on the device of the part it is in. */
  ghost predicate Follows(d: Dict, names: seq<string>, parts: seq<(nat, nat)>, i: nat)
    requires i <= |names|
  {
    && d.Valid() && d.keys == names[..i]
    && forall x, q :: 0 <= x < i && 0 <= q < |parts| && parts[q].0 <= x < parts[q].1 ==>
         names[x] in d.at && d.at[names[x]] == q
  }

  /** `_get_balanced_placement`. */
  method BalancedPlacement(names: seq<string>, p: Problem) returns (r: Outcome)
    requires |names| == |p.sizes| && Distinct(names)
    ensures r.AssertionFailed? <==> |names| == 0 || |names| < p.N()
    ensures r.NoDevices? <==> |names| > 0 && p.N() == 0
    ensures r.Placed? && !Feasible(p, |names|, p.N()) ==> r.devices == Dict([], map[])
    ensures r.Placed? && Feasible(p, |names|, p.N()) ==>
              var parts := Best(p, |names|, p.N()).parts;
              && |parts| == p.N() && Chosen(p, parts, |names|, p.N())
              && Contiguous(p, parts, |names|, p.N()) && Follows(r.devices, names, parts, |names|)
  {
    if !(|names| > 0 && |names| >= p.N()) {
      return AssertionFailed;
    }
    var length, n := |names|, p.N();
    if n <= 0 || length == 0 {
      return NoDevices;
    }
    var dp := FillTable(p);
    var result := dp[length, n].parts;
    BestSound(p, length, n);
    if Feasible(p, length, n) {
      CutMeans(p, result, length, n);
      BestChosen(p, length, n);
      StartsGrow(p, result, length, n);
    } else {
      InfeasibleIsEmpty(p, length, n);
    }
    var devices := Dict([], map[]);
    for q := 0 to |result|
      invariant Follows(devices, names, result, if q == 0 then 0 else result[q - 1].1)
    {
      devices := AddPart(devices, names, result, q);
    }
    r := Placed(devices);
  }

  method AddPart(devices: Dict, names: seq<string>, parts: seq<(nat, nat)>, q: nat) returns (r: Dict)
    requires q < |parts| && parts[q].0 <= parts[q].1 <= |names| && Distinct(names)
    requires forall a, b :: 0 <= a < b < |parts| ==> parts[a].1 <= parts[b].0
    requires Follows(devices, names, parts, parts[q].0)
    ensures Follows(r, names, parts, parts[q].1)
  {
    r := devices;
    for x := parts[q].0 to parts[q].1
      invariant Follows(r, names, parts, x)
    {
      r := r.Put(names[x], q);
      assert names[..x + 1] == names[..x] + [names[x]];
    }
  }

  lemma {:induction false} InfeasibleIsEmpty(p: Problem, i: nat, k: nat)
    requires 1 <= i <= |p.sizes| && 1 <= k <= p.N() && !Feasible(p, i, k)
    ensures Best(p, i, k).parts == []
  {
    BestSound(p, i, k);
    UnreachedIsEmpty(p, i, k, i);
  }

  lemma {:induction false} UnreachedIsEmpty(p: Problem, i: nat, k: nat, j: nat)
    requires 1 <= i <= |p.sizes| && 1 <= k <= p.N() && j <= i
    ensures BestUpTo(p, i, k, j).gap.Inf? ==> BestUpTo(p, i, k, j) == EMPTY_CELL
    decreases j
  {
    if j > 0 {
      UnreachedIsEmpty(p, i, k, j - 1);
    }
  }
}
