/** `stupidLogic` of stupidScanning.py: a scanning path over a rectangle in
    steps of 500 units. For each column `w` from the minimum width upwards it
    sweeps the length forwards, and then backwards as well when the width span
    is odd. The height range is taken and never used. */
module Scanning {

  /** The step between path points: five metres in engine units. */
  const Step: int := 500

  /** `range(lo, hi + 1, 500)`: from `lo` upwards while at most `hi`. */
  function Ascending(lo: int, hi: int): (r: seq<int>)
    decreases if lo > hi then 0 else hi - lo + 1
  {
    if lo > hi then [] else [lo] + Ascending(lo + Step, hi)
  }

  /** `range(hi, lo - 1, -500)`: from `hi` downwards while at least `lo`. */
  function Descending(hi: int, lo: int): (r: seq<int>)
    decreases if hi < lo then 0 else hi - lo + 1
  {
    if hi < lo then [] else [hi] + Descending(hi - Step, lo)
  }

  /** How many values a stepped range from one bound to the other holds. */
  function RangeSize(lo: int, hi: int): nat {
    if lo > hi then 0 else (hi - lo) / Step + 1
  }

  /** Element `k` of the ascending range is `lo + 500 k`, and the range holds
      exactly the values of that form up to `hi`. */
  lemma {:induction false} AscendingShape(lo: int, hi: int)
    ensures |Ascending(lo, hi)| == RangeSize(lo, hi)
    ensures forall k :: 0 <= k < |Ascending(lo, hi)| ==> Ascending(lo, hi)[k] == lo + Step * k
    decreases if lo > hi then 0 else hi - lo + 1
  {
    if lo <= hi {
      AscendingShape(lo + Step, hi);
      var rest := Ascending(lo + Step, hi);
      assert RangeSize(lo, hi) == RangeSize(lo + Step, hi) + 1;
      forall k | 1 <= k < |Ascending(lo, hi)|
        ensures Ascending(lo, hi)[k] == lo + Step * k
      {
        assert Ascending(lo, hi)[k] == rest[k - 1];
      }
    }
  }

  /** Element `k` of the descending range is `hi - 500 k`, and the range is as
      long as the ascending one between the same bounds. */
  lemma {:induction false} DescendingShape(hi: int, lo: int)
    ensures |Descending(hi, lo)| == RangeSize(lo, hi)
    ensures forall k :: 0 <= k < |Descending(hi, lo)| ==> Descending(hi, lo)[k] == hi - Step * k
    decreases if hi < lo then 0 else hi - lo + 1
  {
    if lo <= hi {
      DescendingShape(hi - Step, lo);
      var rest := Descending(hi - Step, lo);
      assert RangeSize(lo, hi) == RangeSize(lo, hi - Step) + 1;
      forall k | 1 <= k < |Descending(hi, lo)|
        ensures Descending(hi, lo)[k] == hi - Step * k
      {
        assert Descending(hi, lo)[k] == rest[k - 1];
      }
    }
  }

  /** Every value of either range lies between the bounds. */
  lemma RangesWithinBounds(lo: int, hi: int)
    ensures forall v :: v in Ascending(lo, hi) ==> lo <= v <= hi
    ensures forall v :: v in Descending(hi, lo) ==> lo <= v <= hi
  {
    AscendingShape(lo, hi);
    DescendingShape(hi, lo);
    forall v | v in Ascending(lo, hi)
      ensures lo <= v <= hi
    {
      var k :| 0 <= k < |Ascending(lo, hi)| && Ascending(lo, hi)[k] == v;
      StepWithin(lo, hi, k);
    }
    forall v | v in Descending(hi, lo)
      ensures lo <= v <= hi
    {
      var k :| 0 <= k < |Descending(hi, lo)| && Descending(hi, lo)[k] == v;
      StepWithin(lo, hi, k);
    }
  }

  /** The `k`th step from either bound stays inside when `k` is below the range size. */
  lemma StepWithin(lo: int, hi: int, k: nat)
    requires k < RangeSize(lo, hi)
    ensures lo <= lo + Step * k <= hi && lo <= hi - Step * k <= hi
  {
    assert k <= (hi - lo) / Step;
    assert Step * k <= Step * ((hi - lo) / Step) <= hi - lo;
  }

  /** The points `(l, w)` for the lengths `ls`, in order. */
  function Sweep(ls: seq<int>, w: int): (r: seq<(int, int)>)
    ensures |r| == |ls| && forall k :: 0 <= k < |ls| ==> r[k] == (ls[k], w)
  {
    seq(|ls|, k requires 0 <= k < |ls| => (ls[k], w))
  }

  /** The scan of one column: forwards, then backwards when `reverse` holds. */
  function Column(w: int, minLength: int, maxLength: int, reverse: bool): seq<(int, int)> {
    Sweep(Ascending(minLength, maxLength), w)
    + if reverse then Sweep(Descending(maxLength, minLength), w) else []
  }

  /** The columns `ws`, in order. */
  function Columns(ws: seq<int>, minLength: int, maxLength: int, reverse: bool): seq<(int, int)>
    decreases |ws|
  {
    if ws == [] then []
    else Columns(ws[..|ws| - 1], minLength, maxLength, reverse) + Column(ws[|ws| - 1], minLength, maxLength, reverse)
  }

  /** Whether the width span is odd; Python's `%` and Dafny's agree for a positive divisor. */
  predicate OddSpan(minWidth: int, maxWidth: int) {
    (maxWidth - minWidth) % 2 != 0
  }

  /** The path `stupidLogic` returns. */
  function ScanPath(minLength: int, maxLength: int, minWidth: int, maxWidth: int): seq<(int, int)> {
    Columns(Ascending(minWidth, maxWidth), minLength, maxLength, OddSpan(minWidth, maxWidth))
  }

  /** `stupidLogic(length, width, height)` */
  method StupidLogic(length: (int, int), width: (int, int), height: (int, int)) returns (scanningPath: seq<(int, int)>)
    ensures scanningPath == ScanPath(length.0, length.1, width.0, width.1)
  {
    var (minLength, maxLength) := length;
    var (minWidth, maxWidth) := width;
    var reverse := (maxWidth - minWidth) % 2 != 0;
    scanningPath := [];
    var widths := Ascending(minWidth, maxWidth);
    var lengths := Ascending(minLength, maxLength);
    for i := 0 to |widths|
      invariant scanningPath == Columns(widths[..i], minLength, maxLength, reverse)
    {
      var w := widths[i];
      ghost var before := scanningPath;
      for j := 0 to |lengths|
        invariant scanningPath == before + Sweep(lengths[..j], w)
      {
        SweepExtends(lengths, j, w);
        scanningPath := scanningPath + [(lengths[j], w)];
      }
      assert scanningPath == before + Sweep(lengths, w) by { SweepExtends(lengths, |lengths|, w); }
      if reverse {
        scanningPath := scanningPath + Sweep(Descending(maxLength, minLength), w);
      }
      assert scanningPath == before + Column(w, minLength, maxLength, reverse);
      ColumnsExtend(widths, i, minLength, maxLength, reverse);
    }
    assert widths[..|widths|] == widths;
  }

  /** The sweep of one more length is the sweep so far plus that point; the sweep
      of the whole prefix is the sweep of the sequence. */
  lemma SweepExtends(ls: seq<int>, j: nat, w: int)
    requires j <= |ls|
    ensures j < |ls| ==> Sweep(ls[..j + 1], w) == Sweep(ls[..j], w) + [(ls[j], w)]
    ensures j == |ls| ==> Sweep(ls[..j], w) == Sweep(ls, w)
  {
    assert j == |ls| ==> ls[..j] == ls;
  }

  /** The columns of one more width are the columns so far plus that column. */
  lemma ColumnsExtend(ws: seq<int>, i: nat, minLength: int, maxLength: int, reverse: bool)
    requires i < |ws|
    ensures Columns(ws[..i + 1], minLength, maxLength, reverse)
         == Columns(ws[..i], minLength, maxLength, reverse) + Column(ws[i], minLength, maxLength, reverse)
  {
    assert ws[..i + 1][..i] == ws[..i];
  }

  /** The path has one column per width value, each as long as the forward sweep
      plus, for an odd width span, the backward one. */
  lemma {:induction false} ColumnsLength(ws: seq<int>, minLength: int, maxLength: int, reverse: bool)
    ensures |Columns(ws, minLength, maxLength, reverse)|
         == |ws| * (RangeSize(minLength, maxLength) + if reverse then RangeSize(minLength, maxLength) else 0)
    decreases |ws|
  {
    AscendingShape(minLength, maxLength);
    DescendingShape(maxLength, minLength);
    if ws != [] {
      ColumnsLength(ws[..|ws| - 1], minLength, maxLength, reverse);
      var c := RangeSize(minLength, maxLength) + if reverse then RangeSize(minLength, maxLength) else 0;
      assert |ws| * c == (|ws| - 1) * c + c;
    }
  }

  /** The length of the whole path: the number of columns times the points per column. */
  lemma ScanPathLength(minLength: int, maxLength: int, minWidth: int, maxWidth: int)
    ensures var n := RangeSize(minLength, maxLength);
      |ScanPath(minLength, maxLength, minWidth, maxWidth)|
      == RangeSize(minWidth, maxWidth) * (n + if OddSpan(minWidth, maxWidth) then n else 0)
  {
    AscendingShape(minWidth, maxWidth);
    ColumnsLength(Ascending(minWidth, maxWidth), minLength, maxLength, OddSpan(minWidth, maxWidth));
  }

  /** No width range, no path. */
  lemma EmptyWidthEmptyPath(minLength: int, maxLength: int, minWidth: int, maxWidth: int)
    requires maxWidth < minWidth
    ensures ScanPath(minLength, maxLength, minWidth, maxWidth) == []
  {
  }

  /** A sweep over lengths within bounds stays within them, in its one column. */
  lemma SweepWithin(ls: seq<int>, w: int, lo: int, hi: int)
    requires forall v :: v in ls ==> lo <= v <= hi
    ensures forall p :: p in Sweep(ls, w) ==> lo <= p.0 <= hi && p.1 == w
  {
    forall p | p in Sweep(ls, w)
      ensures lo <= p.0 <= hi && p.1 == w
    {
      var k :| 0 <= k < |ls| && Sweep(ls, w)[k] == p;
      assert ls[k] in ls;
    }
  }

  /** Every point of a column lies within the length bounds, in that column. */
  lemma ColumnWithin(w: int, minLength: int, maxLength: int, reverse: bool)
    ensures forall p :: p in Column(w, minLength, maxLength, reverse) ==> minLength <= p.0 <= maxLength && p.1 == w
  {
    RangesWithinBounds(minLength, maxLength);
    SweepWithin(Ascending(minLength, maxLength), w, minLength, maxLength);
    SweepWithin(Descending(maxLength, minLength), w, minLength, maxLength);
  }

  /** Every point of the columns has its length within the length bounds and its
      width among the columns. */
  lemma {:induction false} ColumnsWithin(ws: seq<int>, minLength: int, maxLength: int, reverse: bool)
    ensures forall p :: p in Columns(ws, minLength, maxLength, reverse) ==>
      minLength <= p.0 <= maxLength && p.1 in ws
    decreases |ws|
  {
    if ws != [] {
      var front, w := ws[..|ws| - 1], ws[|ws| - 1];
      ColumnsWithin(front, minLength, maxLength, reverse);
      ColumnWithin(w, minLength, maxLength, reverse);
      assert forall v :: v in front ==> v in ws;
    }
  }

  /** Every point of the path lies inside the rectangle. */
  lemma ScanPathWithin(minLength: int, maxLength: int, minWidth: int, maxWidth: int)
    ensures forall p :: p in ScanPath(minLength, maxLength, minWidth, maxWidth) ==>
      minLength <= p.0 <= maxLength && minWidth <= p.1 <= maxWidth
  {
    ColumnsWithin(Ascending(minWidth, maxWidth), minLength, maxLength, OddSpan(minWidth, maxWidth));
    RangesWithinBounds(minWidth, maxWidth);
  }
}
