/**
 * The pie chart's sector arithmetic: a sequence of cumulative angle
 * thresholds (degrees), the scan that maps an angle to a sector, and the
 * angular span of each sector.
 */
module Thresholds {

  /** ExploreByTouchHelper.INVALID_ID, the framework's "no virtual view" id (Integer.MIN_VALUE). */
  const INVALID_ID: int := -0x8000_0000

  /** The thresholds the view is built with. */
  const SourceAngles: seq<int> := [46, 60, 81, 120, 145, 190, 210, 250, 300, 310, 340, 360]

  predicate StrictlyIncreasing(a: seq<int>)
  {
    forall i, j :: 0 <= i < j < |a| ==> a[i] < a[j]
  }

  /**
   * The shape the thresholds are meant to have: non-empty, starting above 0,
   * strictly increasing and closing the circle at 360 degrees.
   */
  predicate ValidThresholds(a: seq<int>)
  {
    0 < |a| && 0 < a[0] && StrictlyIncreasing(a) && a[|a| - 1] == 360
  }

  /** Where sector i starts: the previous threshold, or 0 for the first sector. */
  function Prev(a: seq<int>, i: nat): int
    requires i <= |a|
  {
    if i == 0 then 0 else a[i - 1]
  }

  /**
   * The angular span of sector `id`, as the content description reports it
   * and as the arc of that sector sweeps.
   */
  function Span(a: seq<int>, id: nat): (r: int)
    requires id < |a|
    ensures StrictlyIncreasing(a) && (id == 0 ==> 0 < a[0]) ==> 0 < r
  {
    a[id] - Prev(a, id)
  }

  /** The spans of the first n sectors, added up. */
  function SumSpans(a: seq<int>, n: nat): int
    requires n <= |a|
  {
    if n == 0 then 0 else SumSpans(a, n - 1) + Span(a, n - 1)
  }

  /** The spans telescope: the first n sectors together cover [0, a[n-1]). */
  lemma {:induction false} SpansTelescope(a: seq<int>, n: nat)
    requires n <= |a|
    ensures SumSpans(a, n) == Prev(a, n)
  {
    if n > 0 {
      SpansTelescope(a, n - 1);
    }
  }

  /** For valid thresholds the spans of all sectors add up to the full circle. */
  lemma SpansCoverCircle(a: seq<int>)
    requires ValidThresholds(a)
    ensures SumSpans(a, |a|) == 360
    ensures forall id :: 0 <= id < |a| ==> 0 < Span(a, id)
  {
    SpansTelescope(a, |a|);
  }

  /**
   * The scan of getVirtualViewAt from index `from` on: the first index whose
   * threshold is strictly greater than the angle, or INVALID_ID when none is.
   */
  function FirstAbove(a: seq<int>, angle: real, from: nat): (r: int)
    requires from <= |a|
    ensures r == INVALID_ID || from <= r < |a|
    ensures r != INVALID_ID ==> angle < a[r] as real
    ensures r != INVALID_ID ==> forall j :: from <= j < r ==> a[j] as real <= angle
    ensures r == INVALID_ID ==> forall j :: from <= j < |a| ==> a[j] as real <= angle
    decreases |a| - from
  {
    if from == |a| then INVALID_ID
    else if angle < a[from] as real then from
    else FirstAbove(a, angle, from + 1)
  }

  /** The sector an angle falls in: the scan from the first threshold. */
  function SectorOf(a: seq<int>, angle: real): int
  {
    FirstAbove(a, angle, 0)
  }

  /**
   * Partition: with valid thresholds every angle in [0, 360) lies in exactly
   * one sector, the one whose half-open range [Prev(i), a[i]) holds it, and
   * the scan finds that sector.
   */
  lemma SectorPartition(a: seq<int>, angle: real)
    requires ValidThresholds(a)
    requires 0.0 <= angle < 360.0
    ensures 0 <= SectorOf(a, angle) < |a|
    ensures Prev(a, SectorOf(a, angle)) as real <= angle < a[SectorOf(a, angle)] as real
    ensures forall i :: 0 <= i < |a| && Prev(a, i) as real <= angle < a[i] as real ==> i == SectorOf(a, angle)
  {
  }

  /** An angle at or past the last threshold finds no sector. */
  lemma PastLastIsInvalid(a: seq<int>, angle: real)
    requires ValidThresholds(a)
    requires 360.0 <= angle
    ensures SectorOf(a, angle) == INVALID_ID
  {
  }

  /**
   * Tie-break: an angle exactly on threshold k belongs to the sector after
   * it, and to no sector when k is the last threshold.
   */
  lemma OnThresholdGoesToNext(a: seq<int>, k: nat)
    requires StrictlyIncreasing(a)
    requires k < |a|
    ensures SectorOf(a, a[k] as real) == if k + 1 < |a| then k + 1 else INVALID_ID
  {
    assert forall j :: 0 <= j <= k ==> a[j] as real <= a[k] as real;
    if k + 1 < |a| {
      assert a[k] as real < a[k + 1] as real;
    }
  }

  /** The thresholds the view is built with are valid. */
  lemma SourceAnglesValid()
    ensures ValidThresholds(SourceAngles)
    ensures |SourceAngles| == 12
  {
  }

  /** Sample lookups and a sample span with the view's own thresholds. */
  lemma SourceAnglesSamples()
    ensures SectorOf(SourceAngles, 50.0) == 1
    ensures SectorOf(SourceAngles, 0.0) == 0
    ensures SectorOf(SourceAngles, 359.999) == 11
    ensures SectorOf(SourceAngles, 46.0) == 1
    ensures SectorOf(SourceAngles, 360.0) == INVALID_ID
    ensures Span(SourceAngles, 2) == 21
  {
  }
}
