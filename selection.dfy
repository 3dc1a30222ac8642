/**
 * The selection rule shared by the nearest-vertex and nearest-edge hit
 * tests: among the candidates whose distance is within epsilon, the one
 * with the smallest distance, the lowest index winning a tie.
 */
module Selection {
  import opened Wrappers

  /**
   * The running-minimum scan over the candidate distances, read left to
   * right: a candidate replaces the best so far when its distance is within
   * epsilon and strictly smaller than the best distance seen.
   */
  function Scan(ds: seq<real>, epsilon: real): (r: Option<nat>)
    ensures r.Some? ==> r.value < |ds| && ds[r.value] <= epsilon
  {
    if ds == [] then None
    else
      var best := Scan(ds[..|ds| - 1], epsilon);
      var d := ds[|ds| - 1];
      if d <= epsilon && (best.None? || d < ds[best.value]) then Some(|ds| - 1) else best
  }

  /** What a hit test promises of its answer `r`, independently of how it is found. */
  predicate IsNearest(ds: seq<real>, epsilon: real, r: Option<nat>) {
    match r
    case None => forall j :: 0 <= j < |ds| ==> ds[j] > epsilon
    case Some(i) =>
      && i < |ds|
      && ds[i] <= epsilon
      && (forall j :: 0 <= j < |ds| && ds[j] <= epsilon ==> ds[i] <= ds[j])
      && (forall j :: 0 <= j < i && ds[j] <= epsilon ==> ds[i] < ds[j])
  }

  /** The scan finds the nearest candidate within epsilon, ties going to the lowest index. */
  lemma {:induction false} ScanIsNearest(ds: seq<real>, epsilon: real)
    ensures IsNearest(ds, epsilon, Scan(ds, epsilon))
  {
    if ds != [] {
      var init := ds[..|ds| - 1];
      ScanIsNearest(init, epsilon);
      assert forall j :: 0 <= j < |init| ==> init[j] == ds[j];
    }
  }

  /** At most one answer meets the promise. */
  lemma NearestIsUnique(ds: seq<real>, epsilon: real, r1: Option<nat>, r2: Option<nat>)
    requires IsNearest(ds, epsilon, r1) && IsNearest(ds, epsilon, r2)
    ensures r1 == r2
  {
  }

  /** The scan's answer is exactly the answer meeting the promise. */
  lemma ScanIffNearest(ds: seq<real>, epsilon: real, r: Option<nat>)
    ensures Scan(ds, epsilon) == r <==> IsNearest(ds, epsilon, r)
  {
    ScanIsNearest(ds, epsilon);
    if IsNearest(ds, epsilon, r) {
      NearestIsUnique(ds, epsilon, r, Scan(ds, epsilon));
    }
  }

  /** Widening epsilon does not change a hit that was already found. */
  lemma ScanStableUnderWiderEpsilon(ds: seq<real>, epsilon: real, wider: real)
    requires epsilon <= wider
    requires Scan(ds, epsilon).Some?
    ensures Scan(ds, wider) == Scan(ds, epsilon)
  {
    var r := Scan(ds, epsilon);
    ScanIsNearest(ds, epsilon);
    ScanIffNearest(ds, wider, r);
  }
}
