/**
 * The motion-capture table the data-processing scripts read: one row per capture frame,
 * the one-second start-up crop of data_processing/derive_frame.py, the sampling-rate
 * inference shared by derive_frame.py and transform_trajectory.py, and the 3x3 check that
 * transform_trajectory.py applies to the loaded basis.
 */
module MocapTable {
  import opened Wrappers
  import opened LinAlg
  import opened Rotations

  /** One row of a Motive export, in column order: frame, time, head pose, jaw pose. */
  datatype MocapRow = MocapRow(frame: int, time: real, headQ: Quat, headP: Vec3, jawQ: Quat, jawP: Vec3)

  /** The rows whose time is at least `t`, in their original order (a boolean-mask filter). */
  function RowsFrom(rows: seq<MocapRow>, t: real): (kept: seq<MocapRow>)
    ensures |kept| <= |rows|
    ensures forall r :: r in kept <==> r in rows && r.time >= t
  {
    if rows == [] then []
    else (if rows[0].time >= t then [rows[0]] else []) + RowsFrom(rows[1..], t)
  }

  /** Filtering a concatenation filters each part: the crop keeps the rows' order. */
  lemma {:induction false} RowsFromAppend(a: seq<MocapRow>, b: seq<MocapRow>, t: real)
    ensures RowsFrom(a + b, t) == RowsFrom(a, t) + RowsFrom(b, t)
  {
    if a == [] {
      assert a + b == b;
    } else {
      assert (a + b)[1..] == a[1..] + b;
      RowsFromAppend(a[1..], b, t);
    }
  }

  /**
   * Step 2 of derive_frame.py: drop the first second. Reading the first time of an empty
   * table is an indexing error.
   */
  function CropStartup(rows: seq<MocapRow>): (r: Result<seq<MocapRow>, string>)
    ensures r.Err? <==> rows == []
    ensures r.Ok? ==> forall row :: row in r.value <==> row in rows && row.time >= rows[0].time + 1.0
  {
    if rows == [] then Err("single positional indexer is out-of-bounds")
    else Ok(RowsFrom(rows, rows[0].time + 1.0))
  }

  /** The times of the rows, in order. */
  function Times(rows: seq<MocapRow>): (ts: seq<real>)
    ensures |ts| == |rows| && forall i :: 0 <= i < |rows| ==> ts[i] == rows[i].time
  {
    seq(|rows|, i requires 0 <= i < |rows| => rows[i].time)
  }

  /** `Time.diff()` without its leading NaN: the differences of consecutive times. */
  function TimeSteps(ts: seq<real>): (d: seq<real>)
    ensures |ts| >= 1 ==> |d| == |ts| - 1
    ensures |ts| == 0 ==> d == []
    ensures forall i :: 0 <= i < |d| ==> d[i] == ts[i + 1] - ts[i]
  {
    if |ts| < 2 then [] else [ts[1] - ts[0]] + TimeSteps(ts[1..])
  }

  const RateError: string := "Cannot infer sampling rate from Time column."

  /**
   * The sampling rate as 1 / median(Δt). With fewer than two rows every difference is NaN
   * and so is the median, which is an error, as is a median step that is not positive.
   * `median` is the library median of a non-empty sequence.
   */
  function InferSamplingRate(ts: seq<real>, median: seq<real> -> real): (r: Result<real, string>)
    ensures r.Err? <==> |ts| < 2 || median(TimeSteps(ts)) <= 0.0
    ensures r.Err? ==> r.error == RateError
    ensures r.Ok? ==> r.value > 0.0 && r.value * median(TimeSteps(ts)) == 1.0
  {
    if |ts| < 2 then Err(RateError)
    else
      var dt := median(TimeSteps(ts));
      if dt <= 0.0 then Err(RateError) else Ok(1.0 / dt)
  }

  /** The rate given on the command line is used as it is; only a missing one is inferred. */
  function SamplingRate(fs: Option<real>, ts: seq<real>, median: seq<real> -> real): (r: Result<real, string>)
    ensures fs.Some? ==> r == Ok(fs.value)
    ensures fs.None? ==> r == InferSamplingRate(ts, median)
  {
    if fs.Some? then Ok(fs.value) else InferSamplingRate(ts, median)
  }

  function MinOf(d: seq<real>): (m: real)
    requires |d| > 0
    ensures forall i :: 0 <= i < |d| ==> m <= d[i]
    ensures exists i :: 0 <= i < |d| && m == d[i]
  {
    if |d| == 1 then d[0]
    else
      var rest := MinOf(d[1..]);
      assert forall i :: 1 <= i < |d| ==> d[i] == d[1..][i - 1];
      if d[0] <= rest then d[0] else rest
  }

  /** A median never falls below the smallest sample. */
  ghost predicate MedianAtLeastMin(median: seq<real> -> real) {
    forall d: seq<real> :: |d| > 0 ==> median(d) >= MinOf(d)
  }

  predicate StrictlyIncreasing(ts: seq<real>) {
    forall i :: 0 <= i < |ts| - 1 ==> ts[i] < ts[i + 1]
  }

  /** Strictly increasing times with at least two rows always give a positive rate. */
  lemma IncreasingTimesGiveRate(ts: seq<real>, median: seq<real> -> real)
    requires MedianAtLeastMin(median) && StrictlyIncreasing(ts) && |ts| >= 2
    ensures InferSamplingRate(ts, median).Ok?
  {
    var d := TimeSteps(ts);
    var k :| 0 <= k < |d| && MinOf(d) == d[k];
    assert d[k] == ts[k + 1] - ts[k] > 0.0;
  }

  const ShapeError: string := "Rotation matrix must be 3×3"

  /** A loaded array is a 3x3 matrix: three rows of three entries. */
  predicate IsThreeByThree(a: seq<seq<real>>) {
    |a| == 3 && |a[0]| == 3 && |a[1]| == 3 && |a[2]| == 3
  }

  /** transform_trajectory.py accepts the loaded basis only when its shape is 3x3. */
  function BasisFromArray(a: seq<seq<real>>): (r: Result<Mat3, string>)
    ensures r.Ok? <==> IsThreeByThree(a)
    ensures r.Err? ==> r.error == ShapeError
    ensures r.Ok? ==> ArrayOf(r.value) == a
  {
    if IsThreeByThree(a) then
      assert a[0] == [a[0][0], a[0][1], a[0][2]];
      assert a[1] == [a[1][0], a[1][1], a[1][2]];
      assert a[2] == [a[2][0], a[2][1], a[2][2]];
      assert a == [a[0], a[1], a[2]];
      Ok(Mat3(Vec3(a[0][0], a[0][1], a[0][2]), Vec3(a[1][0], a[1][1], a[1][2]), Vec3(a[2][0], a[2][1], a[2][2])))
    else Err(ShapeError)
  }

  /** A matrix as the nested array it is saved as. */
  function ArrayOf(m: Mat3): (a: seq<seq<real>>)
    ensures IsThreeByThree(a)
  {
    [[m.r0.x, m.r0.y, m.r0.z], [m.r1.x, m.r1.y, m.r1.z], [m.r2.x, m.r2.y, m.r2.z]]
  }

  /** A saved basis loads back unchanged. */
  lemma BasisRoundTrip(m: Mat3)
    ensures BasisFromArray(ArrayOf(m)) == Ok(m)
  {
  }
}
