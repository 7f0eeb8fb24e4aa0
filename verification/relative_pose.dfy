/**
 * The per-row conversion of the two trajectory scripts: the jaw pose expressed in the head
 * rigid body's frame (data_processing/motion_capture_to_traj.py), optionally rotated into the
 * robot frame by a saved basis and preceded by a low-pass filter and quaternion
 * renormalisation (data_processing/transform_trajectory.py).
 */
module RelativePose {
  import opened Wrappers
  import opened LinAlg
  import opened Rotations
  import opened MocapTable

  /** An orientation and a translation. */
  datatype Pose = Pose(rot: Mat3, pos: Vec3)

  /** One output line: frame, time, then x, y, z, roll, pitch, yaw. */
  datatype TrajRow = TrajRow(frame: int, time: real, values: seq<real>)

  /**
   * The jaw relative to the head: Rhᵀ·Rj and Rhᵀ·(pj − ph). The head quaternion is
   * converted first, so its error is the one raised when both are zero.
   */
  function HeadRelative(row: MocapRow, sqrt: real -> real): (r: Result<Pose, string>)
    ensures r.Err? <==> QuatToRot(row.headQ, sqrt).Err? || QuatToRot(row.jawQ, sqrt).Err?
    ensures QuatToRot(row.headQ, sqrt).Err? ==> r == Err(QuatToRot(row.headQ, sqrt).error)
  {
    var rh := QuatToRot(row.headQ, sqrt);
    if rh.Err? then Err(rh.error)
    else
      var rj := QuatToRot(row.jawQ, sqrt);
      if rj.Err? then Err(rj.error)
      else
        var ht := Transpose(rh.value);
        Ok(Pose(MatMul(ht, rj.value), MatVec(ht, Sub(row.jawP, row.headP))))
  }

  /** With an exact square root a row fails exactly when one of its quaternions is zero. */
  lemma HeadRelativeErrIff(row: MocapRow, sqrt: real -> real)
    requires ExactSqrt(sqrt)
    ensures HeadRelative(row, sqrt).Err? <==> row.headQ == ZeroQuat || row.jawQ == ZeroQuat
  {
    QuatToRotErrIff(row.headQ, sqrt);
    QuatToRotErrIff(row.jawQ, sqrt);
  }

  /** A head at the origin with the identity orientation leaves the jaw pose as it was captured. */
  lemma HeadAtOrigin(row: MocapRow, sqrt: real -> real)
    requires ExactSqrt(sqrt) && row.headQ == Quat(0.0, 0.0, 0.0, 1.0) && row.headP == Zero
    requires row.jawQ != ZeroQuat
    ensures QuatToRot(row.jawQ, sqrt).Ok?
    ensures HeadRelative(row, sqrt) == Ok(Pose(QuatToRot(row.jawQ, sqrt).value, row.jawP))
  {
    QuatToRotIdentity(sqrt);
    QuatToRotErrIff(row.jawQ, sqrt);
    var rj := QuatToRot(row.jawQ, sqrt).value;
    IdentityNeutral(rj, Sub(row.jawP, row.headP));
    assert Sub(row.jawP, row.headP) == row.jawP;
  }

  /**
   * The head pose and the relative pose give back the jaw's captured pose:
   * Rh·R_rel = Rj and Rh·p_rel + ph = pj.
   */
  lemma HeadRelativeRecoversJaw(row: MocapRow, sqrt: real -> real)
    requires ExactSqrt(sqrt) && row.headQ != ZeroQuat && row.jawQ != ZeroQuat
    ensures HeadRelative(row, sqrt).Ok?
    ensures MatMul(QuatToRot(row.headQ, sqrt).value, HeadRelative(row, sqrt).value.rot) == QuatToRot(row.jawQ, sqrt).value
    ensures Add(MatVec(QuatToRot(row.headQ, sqrt).value, HeadRelative(row, sqrt).value.pos), row.headP) == row.jawP
  {
    HeadRelativeErrIff(row, sqrt);
    QuatToRotRowsOrthonormal(row.headQ, sqrt);
    var rh := QuatToRot(row.headQ, sqrt).value;
    var rj := QuatToRot(row.jawQ, sqrt).value;
    var d := Sub(row.jawP, row.headP);
    MatMulAssoc(rh, Transpose(rh), rj);
    MatMulVec(rh, Transpose(rh), d);
    IdentityNeutral(rj, d);
  }

  /** Scaling either quaternion by a non-zero factor (a sign flip included) changes nothing. */
  lemma HeadRelativeScaleInvariant(row: MocapRow, c: real, d: real, sqrt: real -> real)
    requires ExactSqrt(sqrt) && c != 0.0 && d != 0.0
    ensures HeadRelative(row.(headQ := ScaleQuat(c, row.headQ), jawQ := ScaleQuat(d, row.jawQ)), sqrt)
         == HeadRelative(row, sqrt)
  {
    QuatToRotScaleInvariant(row.headQ, c, sqrt);
    QuatToRotScaleInvariant(row.jawQ, d, sqrt);
  }

  /** The robot frame: both parts of the pose premultiplied by the transposed basis. */
  function ToRobotFrame(basis: Mat3, p: Pose): (r: Pose)
    ensures basis == Identity ==> r == p
  {
    IdentityNeutral(p.rot, p.pos);
    var bt := Transpose(basis);
    Pose(MatMul(bt, p.rot), MatVec(bt, p.pos))
  }

  /**
   * The translation written by transform_trajectory.py is Bᵀ·Rhᵀ·(pj − ph) and the
   * orientation is Bᵀ·Rhᵀ·Rj: the two changes of frame compose.
   */
  lemma RobotFrameComposes(row: MocapRow, basis: Mat3, sqrt: real -> real)
    requires HeadRelative(row, sqrt).Ok?
    ensures var p := ToRobotFrame(basis, HeadRelative(row, sqrt).value);
            var m := MatMul(Transpose(basis), Transpose(QuatToRot(row.headQ, sqrt).value));
            p.pos == MatVec(m, Sub(row.jawP, row.headP))
            && p.rot == MatMul(m, QuatToRot(row.jawQ, sqrt).value)
  {
    var bt := Transpose(basis);
    var ht := Transpose(QuatToRot(row.headQ, sqrt).value);
    MatMulVec(bt, ht, Sub(row.jawP, row.headP));
    MatMulAssoc(bt, ht, QuatToRot(row.jawQ, sqrt).value);
  }

  /** A basis whose rows are orthonormal is undone by applying the basis itself. */
  lemma RobotFrameInvertible(basis: Mat3, p: Pose)
    requires MatMul(basis, Transpose(basis)) == Identity
    ensures MatMul(basis, ToRobotFrame(basis, p).rot) == p.rot
    ensures MatVec(basis, ToRobotFrame(basis, p).pos) == p.pos
  {
    MatMulAssoc(basis, Transpose(basis), p.rot);
    MatMulVec(basis, Transpose(basis), p.pos);
    IdentityNeutral(p.rot, p.pos);
  }

  /** The three Euler angles of a rotation, each wrapped into [−π, π). */
  function WrappedEuler(m: Mat3, sqrt: real -> real, atan2: (real, real) -> real): (e: Euler)
    ensures -Pi <= e.roll < Pi && -Pi <= e.pitch < Pi && -Pi <= e.yaw < Pi
  {
    var raw := RotToEulerZYX(m, sqrt, atan2);
    Euler(WrapRad(raw.roll), WrapRad(raw.pitch), WrapRad(raw.yaw))
  }

  /**
   * `math.atan2` returns angles in [−π, π]. The wrap keeps each of them, except that an
   * angle of exactly π (atan2(0.0, −1.0), say) becomes −π.
   */
  lemma WrappedEulerInRange(m: Mat3, sqrt: real -> real, atan2: (real, real) -> real)
    requires forall a, b :: -Pi <= atan2(a, b) <= Pi
    ensures var raw := RotToEulerZYX(m, sqrt, atan2);
            var e := WrappedEuler(m, sqrt, atan2);
            && e.roll == (if raw.roll == Pi then -Pi else raw.roll)
            && e.pitch == (if raw.pitch == Pi then -Pi else raw.pitch)
            && e.yaw == (if raw.yaw == Pi then -Pi else raw.yaw)
  {
    var raw := RotToEulerZYX(m, sqrt, atan2);
    WrapRadClosed(raw.roll);
    WrapRadClosed(raw.pitch);
    WrapRadClosed(raw.yaw);
  }

  /** The six output values of a pose: its translation, then its wrapped Euler angles. */
  function PoseValues(p: Pose, sqrt: real -> real, atan2: (real, real) -> real): (v: seq<real>)
    ensures |v| == 6
    ensures v[0] == p.pos.x && v[1] == p.pos.y && v[2] == p.pos.z
    ensures forall k :: 3 <= k < 6 ==> -Pi <= v[k] < Pi
  {
    var e := WrappedEuler(p.rot, sqrt, atan2);
    [p.pos.x, p.pos.y, p.pos.z, e.roll, e.pitch, e.yaw]
  }

  /** motion_capture_to_traj.py `transform_row`: the jaw in the head frame. */
  function JawInHeadRow(row: MocapRow, sqrt: real -> real, atan2: (real, real) -> real): (r: Result<seq<real>, string>)
    ensures r.Err? <==> HeadRelative(row, sqrt).Err?
    ensures r.Ok? ==> |r.value| == 6 && r.value[..3] == [HeadRelative(row, sqrt).value.pos.x,
                                                          HeadRelative(row, sqrt).value.pos.y,
                                                          HeadRelative(row, sqrt).value.pos.z]
  {
    var p := HeadRelative(row, sqrt);
    if p.Err? then Err(p.error) else Ok(PoseValues(p.value, sqrt, atan2))
  }

  /** transform_trajectory.py `transform_row`: the jaw in the head frame, then in the robot frame. */
  function RobotFrameRow(row: MocapRow, basis: Mat3, sqrt: real -> real, atan2: (real, real) -> real): (r: Result<seq<real>, string>)
    ensures r.Err? <==> HeadRelative(row, sqrt).Err?
    ensures r.Ok? ==> |r.value| == 6 && forall k :: 3 <= k < 6 ==> -Pi <= r.value[k] < Pi
    ensures r.Ok? ==> r.value[..3] == [ToRobotFrame(basis, HeadRelative(row, sqrt).value).pos.x,
                                       ToRobotFrame(basis, HeadRelative(row, sqrt).value).pos.y,
                                       ToRobotFrame(basis, HeadRelative(row, sqrt).value).pos.z]
  {
    var p := HeadRelative(row, sqrt);
    if p.Err? then Err(p.error) else Ok(PoseValues(ToRobotFrame(basis, p.value), sqrt, atan2))
  }

  /** With the identity basis the robot-frame row is the head-frame row. */
  lemma IdentityBasisIsHeadFrame(row: MocapRow, sqrt: real -> real, atan2: (real, real) -> real)
    ensures RobotFrameRow(row, Identity, sqrt, atan2) == JawInHeadRow(row, sqrt, atan2)
  {
  }

  /**
   * `q /= norm(q)` after filtering. A zero quaternion is left as it is here; numpy would
   * produce NaN components, which `quat_to_rot` would then carry into the output. Otherwise
   * the result scaled back by the norm is the quaternion itself.
   */
  function Renormalize(q: Quat, sqrt: real -> real): (r: Quat)
    ensures sqrt(NormSq(q)) == 0.0 ==> r == q
    ensures sqrt(NormSq(q)) != 0.0 ==> ScaleQuat(sqrt(NormSq(q)), r) == q
  {
    var n := sqrt(NormSq(q));
    if n == 0.0 then q else Normalize(q, n)
  }

  /**
   * Renormalising yields a unit quaternion and never changes the rotation `quat_to_rot`
   * builds from it, since that function normalises again.
   */
  lemma RenormalizeKeepsRotation(q: Quat, sqrt: real -> real)
    requires ExactSqrt(sqrt)
    ensures QuatToRot(Renormalize(q, sqrt), sqrt) == QuatToRot(q, sqrt)
    ensures q != ZeroQuat ==> NormSq(Renormalize(q, sqrt)) == 1.0
  {
    var n := sqrt(NormSq(q));
    if n != 0.0 {
      var i := 1.0 / n;
      DivAsMul(q.x, n, i); DivAsMul(q.y, n, i); DivAsMul(q.z, n, i); DivAsMul(q.w, n, i);
      assert Normalize(q, n) == ScaleQuat(i, q);
      QuatToRotScaleInvariant(q, i, sqrt);
      NormalizedUnit(q, sqrt);
    } else {
      QuatToRotErrIff(q, sqrt);
    }
  }

  /** The quaternion step of `butter_lowpass` on one row: frame, time and positions are kept. */
  function RenormalizeRow(row: MocapRow, sqrt: real -> real): (r: MocapRow)
    ensures r.frame == row.frame && r.time == row.time
    ensures r.headP == row.headP && r.jawP == row.jawP
  {
    row.(headQ := Renormalize(row.headQ, sqrt), jawQ := Renormalize(row.jawQ, sqrt))
  }

  /** The renormalisation leaves the relative pose of every row as it was. */
  lemma RenormalizeRowKeepsPose(row: MocapRow, sqrt: real -> real)
    requires ExactSqrt(sqrt)
    ensures HeadRelative(RenormalizeRow(row, sqrt), sqrt) == HeadRelative(row, sqrt)
  {
    RenormalizeKeepsRotation(row.headQ, sqrt);
    RenormalizeKeepsRotation(row.jawQ, sqrt);
  }

  function RenormalizeAll(rows: seq<MocapRow>, sqrt: real -> real): (out: seq<MocapRow>)
    ensures |out| == |rows| && forall i :: 0 <= i < |rows| ==> out[i] == RenormalizeRow(rows[i], sqrt)
  {
    seq(|rows|, i requires 0 <= i < |rows| => RenormalizeRow(rows[i], sqrt))
  }

  /**
   * `df.apply(transform_row, axis=1)`: every row converted, keeping its frame and time. The
   * first row that raises aborts the whole table.
   */
  function ConvertRows(rows: seq<MocapRow>, convert: MocapRow -> Result<seq<real>, string>): (r: Result<seq<TrajRow>, string>)
    ensures r.Ok? <==> forall i :: 0 <= i < |rows| ==> convert(rows[i]).Ok?
    ensures r.Ok? ==> |r.value| == |rows|
    ensures r.Ok? ==> forall i :: 0 <= i < |rows| ==>
              r.value[i] == TrajRow(rows[i].frame, rows[i].time, convert(rows[i]).value)
    ensures r.Err? ==> exists i :: 0 <= i < |rows| && convert(rows[i]) == Err(r.error)
  {
    if rows == [] then Ok([])
    else
      var head := convert(rows[0]);
      if head.Err? then Err(head.error)
      else
        var rest := ConvertRows(rows[1..], convert);
        assert forall i :: 1 <= i < |rows| ==> rows[i] == rows[1..][i - 1];
        if rest.Err? then Err(rest.error)
        else Ok([TrajRow(rows[0].frame, rows[0].time, head.value)] + rest.value)
  }

  /** motion_capture_to_traj.py `main`: the jaw in the head frame, row by row, unfiltered. */
  function JawInHeadTable(rows: seq<MocapRow>, sqrt: real -> real, atan2: (real, real) -> real): (r: Result<seq<TrajRow>, string>)
    ensures r.Ok? <==> forall i :: 0 <= i < |rows| ==> HeadRelative(rows[i], sqrt).Ok?
    ensures r.Ok? ==> |r.value| == |rows|
    ensures r.Ok? ==> forall i :: 0 <= i < |rows| ==>
              r.value[i] == TrajRow(rows[i].frame, rows[i].time, JawInHeadRow(rows[i], sqrt, atan2).value)
  {
    ConvertRows(rows, row => JawInHeadRow(row, sqrt, atan2))
  }

  /**
   * What the model assumes of the low-pass filter when it succeeds: `butter_lowpass` filters
   * a copy of the table, so there is one row per input row, with that row's frame and time.
   */
  ghost predicate FilterKeepsRows(lowpass: (seq<MocapRow>, real) -> Result<seq<MocapRow>, string>) {
    forall rows: seq<MocapRow>, fs: real :: lowpass(rows, fs).Ok? ==>
      && |lowpass(rows, fs).value| == |rows|
      && forall i :: 0 <= i < |rows| ==>
           lowpass(rows, fs).value[i].frame == rows[i].frame && lowpass(rows, fs).value[i].time == rows[i].time
  }

  /**
   * transform_trajectory.py `main`: check the basis, settle the sampling rate, low-pass filter
   * and renormalise, then convert every row into the robot frame. `lowpass` is the
   * zero-phase Butterworth filter `butter_lowpass` at the given rate, applied to the pose
   * columns; its `Err` is any exception the filter design or the filtering raises.
   */
  function TransformTrajectory(matrix: seq<seq<real>>, rows: seq<MocapRow>, fs: Option<real>,
                               median: seq<real> -> real, lowpass: (seq<MocapRow>, real) -> Result<seq<MocapRow>, string>,
                               sqrt: real -> real, atan2: (real, real) -> real): (r: Result<seq<TrajRow>, string>)
    ensures !IsThreeByThree(matrix) ==> r == Err(ShapeError)
    ensures IsThreeByThree(matrix) && SamplingRate(fs, Times(rows), median).Err? ==> r == Err(RateError)
    ensures IsThreeByThree(matrix) && SamplingRate(fs, Times(rows), median).Ok?
            && lowpass(rows, SamplingRate(fs, Times(rows), median).value).Err? ==>
              r == Err(lowpass(rows, SamplingRate(fs, Times(rows), median).value).error)
    ensures r.Ok? ==> BasisFromArray(matrix).Ok? && SamplingRate(fs, Times(rows), median).Ok?
                      && lowpass(rows, SamplingRate(fs, Times(rows), median).value).Ok?
    ensures r.Ok? ==>
              (var filtered := RenormalizeAll(lowpass(rows, SamplingRate(fs, Times(rows), median).value).value, sqrt);
               |r.value| == |filtered|
               && forall i :: 0 <= i < |filtered| ==>
                    && RobotFrameRow(filtered[i], BasisFromArray(matrix).value, sqrt, atan2).Ok?
                    && r.value[i] == TrajRow(filtered[i].frame, filtered[i].time,
                                             RobotFrameRow(filtered[i], BasisFromArray(matrix).value, sqrt, atan2).value))
    ensures IsThreeByThree(matrix) && SamplingRate(fs, Times(rows), median).Ok?
            && lowpass(rows, SamplingRate(fs, Times(rows), median).value).Ok? ==>
              var filtered := RenormalizeAll(lowpass(rows, SamplingRate(fs, Times(rows), median).value).value, sqrt);
              (forall i :: 0 <= i < |filtered| ==> HeadRelative(filtered[i], sqrt).Ok?) ==> r.Ok?
  {
    var basis := BasisFromArray(matrix);
    if basis.Err? then Err(basis.error)
    else
      var rate := SamplingRate(fs, Times(rows), median);
      if rate.Err? then Err(rate.error)
      else
        var smoothed := lowpass(rows, rate.value);
        if smoothed.Err? then Err(smoothed.error)
        else
          var filtered := RenormalizeAll(smoothed.value, sqrt);
          ConvertRows(filtered, row => RobotFrameRow(row, basis.value, sqrt, atan2))
  }

  /**
   * With a filter that keeps the rows, the written table has one row per captured row, with
   * that row's frame and time, as `df_filt[["Frame", "Time"]]` does.
   */
  lemma TransformTrajectoryKeepsFrames(matrix: seq<seq<real>>, rows: seq<MocapRow>, fs: Option<real>,
                                       median: seq<real> -> real, lowpass: (seq<MocapRow>, real) -> Result<seq<MocapRow>, string>,
                                       sqrt: real -> real, atan2: (real, real) -> real)
    requires FilterKeepsRows(lowpass) && TransformTrajectory(matrix, rows, fs, median, lowpass, sqrt, atan2).Ok?
    ensures var r := TransformTrajectory(matrix, rows, fs, median, lowpass, sqrt, atan2).value;
            |r| == |rows| && forall i :: 0 <= i < |rows| ==> r[i].frame == rows[i].frame && r[i].time == rows[i].time
  {
    var rate := SamplingRate(fs, Times(rows), median).value;
    var smoothed := lowpass(rows, rate).value;
    assert |smoothed| == |rows|;
    assert forall i :: 0 <= i < |rows| ==> smoothed[i].frame == rows[i].frame && smoothed[i].time == rows[i].time;
  }
}
