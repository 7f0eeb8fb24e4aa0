/**
 * data_processing/find_axes.py `mocap_to_robot_frame`: the fixed change of axes from the
 * motion-capture frame to the robot frame. X stays X, motion-capture Y becomes robot Z and
 * motion-capture Z becomes robot Y; the rotation matrix has its last two columns swapped.
 */
module AxisRemap {
  import opened LinAlg

  /** `[pos[0], pos[2], pos[1]]`. */
  function RemapPos(p: Vec3): (q: Vec3)
    ensures q.x == p.x && q.y == p.z && q.z == p.y
  {
    Vec3(p.x, p.z, p.y)
  }

  /** The matrix with columns (column 0, column 2, column 1) of m. */
  function RemapRot(m: Mat3): (r: Mat3)
    ensures Col0(r) == Col0(m) && Col1(r) == Col2(m) && Col2(r) == Col1(m)
  {
    Columns(Col0(m), Col2(m), Col1(m))
  }

  /** The remap is its own inverse. */
  lemma RemapInvolution(p: Vec3, m: Mat3)
    ensures RemapPos(RemapPos(p)) == p
    ensures RemapRot(RemapRot(m)) == m
  {
  }

  /** Swapping two columns flips the handedness: the determinant changes sign. */
  lemma RemapRotDet(m: Mat3)
    ensures Det(RemapRot(m)) == -Det(m)
  {
  }

  /** The matrix held in a 3x3 array, read row by row. */
  function MatOf(a: array2<real>): Mat3
    requires a.Length0 == 3 && a.Length1 == 3
    reads a
  {
    Mat3(Vec3(a[0, 0], a[0, 1], a[0, 2]), Vec3(a[1, 0], a[1, 1], a[1, 2]), Vec3(a[2, 0], a[2, 1], a[2, 2]))
  }

  /** `dst[:, j] = src[:, k]`: one column copied, the others left alone. */
  method SetColumn(dst: array2<real>, j: nat, src: array2<real>, k: nat)
    requires dst != src
    requires dst.Length0 == 3 && dst.Length1 == 3 && src.Length0 == 3 && src.Length1 == 3
    requires j < 3 && k < 3
    modifies dst
    ensures forall i :: 0 <= i < 3 ==> dst[i, j] == src[i, k]
    ensures forall i, c :: 0 <= i < 3 && 0 <= c < 3 && c != j ==> dst[i, c] == old(dst[i, c])
  {
    for i := 0 to 3
      invariant forall i' :: 0 <= i' < i ==> dst[i', j] == src[i', k]
      invariant forall i', c :: 0 <= i' < 3 && 0 <= c < 3 && (c != j || i' >= i) ==> dst[i', c] == old(dst[i', c])
    {
      dst[i, j] := src[i, k];
    }
  }

  /**
   * The position is remapped directly; the matrix is built in a fresh zero array whose
   * columns are filled in the order 0, 1, 2 from the input columns 0, 2, 1.
   */
  method MocapToRobotFrame(pos: Vec3, rot: array2<real>) returns (posRobot: Vec3, rRobot: array2<real>)
    requires rot.Length0 == 3 && rot.Length1 == 3
    ensures fresh(rRobot) && rRobot.Length0 == 3 && rRobot.Length1 == 3
    ensures posRobot == RemapPos(pos)
    ensures MatOf(rRobot) == RemapRot(MatOf(rot))
  {
    posRobot := Vec3(pos.x, pos.z, pos.y);
    rRobot := new real[3, 3]((i, j) => 0.0);
    SetColumn(rRobot, 0, rot, 0);
    SetColumn(rRobot, 1, rot, 2);
    SetColumn(rRobot, 2, rot, 1);
  }
}
