/**
 * main/ForceSensing.cpp: three load cells (front, back right, back left) combined into
 * one force. Each `update` samples every cell twice: once through the cell's own `update`,
 * which refreshes what the cell reports, and once through `readForce`, whose results the
 * total is built from.
 */
module ForceSensing {
  import opened Config
  import opened LoadCell

  /** The combination rule: the back-right cell contributes only along z. */
  function Total(front: ForceVector, backRight: ForceVector, backLeft: ForceVector): (t: ForceVector)
    ensures t.x == front.x + backLeft.x && t.y == front.y + backLeft.y
    ensures t.z == front.z + backRight.z + backLeft.z
  {
    ForceVector(front.x + backLeft.x, front.y + backLeft.y, front.z + backRight.z + backLeft.z)
  }

  /** The lateral components do not depend on the back-right cell at all. */
  lemma TotalIgnoresBackRightLateral(front: ForceVector, r1: ForceVector, r2: ForceVector, backLeft: ForceVector)
    ensures Total(front, r1, backLeft).x == Total(front, r2, backLeft).x
    ensures Total(front, r1, backLeft).y == Total(front, r2, backLeft).y
  {
  }

  /** With every cell within the force range, x and y lie within twice and z within three times that range. */
  lemma TotalBounds(front: ForceVector, backRight: ForceVector, backLeft: ForceVector)
    requires Measured(front) && Measured(backRight) && Measured(backLeft)
    ensures 0.0 <= Total(front, backRight, backLeft).x <= 2.0 * LoadCellMaxForce as real
    ensures 0.0 <= Total(front, backRight, backLeft).y <= 2.0 * LoadCellMaxForce as real
    ensures 0.0 <= Total(front, backRight, backLeft).z <= 3.0 * LoadCellMaxForce as real
  {
  }

  predicate Measured(f: ForceVector) {
    && LoadCellMinForce as real <= f.x <= LoadCellMaxForce as real
    && LoadCellMinForce as real <= f.y <= LoadCellMaxForce as real
    && LoadCellMinForce as real <= f.z <= LoadCellMaxForce as real
  }

  /** A cell after its `update` with reading `a` and then `readForce` with reading `b`. */
  function UpdateThenRead(c: CellState, a: Raw, b: Raw): (r: CellState)
    requires |c.xs| == LcSamples && |c.ys| == LcSamples && |c.zs| == LcSamples && c.index < LcSamples
    ensures r.index == (c.index + 2) % LcSamples
    ensures r.force == Measure(Sample(c, a))
  {
    var first := Sample(c, a);
    RingStep(c.index);
    Sample(first.(force := Measure(first)), b)
  }

  /** Two steps around the ring buffer. */
  lemma RingStep(i: nat)
    requires i < LcSamples
    ensures ((i + 1) % LcSamples + 1) % LcSamples == (i + 2) % LcSamples
  {
  }

  /** An update followed by a read, taken one step at a time. */
  lemma UpdateThenReadSteps(c0: CellState, c1: CellState, c2: CellState, a: Raw, b: Raw)
    requires |c0.xs| == LcSamples && |c0.ys| == LcSamples && |c0.zs| == LcSamples && c0.index < LcSamples
    requires c1 == Sample(c0, a).(force := Measure(Sample(c0, a)))
    requires c2 == Sample(c1, b)
    ensures c2 == UpdateThenRead(c0, a, b)
  {
  }

  class ForceSensing {
    const front: LoadCell3Axis
    const backRight: LoadCell3Axis
    const backLeft: LoadCell3Axis
    var force: ForceVector

    ghost function Repr(): set<object> {
      {front, backRight, backLeft,
       front.xBuffer, front.yBuffer, front.zBuffer,
       backRight.xBuffer, backRight.yBuffer, backRight.zBuffer,
       backLeft.xBuffer, backLeft.yBuffer, backLeft.zBuffer}
    }

    ghost predicate Valid()
      reads Repr()
    {
      && front.Valid() && backRight.Valid() && backLeft.Valid()
      && Distinct(front) && Distinct(backRight) && Distinct(backLeft)
      && front != backRight && backRight != backLeft && front != backLeft
      && Disjoint(front, backRight) && Disjoint(backRight, backLeft) && Disjoint(front, backLeft)
    }

    static ghost predicate Distinct(c: LoadCell3Axis)
    {
      c.xBuffer != c.yBuffer && c.yBuffer != c.zBuffer && c.xBuffer != c.zBuffer
    }

    static ghost predicate Disjoint(c: LoadCell3Axis, d: LoadCell3Axis)
    {
      {c.xBuffer, c.yBuffer, c.zBuffer} !! {d.xBuffer, d.yBuffer, d.zBuffer}
    }

    constructor ()
      ensures Valid() && fresh(Repr())
      ensures force == ForceVector(0.0, 0.0, 0.0)
    {
      front := new LoadCell3Axis();
      backRight := new LoadCell3Axis();
      backLeft := new LoadCell3Axis();
      force := ForceVector(0.0, 0.0, 0.0);
    }

    /**
     * Update every cell with the first reading of its pair, then read every cell again with
     * the second, and combine the second readings.
     */
    method Update(frontA: Raw, backRightA: Raw, backLeftA: Raw, frontB: Raw, backRightB: Raw, backLeftB: Raw)
      requires Valid()
      modifies Cells(), front`bufferIndex, backRight`bufferIndex, backLeft`bufferIndex, front`force, backRight`force, backLeft`force, this`force
      ensures Valid()
      ensures front.Snapshot() == UpdateThenRead(old(front.Snapshot()), frontA, frontB)
      ensures backRight.Snapshot() == UpdateThenRead(old(backRight.Snapshot()), backRightA, backRightB)
      ensures backLeft.Snapshot() == UpdateThenRead(old(backLeft.Snapshot()), backLeftA, backLeftB)
      ensures force == Total(Measure(front.Snapshot()), Measure(backRight.Snapshot()), Measure(backLeft.Snapshot()))
    {
      ghost var f0, r0, l0 := front.Snapshot(), backRight.Snapshot(), backLeft.Snapshot();
      UpdateCells(frontA, backRightA, backLeftA);
      ghost var f1, r1, l1 := front.Snapshot(), backRight.Snapshot(), backLeft.Snapshot();
      ReadAndCombine(frontB, backRightB, backLeftB);
      UpdateThenReadSteps(f0, f1, front.Snapshot(), frontA, frontB);
      UpdateThenReadSteps(r0, r1, backRight.Snapshot(), backRightA, backRightB);
      UpdateThenReadSteps(l0, l1, backLeft.Snapshot(), backLeftA, backLeftB);
    }

    /** The second pass: read every cell and store the combination of what was read. */
    method ReadAndCombine(frontB: Raw, backRightB: Raw, backLeftB: Raw)
      requires Valid()
      modifies Cells(), front`bufferIndex, backRight`bufferIndex, backLeft`bufferIndex, this`force
      ensures Valid()
      ensures front.Snapshot() == Sample(old(front.Snapshot()), frontB)
      ensures backRight.Snapshot() == Sample(old(backRight.Snapshot()), backRightB)
      ensures backLeft.Snapshot() == Sample(old(backLeft.Snapshot()), backLeftB)
      ensures force == Total(Measure(front.Snapshot()), Measure(backRight.Snapshot()), Measure(backLeft.Snapshot()))
    {
      var frontForce, backRForce, backLForce := ReadCells(frontB, backRightB, backLeftB);
      force := Total(frontForce, backRForce, backLForce);
    }

    /** The cells' buffers and the fields of theirs that updating and reading change. */
    ghost function Cells(): set<object> {
      Repr() - {front, backRight, backLeft}
    }

    /** The three cells' own `update` calls. */
    method UpdateCells(frontA: Raw, backRightA: Raw, backLeftA: Raw)
      requires Valid()
      modifies Cells(), front`bufferIndex, backRight`bufferIndex, backLeft`bufferIndex, front`force, backRight`force, backLeft`force
      ensures Valid()
      ensures front.Snapshot() == Sample(old(front.Snapshot()), frontA).(force := Measure(Sample(old(front.Snapshot()), frontA)))
      ensures backRight.Snapshot() == Sample(old(backRight.Snapshot()), backRightA).(force := Measure(Sample(old(backRight.Snapshot()), backRightA)))
      ensures backLeft.Snapshot() == Sample(old(backLeft.Snapshot()), backLeftA).(force := Measure(Sample(old(backLeft.Snapshot()), backLeftA)))
    {
      ghost var r0, l0 := backRight.Snapshot(), backLeft.Snapshot();
      front.Update(frontA);
      assert backRight.Snapshot() == r0 && backLeft.Snapshot() == l0;
      backRight.Update(backRightA);
      assert backLeft.Snapshot() == l0;
      ghost var f1, r1 := front.Snapshot(), backRight.Snapshot();
      backLeft.Update(backLeftA);
      assert front.Snapshot() == f1 && backRight.Snapshot() == r1;
    }

    /** The three cells' `readForce` calls, in the same order. */
    method ReadCells(frontB: Raw, backRightB: Raw, backLeftB: Raw) returns (f: ForceVector, r: ForceVector, l: ForceVector)
      requires Valid()
      modifies Cells(), front`bufferIndex, backRight`bufferIndex, backLeft`bufferIndex
      ensures Valid()
      ensures front.Snapshot() == Sample(old(front.Snapshot()), frontB) && f == Measure(front.Snapshot())
      ensures backRight.Snapshot() == Sample(old(backRight.Snapshot()), backRightB) && r == Measure(backRight.Snapshot())
      ensures backLeft.Snapshot() == Sample(old(backLeft.Snapshot()), backLeftB) && l == Measure(backLeft.Snapshot())
    {
      ghost var r0, l0 := backRight.Snapshot(), backLeft.Snapshot();
      f := front.ReadForce(frontB);
      assert backRight.Snapshot() == r0 && backLeft.Snapshot() == l0;
      r := backRight.ReadForce(backRightB);
      assert backLeft.Snapshot() == l0;
      ghost var f1, r1 := front.Snapshot(), backRight.Snapshot();
      l := backLeft.ReadForce(backLeftB);
      assert front.Snapshot() == f1 && backRight.Snapshot() == r1;
    }

    method GetTotalForce() returns (f: ForceVector)
      ensures f == force
    {
      f := force;
    }
  }
}
