/**
 * main/LoadCell3axis.cpp: a three-axis load cell read through a multiplexer. Each axis keeps
 * a ring buffer of the last LC_SAMPLES 8-bit readings; a force is the buffer average mapped
 * from ADC counts to force units, minus the tare, clamped to the force range.
 * The ADC readings (one per axis per read) are parameters.
 */
module LoadCell {
  import opened Config
  import opened Utils
  import opened Sampling

  datatype ForceVector = ForceVector(x: real, y: real, z: real)

  /** One ADC reading per axis. */
  datatype Raw = Raw(x: int, y: int, z: int)

  /** The value a `uint8_t` slot keeps of an `int` reading. */
  function ToByte(raw: int): (b: int)
    ensures 0 <= b < 256
    ensures 0 <= raw < 256 ==> b == raw
    ensures (b - raw) % 256 == 0
  {
    raw % 256
  }

  /** Sum of a buffer, first slot first as the averaging loop adds them. */
  function Sum(s: seq<int>): int
    decreases |s|
  {
    if |s| == 0 then 0 else Sum(s[..|s| - 1]) + s[|s| - 1]
  }

  predicate Bytes(s: seq<int>) {
    forall i :: 0 <= i < |s| ==> 0 <= s[i] < 256
  }

  lemma {:induction false} SumOfBytes(s: seq<int>)
    requires Bytes(s)
    ensures 0 <= Sum(s) <= 255 * |s|
    decreases |s|
  {
    if |s| > 0 {
      SumOfBytes(s[..|s| - 1]);
    }
  }

  lemma {:induction false} SumOfConstant(s: seq<int>, m: int)
    requires forall i :: 0 <= i < |s| ==> s[i] == m
    ensures Sum(s) == m * |s|
    decreases |s|
  {
    if |s| > 0 {
      SumOfConstant(s[..|s| - 1], m);
    }
  }

  /**
   * Mean over all LC_SAMPLES slots, zero-initialised slots included: LC_SAMPLES times the
   * mean is the buffer's sum, and a full byte buffer averages within one byte.
   */
  function Average(buffer: seq<int>): (avg: real)
    ensures avg * LcSamples as real == Sum(buffer) as real
    ensures |buffer| == LcSamples && Bytes(buffer) ==> 0.0 <= avg <= 255.0
  {
    if Bytes(buffer) then
      SumOfBytes(buffer);
      Sum(buffer) as real / LcSamples as real
    else
      Sum(buffer) as real / LcSamples as real
  }

  /**
   * Arduino `map` of a (truncated) average from ADC counts to force units: the ends of the
   * ADC range go to the ends of the force range, and counts in between land in between.
   */
  function CountsToForce(counts: int): (f: real)
    ensures counts == LoadCellMin ==> f == LoadCellMinForce as real
    ensures counts == LoadCellMax ==> f == LoadCellMaxForce as real
    ensures LoadCellMin <= counts <= LoadCellMax ==> LoadCellMinForce as real <= f <= LoadCellMaxForce as real
  {
    ArduinoMapAtMax(LoadCellMin, LoadCellMax, LoadCellMinForce, LoadCellMaxForce);
    if LoadCellMin <= counts <= LoadCellMax then
      ArduinoMapWithin(counts, LoadCellMin, LoadCellMax, LoadCellMinForce, LoadCellMaxForce);
      ArduinoMap(counts, LoadCellMin, LoadCellMax, LoadCellMinForce, LoadCellMaxForce) as real
    else
      ArduinoMap(counts, LoadCellMin, LoadCellMax, LoadCellMinForce, LoadCellMaxForce) as real
  }

  /** One axis of `readForce`. */
  function AxisForce(buffer: seq<int>, tare: real): (f: real)
    ensures LoadCellMinForce as real <= f <= LoadCellMaxForce as real
  {
    Clamp(CountsToForce(Average(buffer).Floor) - tare, LoadCellMinForce as real, LoadCellMaxForce as real)
  }

  /** One axis of `tare`: the smallest reading, mapped and clamped. */
  function AxisTare(readings: seq<int>): (t: real)
    requires |readings| > 0
    ensures LoadCellMinForce as real <= t <= LoadCellMaxForce as real
  {
    Clamp(CountsToForce(SeqMin(readings)), LoadCellMinForce as real, LoadCellMaxForce as real)
  }

  /**
   * An 8-bit buffer averages at most 255 counts, which maps to at most 124 force units:
   * a quarter of the force range can never be reached before the tare is subtracted.
   */
  lemma ByteAverageForceBound(buffer: seq<int>)
    requires |buffer| == LcSamples && Bytes(buffer)
    ensures 0.0 <= CountsToForce(Average(buffer).Floor) <= 124.0
  {
    SumOfBytes(buffer);
    var n := Average(buffer).Floor;
    assert 0 <= n <= 255;
    assert 0 <= n * 500 <= 127500;
  }

  /** Taring on a steady load and then reading that same load gives zero force. */
  lemma TareCancelsSteadyLoad(buffer: seq<int>, readings: seq<int>, m: int)
    requires |buffer| == LcSamples && 0 <= m < 256
    requires forall i :: 0 <= i < |buffer| ==> buffer[i] == m
    requires |readings| > 0 && forall i :: 0 <= i < |readings| ==> readings[i] == m
    ensures AxisForce(buffer, AxisTare(readings)) == 0.0
  {
    SumOfConstant(buffer, m);
    assert Average(buffer) == m as real;
    assert SeqMin(readings) == readings[0];
    ArduinoMapWithin(m, LoadCellMin, LoadCellMax, LoadCellMinForce, LoadCellMaxForce);
  }

  /** The fields a load cell's methods read and write, buffers as sequences. */
  datatype CellState = CellState(xs: seq<int>, ys: seq<int>, zs: seq<int>, index: nat, force: ForceVector, tare: ForceVector)

  /** Store one reading per axis at the current slot and advance the ring index. */
  function Sample(c: CellState, raw: Raw): (r: CellState)
    requires c.index < |c.xs| && c.index < |c.ys| && c.index < |c.zs|
    ensures |r.xs| == |c.xs| && |r.ys| == |c.ys| && |r.zs| == |c.zs|
    ensures r.index < LcSamples && r.index == (c.index + 1) % LcSamples
    ensures c.index + 1 < LcSamples ==> r.index == c.index + 1
    ensures c.index + 1 == LcSamples ==> r.index == 0
    ensures forall i :: 0 <= i < |c.xs| && i != c.index ==> r.xs[i] == c.xs[i]
    ensures forall i :: 0 <= i < |c.ys| && i != c.index ==> r.ys[i] == c.ys[i]
    ensures forall i :: 0 <= i < |c.zs| && i != c.index ==> r.zs[i] == c.zs[i]
    ensures r.xs[c.index] == ToByte(raw.x) && r.ys[c.index] == ToByte(raw.y) && r.zs[c.index] == ToByte(raw.z)
    ensures r.force == c.force && r.tare == c.tare
  {
    c.(xs := c.xs[c.index := ToByte(raw.x)], ys := c.ys[c.index := ToByte(raw.y)], zs := c.zs[c.index := ToByte(raw.z)],
       index := (c.index + 1) % LcSamples)
  }

  /** The force the current buffers and tare give. */
  function Measure(c: CellState): (f: ForceVector)
    ensures LoadCellMinForce as real <= f.x <= LoadCellMaxForce as real
    ensures LoadCellMinForce as real <= f.y <= LoadCellMaxForce as real
    ensures LoadCellMinForce as real <= f.z <= LoadCellMaxForce as real
  {
    ForceVector(AxisForce(c.xs, c.tare.x), AxisForce(c.ys, c.tare.y), AxisForce(c.zs, c.tare.z))
  }

  /** The averaging loop of `readForce`: one pass over the three buffers together. */
  method SumBuffers(xs: seq<int>, ys: seq<int>, zs: seq<int>) returns (sumX: int, sumY: int, sumZ: int)
    requires |xs| == LcSamples && |ys| == LcSamples && |zs| == LcSamples
    ensures sumX == Sum(xs) && sumY == Sum(ys) && sumZ == Sum(zs)
  {
    sumX, sumY, sumZ := 0, 0, 0;
    for i := 0 to LcSamples
      invariant sumX == Sum(xs[..i]) && sumY == Sum(ys[..i]) && sumZ == Sum(zs[..i])
    {
      assert xs[..i + 1][..i] == xs[..i];
      assert ys[..i + 1][..i] == ys[..i];
      assert zs[..i + 1][..i] == zs[..i];
      sumX, sumY, sumZ := sumX + xs[i], sumY + ys[i], sumZ + zs[i];
    }
    assert xs[..LcSamples] == xs && ys[..LcSamples] == ys && zs[..LcSamples] == zs;
  }

  class LoadCell3Axis {
    const xBuffer: array<int>
    const yBuffer: array<int>
    const zBuffer: array<int>
    var bufferIndex: nat
    var force: ForceVector
    var forceTare: ForceVector

    ghost predicate Valid()
      reads this, xBuffer, yBuffer, zBuffer
    {
      && xBuffer.Length == LcSamples && yBuffer.Length == LcSamples && zBuffer.Length == LcSamples
      && bufferIndex < LcSamples
      && Bytes(xBuffer[..]) && Bytes(yBuffer[..]) && Bytes(zBuffer[..])
    }

    function Snapshot(): CellState
      reads this, xBuffer, yBuffer, zBuffer
    {
      CellState(xBuffer[..], yBuffer[..], zBuffer[..], bufferIndex, force, forceTare)
    }

    constructor ()
      ensures Valid() && fresh(xBuffer) && fresh(yBuffer) && fresh(zBuffer)
      ensures xBuffer != yBuffer && yBuffer != zBuffer && xBuffer != zBuffer
      ensures Snapshot() == CellState(seq(LcSamples, _ => 0), seq(LcSamples, _ => 0), seq(LcSamples, _ => 0),
                                      0, ForceVector(0.0, 0.0, 0.0), ForceVector(0.0, 0.0, 0.0))
    {
      xBuffer := new int[LcSamples](_ => 0);
      yBuffer := new int[LcSamples](_ => 0);
      zBuffer := new int[LcSamples](_ => 0);
      bufferIndex := 0;
      force := ForceVector(0.0, 0.0, 0.0);
      forceTare := ForceVector(0.0, 0.0, 0.0);
    }

    /** Push one reading per axis into the ring buffers and return the averaged, tared force. */
    method ReadForce(raw: Raw) returns (f: ForceVector)
      requires Valid() && xBuffer != yBuffer && yBuffer != zBuffer && xBuffer != zBuffer
      modifies xBuffer, yBuffer, zBuffer, this`bufferIndex
      ensures Valid()
      ensures Snapshot() == Sample(old(Snapshot()), raw)
      ensures f == Measure(Snapshot())
    {
      xBuffer[bufferIndex] := ToByte(raw.x);
      yBuffer[bufferIndex] := ToByte(raw.y);
      zBuffer[bufferIndex] := ToByte(raw.z);
      bufferIndex := (bufferIndex + 1) % LcSamples;
      assert Snapshot() == Sample(old(Snapshot()), raw);
      assert Valid();

      var xs, ys, zs := xBuffer[..], yBuffer[..], zBuffer[..];
      var sumX, sumY, sumZ := SumBuffers(xs, ys, zs);
      var avgX := sumX as real / LcSamples as real;
      var avgY := sumY as real / LcSamples as real;
      var avgZ := sumZ as real / LcSamples as real;
      assert avgX == Average(xs) && avgY == Average(ys) && avgZ == Average(zs);

      var fx := CountsToForce(avgX.Floor) - forceTare.x;
      var fy := CountsToForce(avgY.Floor) - forceTare.y;
      var fz := CountsToForce(avgZ.Floor) - forceTare.z;
      f := ForceVector(
        Clamp(fx, LoadCellMinForce as real, LoadCellMaxForce as real),
        Clamp(fy, LoadCellMinForce as real, LoadCellMaxForce as real),
        Clamp(fz, LoadCellMinForce as real, LoadCellMaxForce as real));
    }

    /** Read once and keep the result as the current force. */
    method Update(raw: Raw)
      requires Valid() && xBuffer != yBuffer && yBuffer != zBuffer && xBuffer != zBuffer
      modifies xBuffer, yBuffer, zBuffer, this`bufferIndex, this`force
      ensures Valid()
      ensures Snapshot() == Sample(old(Snapshot()), raw).(force := Measure(Sample(old(Snapshot()), raw)))
    {
      var f := ReadForce(raw);
      force := f;
    }

    method GetForce() returns (f: ForceVector)
      ensures f == force
    {
      f := force;
    }

    /**
     * Keep the per-axis minimum of the readings taken during TARE_DELAY (the first triple
     * read before the timed loop, then one triple per pass) and store it mapped and clamped.
     */
    method Tare(xs: seq<int>, ys: seq<int>, zs: seq<int>)
      requires |xs| > 0 && |ys| == |xs| && |zs| == |xs|
      modifies this`forceTare
      ensures forceTare == ForceVector(AxisTare(xs), AxisTare(ys), AxisTare(zs))
    {
      var rawX, rawY, rawZ := xs[0], ys[0], zs[0];
      var i := 1;
      while i < |xs|
        invariant 1 <= i <= |xs|
        invariant exists j :: 0 <= j < i && xs[j] == rawX
        invariant exists j :: 0 <= j < i && ys[j] == rawY
        invariant exists j :: 0 <= j < i && zs[j] == rawZ
        invariant forall j :: 0 <= j < i ==> rawX <= xs[j] && rawY <= ys[j] && rawZ <= zs[j]
      {
        rawX := if xs[i] < rawX then xs[i] else rawX;
        rawY := if ys[i] < rawY then ys[i] else rawY;
        rawZ := if zs[i] < rawZ then zs[i] else rawZ;
        i := i + 1;
      }
      forceTare := ForceVector(
        Clamp(CountsToForce(rawX), LoadCellMinForce as real, LoadCellMaxForce as real),
        Clamp(CountsToForce(rawY), LoadCellMinForce as real, LoadCellMaxForce as real),
        Clamp(CountsToForce(rawZ), LoadCellMinForce as real, LoadCellMaxForce as real));
    }
  }
}
