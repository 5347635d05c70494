/** The Monte Carlo engine of model.py: a fixed transmitter and receiver, N pre-drawn
    samples of the jammer's power and coordinates, and a loop that evaluates the J/S ratio
    once per sample. The draws come from outside (the distributions are not modelled). */
module MonteCarlo {
  import opened ExtReal
  import opened PyMath
  import opened LinkModel

  /** The jammer the loop builds for one sample. */
  function SampledJammer(powerDbm: real, frequencyMhz: real, x: real, y: real, z: real): (j: RadioSource)
    ensures j.powerDbm == powerDbm && j.frequencyMhz == frequencyMhz
    ensures j.position == Position(x, y, z)
  {
    RadioSource(powerDbm, frequencyMhz, Position(x, y, z))
  }

  /** The J/S ratios for a series of jammer samples, one per sample, in sample order. */
  function JsSeries(tx: RadioSource, rx: Receiver, jammerFreq: real,
                    powers: seq<real>, xs: seq<real>, ys: seq<real>, zs: seq<real>, math: MathLib): (js: seq<Ext>)
    requires |xs| == |powers| && |ys| == |powers| && |zs| == |powers|
    ensures |js| == |powers|
    ensures forall i :: 0 <= i < |powers| ==>
      js[i] == JsRatioDb(SampledJammer(powers[i], jammerFreq, xs[i], ys[i], zs[i]), tx, rx, math)
    decreases |powers|
  {
    if |powers| == 0 then []
    else
      var n := |powers| - 1;
      JsSeries(tx, rx, jammerFreq, powers[..n], xs[..n], ys[..n], zs[..n], math)
        + [JsRatioDb(SampledJammer(powers[n], jammerFreq, xs[n], ys[n], zs[n]), tx, rx, math)]
  }

  /** No sample depends on another: evaluating two batches separately and concatenating the
      results gives the series of the concatenated batches. */
  lemma JsSeriesConcat(tx: RadioSource, rx: Receiver, jammerFreq: real,
                       p1: seq<real>, x1: seq<real>, y1: seq<real>, z1: seq<real>,
                       p2: seq<real>, x2: seq<real>, y2: seq<real>, z2: seq<real>, math: MathLib)
    requires |x1| == |p1| && |y1| == |p1| && |z1| == |p1|
    requires |x2| == |p2| && |y2| == |p2| && |z2| == |p2|
    ensures JsSeries(tx, rx, jammerFreq, p1 + p2, x1 + x2, y1 + y2, z1 + z2, math)
            == JsSeries(tx, rx, jammerFreq, p1, x1, y1, z1, math) + JsSeries(tx, rx, jammerFreq, p2, x2, y2, z2, math)
  {
  }

  /** With a usable transmitter and a positive jammer frequency, an entry is finite exactly
      when its jammer sample is away from the receiver; otherwise it is -inf. So the series is
      all finite when no sample lands on the receiver. */
  lemma JsSeriesFiniteUnlessAtReceiver(tx: RadioSource, rx: Receiver, jammerFreq: real,
                                       powers: seq<real>, xs: seq<real>, ys: seq<real>, zs: seq<real>, math: MathLib)
    requires |xs| == |powers| && |ys| == |powers| && |zs| == |powers|
    requires !Degenerate(tx, rx.position) && jammerFreq > 0.0
    ensures forall i :: 0 <= i < |powers| ==>
      var js := JsSeries(tx, rx, jammerFreq, powers, xs, ys, zs, math)[i];
      (js.Fin? <==> Position(xs[i], ys[i], zs[i]) != rx.position) && (!js.Fin? ==> js.NegInf?)
  {
  }

  /** One Monte Carlo set-up. The fields hold what `MonteCarloModel.__init__` in model.py stores: N, the
      fixed transmitter and receiver, the four sample arrays and the jammer frequency. */
  class MonteCarloModel {
    var N: nat
    var transmitter: RadioSource
    var receiver: Receiver
    var jamPowerSamples: seq<real>
    var jamXSamples: seq<real>
    var jamYSamples: seq<real>
    var jamZSamples: seq<real>
    var jammerFreq: real

    /** Each sample array holds N draws. */
    ghost predicate Valid()
      reads this
    {
      |jamPowerSamples| == N && |jamXSamples| == N && |jamYSamples| == N && |jamZSamples| == N
    }

    /** `powerDraws` .. `zDraws` are the N values drawn from the caller's distributions. */
    constructor (txPowerDbm: real, txFreqMhz: real, txPos: Position,
                 rxSensitivityDbm: real, rxPos: Position,
                 powerDraws: seq<real>, xDraws: seq<real>, yDraws: seq<real>, zDraws: seq<real>,
                 jammerFreqMhz: real, N: nat)
      requires |powerDraws| == N && |xDraws| == N && |yDraws| == N && |zDraws| == N
      ensures Valid()
      ensures this.N == N
      ensures transmitter == RadioSource(txPowerDbm, txFreqMhz, txPos)
      ensures receiver == Receiver(rxSensitivityDbm, rxPos)
      ensures jamPowerSamples == powerDraws && jamXSamples == xDraws
      ensures jamYSamples == yDraws && jamZSamples == zDraws
      ensures jammerFreq == jammerFreqMhz
    {
      this.N := N;
      transmitter := RadioSource(txPowerDbm, txFreqMhz, txPos);
      receiver := Receiver(rxSensitivityDbm, rxPos);
      jamPowerSamples := powerDraws;
      jamXSamples := xDraws;
      jamYSamples := yDraws;
      jamZSamples := zDraws;
      jammerFreq := jammerFreqMhz;
    }

    /** The series of J/S ratios, one per sample, each for a jammer rebuilt from the i-th
        power and coordinate samples at the fixed jammer frequency. Nothing is modified. */
    method RunSimulation(math: MathLib) returns (results: seq<Ext>)
      requires Valid()
      ensures |results| == N
      ensures results == JsSeries(transmitter, receiver, jammerFreq,
                                  jamPowerSamples, jamXSamples, jamYSamples, jamZSamples, math)
    {
      results := [];
      for i := 0 to N
        invariant results == JsSeries(transmitter, receiver, jammerFreq,
                                      jamPowerSamples[..i], jamXSamples[..i], jamYSamples[..i], jamZSamples[..i], math)
      {
        var jammerForRun := SampledJammer(jamPowerSamples[i], jammerFreq, jamXSamples[i], jamYSamples[i], jamZSamples[i]);
        var jsRun := JsRatioDb(jammerForRun, transmitter, receiver, math);
        results := results + [jsRun];
        assert jamPowerSamples[..i + 1][..i] == jamPowerSamples[..i];
        assert jamXSamples[..i + 1][..i] == jamXSamples[..i];
        assert jamYSamples[..i + 1][..i] == jamYSamples[..i];
        assert jamZSamples[..i + 1][..i] == jamZSamples[..i];
      }
      assert jamPowerSamples[..N] == jamPowerSamples && jamXSamples[..N] == jamXSamples;
      assert jamYSamples[..N] == jamYSamples && jamZSamples[..N] == jamZSamples;
    }
  }
}
