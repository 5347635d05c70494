/** The deterministic physics and decision rules of model.py: positions and their distance,
    radio sources and receivers, free-space path loss, received power, the jammer-to-signal
    ratio, and the two verdicts built on them. */
module LinkModel {
  import opened ExtReal
  import opened PyMath

  /** A point in 3D space, coordinates in metres. */
  datatype Position = Position(x: real, y: real, z: real) {

    /** Euclidean distance to `other`. */
    function DistanceTo(other: Position, sqrt: SqrtFn): (d: real)
      ensures d >= 0.0
      ensures d == 0.0 <==> this == other
    {
      var dx, dy, dz := x - other.x, y - other.y, z - other.z;
      SquareSign(dx);
      SquareSign(dy);
      SquareSign(dz);
      sqrt(Square(dx) + Square(dy) + Square(dz))
    }
  }

  /** The product of two reals. This is a prover aid, not part of model.py: squares are
      written through it so that the sign facts below are proved once, for two independent
      factors, which the solver manages where it fails on `r * r` directly. */
  function Product(a: real, b: real): real {
    a * b
  }

  /** Python's `r ** 2`. */
  function Square(r: real): real {
    Product(r, r)
  }

  lemma ProductSign(a: real, b: real)
    ensures a > 0.0 && b > 0.0 ==> Product(a, b) > 0.0
    ensures a < 0.0 && b < 0.0 ==> Product(a, b) > 0.0
    ensures a == 0.0 ==> Product(a, b) == 0.0
  {
  }

  /** A square is never negative, and it is zero only for zero. */
  lemma SquareSign(r: real)
    ensures Square(r) >= 0.0
    ensures r != 0.0 ==> Square(r) > 0.0
    ensures r == 0.0 ==> Square(r) == 0.0
  {
    ProductSign(r, r);
  }

  lemma DistanceSymmetric(a: Position, b: Position, sqrt: SqrtFn)
    ensures a.DistanceTo(b, sqrt) == b.DistanceTo(a, sqrt)
  {
  }

  /** A transmitter or a jammer: the role comes from where it is used. */
  datatype RadioSource = RadioSource(powerDbm: real, frequencyMhz: real, position: Position)

  datatype Receiver = Receiver(sensitivityDbm: real, position: Position)

  /** Free-space path loss in dB; +inf is the sentinel for a distance or a frequency that is
      not positive. */
  function FsplDb(distanceKm: real, frequencyMhz: real, log10: real -> real): (loss: Ext)
    ensures loss.PosInf? <==> distanceKm <= 0.0 || frequencyMhz <= 0.0
    ensures !loss.PosInf? ==> loss == Fin(20.0 * log10(distanceKm) + 20.0 * log10(frequencyMhz) + 32.44)
  {
    if distanceKm <= 0.0 || frequencyMhz <= 0.0 then PosInf
    else Fin(20.0 * log10(distanceKm) + 20.0 * log10(frequencyMhz) + 32.44)
  }

  /** A source whose power never reaches `at` in this model: it sits at `at` (zero
      distance) or its frequency is not positive. Both make the path loss infinite. */
  predicate Degenerate(source: RadioSource, at: Position) {
    source.position == at || source.frequencyMhz <= 0.0
  }

  /** Received power in dBm at `rxPos`: transmit power minus the path loss over the
      distance converted from metres to kilometres. */
  function ReceivedPowerDbm(tx: RadioSource, rxPos: Position, math: MathLib): (p: Ext)
    ensures p.Fin? || p.NegInf?
    ensures p.NegInf? <==> Degenerate(tx, rxPos)
    ensures p.Fin? ==>
      var distanceKm := tx.position.DistanceTo(rxPos, math.sqrt) / 1000.0;
      p.value == tx.powerDbm - (20.0 * math.log10(distanceKm) + 20.0 * math.log10(tx.frequencyMhz) + 32.44)
  {
    var distanceKm := tx.position.DistanceTo(rxPos, math.sqrt) / 1000.0;
    Minus(Fin(tx.powerDbm), FsplDb(distanceKm, tx.frequencyMhz, math.log10))
  }

  /** The jammer-to-signal ratio in dB at the receiver: jammer power minus signal power,
      both received at the receiver's position. */
  function JsRatioDb(jammer: RadioSource, transmitter: RadioSource, receiver: Receiver, math: MathLib): (js: Ext)
    ensures js.Fin? <==> !Degenerate(jammer, receiver.position) && !Degenerate(transmitter, receiver.position)
    ensures js.Fin? ==>
      js.value == ReceivedPowerDbm(jammer, receiver.position, math).value
                  - ReceivedPowerDbm(transmitter, receiver.position, math).value
    ensures js.NegInf? <==> Degenerate(jammer, receiver.position) && !Degenerate(transmitter, receiver.position)
    ensures js.PosInf? <==> !Degenerate(jammer, receiver.position) && Degenerate(transmitter, receiver.position)
    ensures js.NaN? <==> Degenerate(jammer, receiver.position) && Degenerate(transmitter, receiver.position)
  {
    var jRecv := ReceivedPowerDbm(jammer, receiver.position, math);
    var sRecv := ReceivedPowerDbm(transmitter, receiver.position, math);
    Minus(jRecv, sRecv)
  }

  /** Communication succeeds when the signal is not below the sensitivity and the J/S ratio
      does not exceed the threshold. */
  function IsCommunicationSuccessful(signalDbm: Ext, sensitivityDbm: Ext, jsDb: Ext, jsThresholdDb: Ext): (ok: bool)
    ensures ok <==> !Less(signalDbm, sensitivityDbm) && !Greater(jsDb, jsThresholdDb)
    ensures !signalDbm.NaN? && !sensitivityDbm.NaN? && !jsDb.NaN? && !jsThresholdDb.NaN? ==>
      (ok <==> GreaterEq(signalDbm, sensitivityDbm) && LessEq(jsDb, jsThresholdDb))
  {
    if Less(signalDbm, sensitivityDbm) then false
    else if Greater(jsDb, jsThresholdDb) then false
    else true
  }

  /** Jamming succeeds when there was a detectable signal to disrupt and the J/S ratio
      strictly exceeds the threshold. */
  function IsJammingSuccessful(jsDb: Ext, jsThresholdDb: Ext, signalDbm: Ext, sensitivityDbm: Ext): (jammed: bool)
    ensures jammed <==> !Less(signalDbm, sensitivityDbm) && Greater(jsDb, jsThresholdDb)
    ensures !signalDbm.NaN? && !sensitivityDbm.NaN? ==>
      (jammed <==> GreaterEq(signalDbm, sensitivityDbm) && Greater(jsDb, jsThresholdDb))
  {
    if Less(signalDbm, sensitivityDbm) then false
    else Greater(jsDb, jsThresholdDb)
  }

  /** With a detectable signal exactly one of the two verdicts holds (whatever the J/S
      value, NaN included); with an undetectable one neither does. */
  lemma VerdictsComplementary(signalDbm: Ext, sensitivityDbm: Ext, jsDb: Ext, jsThresholdDb: Ext)
    ensures !Less(signalDbm, sensitivityDbm) ==>
      (IsCommunicationSuccessful(signalDbm, sensitivityDbm, jsDb, jsThresholdDb) <==>
       !IsJammingSuccessful(jsDb, jsThresholdDb, signalDbm, sensitivityDbm))
    ensures Less(signalDbm, sensitivityDbm) ==>
      !IsCommunicationSuccessful(signalDbm, sensitivityDbm, jsDb, jsThresholdDb)
      && !IsJammingSuccessful(jsDb, jsThresholdDb, signalDbm, sensitivityDbm)
  {
  }

  /** The boundary choices: sensitivity is an inclusive lower bound for both verdicts, and
      a J/S ratio equal to the threshold does not block communication. */
  lemma DecisionBoundaries(level: real, threshold: real, above: real)
    requires above > threshold
    ensures IsCommunicationSuccessful(Fin(level), Fin(level), Fin(threshold), Fin(threshold))
    ensures !IsJammingSuccessful(Fin(threshold), Fin(threshold), Fin(level), Fin(level))
    ensures !IsCommunicationSuccessful(Fin(level), Fin(level), Fin(above), Fin(threshold))
    ensures IsJammingSuccessful(Fin(above), Fin(threshold), Fin(level), Fin(level))
    ensures !IsCommunicationSuccessful(Fin(level - 1.0), Fin(level), Fin(threshold), Fin(threshold))
    ensures !IsJammingSuccessful(Fin(above), Fin(threshold), Fin(level - 1.0), Fin(level))
  {
  }
}
