/** The older copy of the physics at the top of jars_gui.py. Its value classes have the same
    fields as those of model.py, so the same datatypes stand for both; each function here is
    written from the snapshot's own code and proved equal to its model.py counterpart. The
    snapshot's jamming rule takes only the J/S ratio and the threshold. */
module GuiSnapshot {
  import opened ExtReal
  import opened PyMath
  import LinkModel

  function DistanceTo(a: LinkModel.Position, b: LinkModel.Position, sqrt: SqrtFn): (d: real)
    ensures d == a.DistanceTo(b, sqrt)
  {
    var dx, dy, dz := a.x - b.x, a.y - b.y, a.z - b.z;
    sqrt(LinkModel.Square(dx) + LinkModel.Square(dy) + LinkModel.Square(dz))
  }

  function FsplDb(distanceKm: real, frequencyMhz: real, log10: real -> real): (loss: Ext)
    ensures loss == LinkModel.FsplDb(distanceKm, frequencyMhz, log10)
  {
    if distanceKm <= 0.0 || frequencyMhz <= 0.0 then PosInf
    else Fin(20.0 * log10(distanceKm) + 20.0 * log10(frequencyMhz) + 32.44)
  }

  function ReceivedPowerDbm(tx: LinkModel.RadioSource, rxPos: LinkModel.Position, math: MathLib): (p: Ext)
    ensures p == LinkModel.ReceivedPowerDbm(tx, rxPos, math)
  {
    var distanceKm := DistanceTo(tx.position, rxPos, math.sqrt) / 1000.0;
    Minus(Fin(tx.powerDbm), FsplDb(distanceKm, tx.frequencyMhz, math.log10))
  }

  function JsRatioDb(jammer: LinkModel.RadioSource, transmitter: LinkModel.RadioSource,
                     receiver: LinkModel.Receiver, math: MathLib): (js: Ext)
    ensures js == LinkModel.JsRatioDb(jammer, transmitter, receiver, math)
  {
    var jRecv := ReceivedPowerDbm(jammer, receiver.position, math);
    var sRecv := ReceivedPowerDbm(transmitter, receiver.position, math);
    Minus(jRecv, sRecv)
  }

  /** The two-argument rule: jamming succeeds when the J/S ratio strictly exceeds the
      threshold, whether or not the signal could be received at all. */
  function IsJammingSuccessful(jsDb: Ext, thresholdDb: Ext): (jammed: bool)
    ensures jammed ==> !jsDb.NaN? && !thresholdDb.NaN? && !jsDb.NegInf? && !thresholdDb.PosInf?
    ensures jsDb.Fin? && thresholdDb.Fin? ==> (jammed <==> jsDb.value > thresholdDb.value)
  {
    Greater(jsDb, thresholdDb)
  }

  /** The newer four-argument rule is the snapshot's rule behind a detectability guard. */
  lemma NewRuleAddsDetectabilityGuard(jsDb: Ext, thresholdDb: Ext, signalDbm: Ext, sensitivityDbm: Ext)
    ensures LinkModel.IsJammingSuccessful(jsDb, thresholdDb, signalDbm, sensitivityDbm)
            <==> !Less(signalDbm, sensitivityDbm) && IsJammingSuccessful(jsDb, thresholdDb)
    ensures !signalDbm.NaN? && !sensitivityDbm.NaN? ==>
      (LinkModel.IsJammingSuccessful(jsDb, thresholdDb, signalDbm, sensitivityDbm) <==>
       GreaterEq(signalDbm, sensitivityDbm) && IsJammingSuccessful(jsDb, thresholdDb))
    ensures LinkModel.IsJammingSuccessful(jsDb, thresholdDb, signalDbm, sensitivityDbm)
            ==> IsJammingSuccessful(jsDb, thresholdDb)
  {
  }

  /** The guard matters: with J/S 15 dB over a 10 dB threshold but a -90 dBm signal under a
      -80 dBm sensitivity, the snapshot reports jamming and the newer rule does not. */
  lemma SnapshotIgnoresDetectability()
    ensures IsJammingSuccessful(Fin(15.0), Fin(10.0))
    ensures !LinkModel.IsJammingSuccessful(Fin(15.0), Fin(10.0), Fin(-90.0), Fin(-80.0))
  {
  }

  /** With no usable link (the transmitter at the receiver, or a non-positive transmitter
      frequency) and a jammer that does reach the receiver, J/S is +inf: the snapshot reports
      jamming at every threshold, while model.py's rule reports none because the signal is
      undetectable. */
  lemma SnapshotCreditsJammingWithoutLink(jammer: LinkModel.RadioSource, tx: LinkModel.RadioSource,
                                          rx: LinkModel.Receiver, thresholdDb: real, math: MathLib)
    requires LinkModel.Degenerate(tx, rx.position) && !LinkModel.Degenerate(jammer, rx.position)
    ensures JsRatioDb(jammer, tx, rx, math).PosInf?
    ensures IsJammingSuccessful(JsRatioDb(jammer, tx, rx, math), Fin(thresholdDb))
    ensures !LinkModel.IsJammingSuccessful(JsRatioDb(jammer, tx, rx, math), Fin(thresholdDb),
                                           ReceivedPowerDbm(tx, rx.position, math), Fin(rx.sensitivityDbm))
  {
  }
}
