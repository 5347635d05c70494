/** controller.py: a stateless controller that builds the scenario entities, evaluates one
    scenario into a four-field result record, and gives the two received powers on their own.
    Console output is not modelled. */
module Controller {
  import opened ExtReal
  import opened PyMath
  import opened LinkModel

  function CreateRadioSource(power: real, freq: real, x: real, y: real, z: real): (source: RadioSource)
    ensures source.powerDbm == power && source.frequencyMhz == freq
    ensures source.position.x == x && source.position.y == y && source.position.z == z
  {
    RadioSource(power, freq, Position(x, y, z))
  }

  function CreateReceiver(sens: real, x: real, y: real, z: real): (receiver: Receiver)
    ensures receiver.sensitivityDbm == sens
    ensures receiver.position.x == x && receiver.position.y == y && receiver.position.z == z
  {
    Receiver(sens, Position(x, y, z))
  }

  /** The record `run_simulation` returns. */
  datatype SimulationResult = SimulationResult(jsDb: Ext, txRecvDbm: Ext, jamRecvDbm: Ext, communicationSuccess: bool)

  /** One scenario: both received powers at the receiver, their difference as the J/S
      ratio, and the communication verdict. */
  function RunSimulation(tx: RadioSource, jammer: RadioSource, rx: Receiver, jsThresholdDb: real, math: MathLib): (res: SimulationResult)
    ensures res.txRecvDbm == ReceivedPowerDbm(tx, rx.position, math)
    ensures res.jamRecvDbm == ReceivedPowerDbm(jammer, rx.position, math)
    ensures res.jsDb == JsRatioDb(jammer, tx, rx, math)
    ensures res.communicationSuccess <==>
      GreaterEq(res.txRecvDbm, Fin(rx.sensitivityDbm)) && !Greater(res.jsDb, Fin(jsThresholdDb))
  {
    var txToRxPowerDbm := ReceivedPowerDbm(tx, rx.position, math);
    var jamToRxPowerDbm := ReceivedPowerDbm(jammer, rx.position, math);
    var jsDb := Minus(jamToRxPowerDbm, txToRxPowerDbm);
    var communicationSuccess := IsCommunicationSuccessful(txToRxPowerDbm, Fin(rx.sensitivityDbm), jsDb, Fin(jsThresholdDb));
    SimulationResult(jsDb, txToRxPowerDbm, jamToRxPowerDbm, communicationSuccess)
  }

  /** The `jamming_success` flag that `run_simulation` computes inline (and does not return):
      it agrees with the library rule, and with a detectable signal it is the negation of the
      communication verdict. */
  function JammingSuccess(tx: RadioSource, jammer: RadioSource, rx: Receiver, jsThresholdDb: real, math: MathLib): (jammed: bool)
    ensures
      var res := RunSimulation(tx, jammer, rx, jsThresholdDb, math);
      && (jammed == IsJammingSuccessful(res.jsDb, Fin(jsThresholdDb), res.txRecvDbm, Fin(rx.sensitivityDbm)))
      && (GreaterEq(res.txRecvDbm, Fin(rx.sensitivityDbm)) ==> (jammed <==> !res.communicationSuccess))
      && (!GreaterEq(res.txRecvDbm, Fin(rx.sensitivityDbm)) ==> !jammed && !res.communicationSuccess)
  {
    var txToRxPowerDbm := ReceivedPowerDbm(tx, rx.position, math);
    var jamToRxPowerDbm := ReceivedPowerDbm(jammer, rx.position, math);
    var jsDb := Minus(jamToRxPowerDbm, txToRxPowerDbm);
    GreaterEq(txToRxPowerDbm, Fin(rx.sensitivityDbm)) && Greater(jsDb, Fin(jsThresholdDb))
  }

  /** On bare values the inline test `signal >= sensitivity and js > threshold` and the
      library rule (`not signal < sensitivity`, then `js > threshold`) part ways exactly when
      the signal or the sensitivity is NaN and the J/S ratio exceeds the threshold. In a
      scenario the signal is never NaN (see ReceivedPowerDbm), so JammingSuccess agrees. */
  lemma InlineRuleDiffersOnlyOnNaN(jsDb: Ext, jsThresholdDb: Ext, signalDbm: Ext, sensitivityDbm: Ext)
    ensures (GreaterEq(signalDbm, sensitivityDbm) && Greater(jsDb, jsThresholdDb))
              != IsJammingSuccessful(jsDb, jsThresholdDb, signalDbm, sensitivityDbm)
            <==> (signalDbm.NaN? || sensitivityDbm.NaN?) && Greater(jsDb, jsThresholdDb)
  {
  }

  /** The two received powers, transmitter first. */
  function GetReceivedPowers(tx: RadioSource, jammer: RadioSource, rx: Receiver, math: MathLib): (powers: (Ext, Ext))
    ensures powers.0.NegInf? <==> Degenerate(tx, rx.position)
    ensures powers.1.NegInf? <==> Degenerate(jammer, rx.position)
  {
    (ReceivedPowerDbm(tx, rx.position, math), ReceivedPowerDbm(jammer, rx.position, math))
  }

  /** The accessor reports the same two powers as a full evaluation, whatever the threshold. */
  lemma ReceivedPowersMatchSimulation(tx: RadioSource, jammer: RadioSource, rx: Receiver, jsThresholdDb: real, math: MathLib)
    ensures var res := RunSimulation(tx, jammer, rx, jsThresholdDb, math);
      GetReceivedPowers(tx, jammer, rx, math) == (res.txRecvDbm, res.jamRecvDbm)
  {
  }

  /** A jammer at the receiver (and a usable transmitter) gives J/S = -inf, so the link then
      succeeds exactly when the signal meets the sensitivity. */
  lemma JammerAtReceiver(tx: RadioSource, jammer: RadioSource, rx: Receiver, jsThresholdDb: real, math: MathLib)
    requires jammer.position == rx.position && !Degenerate(tx, rx.position)
    ensures var res := RunSimulation(tx, jammer, rx, jsThresholdDb, math);
      && res.jsDb.NegInf?
      && res.txRecvDbm.Fin?
      && (res.communicationSuccess <==> res.txRecvDbm.value >= rx.sensitivityDbm)
  {
  }

  /** A transmitter at the receiver gives signal power -inf: communication fails and jamming
      is not credited, whatever the jammer does. */
  lemma TransmitterAtReceiver(tx: RadioSource, jammer: RadioSource, rx: Receiver, jsThresholdDb: real, math: MathLib)
    requires tx.position == rx.position
    ensures var res := RunSimulation(tx, jammer, rx, jsThresholdDb, math);
      && res.txRecvDbm.NegInf?
      && !res.communicationSuccess
      && !JammingSuccess(tx, jammer, rx, jsThresholdDb, math)
  {
  }
}
