# JARS jammer-versus-link decision engine, in Dafny

This project models the core of JARS, a tool that estimates whether a radio jammer can
disrupt a link between a transmitter and a receiver. The model covers:

- 3D positions and their Euclidean distance;
- free-space path loss (FSPL), with its `+inf` sentinel for a distance or frequency that is
  not positive;
- received power in dBm;
- the jammer-to-signal (J/S) ratio;
- the two verdicts, "communication successful" and "jamming successful";
- the Monte Carlo loop that evaluates J/S once per pre-drawn jammer sample;
- the stateless controller that builds entities and returns a four-field result record;
- the older copy of the same physics at the top of the GUI script.

Python floats are modelled by `ExtReal.Ext = Fin(real) | PosInf | NegInf | NaN`.
Subtraction follows IEEE 754, so `-inf - -inf` is NaN, and every comparison involving NaN is
false. User inputs (power, frequency, coordinates, sensitivity, threshold) are finite reals.
Computed quantities (path loss, received power, J/S) are `Ext`.

`math.sqrt` and `math.log10` are passed in as a `PyMath.MathLib` value. `sqrt` has the
subset type `SqrtFn`, which carries only two laws: `sqrt(0) = 0`, and `sqrt(x) > 0` for
`x > 0`. `log10` is an arbitrary `real -> real`.

Modules:
- `ExtReal` (ext_real.dfy): float values.
- `PyMath` (py_math.dfy): the math functions.
- `LinkModel` (link_model.dfy): the pure part of model.py.
- `MonteCarlo` (monte_carlo.dfy): `MonteCarloModel` from model.py.
- `Controller` (controller.dfy): controller.py.
- `GuiSnapshot` (gui_snapshot.dfy): jars_gui.py lines 8-51.

Two facts about the code shape the Monte Carlo part:
- `N` is a `nat`. `MonteCarloModel.__init__` (model.py:177-230) checks nothing about it, so
  `N = 0` gives an empty series `[]`.
- `run_simulation` (model.py:232-256) returns only the J/S samples; it computes no summary
  statistics.

## Model

| member | source | states |
|---|---|---|
| `ExtReal.Minus` | model.py:125-127 | Float subtraction as IEEE defines it. The result is finite iff both operands are. It is NaN iff an operand is NaN or the operands are the same infinity. The cases that give +inf and -inf are stated. |
| `ExtReal.Less` | model.py:145 | Python's float `<`: on finite values it is the real order, -inf is below every other non-NaN value, +inf is above every other non-NaN value, and it is false whenever NaN is involved. |
| `ExtReal.LessEq` | model.py:147 | Float `<=`, the form in which the NaN-free statement of `IsCommunicationSuccessful` writes `not (js > threshold)` and through which `GreaterEq` is defined: the real order on finite values; -inf is `<=` every non-NaN value and only -inf is `<=` -inf; every non-NaN value is `<=` +inf and +inf is `<=` only +inf; false whenever NaN is involved. |
| `ExtReal.Greater` | model.py:147 | Python's float `>` (as at model.py:147 and 169, controller.py:30, jars_gui.py:51): the real order on finite values; +inf is above every finite value and -inf; every finite value and +inf is above -inf; -inf on the left or +inf on the right is never greater; never true for equal values or with NaN. |
| `ExtReal.GreaterEq` | controller.py:30 | Python's float `>=`: the real order on finite values; +inf is `>=` every non-NaN value and only +inf is `>=` +inf; every non-NaN value is `>=` -inf and -inf is `>=` only -inf; false whenever NaN is involved. |
| `ExtReal.LessIsStrictOrder` | model.py:145 | Float `<` is irreflexive and transitive. |
| `ExtReal.OrderWithoutNaN` | model.py:145-147 | Without NaN, `>=` is the negation of `<` and `>` is the negation of `<=`. |
| `ExtReal.NaNIsUnordered` | model.py:145-147 | With NaN on either side, all four comparisons are false. |
| `LinkModel.Position.DistanceTo` | model.py:26-40 | The distance is never negative. It is 0 exactly when the two positions have equal coordinates. |
| `LinkModel.DistanceSymmetric` | model.py:36-40 | `a.distance_to(b) == b.distance_to(a)`. |
| `LinkModel.FsplDb` | model.py:78-94 | The loss is `+inf` exactly when distance ≤ 0 or frequency ≤ 0. Otherwise it is the finite value `20·log10(d) + 20·log10(f) + 32.44`, so it is never `-inf` or NaN. |
| `LinkModel.ReceivedPowerDbm` | model.py:97-109 | The received power is never NaN or +inf. It is `-inf` exactly when the source sits at the point or its frequency is ≤ 0. Otherwise it equals transmit power minus the FSPL formula at distance/1000 km. |
| `LinkModel.JsRatioDb` | model.py:112-127 | J/S is jammer power minus signal power, both at the receiver, when both are finite. It is `-inf` when only the jammer is degenerate, `+inf` when only the transmitter is, and NaN when both are. |
| `LinkModel.IsCommunicationSuccessful` | model.py:130-149 | True iff not `signal < sensitivity` and not `js > threshold`. Without NaN this is `signal >= sensitivity && js <= threshold`, inclusive on both bounds. |
| `LinkModel.IsJammingSuccessful` | model.py:152-169 | True iff not `signal < sensitivity` and `js > threshold`, strictly. Without NaN in the powers this is `signal >= sensitivity && js > threshold`. |
| `LinkModel.VerdictsComplementary` | model.py:145-169 | With a detectable signal, exactly one verdict holds, NaN J/S included. With an undetectable signal, neither holds. |
| `LinkModel.DecisionBoundaries` | test/test_model.py:105-129 | At the boundaries: signal equal to sensitivity is detectable; J/S equal to the threshold leaves communication up and jamming unsuccessful; J/S above the threshold flips both verdicts; a signal below sensitivity makes both false. |
| `MonteCarlo.SampledJammer` | model.py:241-249 | The jammer built for one run has that run's power sample and the fixed jammer frequency, and sits at the run's (x, y, z) samples. |
| `MonteCarlo.JsSeries` | model.py:239-256 | The series has one entry per sample. Entry i is the J/S ratio for a jammer built from the i-th power/x/y/z samples at the fixed jammer frequency. |
| `MonteCarlo.JsSeriesConcat` | model.py:240-255 | Samples are independent. The series of two concatenated batches is the concatenation of their series. |
| `MonteCarlo.JsSeriesFiniteUnlessAtReceiver` | model.py:240-255 | Take a usable transmitter and a positive jammer frequency. Then an entry is finite iff its jammer sample is away from the receiver; otherwise it is `-inf`. |
| `MonteCarlo.MonteCarloModel.constructor` | model.py:177-230 | Stores N, the transmitter and receiver built from their parameters, the four sample sequences (each of length N) and the jammer frequency. |
| `MonteCarlo.MonteCarloModel.RunSimulation` | model.py:232-256 | Returns N values equal to `JsSeries` of the stored samples. It modifies nothing, so the transmitter, receiver and samples are unchanged. |
| `Controller.CreateRadioSource` | controller.py:12-13 | The source has the given power and frequency and sits at (x, y, z). |
| `Controller.CreateReceiver` | controller.py:15-16 | The receiver has the given sensitivity and sits at (x, y, z). |
| `Controller.RunSimulation` | controller.py:18-43 | Both powers are `received_power_dbm` at the receiver. The inline difference equals `j_s_ratio_db`. `communication_success` holds iff the signal is `>=` sensitivity and J/S is not above the threshold. |
| `Controller.JammingSuccess` | controller.py:30 | The inline flag equals `is_jamming_successful` from model.py. With a detectable signal it is the negation of `communication_success`; otherwise both are false. |
| `Controller.InlineRuleDiffersOnlyOnNaN` | controller.py:30 | The inline `>=` test and the library's `not <` test disagree exactly when the signal or sensitivity is NaN and J/S exceeds the threshold. |
| `Controller.GetReceivedPowers` | controller.py:45-48 | Each power is `-inf` exactly when its source is degenerate at the receiver. |
| `Controller.ReceivedPowersMatchSimulation` | controller.py:45-48 | For every threshold, the pair equals `run_simulation`'s `tx_recv_dbm` and `jam_recv_dbm`. |
| `Controller.JammerAtReceiver` | controller.py:19-28 | Take a jammer at the receiver and a usable transmitter. Then J/S is `-inf`, the signal is finite, and communication succeeds iff the signal meets the sensitivity. |
| `Controller.TransmitterAtReceiver` | controller.py:19-30 | With the transmitter at the receiver, the signal is `-inf`. Communication fails and jamming is not credited. |
| `GuiSnapshot.DistanceTo` | jars_gui.py:15-17 | Equals model.py's distance, so it is symmetric, non-negative and zero exactly for coincident points. |
| `GuiSnapshot.FsplDb` | jars_gui.py:32-36 | Equals model.py's FSPL, so it is `+inf` iff distance ≤ 0 or frequency ≤ 0, and otherwise the log formula. |
| `GuiSnapshot.ReceivedPowerDbm` | jars_gui.py:38-41 | Equals model.py's received power: power minus FSPL at distance/1000 km. |
| `GuiSnapshot.JsRatioDb` | jars_gui.py:43-47 | Equals model.py's J/S ratio: jammer power minus signal power at the receiver. |
| `GuiSnapshot.IsJammingSuccessful` | jars_gui.py:49-51 | True only for comparable, non-NaN values. On finite values it is `js > threshold`, strictly. |
| `GuiSnapshot.NewRuleAddsDetectabilityGuard` | jars_gui.py:49-51 | model.py's four-argument rule is this two-argument rule behind the detectability guard: `not signal < sensitivity`, which is `signal >= sensitivity` without NaN. The newer rule therefore implies the older one. |
| `GuiSnapshot.SnapshotIgnoresDetectability` | jars_gui.py:49-51 | A concrete case where the two rules differ. J/S is 15 dB against a 10 dB threshold, and the signal is -90 dBm against a -80 dBm sensitivity. The older rule reports jamming and the newer one does not. |
| `GuiSnapshot.SnapshotCreditsJammingWithoutLink` | jars_gui.py:43-51 | For every threshold: with the transmitter at the receiver (or a non-positive transmitter frequency) and a jammer that reaches the receiver, J/S is +inf, the snapshot's rule reports jamming, and model.py's rule (model.py:167-168) does not, since the signal is undetectable. |

## Left out

- view.py and jars_gui.py from line 53 on: widgets, plotting, GUI callbacks and global tk
  variables.
- The console output in controller.py (lines 32-36).
- `run_monte_carlo`: view.py:211-236 calls `controller.run_monte_carlo` and reads the
  `mean_js`, `percentile_50` and `percentile_90` keys of its result. controller.py defines no
  such method, so there is nothing to model.
- Random sampling (`rvs(size=N)`): the four sample arrays are caller-supplied sequences of
  length N. The distributions, seeding and independence of the draws are not modelled.
- `MonteCarlo.MonteCarloModel.constructor`: its parameters are the dictionary entries it
  reads, passed as separate arguments.
- `LinkModel.Position.DistanceTo`: does not model the numerics of `sqrt`. The result is
  `sqrt` of the sum of squares for any function obeying the two square-root laws, so
  distances such as 5 for (0,0,0)-(3,4,0) are not derived.
- `LinkModel.FsplDb`: does not model the numerics of `log10`. The finite value is stated in
  terms of an arbitrary `log10`, so the regression figures (about 52.44 dB and 26.02 dB) and
  the 1e-9 tolerances are not derived.
- Float rounding, overflow and underflow: finite values are exact reals, and finite sums never
  overflow to infinity. In the code, `(self.x - other.x) ** 2` (model.py:37-39) raises
  `OverflowError` once a coordinate difference exceeds about 1.3e154, and it underflows to 0.0
  for differences below about 1.5e-162. Two distinct points that close get distance 0, so
  their received power is `-inf`. `LinkModel.ReceivedPowerDbm`'s "`-inf` exactly when the
  source sits at the point" therefore holds only in exact arithmetic.
- Non-finite user inputs: power, frequency, coordinates, sensitivity and threshold are finite
  reals, so a received power is never NaN. The decision rules still take any float.
- `float(...)` coercions in the constructors are treated as the identity.
- A negative `N`, which makes the sampler raise, is excluded by `N: nat`.
- Monotonicity of received power in distance or frequency: the code does not state it.
