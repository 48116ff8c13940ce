/**
 * The phone's activity recogniser (Presentation/mobileApp/public/main.js):
 * each accelerometer reading is reduced to its magnitude and pushed into a
 * buffer; once the buffer holds two readings, the difference of their
 * magnitudes is classified as still, walking or running, a payload is built
 * from the second reading, and the buffer is emptied.
 *
 * `Math.sqrt` is a parameter of type `SquareRoot`, which only promises a
 * non-negative result for a non-negative argument. Sensor callbacks, the page
 * and the HTTP upload of the payload are not part of this module.
 */
module Activity {
  import opened Wrappers

  /** `WALKING_TRESH`: the smallest difference that is not "still.". */
  const WalkingThreshold: real := 2.0
  /** `RUNNING_TRESH`: the smallest difference that is "running". */
  const RunningThreshold: real := 4.0

  /** The label the classifier starts from and always overwrites. */
  const NoActivityLabel: string := "no activity detected."

  /** A square root as `Math.sqrt` computes it: non-negative on non-negative arguments. */
  type SquareRoot = f: real -> real | forall r :: 0.0 <= r ==> 0.0 <= f(r)
    witness (r: real) => 0.0

  /** One accelerometer reading. */
  datatype Reading = Reading(x: real, y: real, z: real)

  /** A buffered reading: the three axes and their magnitude. */
  datatype Measured = Measured(x: real, y: real, z: real, magnitude: real)

  datatype Label = Still | Walking | Running

  /** What is uploaded after a classification. */
  datatype Payload = Payload(readings: seq<Measured>, x: real, y: real, z: real, activity: string)

  /** `computeTriAxialMagnitude`. */
  function Measure(r: Reading, sqrt: SquareRoot): (m: Measured)
    ensures m.x == r.x && m.y == r.y && m.z == r.z
    ensures 0.0 <= m.magnitude
  {
    Measured(r.x, r.y, r.z, sqrt(r.x * r.x + r.y * r.y + r.z * r.z))
  }

  /** The classification signal: the absolute difference of two magnitudes. */
  function Delta(first: Measured, second: Measured): (d: real)
    ensures 0.0 <= d
    ensures d == first.magnitude - second.magnitude || d == second.magnitude - first.magnitude
  {
    var t := first.magnitude - second.magnitude;
    if t < 0.0 then -t else t
  }

  /** The threshold rule of `evaluateActivity`. */
  function Classify(delta: real): Label {
    if delta < WalkingThreshold then Still
    else if delta >= WalkingThreshold && delta < RunningThreshold then Walking
    else Running
  }

  /** The text shown and uploaded for a label. */
  function LabelText(l: Label): string {
    match l
    case Still => "still."
    case Walking => "walking"
    case Running => "running"
  }

  /** Reads a label back from its text. */
  function ParseLabel(s: string): Option<Label> {
    if s == "still." then Some(Still)
    else if s == "walking" then Some(Walking)
    else if s == "running" then Some(Running)
    else None
  }

  /** Labels ordered by intensity. */
  function Rank(l: Label): nat {
    match l
    case Still => 0
    case Walking => 1
    case Running => 2
  }

  /** Each band of the difference, with 2 and 4 belonging to the band above. */
  lemma ClassifyBands(delta: real)
    ensures Classify(delta) == Still <==> delta < 2.0
    ensures Classify(delta) == Walking <==> 2.0 <= delta < 4.0
    ensures Classify(delta) == Running <==> 4.0 <= delta
  {
  }

  /** A larger difference never yields a calmer label. */
  lemma ClassifyMonotone(d1: real, d2: real)
    requires d1 <= d2
    ensures Rank(Classify(d1)) <= Rank(Classify(d2))
  {
  }

  /** The shown text is one of the three labels, never the placeholder, and reads back as its label. */
  lemma LabelTextRoundTrip(l: Label)
    ensures ParseLabel(LabelText(l)) == Some(l)
    ensures LabelText(l) != NoActivityLabel
  {
  }

  /** The signal does not depend on which reading came first. */
  lemma DeltaSymmetric(a: Measured, b: Measured)
    ensures Delta(a, b) == Delta(b, a)
  {
  }

  /** The buffer after an evaluation, and the payload uploaded by it, if any. */
  datatype Step = Step(buffer: seq<Measured>, posted: Option<Payload>)

  /** `evaluateActivity`. */
  function Evaluate(buffer: seq<Measured>): (s: Step)
    ensures |buffer| < 2 ==> s == Step(buffer, None)
    ensures |buffer| >= 2 ==>
              s.buffer == [] && s.posted.Some?
              && s.posted.value.readings == buffer
              && s.posted.value.x == buffer[1].x && s.posted.value.y == buffer[1].y && s.posted.value.z == buffer[1].z
              && ParseLabel(s.posted.value.activity) == Some(Classify(Delta(buffer[0], buffer[1])))
  {
    if |buffer| < 2 then Step(buffer, None)
    else
      var activity := LabelText(Classify(Delta(buffer[0], buffer[1])));
      LabelTextRoundTrip(Classify(Delta(buffer[0], buffer[1])));
      Step([], Some(Payload(buffer, buffer[1].x, buffer[1].y, buffer[1].z, activity)))
  }

  /** `handleSensorReading`: push the measured reading, then evaluate. */
  function HandleReading(buffer: seq<Measured>, r: Reading, sqrt: SquareRoot): (s: Step)
    ensures |buffer| == 0 ==> s == Step([Measure(r, sqrt)], None)
    ensures |buffer| == 1 ==>
              s.buffer == [] && s.posted.Some?
              && s.posted.value.readings == [buffer[0], Measure(r, sqrt)]
              && s.posted.value.x == r.x && s.posted.value.y == r.y && s.posted.value.z == r.z
  {
    Evaluate(buffer + [Measure(r, sqrt)])
  }

  /** Feeds readings one by one from an empty buffer; returns the final buffer and the uploads. */
  function Replay(readings: seq<Reading>, sqrt: SquareRoot): (seq<Measured>, seq<Payload>)
  {
    if |readings| == 0 then ([], [])
    else
      var (buffer, posted) := Replay(readings[..|readings| - 1], sqrt);
      var s := HandleReading(buffer, readings[|readings| - 1], sqrt);
      (s.buffer, posted + (if s.posted.Some? then [s.posted.value] else []))
  }

  /**
   * Upload `p` is the one built from readings `2k` and `2k+1`, carrying the
   * second one's axes and the label of their difference.
   */
  predicate PairedAt(p: Payload, readings: seq<Reading>, k: nat, sqrt: SquareRoot) {
    2 * k + 1 < |readings|
    && p.readings == [Measure(readings[2 * k], sqrt), Measure(readings[2 * k + 1], sqrt)]
    && p.x == readings[2 * k + 1].x && p.y == readings[2 * k + 1].y && p.z == readings[2 * k + 1].z
    && ParseLabel(p.activity) == Some(Classify(Delta(p.readings[0], p.readings[1])))
  }

  lemma PairedAtExtends(p: Payload, prefix: seq<Reading>, readings: seq<Reading>, k: nat, sqrt: SquareRoot)
    requires PairedAt(p, prefix, k, sqrt) && prefix <= readings
    ensures PairedAt(p, readings, k, sqrt)
  {
    assert readings[2 * k] == prefix[2 * k] && readings[2 * k + 1] == prefix[2 * k + 1];
  }

  /** The second reading of a pair uploads the pair. */
  lemma SecondReadingUploadsPair(readings: seq<Reading>, k: nat, buffer: seq<Measured>, sqrt: SquareRoot)
    requires |readings| == 2 * k + 2 && buffer == [Measure(readings[2 * k], sqrt)]
    ensures var s := HandleReading(buffer, readings[2 * k + 1], sqrt);
            s.buffer == [] && s.posted.Some? && PairedAt(s.posted.value, readings, k, sqrt)
  {
    var pair := buffer + [Measure(readings[2 * k + 1], sqrt)];
    assert HandleReading(buffer, readings[2 * k + 1], sqrt) == Evaluate(pair);
    assert pair[0] == Measure(readings[2 * k], sqrt) && pair[1] == Measure(readings[2 * k + 1], sqrt);
  }

  /**
   * Between events the buffer holds the unpaired last reading, if any, and
   * every second reading triggers exactly one upload: upload `k` is built
   * from readings `2k` and `2k+1` and carries the second one's axes.
   */
  lemma {:induction false} ReplayPairs(readings: seq<Reading>, sqrt: SquareRoot)
    ensures |Replay(readings, sqrt).0| == |readings| % 2
    ensures |readings| % 2 == 1 ==> Replay(readings, sqrt).0 == [Measure(readings[|readings| - 1], sqrt)]
    ensures |Replay(readings, sqrt).1| == |readings| / 2
    ensures forall k :: 0 <= k < |Replay(readings, sqrt).1| ==> PairedAt(Replay(readings, sqrt).1[k], readings, k, sqrt)
  {
    if |readings| > 0 {
      var n := |readings| - 1;
      var prefix := readings[..n];
      ReplayPairs(prefix, sqrt);
      var (buffer, posted) := Replay(prefix, sqrt);
      var s := HandleReading(buffer, readings[n], sqrt);
      var all := posted + (if s.posted.Some? then [s.posted.value] else []);
      assert Replay(readings, sqrt) == (s.buffer, all);
      forall k | 0 <= k < |posted|
        ensures PairedAt(all[k], readings, k, sqrt)
      {
        assert all[k] == posted[k];
        PairedAtExtends(posted[k], prefix, readings, k, sqrt);
      }
      if n % 2 == 0 {
        assert |readings| % 2 == 1 && |readings| / 2 == n / 2;
        assert buffer == [];
        assert s.buffer == [Measure(readings[n], sqrt)] && all == posted;
      } else {
        assert |readings| % 2 == 0 && |readings| / 2 == n / 2 + 1;
        assert buffer == [Measure(prefix[n - 1], sqrt)];
        assert prefix[n - 1] == readings[n - 1];
        SecondReadingUploadsPair(readings, |posted|, buffer, sqrt);
        assert all[|posted|] == s.posted.value;
      }
    }
  }
}
