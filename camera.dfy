/** The frame classifier of src/lib/security/camera.ts. Object detection
    itself is not modelled: its predictions are an input. The canvas is
    the pixel buffer of one frame, and the brightness delta (floating-point
    luma) is an input too. */
module CameraFrames {
  import opened Common
  import opened SecurityTypes

  type Byte = x: int | 0 <= x < 256

  /** One detection: its class name and its confidence. */
  datatype Prediction = Prediction(kind: string, score: real)

  predicate IsPerson(p: Prediction) {
    p.kind == "person" && p.score >= 0.45
  }

  predicate IsDevice(p: Prediction) {
    (p.kind == "cell phone" || p.kind == "remote" || p.kind == "camera") && p.score >= 0.4
  }

  /** `filter(...).length` */
  function CountWhere(ps: seq<Prediction>, f: Prediction -> bool): (n: nat)
    ensures n <= |ps|
    ensures n == 0 <==> forall i :: 0 <= i < |ps| ==> !f(ps[i])
  {
    if ps == [] then 0
    else (if f(ps[0]) then 1 else 0) + CountWhere(ps[1..], f)
  }

  lemma {:induction false} CountWhereAppend(a: seq<Prediction>, b: seq<Prediction>, f: Prediction -> bool)
    ensures CountWhere(a + b, f) == CountWhere(a, f) + CountWhere(b, f)
    decreases |a|
  {
    if a == [] {
      assert a + b == b;
    } else {
      assert (a + b)[1..] == a[1..] + b;
      CountWhereAppend(a[1..], b, f);
    }
  }

  datatype Parsed = Parsed(personsDetected: nat, externalDeviceDetected: bool)

  /** `parsePredictions` */
  function ParsePredictions(ps: seq<Prediction>): (r: Parsed)
    ensures r.personsDetected <= |ps|
    ensures r.personsDetected == 0 <==> forall i :: 0 <= i < |ps| ==> !IsPerson(ps[i])
    ensures r.externalDeviceDetected <==> exists i :: 0 <= i < |ps| && IsDevice(ps[i])
  {
    Parsed(CountWhere(ps, IsPerson), CountWhere(ps, IsDevice) > 0)
  }

  /** Detections of two parts of a frame add up: the filter counts each
      prediction on its own. */
  lemma ParsePredictionsAppend(a: seq<Prediction>, b: seq<Prediction>)
    ensures ParsePredictions(a + b).personsDetected == ParsePredictions(a).personsDetected + ParsePredictions(b).personsDetected
    ensures ParsePredictions(a + b).externalDeviceDetected
            == (ParsePredictions(a).externalDeviceDetected || ParsePredictions(b).externalDeviceDetected)
  {
    CountWhereAppend(a, b, IsPerson);
    CountWhereAppend(a, b, IsDevice);
  }

  // ---------------------------------------------------------------------
  // Obstruction

  /** The loop of `computeObstructionScore` looks at every fourth byte; a
      quad is black when its red, green and blue bytes all exist and are
      below 10 (a missing byte compares as false). */
  predicate IsBlackAt(px: seq<Byte>, i: nat) {
    i + 2 < |px| && px[i] < 10 && px[i + 1] < 10 && px[i + 2] < 10
  }

  /** The number of quads the loop visits. */
  function QuadCount(len: nat): nat { (len + 3) / 4 }

  /** Black quads among the first `n` quads. */
  function BlackQuads(px: seq<Byte>, n: nat): (b: nat)
    ensures b <= n
  {
    if n == 0 then 0 else BlackQuads(px, n - 1) + (if IsBlackAt(px, 4 * (n - 1)) then 1 else 0)
  }

  /** A fully black frame counts every quad; a frame with no dark byte
      counts none. */
  lemma {:induction false} BlackQuadsExtremes(px: seq<Byte>, n: nat)
    requires 4 * n <= |px|
    ensures (forall i :: 0 <= i < |px| ==> px[i] < 10) ==> BlackQuads(px, n) == n
    ensures (forall i :: 0 <= i < |px| ==> px[i] >= 10) ==> BlackQuads(px, n) == 0
  {
    if n > 0 {
      BlackQuadsExtremes(px, n - 1);
    }
  }

  /** The counting loop of `computeObstructionScore`. */
  method CountBlackPixels(pixels: array<Byte>) returns (black: nat)
    ensures black == BlackQuads(pixels[..], QuadCount(pixels.Length))
    ensures black <= QuadCount(pixels.Length)
  {
    black := 0;
    var i := 0;
    while i < pixels.Length
      invariant i % 4 == 0
      invariant i == 0 || i - 4 < pixels.Length
      invariant black == BlackQuads(pixels[..], i / 4)
      decreases pixels.Length - i
    {
      if i + 2 < pixels.Length && pixels[i] < 10 && pixels[i + 1] < 10 && pixels[i + 2] < 10 {
        black := black + 1;
      }
      assert IsBlackAt(pixels[..], i) <==> (i + 2 < pixels.Length && pixels[i] < 10 && pixels[i + 1] < 10 && pixels[i + 2] < 10);
      assert (i + 4) / 4 - 1 == i / 4;
      i := i + 4;
    }
    assert i / 4 == QuadCount(pixels.Length);
  }

  /** `Number(coverage.toFixed(2))` in hundredths: the ratio `black/total`
      rounded half up to two decimals. */
  function Hundredths(black: nat, total: nat): (h: nat)
    requires 0 < total && black <= total
    ensures h <= 100
    ensures 2 * total * h <= 200 * black + total < 2 * total * (h + 1)
  {
    var d := 2 * total;
    var n := 200 * black + total;
    var h := n / d;
    assert d * h + n % d == n;
    HundredthsBound(d, h, black, total);
    h
  }

  lemma HundredthsBound(d: nat, h: nat, black: nat, total: nat)
    requires 0 < total && black <= total && d == 2 * total
    requires d * h <= 200 * black + total
    ensures h <= 100
  {
    assert d * h < d * 101;
  }

  /** `computeObstructionScore`. No canvas context scores 0; an empty frame
      makes `getImageData` throw, which is `None`; otherwise the share of
      black pixels, rounded, which lies in [0, 1]. The buffer holds four
      bytes per pixel. */
  method ComputeObstructionScore(hasContext: bool, width: nat, height: nat, pixels: array<Byte>) returns (score: Option<real>)
    requires pixels.Length == 4 * width * height
    ensures !hasContext ==> score == Some(0.0)
    ensures hasContext && (width == 0 || height == 0) ==> score.None?
    ensures hasContext && width > 0 && height > 0 ==>
      score == Some(Hundredths(BlackQuads(pixels[..], width * height), width * height) as real / 100.0)
    ensures score.Some? ==> 0.0 <= score.value <= 1.0
  {
    if !hasContext {
      return Some(0.0);
    }
    if width == 0 || height == 0 {
      return None;
    }
    var black := CountBlackPixels(pixels);
    assert QuadCount(pixels.Length) == width * height;
    var h := Hundredths(black, width * height);
    return Some(h as real / 100.0);
  }

  // ---------------------------------------------------------------------
  // The insight

  /** The liveness rule: 0.9 with a person in frame, else 0. */
  function LivenessScore(personsDetected: nat): real {
    if personsDetected > 0 then 0.9 else 0.0
  }

  /** `evaluateCameraFrame` once the detector, the obstruction score, the
      brightness delta, the frame id and the clock have answered. */
  function EvaluateCameraFrame(ps: seq<Prediction>, obstructionScore: real, brightnessDelta: real,
                               frameHash: string, now: int): (c: CameraInsight)
    ensures c.personsDetected == ParsePredictions(ps).personsDetected
    ensures c.externalDeviceDetected == ParsePredictions(ps).externalDeviceDetected
    ensures c.livenessScore == 0.9 <==> exists i :: 0 <= i < |ps| && IsPerson(ps[i])
    ensures c.livenessScore == 0.0 <==> forall i :: 0 <= i < |ps| ==> !IsPerson(ps[i])
    ensures c.obstructionScore == obstructionScore && c.brightnessDelta == brightnessDelta
    ensures c.frameHash == frameHash && c.updatedAt == now
  {
    var parsed := ParsePredictions(ps);
    CameraInsight(frameHash, obstructionScore, parsed.personsDetected, parsed.externalDeviceDetected,
                  LivenessScore(parsed.personsDetected), brightnessDelta, now)
  }
}
