/** The mean opinion score of a call: bounded, and never better for a worse connection. */
module Mos {
  import opened RtpSessions
  import opened Options

  function BaseR(codec: string): real {
    if codec in {"G711", "PCMA", "PCMU", "g711"} then 93.2
    else if codec in {"G729", "g729"} then 82.0
    else if codec in {"G722", "g722"} then 93.2
    else if codec in {"G723", "g723"} then 78.0
    else if codec in {"G726", "g726"} then 88.0
    else if codec in {"GSM", "gsm"} then 73.0
    else if codec in {"AMR", "amr"} then 80.0
    else if codec in {"Opus", "opus"} then 94.0
    else if codec in {"iLBC", "ilbc"} then 77.0
    else 93.2
  }

  function JitterPenalty(jitter: real): real {
    if jitter > 30.0 then (jitter - 30.0) * 0.1 else 0.0
  }

  function DelayPenalty(delay: Option<real>): real {
    if delay.Some? && delay.value > 150.0 then (delay.value - 150.0) * 0.05 else 0.0
  }

  /** The quality rating before it is clamped. */
  function Rating(loss: real, jitter: real, codec: string, delay: Option<real>): real {
    BaseR(codec) - loss * 1.5 - JitterPenalty(jitter) - DelayPenalty(delay)
  }

  function Cubic(r: real): real {
    1.0 + 0.035 * r + r * (r - 60.0) * (100.0 - r) * 0.000007
  }

  /** Cut to two decimals, toward zero. */
  function TwoDecimals(mos: real): real
    requires mos >= 0.0
  {
    (mos * 100.0).Floor as real / 100.0
  }

  function FromRating(r: real): real {
    var effective := if r < 0.0 then 0.0 else if r > 100.0 then 100.0 else r;
    if effective <= 0.0 then 1.0
    else if effective >= 100.0 then 4.5
    else
      var mos := Cubic(effective);
      if mos < 1.0 then 1.0
      else if mos > 4.5 then 4.5
      else TwoDecimals(mos)
  }

  function EstimateMos(loss: real, jitter: real, codec: string, delay: Option<real>): real {
    FromRating(Rating(loss, jitter, codec, delay))
  }

  /** The sign of the slope between two points of the cubic, without the small factor. */
  function Slope(a: real, b: real): real {
    160.0 * (a + b) - (a * a + a * b + b * b) - 1000.0
  }

  lemma Product(a: real, b: real)
    requires a >= 0.0 && b >= 0.0
    ensures a * b >= 0.0
  {}

  lemma CubicRises(a: real, b: real)
    ensures Cubic(b) - Cubic(a) == (b - a) * Slope(a, b) * 0.000007
  {}

  lemma CubicAboveOne(r: real)
    requires r > 0.0
    ensures Cubic(r) >= 1.0 <==> 160.0 * r - r * r - 1000.0 >= 0.0
  {
    var p := 160.0 * r - r * r - 1000.0;
    assert Cubic(r) - 1.0 == r * p * 0.000007;
    if p >= 0.0 {
      assert r * p >= 0.0;
    } else {
      assert r * p < 0.0;
    }
  }

  /** From where the cubic is above 1 it only rises, up to the end of the scale. */
  lemma SlopePositive(a: real, b: real)
    requires 0.0 < a <= b <= 100.0 && 160.0 * a - a * a - 1000.0 >= 0.0
    ensures Slope(a, b) >= 0.0
  {
    var p := 160.0 * a - a * a - 1000.0;
    assert Slope(a, b) == p + b * (160.0 - a - b);
    if a + b <= 160.0 {
      Product(b, 160.0 - a - b);
    } else {
      Product(b, 100.0 - b);
      Product(100.0 - b, a - 60.0);
      Product(100.0 - a, a + 40.0);
      assert Slope(a, b) == b * (100.0 - b) + (100.0 - b) * (a - 60.0) + (100.0 - a) * (a + 40.0) + 1000.0;
    }
  }

  lemma CubicMonotone(a: real, b: real)
    requires 0.0 < a <= b <= 100.0 && Cubic(a) >= 1.0
    ensures Cubic(a) <= Cubic(b) <= 4.5
  {
    CubicAboveOne(a);
    SlopePositive(a, b);
    CubicRises(a, b);
    Product(b - a, Slope(a, b));
    CubicAbove(a, b);
  }

  lemma CubicAbove(a: real, b: real)
    requires 0.0 < a <= b <= 100.0 && 160.0 * a - a * a - 1000.0 >= 0.0
    ensures Cubic(b) <= 4.5
  {
    var p, q := 160.0 * a - a * a - 1000.0, 160.0 * b - b * b - 1000.0;
    assert q - p == (b - a) * (160.0 - a - b);
    if a + b <= 160.0 {
      Product(b - a, 160.0 - a - b);
    } else {
      assert b > 60.0;
      assert q == (100.0 - b) * (b - 60.0) + 5000.0;
      Product(100.0 - b, b - 60.0);
    }
    SlopePositive(b, 100.0);
    CubicRises(b, 100.0);
    Product(100.0 - b, Slope(b, 100.0));
    assert Cubic(100.0) == 4.5;
  }

  lemma TwoDecimalsBetween(a: real, b: real)
    requires 1.0 <= a <= b <= 4.5
    ensures 1.0 <= TwoDecimals(a) <= TwoDecimals(b) <= 4.5
    ensures TwoDecimals(a) <= a < TwoDecimals(a) + 0.01
  {
    assert 100.0 <= a * 100.0 <= b * 100.0 <= 450.0;
  }

  /** The score never drops when the rating rises, and stays on its scale; the upper clamp of
      the cubic is never needed. */
  lemma RatingMonotone(r: real, s: real)
    requires r <= s
    ensures 1.0 <= FromRating(r) <= FromRating(s) <= 4.5
  {
    if 0.0 < r && s < 100.0 && Cubic(r) >= 1.0 {
      CubicMonotone(r, s);
      TwoDecimalsBetween(Cubic(r), Cubic(s));
    } else {
      InScale(r);
      InScale(s);
      if s >= 100.0 {
        assert FromRating(s) == 4.5;
      } else {
        assert FromRating(r) == 1.0;
      }
    }
  }

  lemma InScale(r: real)
    ensures 1.0 <= FromRating(r) <= 4.5
  {
    if 0.0 < r < 100.0 && Cubic(r) >= 1.0 {
      CubicMonotone(r, r);
      TwoDecimalsBetween(Cubic(r), Cubic(r));
    }
  }

  /** A delay that is not known costs nothing. */
  predicate NoShorter(a: Option<real>, b: Option<real>) {
    a.Some? ==> b.Some? && a.value <= b.value
  }

  /** For one codec: more loss, more jitter or more delay never gives a better score. */
  lemma WorseNeverScoresBetter(codec: string, loss: real, jitter: real, delay: Option<real>,
                               loss': real, jitter': real, delay': Option<real>)
    requires loss <= loss' && jitter <= jitter' && NoShorter(delay, delay')
    ensures 1.0 <= EstimateMos(loss', jitter', codec, delay') <= EstimateMos(loss, jitter, codec, delay) <= 4.5
  {
    assert JitterPenalty(jitter) <= JitterPenalty(jitter');
    assert DelayPenalty(delay) <= DelayPenalty(delay');
    RatingMonotone(Rating(loss', jitter', codec, delay'), Rating(loss, jitter, codec, delay));
  }

  /** Jitter up to 30 and a delay up to 150 milliseconds cost nothing, nor does one that is not
      known; beyond, what one percent of loss costs is what 15 milliseconds of jitter cost and
      what 30 of delay do. */
  lemma PenaltiesExchange(loss: real, jitter: real, codec: string, delay: real, other: Option<real>)
    ensures jitter <= 30.0 ==> EstimateMos(loss, jitter, codec, other) == EstimateMos(loss, 30.0, codec, other)
    ensures delay <= 150.0 ==> EstimateMos(loss, jitter, codec, Some(delay)) == EstimateMos(loss, jitter, codec, None)
                            == EstimateMos(loss, jitter, codec, Some(150.0))
    ensures jitter >= 30.0 ==> EstimateMos(loss + 1.0, jitter, codec, other) == EstimateMos(loss, jitter + 15.0, codec, other)
    ensures delay >= 150.0 ==> EstimateMos(loss + 1.0, jitter, codec, Some(delay)) == EstimateMos(loss, jitter, codec, Some(delay + 30.0))
  {}

  /** The scores of clean calls, codec by codec, as printed; and of one percent of loss. */
  lemma CleanScores(codec: string)
    ensures EstimateMos(0.0, 0.0, codec, None)
         == if codec in {"G729", "g729"} then 4.09
            else if codec in {"G723", "g723"} then 3.94
            else if codec in {"G726", "g726"} then 4.28
            else if codec in {"GSM", "gsm"} then 3.73
            else if codec in {"AMR", "amr"} then 4.02
            else if codec in {"Opus", "opus"} then 4.42
            else if codec in {"iLBC", "ilbc"} then 3.90
            else 4.40
    ensures EstimateMos(1.0, 0.0, "G711", None) == 4.37
  {
    assert FromRating(82.0) == 4.09 && FromRating(78.0) == 3.94 && FromRating(88.0) == 4.28;
    assert FromRating(73.0) == 3.73 && FromRating(80.0) == 4.02 && FromRating(94.0) == 4.42;
    assert FromRating(77.0) == 3.90 && FromRating(93.2) == 4.40 && FromRating(91.7) == 4.37;
  }

  function LossPercent(s: Session): real {
    if s.packets == 0 then 0.0
    else
      var percent := s.lost as real / s.packets as real * 100.0;
      if percent > 100.0 then 100.0 else percent
  }

  lemma LossPercentIs(s: Session)
    requires s.packets > 0
    ensures LossPercent(s) * s.packets as real == 100.0 * (if s.lost < s.packets then s.lost else s.packets) as real
  {
    var (x, n) := (s.lost as real / s.packets as real, s.packets as real);
    assert x * n == s.lost as real;
    if x < 1.0 {
      Strict(x, 1.0, n);
    } else if x > 1.0 {
      Strict(1.0, x, n);
    }
    assert x * 100.0 * n == 100.0 * s.lost as real;
  }

  /** The score a session is reported with. */
  function Score(s: Session): real {
    EstimateMos(LossPercent(s), s.interJitter, s.codec, None)
  }

  lemma Strict(a: real, b: real, n: real)
    requires a < b && n > 0.0
    ensures a * n < b * n
  {}

  lemma ShareGrows(a: nat, b: nat, n: nat)
    requires a <= b && n > 0
    ensures a as real / n as real <= b as real / n as real
  {
    var (x, y, d) := (a as real / n as real, b as real / n as real, n as real);
    assert x * d == a as real && y * d == b as real;
    if x > y {
      Strict(y, x, d);
    }
  }

  /** Of two sessions alike but for loss and jitter, the worse never has the better score. */
  lemma WorseSessionNeverScoresBetter(s: Session, t: Session)
    requires s.packets == t.packets && s.codec == t.codec
    requires s.lost <= t.lost && s.interJitter <= t.interJitter
    ensures 1.0 <= Score(t) <= Score(s) <= 4.5
  {
    if s.packets > 0 {
      ShareGrows(s.lost, t.lost, s.packets);
    }
    WorseNeverScoresBetter(s.codec, LossPercent(s), s.interJitter, None, LossPercent(t), t.interJitter, None);
  }

  /** The clamp at 1 is needed: below a rating of about 6.5 the cubic is under 1, and it even
      falls at first. */
  lemma CubicDipsBelowOne()
    ensures Cubic(3.0) < Cubic(1.0) < 1.0
    ensures forall r: real :: 0.0 < r <= 6.5 ==> FromRating(r) == 1.0
  {
    forall r: real | 0.0 < r <= 6.5 ensures FromRating(r) == 1.0 {
      CubicAboveOne(r);
      assert 160.0 * r - r * r - 1000.0 == 6.5 * 160.0 - 1000.0 - 6.5 * 6.5 - (6.5 - r) * (160.0 - r - 6.5);
      Product(6.5 - r, 160.0 - r - 6.5);
    }
  }

  function Total(scores: seq<real>): real {
    if scores == [] then 0.0 else Total(scores[..|scores| - 1]) + scores[|scores| - 1]
  }

  lemma {:induction false} TotalBetween(scores: seq<real>, low: real, high: real)
    requires forall i :: 0 <= i < |scores| ==> low <= scores[i] <= high
    ensures low * |scores| as real <= Total(scores) <= high * |scores| as real
  {
    if scores != [] {
      TotalBetween(scores[..|scores| - 1], low, high);
    }
  }

  lemma Quotient(x: real, n: real, low: real, high: real)
    requires n > 0.0 && low * n <= x <= high * n
    ensures low <= x / n <= high
  {
    var q := x / n;
    assert q * n == x;
    if q < low {
      Strict(q, low, n);
    }
    if high < q {
      Strict(high, q, n);
    }
  }

  /** The mean score lies between the least and the top of the scale. */
  lemma MeanBetween(scores: seq<real>, low: real, high: real)
    requires scores != [] && forall i :: 0 <= i < |scores| ==> low <= scores[i] <= high
    ensures low <= Total(scores) / |scores| as real <= high
  {
    TotalBetween(scores, low, high);
    Quotient(Total(scores), |scores| as real, low, high);
  }

  /** The least score over all sessions, and their mean. */
  method Summary(scores: seq<real>) returns (least: real, average: real)
    requires forall i :: 0 <= i < |scores| ==> 1.0 <= scores[i] <= 4.5
    ensures scores == [] ==> least == 0.0 && average == 0.0
    ensures scores != [] ==> least in scores && average == Total(scores) / |scores| as real
    ensures forall i :: 0 <= i < |scores| ==> least <= scores[i]
  {
    least, average := 0.0, 0.0;
    if |scores| > 0 {
      least := 4.5;
      for i := 0 to |scores|
        invariant least <= 4.5 && (least == 4.5 || least in scores[..i])
        invariant forall j :: 0 <= j < i ==> least <= scores[j]
        invariant average == Total(scores[..i])
      {
        if scores[i] < least {
          least := scores[i];
        }
        average := average + scores[i];
        assert scores[..i + 1][..i] == scores[..i];
        assert scores[..i + 1][i] == scores[i];
      }
      assert scores[..|scores|] == scores;
      average := average / |scores| as real;
    }
  }
}
