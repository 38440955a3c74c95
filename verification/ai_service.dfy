/**
 * Scoring of a typed interview answer. The sentence-embedding model and the
 * cosine similarity are external: the similarity arrives as an input in
 * [-1, 1]. Python's `round(x, 2)` on floats is a parameter, constrained only
 * to be monotone and to keep [0, 100] inside [0, 100].
 */
module AiService {
  const Excellent := "Excellent! You covered the key concepts perfectly."
  const GoodButMissing := "Good, but you missed some specific technical keywords."
  const TooVague := "Too vague. Try to be more specific and use industry terminology."
  /** The value `feedback` starts with before the banding overwrites it. */
  const GoodAttempt := "Good attempt."

  /** The `{score, feedback}` reply of the evaluation endpoint. */
  datatype AIResponse = AIResponse(score: real, feedback: string)

  /** What the model assumes about `round(·, 2)`. */
  ghost predicate IsRounding(round: real -> real) {
    && (forall x :: 0.0 <= x <= 100.0 ==> 0.0 <= round(x) <= 100.0)
    && (forall x, y :: 0.0 <= x <= y <= 100.0 ==> round(x) <= round(y))
  }

  /** Round half up to two decimals, on exact reals. */
  function Round2(x: real): real {
    (x * 100.0 + 0.5).Floor as real / 100.0
  }

  lemma FloorMonotone(x: real, y: real)
    requires x <= y
    ensures x.Floor <= y.Floor
  {
  }

  /** Exact half-up rounding meets the assumption made of `round`. */
  lemma Round2IsRounding()
    ensures IsRounding(Round2)
  {
    forall x | 0.0 <= x <= 100.0
      ensures 0.0 <= Round2(x) <= 100.0
    {
      FloorMonotone(0.5, x * 100.0 + 0.5);
      FloorMonotone(x * 100.0 + 0.5, 10000.5);
      assert (0.5).Floor == 0;
      assert (10000.5).Floor == 10000;
    }
    forall x, y | 0.0 <= x <= y <= 100.0
      ensures Round2(x) <= Round2(y)
    {
      FloorMonotone(x * 100.0 + 0.5, y * 100.0 + 0.5);
    }
  }

  /** The similarity clamped at zero and scaled to a percentage. */
  function Scaled(similarity: real): (s: real)
    requires -1.0 <= similarity <= 1.0
    ensures 0.0 <= s <= 100.0
    ensures similarity <= 0.0 ==> s == 0.0
  {
    (if similarity > 0.0 then similarity else 0.0) * 100.0
  }

  /** The three-way rule that turns a final score into a comment. */
  function Band(finalScore: real): (feedback: string)
    ensures feedback == Excellent <==> finalScore > 85.0
    ensures feedback == GoodButMissing <==> 60.0 < finalScore <= 85.0
    ensures feedback == TooVague <==> finalScore <= 60.0
    ensures feedback != GoodAttempt
  {
    if finalScore > 85.0 then Excellent
    else if finalScore > 60.0 then GoodButMissing
    else TooVague
  }

  /** `evaluate_interview_answer` once the similarity is known. */
  function EvaluateInterviewAnswer(similarity: real, round: real -> real): (r: AIResponse)
    requires -1.0 <= similarity <= 1.0
    requires IsRounding(round)
    ensures 0.0 <= r.score <= 100.0
    ensures r.score == round(Scaled(similarity))
    ensures r.feedback == Band(r.score)
  {
    var finalScore := round(Scaled(similarity));
    AIResponse(finalScore, Band(finalScore))
  }

  /** A closer answer never receives a lower score or a worse comment. */
  lemma EvaluationMonotone(s1: real, s2: real, round: real -> real)
    requires -1.0 <= s1 <= s2 <= 1.0
    requires IsRounding(round)
    ensures EvaluateInterviewAnswer(s1, round).score <= EvaluateInterviewAnswer(s2, round).score
    ensures BandRank(EvaluateInterviewAnswer(s1, round).feedback) <= BandRank(EvaluateInterviewAnswer(s2, round).feedback)
  {
    assert Scaled(s1) <= Scaled(s2);
  }

  /** Orders the three comments from worst to best. */
  function BandRank(feedback: string): nat {
    if feedback == Excellent then 2 else if feedback == GoodButMissing then 1 else 0
  }
}
