/**
 * Filler-word analysis of a spoken answer. The Whisper transcription is
 * external: the raw transcription text is the input.
 */
module AudioService {
  import opened Wrappers
  import opened Text

  /** The fillers counted, in the order the report lists them. */
  const Fillers: seq<string> := ["um", "uh", "ah", "like", "basically", "actually"]

  /** The dictionary `analyze_audio_transcription` returns. */
  datatype AudioAnalysis = AudioAnalysis(transcript: string, fillerCount: nat, details: string, fluencyScore: int)

  /** `\bword\b` matches `text` at index `i`. */
  predicate WholeWordAt(text: string, word: string, i: nat) {
    && OccursAt(text, word, i)
    && (i == 0 || !IsWordChar(text[i - 1]))
    && (i + |word| == |text| || !IsWordChar(text[i + |word|]))
  }

  predicate AllWordChars(word: string) {
    forall k :: 0 <= k < |word| ==> IsWordChar(word[k])
  }

  /** Two whole-word matches of a word made of word characters never overlap,
      so counting match positions gives what `re.findall` returns. */
  lemma NoOverlap(text: string, word: string, i: nat, j: nat)
    requires word != [] && AllWordChars(word)
    requires WholeWordAt(text, word, i) && WholeWordAt(text, word, j)
    requires i < j
    ensures i + |word| <= j
  {
  }

  /** Number of whole-word matches of `word` at index `i` or later. */
  function CountFrom(text: string, word: string, i: nat): nat
    decreases |text| - i
  {
    if i > |text| then 0
    else (if WholeWordAt(text, word, i) then 1 else 0) + CountFrom(text, word, i + 1)
  }

  /** `len(re.findall(rf"\b{word}\b", text))`. */
  function WordCount(text: string, word: string): nat {
    CountFrom(text, word, 0)
  }

  /** A word counts only at a word boundary on both sides. */
  lemma OnlyWholeWordsCount()
    ensures WordCount("likely", "like") == 0
    ensures WordCount("umbrella", "um") == 0
    ensures WordCount("um, um", "um") == 2
  {
    assert !WholeWordAt("likely", "like", 0);
    assert CountFrom("umbrella", "um", 1) == 0;
    assert WholeWordAt("um, um", "um", 4);
    assert CountFrom("um, um", "um", 4) == 1;
    assert CountFrom("um, um", "um", 1) == 1;
  }

  /** Total filler count over `words`, accumulated in list order. */
  function SumCounts(text: string, words: seq<string>): nat {
    if words == [] then 0
    else SumCounts(text, words[..|words| - 1]) + WordCount(text, words[|words| - 1])
  }

  /** The `"word (Nx)"` entry of the details string. */
  function Entry(word: string, count: nat): string {
    word + " (" + NatToString(count) + "x)"
  }

  /** The entries for the fillers of `words` that occur, in list order. */
  function Detected(text: string, words: seq<string>): seq<string> {
    if words == [] then []
    else
      var word := words[|words| - 1];
      var count := WordCount(text, word);
      Detected(text, words[..|words| - 1]) + (if count > 0 then [Entry(word, count)] else [])
  }

  /** Three points off per filler, never below zero. */
  function FluencyScore(fillerCount: nat): (score: int)
    ensures 0 <= score <= 100
    ensures score == 100 <==> fillerCount == 0
    ensures score == 0 <==> fillerCount >= 34
  {
    Max(0, 100 - fillerCount * 3)
  }

  lemma FluencyNonIncreasing(m: nat, n: nat)
    requires m <= n
    ensures FluencyScore(n) <= FluencyScore(m)
  {
  }

  /** The whole analysis of one raw transcription. */
  function Analysis(raw: string): AudioAnalysis {
    var text := Lower(raw);
    var count := SumCounts(text, Fillers);
    AudioAnalysis(text, count, Join(Detected(text, Fillers), ", "), FluencyScore(count))
  }

  /** The details list is empty exactly when no filler of `words` occurs. */
  lemma {:induction false} DetectedEmptyIff(text: string, words: seq<string>)
    ensures Detected(text, words) == [] <==> SumCounts(text, words) == 0
  {
    if words != [] {
      DetectedEmptyIff(text, words[..|words| - 1]);
    }
  }

  /** Every entry of the details list is non-empty. */
  lemma {:induction false} DetectedEntriesNonEmpty(text: string, words: seq<string>)
    ensures forall i :: 0 <= i < |Detected(text, words)| ==> Detected(text, words)[i] != ""
  {
    if words != [] {
      DetectedEntriesNonEmpty(text, words[..|words| - 1]);
    }
  }

  /** `details` is the empty string exactly when no filler was found. */
  lemma DetailsEmptyIff(raw: string)
    ensures Analysis(raw).details == "" <==> Analysis(raw).fillerCount == 0
  {
    var text := Lower(raw);
    DetectedEmptyIff(text, Fillers);
    DetectedEntriesNonEmpty(text, Fillers);
    JoinEmptyIff(Detected(text, Fillers), ", ");
  }

  /** Counting is case-insensitive: the transcript is lower-cased first. */
  lemma AnalysisIgnoresCase(raw: string)
    ensures Analysis(Lower(raw)) == Analysis(raw)
  {
    LowerIdempotent(raw);
  }

  /** `analyze_audio_transcription` after the transcription step. */
  method AnalyzeAudioTranscription(raw: string) returns (r: AudioAnalysis)
    ensures r == Analysis(raw)
    ensures r.transcript == Lower(raw)
    ensures 0 <= r.fluencyScore <= 100
    ensures r.details == "" <==> r.fillerCount == 0
  {
    var text := Lower(raw);
    var fillerCount: nat := 0;
    var detectedFillers: seq<string> := [];
    for k := 0 to |Fillers|
      invariant fillerCount == SumCounts(text, Fillers[..k])
      invariant detectedFillers == Detected(text, Fillers[..k])
    {
      var word := Fillers[k];
      assert Fillers[..k + 1][..k] == Fillers[..k];
      var count := WordCount(text, word);
      if count > 0 {
        fillerCount := fillerCount + count;
        detectedFillers := detectedFillers + [Entry(word, count)];
      }
    }
    assert Fillers[..|Fillers|] == Fillers;
    var score := Max(0, 100 - fillerCount * 3);
    r := AudioAnalysis(text, fillerCount, Join(detectedFillers, ", "), score);
    DetailsEmptyIff(raw);
  }
}
