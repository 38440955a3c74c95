# Mock-interview core of the AI placement tracker, modelled in Dafny

The placement tracker is a job-application dashboard with two practice pages
and three small server services. This project models the parts of them that
decide something:

- **Coding-challenge page** (`TechnicalPage`, `technical_page.dfy`). On mount
  it reads the one-shot `targetTopic` key from the browser's key store. If the
  key holds a non-empty string, the page searches the question bank for that
  topic. It falls back to a random coding question when the reply has no
  (truthy) `id`, when its body is `null`, or when the search fails. Without a target it goes straight to a
  random question. The key is removed only when a search reply arrives. The
  page seeds the editor from the question's starter code, runs the code in
  the sandbox and shows the reply in a console that turns red when the text
  contains "error" in any case. The page is the class
  `TechnicalInterview`. Each of its methods is specified by a pure transition
  function on the `Page` record, and the lemmas state what the page promises
  about those functions.
- **Typed-answer page** (`InterviewPage`, `interview_page.dfy`). It has a
  fixed question and ideal answer and a submit button that is disabled while
  `loading`. One evaluation call either replaces the feedback or raises an
  "offline" notice. A score above 70 shows as a pass. The class
  `InterviewRoom` keeps an invariant: the question pair never changes, every
  posted submission carries it, and at most one evaluation is in flight.
- **Filler-word analysis** (`AudioService`, `audio_service.dfy`). It counts
  whole-word occurrences of six fillers in the lower-cased transcription,
  builds the `"word (Nx)"` details string and computes the fluency score
  `max(0, 100 - 3 * count)`.
- **Topic suggestion** (`ResumeService`, `resume_service.dfy`). It matches
  four skill names as case-insensitive substrings and collects their topics.
  It then removes duplicates and keeps at most five. The order of Python's
  set is not specified, so the model picks the surviving topics
  nondeterministically.
- **Answer scoring** (`AiService`, `ai_service.dfy`). It clamps the cosine
  similarity at zero, scales it to a percentage and rounds it. It then picks
  one of three comments by strict thresholds at 85 and 60.

Network replies are inputs: `Reply<T> = Ok(data) | Failed`, where `Failed`
is a rejected promise. `Text` (`text.dfy`) holds the shared string helpers
and `Wrappers` (`wrappers.dfy`) the option and reply types.

Behaviours of the code worth knowing:

- The key is removed only when a search reply with an object body arrives
  (client/src/app/technical/page.tsx:44). It survives a failed search, or a
  reply whose body is `null`, because reading `id` of `null` throws into the
  rejection handler (client/src/app/technical/page.tsx:38, 46;
  `MountSearchFailed`).
- An empty answer is posted as typed (client/src/app/interview/page.tsx:17-20;
  `EmptyAnswerScenario`).
- A failed load keeps the previous question with `loading` false
  (client/src/app/technical/page.tsx:25-28; `FetchedEffect`). A random reply
  whose body is `null` clears the question but keeps the editor and the
  console, because line 22 runs before line 23 throws.
- The comment in `server/audio_service.py` speaks of "10 points for every 3
  fillers". The code deducts 3 points per filler, and `FluencyScore` follows
  the code.

## Model

| member | source | states |
|---|---|---|
| `TechnicalPage.TechnicalInterview.constructor` | client/src/app/technical/page.tsx:11-15 | The page starts with no question, empty code and console, not running, loading, over the given key store. |
| `TechnicalPage.TechnicalInterview.FetchCodingQuestion` | client/src/app/technical/page.tsx:18-29 | The new state is `Fetched` of the old one: one random request is made, and on success the question, the code and the console are replaced. |
| `TechnicalPage.TechnicalInterview.Mount` | client/src/app/technical/page.tsx:32-51 | The new state is `Mounted` of the old one: the targeted-or-random load with fallback and key removal. |
| `TechnicalPage.TechnicalInterview.StartRun` | client/src/app/technical/page.tsx:54-61 | A click starts a run exactly when none is in flight, and the new state is `RunStarted` of the old one. |
| `TechnicalPage.TechnicalInterview.FinishRun` | client/src/app/technical/page.tsx:62-66 | The new state is `RunFinished` of the old one: the console is set from the reply and `isRunning` ends. |
| `TechnicalPage.TechnicalInterview.EditCode` | client/src/app/technical/page.tsx:132 | An editor change replaces the code, and an undefined value becomes the empty string. |
| `TechnicalPage.MountWithoutTarget` | client/src/app/technical/page.tsx:33-50 | With the key absent or empty, mounting is exactly a random fetch: no search is sent and the store is untouched. |
| `TechnicalPage.MountTargetFound` | client/src/app/technical/page.tsx:34-44 | A search reply with a truthy id becomes the question and seeds the code. Only the search is sent, the key is removed and loading ends. |
| `TechnicalPage.MountTargetMissing` | client/src/app/technical/page.tsx:41-47 | A search reply without an id is followed by a random fetch whose outcome decides the question, code and console. The key is removed. |
| `TechnicalPage.MountSearchFailed` | client/src/app/technical/page.tsx:36-47 | A failed search, or a search reply whose body is null, is followed by a random fetch, and the key stays in the store. |
| `TechnicalPage.MountConsumesTarget` | client/src/app/technical/page.tsx:33-47 | The key survives a mount if and only if it was present and either empty or its search did not return an object. No other key changes. |
| `TechnicalPage.TargetConsumedOnce` | client/src/app/technical/page.tsx:33-44 | After a mount whose search returned an object, the next page load sends only a random request. |
| `TechnicalPage.FetchedEffect` | client/src/app/technical/page.tsx:18-29 | A random fetch (also "New Challenge") ends not loading and never reads or clears the key. Success replaces the question, seeds the code and clears the console. Failure leaves all three unchanged. A null body clears only the question. |
| `TechnicalPage.RunStartedEffect` | client/src/app/technical/page.tsx:54-61 | A run sends the current code to the sandbox as Python 3.10.0. A click while running changes nothing, because the button is disabled. |
| `TechnicalPage.RunFinishedEffect` | client/src/app/technical/page.tsx:62-66 | After the reply, `isRunning` is false and the console shows the output, "No output" for a missing or empty output, or the fixed failure text. |
| `TechnicalPage.RunFailureShowsAsError` | client/src/app/technical/page.tsx:149 | The failure text is rendered as an error. |
| `TechnicalPage.NoOutputShowsAsNormal` | client/src/app/technical/page.tsx:148-153 | "No output" is rendered as a normal result. |
| `TechnicalPage.ShowsAsErrorIgnoresCase` | client/src/app/technical/page.tsx:149 | The error colouring does not depend on letter case. |
| `TechnicalPage.TargetedLoadScenario` | client/src/app/technical/page.tsx:36-44 | With "Two Sum" stored and a search reply with an id, the page shows that question with its starter code. Exactly one search was sent and the key is gone. |
| `InterviewPage.InterviewRoom.constructor` | client/src/app/interview/page.tsx:10-15 | The page starts with the fixed question and ideal answer, an empty answer, no feedback and not loading. |
| `InterviewPage.InterviewRoom.SetStudentAnswer` | client/src/app/interview/page.tsx:51 | Typing replaces the answer and nothing else. |
| `InterviewPage.InterviewRoom.BeginSubmit` | client/src/app/interview/page.tsx:17-20 | While loading, a click posts nothing. Otherwise it posts the fixed question, the ideal answer and the answer as typed, and loading starts. Validity is kept: at most one call is in flight. |
| `InterviewPage.InterviewRoom.FinishSubmit` | client/src/app/interview/page.tsx:20-25 | A result replaces the feedback wholesale. A failure keeps the old feedback and raises the offline notice. Loading ends either way. |
| `InterviewPage.EmptyAnswerScenario` | client/src/app/interview/page.tsx:17-20 | An empty answer is posted unchanged, since there is no client-side check. |
| `InterviewPage.DoubleSubmitScenario` | client/src/app/interview/page.tsx:17-25 | A click during an evaluation posts nothing, and a failed reply keeps the earlier feedback. |
| `InterviewPage.PassAgreesWithBand` | client/src/app/interview/page.tsx:66 | Every "Excellent" score shows as a pass, every "Too vague" score as a fail, and exactly 70 as a fail. |
| `AudioService.AnalyzeAudioTranscription` | server/audio_service.py:7-32 | The loop over the fillers computes exactly `Analysis(raw)`. The transcript is the lower-cased text, the score lies in 0..100, and the details are empty if and only if no filler was found. |
| `AudioService.FluencyScore` | server/audio_service.py:25 | The score lies in 0..100. It is 100 if and only if there are no fillers, and 0 if and only if there are at least 34. |
| `AudioService.FluencyNonIncreasing` | server/audio_service.py:25 | More fillers never raise the score. |
| `AudioService.NoOverlap` | server/audio_service.py:18 | Whole-word matches of a filler never overlap, so counting match positions equals the number of `re.findall` matches. |
| `AudioService.OnlyWholeWordsCount` | server/audio_service.py:18 | "likely" holds no "like" and "umbrella" holds no "um", while "um, um" holds two. |
| `AudioService.DetectedEmptyIff` | server/audio_service.py:17-21 | The list of detected entries is empty if and only if the summed count is zero. |
| `AudioService.DetailsEmptyIff` | server/audio_service.py:15-30 | The details string is empty if and only if the filler count is zero. |
| `AudioService.AnalysisIgnoresCase` | server/audio_service.py:10 | Analysing a transcription or its lower-cased form gives the same result. |
| `ResumeService.SuggestTopics` | server/resume_service.py:10-24 | The result has no duplicates. Its length is the smaller of 5 and the number of distinct suggested topics. Every element is a suggested topic, every suggested topic is returned when there are at most five, and the result is empty if and only if no skill is mentioned. |
| `ResumeService.CollectedIff` | server/resume_service.py:18-22 | A topic is collected if and only if some skill whose name occurs in the text lists it. |
| `ResumeService.PoolIff` | server/resume_service.py:19-22 | A topic is suggested if and only if a skill whose lower-cased name is a substring of the lower-cased resume lists it. |
| `ResumeService.PoolEmptyIff` | server/resume_service.py:18-22 | Nothing is suggested if and only if no skill name occurs in the text. |
| `ResumeService.NoSqlSuggestsSqlTopics` | server/resume_service.py:21 | Matching is by substring, so "NoSQL" yields the SQL topics. |
| `AiService.Scaled` | server/ai_service.py:22 | The clamped, scaled similarity lies in 0..100 and is 0 for any non-positive similarity. |
| `AiService.Band` | server/ai_service.py:25-31 | The comment is "Excellent" if and only if the score is above 85, "Good, but" if and only if it is in (60, 85], and "Too vague" if and only if it is at most 60. The default "Good attempt." is never returned. |
| `AiService.EvaluateInterviewAnswer` | server/ai_service.py:8-36 | The score lies in 0..100, as the docstring promises, and the comment is the band of that score. |
| `AiService.EvaluationMonotone` | server/ai_service.py:22-31 | A higher similarity never yields a lower score or a worse comment. |
| `AiService.Round2IsRounding` | server/ai_service.py:22 | Exact half-up rounding to two decimals is monotone and keeps [0, 100] inside [0, 100], so the rounding assumption can be met. |

## Left out

- Whisper transcription (`server/audio_service.py:5-9`): the transcription text is an input.
- The sentence-embedding model and the cosine similarity (`server/ai_service.py:6-19`): the similarity is an input in [-1, 1].
- PDF text extraction (`extract_text_from_pdf`): the resume text is an input.
- `AiService.EvaluateInterviewAnswer`: Python's float `round(x, 2)` is a parameter constrained only by `IsRounding` (monotone, [0, 100] into [0, 100]), so the exact rounded value is not modelled.
- Lower-casing and the regular-expression word class cover ASCII only. Python's and JavaScript's Unicode case mapping and Unicode `\w` are not modelled.
- Network transport, the browser's key store as a persistent service, the sandbox service, the Monaco editor and all rendering other than the console colour and the pass colour. Replies are inputs and the key store is a map field.
- Async interleaving. A whole load is one step. On the no-id path the fallback fetch is not awaited, so the real page sets `loading` false before that fetch replies. That intermediate state is not modelled, only the state after both replies.
- `TechnicalPage.CodingQuestion`: `initial_code` is always a string. A reply without `initial_code` would set the editor value to `undefined`, which is not modelled.
- The dashboard's application list, the server's database routes (`server/main.py`, `server/models.py`, `server/seed_data.py`), `client/src/app/api.ts` and the static analytics page. They do no modelled logic.
