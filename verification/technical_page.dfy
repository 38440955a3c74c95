/**
 * The coding-challenge page: which question it loads (a one-shot target
 * topic handed over through the browser's key store, or a random one), the
 * editor contents, and the console fed by the code sandbox.
 *
 * Every network call is an input: the reply body, or `Failed` when the
 * promise rejects. `sent` records the requests the page issues, in order, so
 * that "no search is made" and "no random fetch happens" can be stated.
 */
module TechnicalPage {
  import opened Wrappers
  import opened Text

  const TargetKey := "targetTopic"
  const NoOutput := "No output"
  const RunFailure := "Error executing code. Check connection."

  /** A coding question as the question bank returns it. */
  datatype CodingQuestion = CodingQuestion(
    id: Option<int>, title: string, description: string, initialCode: string, expectedOutput: string)

  /** A question-bank reply: `Ok(None)` is a reply whose body is `null`. */
  type QuestionReply = Reply<Option<CodingQuestion>>

  /** The `run` part of the sandbox's reply; `output` may be missing. */
  datatype SandboxRun = SandboxRun(output: Option<string>)

  datatype Request =
    | SearchCoding(topic: string)
    | RandomCoding
    | Execute(language: string, version: string, source: string)

  /** The page's state fields, the key store, and the requests issued so far. */
  datatype Page = Page(
    questionData: Option<CodingQuestion>,
    code: string,
    output: string,
    isRunning: bool,
    loading: bool,
    store: map<string, string>,
    sent: seq<Request>)

  /** `localStorage.getItem`. */
  function GetItem(store: map<string, string>, key: string): Option<string> {
    if key in store then Some(store[key]) else None
  }

  /** `localStorage.removeItem`. */
  function RemoveItem(store: map<string, string>, key: string): map<string, string> {
    store - {key}
  }

  /** JavaScript truthiness of the stored string: present and not empty. */
  predicate Truthy(v: Option<string>) {
    v.Some? && v.value != ""
  }

  /** JavaScript truthiness of the reply's `id`: present and not zero. */
  predicate HasId(q: CodingQuestion) {
    q.id.Some? && q.id.value != 0
  }

  function Initial(store: map<string, string>): Page {
    Page(None, "", "", false, true, store, [])
  }

  /** `fetchCodingQuestion`, run to completion with the given reply. A null
      body is stored as the question before reading its `initial_code`
      throws, so the editor and the console keep their contents. */
  function Fetched(p: Page, reply: QuestionReply): Page {
    var p := p.(loading := true, sent := p.sent + [RandomCoding]);
    match reply
    case Ok(Some(q)) => p.(questionData := Some(q), code := q.initialCode, output := "", loading := false)
    case Ok(None) => p.(questionData := None, loading := false)
    case Failed => p.(loading := false)
  }

  /** The mount effect: targeted search with random fallback, or random.
      Reading `id` of a null search body throws inside the reply handler, so
      that case takes the rejection path and the key is not removed. */
  function Mounted(p: Page, search: QuestionReply, random: QuestionReply): Page {
    var target := GetItem(p.store, TargetKey);
    if Truthy(target) then
      var p := p.(loading := true, sent := p.sent + [SearchCoding(target.value)]);
      var p := match search
        case Ok(Some(q)) =>
          var p := if HasId(q) then p.(questionData := Some(q), code := q.initialCode) else Fetched(p, random);
          p.(store := RemoveItem(p.store, TargetKey))
        case Ok(None) => Fetched(p, random)
        case Failed => Fetched(p, random);
      p.(loading := false)
    else
      Fetched(p, random)
  }

  /** A click on "Run Code": ignored while a run is in flight (the button is
      disabled), otherwise the current code is sent to the sandbox. */
  function RunStarted(p: Page): Page {
    if p.isRunning then p
    else p.(isRunning := true, sent := p.sent + [Execute("python", "3.10.0", p.code)])
  }

  /** The console text for a sandbox reply. */
  function ConsoleText(reply: Reply<SandboxRun>): string {
    match reply
    case Ok(run) => if run.output.Some? && run.output.value != "" then run.output.value else NoOutput
    case Failed => RunFailure
  }

  /** The sandbox reply arrives. */
  function RunFinished(p: Page, reply: Reply<SandboxRun>): Page {
    p.(output := ConsoleText(reply), isRunning := false)
  }

  /** The editor reports a change; an undefined value becomes "". */
  function Edited(p: Page, value: Option<string>): Page {
    p.(code := if value.Some? then value.value else "")
  }

  /** How the console renders `output`. */
  datatype ConsoleView = Placeholder | ErrorText(text: string) | NormalText(text: string)

  predicate ShowsAsError(output: string) {
    Contains(Lower(output), "error")
  }

  function Console(output: string): ConsoleView {
    if output == "" then Placeholder
    else if ShowsAsError(output) then ErrorText(output)
    else NormalText(output)
  }

  // ---------------------------------------------------------------------
  // Question loading

  /** With no usable target the page goes straight to a random question and
      makes no search; an empty stored string is left in the store. */
  lemma MountWithoutTarget(p: Page, search: QuestionReply, random: QuestionReply)
    requires !Truthy(GetItem(p.store, TargetKey))
    ensures Mounted(p, search, random) == Fetched(p, random)
    ensures Mounted(p, search, random).sent == p.sent + [RandomCoding]
    ensures Mounted(p, search, random).store == p.store
  {
  }

  /** A search reply with an id is shown and seeds the editor; no random
      question is fetched and the target is consumed. */
  lemma MountTargetFound(p: Page, q: CodingQuestion, random: QuestionReply)
    requires Truthy(GetItem(p.store, TargetKey))
    requires HasId(q)
    ensures var r := Mounted(p, Ok(Some(q)), random);
      && r.questionData == Some(q)
      && r.code == q.initialCode
      && r.output == p.output
      && r.sent == p.sent + [SearchCoding(p.store[TargetKey])]
      && TargetKey !in r.store
      && !r.loading
  {
  }

  /** A search reply without an id falls back to a random question, and the
      target is consumed. */
  lemma MountTargetMissing(p: Page, q: CodingQuestion, random: QuestionReply)
    requires Truthy(GetItem(p.store, TargetKey))
    requires !HasId(q)
    ensures var r := Mounted(p, Ok(Some(q)), random);
      && r.sent == p.sent + [SearchCoding(p.store[TargetKey]), RandomCoding]
      && r.questionData == Fetched(p, random).questionData
      && r.code == Fetched(p, random).code
      && r.output == Fetched(p, random).output
      && r.store == RemoveItem(p.store, TargetKey)
      && !r.loading
  {
  }

  /** A failed search, or a search reply whose body is null, falls back to a
      random question and keeps the target for the next load. */
  lemma MountSearchFailed(p: Page, search: QuestionReply, random: QuestionReply)
    requires Truthy(GetItem(p.store, TargetKey))
    requires search == Failed || search == Ok(None)
    ensures var r := Mounted(p, search, random);
      && r.sent == p.sent + [SearchCoding(p.store[TargetKey]), RandomCoding]
      && r.questionData == Fetched(p, random).questionData
      && r.code == Fetched(p, random).code
      && r.output == Fetched(p, random).output
      && r.store == p.store
      && !r.loading
  {
  }

  /** The target survives a load exactly when it was there and either was
      empty or its search did not bring back an object; nothing else in the
      store changes. */
  lemma MountConsumesTarget(p: Page, search: QuestionReply, random: QuestionReply)
    ensures var r := Mounted(p, search, random);
      && (TargetKey in r.store <==> TargetKey in p.store && (!Truthy(GetItem(p.store, TargetKey)) || !(search.Ok? && search.data.Some?)))
      && (forall k :: k != TargetKey ==> GetItem(r.store, k) == GetItem(p.store, k))
  {
  }

  /** Once a search reply has arrived, the next page load, a fresh page over
      the same key store, takes the random path. */
  lemma TargetConsumedOnce(p: Page, q: CodingQuestion, random: QuestionReply,
                           search2: QuestionReply, random2: QuestionReply)
    requires Truthy(GetItem(p.store, TargetKey))
    ensures var r := Mounted(p, Ok(Some(q)), random);
      Mounted(Initial(r.store), search2, random2).sent == [RandomCoding]
  {
  }

  /** A random fetch replaces the question, seeds the editor and clears the
      console on success, changes none of them on failure, clears only the
      question on a null body, and always ends with loading false; it never
      reads or clears the target. */
  lemma FetchedEffect(p: Page, reply: QuestionReply)
    ensures var r := Fetched(p, reply);
      && !r.loading
      && r.store == p.store
      && r.sent == p.sent + [RandomCoding]
      && r.isRunning == p.isRunning
      && (reply.Ok? && reply.data.Some? ==>
            r.questionData == reply.data && r.code == reply.data.value.initialCode && r.output == "")
      && (reply == Ok(None) ==> r.questionData == None && r.code == p.code && r.output == p.output)
      && (reply.Failed? ==> r.questionData == p.questionData && r.code == p.code && r.output == p.output)
  {
  }

  // ---------------------------------------------------------------------
  // Running code

  /** A run sends the current editor contents; a second click while the run
      is in flight does nothing. */
  lemma RunStartedEffect(p: Page)
    ensures p.isRunning ==> RunStarted(p) == p
    ensures !p.isRunning ==>
      && RunStarted(p).isRunning
      && RunStarted(p).sent == p.sent + [Execute("python", "3.10.0", p.code)]
      && RunStarted(p).output == p.output
  {
  }

  /** When the reply arrives the run is over and the console shows the
      program's output, "No output" for empty output, or the failure text. */
  lemma RunFinishedEffect(p: Page, reply: Reply<SandboxRun>)
    ensures !RunFinished(p, reply).isRunning
    ensures RunFinished(p, reply).output != ""
    ensures reply.Failed? ==> RunFinished(p, reply).output == RunFailure
    ensures reply.Ok? && reply.data.output.Some? && reply.data.output.value != "" ==>
              RunFinished(p, reply).output == reply.data.output.value
    ensures reply.Ok? && (reply.data.output.None? || reply.data.output.value == "") ==>
              RunFinished(p, reply).output == NoOutput
  {
  }

  /** The failure message is always rendered as an error. */
  lemma RunFailureShowsAsError()
    ensures Console(RunFailure) == ErrorText(RunFailure)
  {
    var lowered := Lower(RunFailure);
    assert lowered[0] == 'e' && lowered[1] == 'r' && lowered[2] == 'r' && lowered[3] == 'o' && lowered[4] == 'r';
    assert lowered[0..5] == "error";
    assert OccursAt(lowered, "error", 0);
  }

  /** The colour check ignores case. */
  lemma ShowsAsErrorIgnoresCase(output: string)
    ensures ShowsAsError(Lower(output)) == ShowsAsError(output)
  {
    LowerIdempotent(output);
  }

  /** An empty program output is rendered as a normal result, not an error. */
  lemma NoOutputShowsAsNormal()
    ensures Console(NoOutput) == NormalText(NoOutput)
  {
    var lowered := Lower(NoOutput);
    assert forall i :: 0 <= i < |lowered| ==> lowered[i] != 'e';
    MissingFirstChar(lowered, "error");
  }

  // ---------------------------------------------------------------------
  // The page itself

  class TechnicalInterview {
    var questionData: Option<CodingQuestion>
    var code: string
    var output: string
    var isRunning: bool
    var loading: bool
    /** The browser's key store, shared with the pages that set a target. */
    var store: map<string, string>
    ghost var sent: seq<Request>

    ghost function State(): Page
      reads this
    {
      Page(questionData, code, output, isRunning, loading, store, sent)
    }

    constructor (store: map<string, string>)
      ensures State() == Initial(store)
    {
      questionData := None;
      code := "";
      output := "";
      isRunning := false;
      loading := true;
      this.store := store;
      sent := [];
    }

    /** Also the "New Challenge" button's handler. */
    method FetchCodingQuestion(reply: QuestionReply)
      modifies this
      ensures State() == Fetched(old(State()), reply)
    {
      loading := true;
      sent := sent + [RandomCoding];
      match reply {
        case Ok(Some(q)) =>
          questionData := Some(q);
          code := q.initialCode;
          output := "";
        case Ok(None) =>
          questionData := None;
        case Failed =>
      }
      loading := false;
    }

    /** The effect run once when the page mounts. */
    method Mount(search: QuestionReply, random: QuestionReply)
      modifies this
      ensures State() == Mounted(old(State()), search, random)
    {
      var target := GetItem(store, TargetKey);
      if target.Some? && target.value != "" {
        loading := true;
        sent := sent + [SearchCoding(target.value)];
        match search {
          case Ok(Some(q)) =>
            if q.id.Some? && q.id.value != 0 {
              questionData := Some(q);
              code := q.initialCode;
            } else {
              FetchCodingQuestion(random);
            }
            store := RemoveItem(store, TargetKey);
          case Ok(None) =>
            FetchCodingQuestion(random);
          case Failed =>
            FetchCodingQuestion(random);
        }
        loading := false;
      } else {
        FetchCodingQuestion(random);
      }
    }

    /** `runCode` up to the sandbox request; returns whether a run started. */
    method StartRun() returns (started: bool)
      modifies this
      ensures started == !old(isRunning)
      ensures State() == RunStarted(old(State()))
    {
      started := !isRunning;
      if started {
        isRunning := true;
        sent := sent + [Execute("python", "3.10.0", code)];
      }
    }

    /** `runCode` from the sandbox reply on. */
    method FinishRun(reply: Reply<SandboxRun>)
      modifies this
      ensures State() == RunFinished(old(State()), reply)
    {
      match reply {
        case Ok(run) =>
          if run.output.Some? && run.output.value != "" {
            output := run.output.value;
          } else {
            output := NoOutput;
          }
        case Failed =>
          output := RunFailure;
      }
      isRunning := false;
    }

    method EditCode(value: Option<string>)
      modifies this
      ensures State() == Edited(old(State()), value)
    {
      code := if value.Some? then value.value else "";
    }
  }

  /** A topic handed over for a coding question with a matching entry in the
      bank: the editor is seeded from that question's starter code. */
  method TargetedLoadScenario(q: CodingQuestion) returns (page: TechnicalInterview)
    requires HasId(q)
    ensures page.questionData == Some(q) && page.code == q.initialCode
    ensures page.sent == [SearchCoding("Two Sum")]
    ensures TargetKey !in page.store && !page.loading
  {
    page := new TechnicalInterview(map[TargetKey := "Two Sum"]);
    page.Mount(Ok(Some(q)), Failed);
  }
}
