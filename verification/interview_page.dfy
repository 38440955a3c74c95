/**
 * The typed-answer interview page: one fixed question with its ideal answer,
 * an answer box, and a submit button guarded by `loading` around a single
 * evaluation call whose reply is an input.
 */
module InterviewPage {
  import opened Wrappers
  import AiService

  const ProcessVsThread := "Explain the difference between a Process and a Thread."
  const ProcessVsThreadIdeal :=
    "A process is an executing program with its own memory space, while a thread is a unit of execution within a process that shares memory."
  const OfflineNotice := "AI Service is offline! Make sure Python backend is running."

  /** The body posted to the evaluation endpoint. */
  datatype AnswerSubmission = AnswerSubmission(question: string, idealAnswer: string, studentAnswer: string)

  /** Feedback is coloured as a pass exactly above 70. */
  predicate IsPass(feedback: AiService.AIResponse) {
    feedback.score > 70.0
  }

  /** The page's colouring agrees with the server's comment at both ends:
      every "Excellent" reply shows as a pass and every "Too vague" reply
      shows as a fail; a score of exactly 70 is a fail. */
  lemma PassAgreesWithBand(similarity: real, round: real -> real)
    requires -1.0 <= similarity <= 1.0
    requires AiService.IsRounding(round)
    ensures var r := AiService.EvaluateInterviewAnswer(similarity, round);
      && (r.feedback == AiService.Excellent ==> IsPass(r))
      && (r.feedback == AiService.TooVague ==> !IsPass(r))
    ensures !IsPass(AiService.AIResponse(70.0, AiService.Band(70.0)))
  {
  }

  class InterviewRoom {
    const question: string
    const ideal: string
    var studentAnswer: string
    var feedback: Option<AiService.AIResponse>
    var loading: bool
    /** Submissions posted so far, replies received so far, alerts raised. */
    ghost var sent: seq<AnswerSubmission>
    ghost var replies: nat
    ghost var alerts: seq<string>

    /** The question pair is fixed, every submission carries it, and at most
        one evaluation is in flight: exactly while `loading` holds. */
    ghost predicate Valid()
      reads this
    {
      && question == ProcessVsThread
      && ideal == ProcessVsThreadIdeal
      && |sent| == replies + (if loading then 1 else 0)
      && forall i :: 0 <= i < |sent| ==> sent[i].question == question && sent[i].idealAnswer == ideal
    }

    constructor ()
      ensures Valid()
      ensures studentAnswer == "" && feedback == None && !loading
      ensures sent == [] && replies == 0 && alerts == []
    {
      question := ProcessVsThread;
      ideal := ProcessVsThreadIdeal;
      studentAnswer := "";
      feedback := None;
      loading := false;
      sent := [];
      replies := 0;
      alerts := [];
    }

    /** The answer box's change handler. */
    method SetStudentAnswer(value: string)
      requires Valid()
      modifies this
      ensures Valid()
      ensures studentAnswer == value
      ensures feedback == old(feedback) && loading == old(loading)
      ensures sent == old(sent) && replies == old(replies) && alerts == old(alerts)
    {
      studentAnswer := value;
    }

    /** A click on the submit button: ignored while `loading` (the button is
        disabled), otherwise posts the fixed pair and the answer as typed,
        whatever it is, the empty answer included. */
    method BeginSubmit() returns (posted: Option<AnswerSubmission>)
      requires Valid()
      modifies this
      ensures Valid()
      ensures old(loading) ==> posted == None && sent == old(sent)
      ensures !old(loading) ==>
        && posted == Some(AnswerSubmission(ProcessVsThread, ProcessVsThreadIdeal, studentAnswer))
        && sent == old(sent) + [posted.value]
      ensures loading
      ensures studentAnswer == old(studentAnswer) && feedback == old(feedback)
      ensures replies == old(replies) && alerts == old(alerts)
    {
      if loading {
        posted := None;
      } else {
        loading := true;
        posted := Some(AnswerSubmission(question, ideal, studentAnswer));
        sent := sent + [posted.value];
      }
    }

    /** The evaluation reply arrives: a result replaces the feedback
        wholesale, a failure keeps the old feedback and raises the notice;
        either way `loading` ends. */
    method FinishSubmit(reply: Reply<AiService.AIResponse>)
      requires Valid() && loading
      modifies this
      ensures Valid() && !loading
      ensures reply.Ok? ==> feedback == Some(reply.data) && alerts == old(alerts)
      ensures reply.Failed? ==> feedback == old(feedback) && alerts == old(alerts) + [OfflineNotice]
      ensures studentAnswer == old(studentAnswer) && sent == old(sent) && replies == old(replies) + 1
    {
      match reply {
        case Ok(result) =>
          feedback := Some(result);
        case Failed =>
          alerts := alerts + [OfflineNotice];
      }
      replies := replies + 1;
      loading := false;
    }
  }

  /** An empty answer is posted as it is: the page makes no check of its own. */
  method EmptyAnswerScenario() returns (posted: Option<AnswerSubmission>)
    ensures posted == Some(AnswerSubmission(ProcessVsThread, ProcessVsThreadIdeal, ""))
  {
    var room := new InterviewRoom();
    posted := room.BeginSubmit();
  }

  /** A second click while the first evaluation is in flight posts nothing,
      and a failed reply leaves the earlier feedback in place. */
  method DoubleSubmitScenario(answer: string, first: AiService.AIResponse) returns (second: Option<AnswerSubmission>, shown: Option<AiService.AIResponse>)
    ensures second == None
    ensures shown == Some(first)
  {
    var room := new InterviewRoom();
    room.SetStudentAnswer(answer);
    var posted := room.BeginSubmit();
    room.FinishSubmit(Ok(first));
    posted := room.BeginSubmit();
    second := room.BeginSubmit();
    room.FinishSubmit(Failed);
    shown := room.feedback;
  }
}
