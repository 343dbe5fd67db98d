/** What a connector call reports: the request, its acceptance and the polling of its job. */
module Polling {
  import opened Strings
  import opened Wrappers

  /** The job list in an answer's body; a field that is missing says nothing. */
  datatype Body = NoList | EmptyList | First(status: Option<string>, stderr: Option<string>)

  /** One answer to a job query: a transport error with its text, or a body and how the whole response prints. */
  datatype Poll = Broken(text: string) | Answer(body: Body, printed: string)

  datatype JobEnd = Completed | JobFailed(text: string) | NoEnd

  /** What the driver holds of the job: all answers are decoded into one structure. */
  datatype Held = NoJob | Job(status: string, stderr: string)

  /** Decoding an answer: what it does not mention stays as it was. */
  function Decode(held: Held, body: Body): Held {
    match body
    case NoList => held
    case EmptyList => NoJob
    case First(status, stderr) =>
      var before := if held.Job? then held else Job("", "");
      Job(if status.Some? then status.value else before.status, if stderr.Some? then stderr.value else before.stderr)
  }

  function HeldAfter(answers: seq<Poll>, n: nat): Held
    requires n <= |answers|
  {
    if n == 0 then NoJob
    else
      var held := HeldAfter(answers, n - 1);
      match answers[n - 1]
      case Broken(_) => held
      case Answer(body, _) => Decode(held, body)
  }

  /** After this answer the loop asks again. */
  predicate Running(answers: seq<Poll>, i: nat)
    requires i < |answers|
  {
    answers[i].Answer? && var held := HeldAfter(answers, i + 1); held.Job? && held.status == "RUNNING"
  }

  function EndOf(answers: seq<Poll>, i: nat): JobEnd
    requires i < |answers|
  {
    match answers[i]
    case Broken(text) => JobFailed(text)
    case Answer(_, printed) =>
      match HeldAfter(answers, i + 1)
      case NoJob => JobFailed(printed)
      case Job(status, stderr) => if status == "COMPLETED" then Completed else JobFailed(stderr)
  }

  // ---------- the same on the answers themselves ----------

  /** The answer is RUNNING, or names no status and leaves the one from before. */
  predicate GoesOn(answer: Poll, first: bool) {
    match answer
    case Broken(_) => false
    case Answer(NoList, _) => !first
    case Answer(EmptyList, _) => false
    case Answer(First(status, _), _) => status == Some("RUNNING") || (!first && status.None?)
  }

  /** The error text received last; none leaves the empty one. */
  function LastStderr(answers: seq<Poll>, n: nat): string
    requires n <= |answers|
  {
    if n == 0 then ""
    else
      match answers[n - 1]
      case Answer(First(_, Some(text)), _) => text
      case _ => LastStderr(answers, n - 1)
  }

  /** As long as the loop has gone on, it holds the status RUNNING and the last error text. */
  lemma {:induction false} HeldRunning(answers: seq<Poll>, n: nat)
    requires n <= |answers| && forall i :: 0 <= i < n ==> Running(answers, i)
    ensures HeldAfter(answers, n) == if n == 0 then NoJob else Job("RUNNING", LastStderr(answers, n))
  {
    if n > 0 {
      HeldRunning(answers, n - 1);
      assert Running(answers, n - 1);
    }
  }

  /** Whether the loop goes on after one more answer, which that answer alone decides. */
  lemma RunningExactly(answers: seq<Poll>, n: nat)
    requires n < |answers| && forall i :: 0 <= i < n ==> Running(answers, i)
    ensures Running(answers, n) <==> GoesOn(answers[n], n == 0)
  {
    HeldRunning(answers, n);
  }

  lemma {:induction false} AllGoOn(answers: seq<Poll>, n: nat)
    requires n <= |answers|
    ensures (forall i :: 0 <= i < n ==> Running(answers, i)) <==>
      (forall i :: 0 <= i < n ==> GoesOn(answers[i], i == 0))
  {
    if n > 0 {
      AllGoOn(answers, n - 1);
      if forall i :: 0 <= i < n - 1 ==> Running(answers, i) {
        RunningExactly(answers, n - 1);
      }
    }
  }

  /** What a job ends with: the answer that does not go on, the first of all or after others that do. */
  predicate EndsWith(answers: seq<Poll>, n: nat, end: JobEnd)
    requires n < |answers|
  {
    match answers[n]
    case Broken(text) => end == JobFailed(text)
    case Answer(First(Some(status), _), _) =>
      end == if status == "COMPLETED" then Completed else JobFailed(LastStderr(answers, n + 1))
    case Answer(First(None, _), _) => end == JobFailed(LastStderr(answers, n + 1))
    case Answer(_, printed) => end == JobFailed(printed)
  }

  /** A transport error and an answer without a job fail, and only an answer that says COMPLETED completes. */
  lemma EndExactly(answers: seq<Poll>, n: nat)
    requires n < |answers| && !Running(answers, n) && forall i :: 0 <= i < n ==> Running(answers, i)
    ensures EndsWith(answers, n, EndOf(answers, n))
  {
    HeldRunning(answers, n);
    RunningExactly(answers, n);
  }

  /**
   AsyncJobCompletion over a sequence of answers; NoEnd means that the loop would ask again after every one of them. It
   stops at the first answer after which it would not, and that answer decides.
   */
  method AsyncJobCompletion(answers: seq<Poll>) returns (end: JobEnd, polls: nat)
    ensures polls <= |answers|
    ensures end == NoEnd <==> forall i :: 0 <= i < |answers| ==> GoesOn(answers[i], i == 0)
    ensures end == NoEnd ==> polls == |answers|
    ensures end != NoEnd ==>
      polls > 0 && !GoesOn(answers[polls - 1], polls == 1) && EndsWith(answers, polls - 1, end)
    ensures forall i :: 0 <= i < polls - 1 ==> GoesOn(answers[i], i == 0)
    ensures end == NoEnd <==> forall i :: 0 <= i < |answers| ==> Running(answers, i)
    ensures end != NoEnd ==> !Running(answers, polls - 1) && end == EndOf(answers, polls - 1)
    ensures forall i :: 0 <= i < polls - 1 ==> Running(answers, i)
    ensures end == Completed <==>
      exists n :: 0 <= n < |answers| && !Running(answers, n) && EndOf(answers, n) == Completed &&
                  forall i :: 0 <= i < n ==> Running(answers, i)
  {
    polls := 0;
    var jobQueryResponse := NoJob;
    while polls < |answers|
      invariant 0 <= polls <= |answers|
      invariant jobQueryResponse == HeldAfter(answers, polls)
      invariant forall i :: 0 <= i < polls ==> Running(answers, i)
    {
      var reply := answers[polls];
      polls := polls + 1;
      AllGoOn(answers, polls);
      AllGoOn(answers, polls - 1);
      if reply.Broken? {
        EndExactly(answers, polls - 1);
        return JobFailed(reply.text), polls;
      }
      jobQueryResponse := Decode(jobQueryResponse, reply.body);
      if jobQueryResponse.NoJob? {
        EndExactly(answers, polls - 1);
        return JobFailed(reply.printed), polls;
      }
      if jobQueryResponse.status == "RUNNING" {
        continue;
      }
      if jobQueryResponse.status == "COMPLETED" {
        EndExactly(answers, polls - 1);
        return Completed, polls;
      }
      EndExactly(answers, polls - 1);
      return JobFailed(jobQueryResponse.stderr), polls;
    }
    AllGoOn(answers, |answers|);
    return NoEnd, polls;
  }

  /** When every answer names its job's status and error, each one speaks for itself. */
  lemma FullAnswersSpeak(answers: seq<Poll>, i: nat)
    requires i < |answers| && answers[i].Answer? && answers[i].body.First?
    requires answers[i].body.status.Some? && answers[i].body.stderr.Some?
    ensures Running(answers, i) <==> answers[i].body.status.value == "RUNNING"
    ensures EndOf(answers, i) ==
      if answers[i].body.status.value == "COMPLETED" then Completed else JobFailed(answers[i].body.stderr.value)
  {
  }

  /**
    An answer that says nothing of the status repeats the one before: while the job was running, it goes on running.
  */
  lemma SilentAnswerRepeats(answers: seq<Poll>, i: nat)
    requires 0 < i < |answers| && Running(answers, i - 1) && answers[i].Answer?
    requires answers[i].body.NoList? || (answers[i].body.First? && answers[i].body.status.None?)
    ensures Running(answers, i)
  {
  }

  /** isStatusOK */
  predicate IsStatusOK(code: int) {
    code == 200 || code == 201 || code == 202
  }

  /** checkAsynchronousJob */
  predicate IsAsynchronous(code: int) {
    code == 202 || code == 201
  }

  /**
    The answer to the request itself: whether the transport succeeded, the status in the body, and how many jobs it
    lists.
  */
  datatype Response = Response(transportOk: bool, code: int, message: string, jobs: nat)

  /** What a call forgives: a text in its job's error, or a text in a refused request's message. */
  datatype Call = Call(jobError: string, refusal: string)

  const CREATE_FILESET := Call("EFSSP1102C", "")
  const MAKE_DIRECTORY := Call("EFSSG0762C", "")
  const CREATE_SYMLINK := Call("EFSSG0762C", "")
  const DELETE_SYMLINK := Call("EFSSG2006C", "")
  const DELETE_FILESET := Call("", "Invalid value in 'fsetName'")
  const DELETE_DIRECTORY := Call("", "")
  const SET_QUOTA := Call("", "")
  const LINK_FILESET := Call("", "")

  /** strings.Contains, for a text that a call has to forgive; the empty one stands for none. */
  predicate Forgives(wanted: string, text: string) {
    wanted != "" && IndexOf(text, wanted) >= 0
  }

  datatype Report = Success | Failure | Waiting

  /** isRequestAccepted */
  predicate Accepted(r: Response) {
    IsStatusOK(r.code) && r.jobs > 0
  }

  /** How the report of an asynchronous call follows from the answers about its job. */
  ghost predicate Told(call: Call, answers: seq<Poll>, report: Report) {
    if forall i :: 0 <= i < |answers| ==> GoesOn(answers[i], i == 0) then report == Waiting
    else exists n, end :: 0 <= n < |answers| && EndsWith(answers, n, end) &&
           !GoesOn(answers[n], n == 0) && (forall i :: 0 <= i < n ==> GoesOn(answers[i], i == 0)) &&
           (report == Success <==> end.Completed? || (end.JobFailed? && Forgives(call.jobError, end.text))) &&
           report != Waiting
  }

  /** What each call forgives: in the error of its job the object that is already there or gone, or not at all. */
  lemma ForgivenTexts(text: string)
    ensures Forgives(CREATE_FILESET.jobError, text) <==> Contains(text, "EFSSP1102C")
    ensures Forgives(MAKE_DIRECTORY.jobError, text) <==> Contains(text, "EFSSG0762C")
    ensures Forgives(CREATE_SYMLINK.jobError, text) <==> Contains(text, "EFSSG0762C")
    ensures Forgives(DELETE_SYMLINK.jobError, text) <==> Contains(text, "EFSSG2006C")
    ensures Forgives(DELETE_FILESET.refusal, text) <==> Contains(text, "Invalid value in 'fsetName'")
    ensures forall call :: Strict(call) ==> !Forgives(call.jobError, text)
    ensures forall call :: (Strict(call) && call != DELETE_FILESET) || Tolerant(call) ==> !Forgives(call.refusal, text)
  {
    IndexOfExactly(text, "EFSSP1102C");
    IndexOfExactly(text, "EFSSG0762C");
    IndexOfExactly(text, "EFSSG2006C");
    IndexOfExactly(text, "Invalid value in 'fsetName'");
  }

  /** The frame all mutating connector calls share. */
  method Perform(call: Call, r: Response, answers: seq<Poll>) returns (report: Report)
    ensures report == Success <==>
      || (!r.transportOk && Forgives(call.refusal, r.message))
      || (r.transportOk && Accepted(r) && r.code == 200)
      || (r.transportOk && Accepted(r) && r.code != 200 && SettlesWell(call, answers))
    ensures r.transportOk && (r.code !in {200, 201, 202} || r.jobs == 0) ==> report == Failure
    ensures r.transportOk && r.code == 200 && r.jobs > 0 ==> report == Success
    ensures r.transportOk && r.code in {201, 202} && r.jobs > 0 ==> Told(call, answers, report)
    ensures report == Waiting ==> forall i :: 0 <= i < |answers| ==> Running(answers, i)
  {
    if !r.transportOk {
      return if Forgives(call.refusal, r.message) then Success else Failure;
    }
    if !IsStatusOK(r.code) || r.jobs == 0 {
      return Failure;
    }
    if IsAsynchronous(r.code) {
      var end, polls := AsyncJobCompletion(answers);
      match end {
        case Completed => FirstDecides(call, answers, polls - 1); return Success;
        case NoEnd => return Waiting;
        case JobFailed(text) =>
          FirstDecides(call, answers, polls - 1);
          return if Forgives(call.jobError, text) then Success else Failure;
      }
    }
    return Success;
  }

  /** The first answer that is not RUNNING completes the job, or fails it with the forgiven error. */
  ghost predicate SettlesWell(call: Call, answers: seq<Poll>) {
    exists n :: 0 <= n < |answers| && !Running(answers, n) && (forall i :: 0 <= i < n ==> Running(answers, i)) &&
                Settled(call, EndOf(answers, n))
  }

  predicate Settled(call: Call, end: JobEnd) {
    end.Completed? || (end.JobFailed? && Forgives(call.jobError, end.text))
  }

  lemma FirstDecides(call: Call, answers: seq<Poll>, n: nat)
    requires n < |answers| && !Running(answers, n) && forall i :: 0 <= i < n ==> Running(answers, i)
    ensures SettlesWell(call, answers) <==> Settled(call, EndOf(answers, n))
  {
  }

  /** The calls whose jobs have to complete; among them the deletion of a directory that is already gone. */
  predicate Strict(call: Call) {
    call == DELETE_FILESET || call == DELETE_DIRECTORY || call == SET_QUOTA || call == LINK_FILESET
  }

  /** The calls that take one error of their job for success: the object is already there, or already gone. */
  predicate Tolerant(call: Call) {
    call == CREATE_FILESET || call == MAKE_DIRECTORY || call == CREATE_SYMLINK || call == DELETE_SYMLINK
  }

  lemma JobErrors(call: Call)
    ensures Strict(call) ==> call.jobError == ""
    ensures Tolerant(call) ==> call.jobError != ""
  {
  }

  /** When a failed job counts as done: never for a strict call, exactly on its one error code for a tolerant one. */
  lemma FailedJobSettles(call: Call, answers: seq<Poll>, n: nat)
    requires n < |answers| && !Running(answers, n) && forall i :: 0 <= i < n ==> Running(answers, i)
    requires EndOf(answers, n).JobFailed?
    ensures Strict(call) ==> !SettlesWell(call, answers)
    ensures Tolerant(call) ==> (SettlesWell(call, answers) <==> IndexOf(EndOf(answers, n).text, call.jobError) >= 0)
  {
    FirstDecides(call, answers, n);
    JobErrors(call);
  }
}
