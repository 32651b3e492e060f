/**
 * submitProblems of server/src/controllers/submitController.js: validate the
 * request, create a "pending" submission, build one Judge0 job per hidden test
 * case, dispatch and poll, fold the results into a verdict and finalise the
 * record once. The problem store, the Judge0 batch endpoint and its status
 * endpoint are parameters.
 */
module SubmitController {
  import opened Wrappers
  import opened ProblemUtils
  import Js

  // ---------------------------------------------------------------------------
  // Verdict of a list of results
  // ---------------------------------------------------------------------------

  predicate Accepted(r: JobResult) { r.statusId == AcceptedId }

  /** The number of accepted results. */
  function CountAccepted(rs: seq<JobResult>): nat
  {
    if rs == [] then 0
    else CountAccepted(rs[..|rs| - 1]) + (if Accepted(rs[|rs| - 1]) then 1 else 0)
  }

  /** The sum of the times of the accepted results. */
  function RuntimeSum(rs: seq<JobResult>): nat
  {
    if rs == [] then 0
    else RuntimeSum(rs[..|rs| - 1]) + (if Accepted(rs[|rs| - 1]) then rs[|rs| - 1].time else 0)
  }

  /** The largest memory of an accepted result, 0 when none is accepted. */
  function MaxMemory(rs: seq<JobResult>): nat
  {
    if rs == [] then 0
    else
      var m := MaxMemory(rs[..|rs| - 1]);
      if Accepted(rs[|rs| - 1]) && rs[|rs| - 1].memory > m then rs[|rs| - 1].memory else m
  }

  /** `results.find(r => r.status_id !== 3)`, as an index. */
  function FirstFailure(rs: seq<JobResult>): (r: Option<nat>)
    ensures r.None? <==> forall k :: 0 <= k < |rs| ==> Accepted(rs[k])
    ensures r.Some? ==> r.value < |rs| && !Accepted(rs[r.value])
    ensures r.Some? ==> forall k :: 0 <= k < r.value ==> Accepted(rs[k])
  {
    if rs == [] then None
    else if !Accepted(rs[0]) then Some(0)
    else match FirstFailure(rs[1..])
      case None => None
      case Some(i) => Some(i + 1)
  }

  /** The index of the last result that is not accepted. */
  function LastFailure(rs: seq<JobResult>): (r: Option<nat>)
    ensures r.None? <==> forall k :: 0 <= k < |rs| ==> Accepted(rs[k])
    ensures r.Some? ==> r.value < |rs| && !Accepted(rs[r.value])
    ensures r.Some? ==> forall k :: r.value < k < |rs| ==> Accepted(rs[k])
  {
    if rs == [] then None
    else if !Accepted(rs[|rs| - 1]) then Some(|rs| - 1)
    else LastFailure(rs[..|rs| - 1])
  }

  /** A string field of a Judge0 result as the value JavaScript reads; a missing field is `null`. */
  function FieldValue(s: Option<string>): (v: Js.JsValue)
    ensures Js.Truthy(v) <==> s.Some? && s.value != ""
  {
    if s.None? then Js.Null else Js.Str(s.value)
  }

  /** A field counts in `||` only when it is truthy: present and non-empty. */
  predicate Truthy(s: Option<string>) { Js.Truthy(FieldValue(s)) }

  const UnknownError: string := "Unknown Error"

  /** `stderr || compile_output || message || "Unknown Error"`. */
  function Diagnostic(r: JobResult): (d: string)
    ensures d != ""
    ensures Truthy(r.stderr) ==> d == r.stderr.value
    ensures !Truthy(r.stderr) && Truthy(r.compileOutput) ==> d == r.compileOutput.value
    ensures !Truthy(r.stderr) && !Truthy(r.compileOutput) && Truthy(r.message) ==> d == r.message.value
    ensures !Truthy(r.stderr) && !Truthy(r.compileOutput) && !Truthy(r.message) ==> d == UnknownError
  {
    if Truthy(r.stderr) then r.stderr.value
    else if Truthy(r.compileOutput) then r.compileOutput.value
    else if Truthy(r.message) then r.message.value
    else UnknownError
  }

  /** `found?.status_id || 6`: a missing or zero status id falls back to 6. */
  function FallbackStatusId(found: Option<JobResult>): int
  {
    if found.Some? && found.value.statusId != 0 then found.value.statusId else 6
  }

  const AcceptedStatus: string := "accepted"
  const PendingStatus: string := "pending"

  /** What is written into the record when judging finishes. */
  datatype Verdict = Verdict(
    status: Option<string>,
    testCasesPassed: nat,
    runtime: nat,
    memory: nat,
    errorMessage: Option<string>)

  /**
   * The verdict of a result list: the status of the FIRST failing result,
   * the diagnostic of the LAST failing one, and counts, sum and maximum over
   * the accepted ones.
   */
  function Aggregate(rs: seq<JobResult>): Verdict
  {
    var first := FirstFailure(rs);
    var last := LastFailure(rs);
    Verdict(
      if first.None? then Some(AcceptedStatus)
      else StatusLabel(FallbackStatusId(Some(rs[first.value]))),
      CountAccepted(rs),
      RuntimeSum(rs),
      MaxMemory(rs),
      if last.None? then None else Some(Diagnostic(rs[last.value])))
  }

  /**
   * The aggregation loop of submitProblems and the `find` after it. Inside the
   * loop `status` follows the latest failure; the `find` then overwrites it
   * with the first failure's label.
   */
  method AggregateResults(getResult: seq<JobResult>) returns (v: Verdict)
    ensures v == Aggregate(getResult)
  {
    var testCasesPassed: nat := 0;
    var runtime: nat := 0;
    var memory: nat := 0;
    var allPassed := true;
    var errorMessage: Option<string> := None;
    var status: Option<string> := Some(AcceptedStatus);
    for i := 0 to |getResult|
      invariant testCasesPassed == CountAccepted(getResult[..i])
      invariant runtime == RuntimeSum(getResult[..i])
      invariant memory == MaxMemory(getResult[..i])
      invariant allPassed <==> forall k :: 0 <= k < i ==> Accepted(getResult[k])
      invariant allPassed ==> status == Some(AcceptedStatus)
      invariant errorMessage ==
        (var last := LastFailure(getResult[..i]);
         if last.None? then None else Some(Diagnostic(getResult[last.value])))
    {
      var oneResult := getResult[i];
      assert getResult[..i + 1][..i] == getResult[..i];
      if oneResult.statusId == AcceptedId {
        testCasesPassed := testCasesPassed + 1;
        runtime := runtime + oneResult.time;
        memory := if memory > oneResult.memory then memory else oneResult.memory;
      } else {
        allPassed := false;
        errorMessage := Some(Diagnostic(oneResult));
        status := StatusLabel(oneResult.statusId);
      }
    }
    assert getResult[..|getResult|] == getResult;
    if !allPassed {
      var first := FirstFailure(getResult);
      status := StatusLabel(FallbackStatusId(if first.Some? then Some(getResult[first.value]) else None));
    }
    v := Verdict(status, testCasesPassed, runtime, memory, errorMessage);
  }

  // ---------------------------------------------------------------------------
  // Properties of the verdict
  // ---------------------------------------------------------------------------

  lemma {:induction false} CountAcceptedBound(rs: seq<JobResult>)
    ensures CountAccepted(rs) <= |rs|
    ensures CountAccepted(rs) == |rs| <==> forall k :: 0 <= k < |rs| ==> Accepted(rs[k])
  {
    if rs != [] {
      var init := rs[..|rs| - 1];
      CountAcceptedBound(init);
      assert forall k :: 0 <= k < |init| ==> init[k] == rs[k];
    }
  }

  /**
   * The status is "accepted" exactly when every result is accepted; then all
   * cases count as passed and there is no error message.
   */
  lemma AcceptedIff(rs: seq<JobResult>)
    ensures Aggregate(rs).status == Some(AcceptedStatus) <==>
      forall k :: 0 <= k < |rs| ==> Accepted(rs[k])
    ensures (forall k :: 0 <= k < |rs| ==> Accepted(rs[k])) ==>
      Aggregate(rs).testCasesPassed == |rs| && Aggregate(rs).errorMessage.None?
  {
    CountAcceptedBound(rs);
    var first := FirstFailure(rs);
    if first.Some? {
      var id := FallbackStatusId(Some(rs[first.value]));
      if StatusLabel(id).Some? {
        StatusLabelInjective(id, id);
      }
    }
  }

  /** The first failing case decides the status, whatever follows it. */
  lemma FirstFailureDecidesStatus(rs: seq<JobResult>, i: nat)
    requires i < |rs| && !Accepted(rs[i])
    requires forall k :: 0 <= k < i ==> Accepted(rs[k])
    ensures Aggregate(rs).status == StatusLabel(FallbackStatusId(Some(rs[i])))
  {
    assert FirstFailure(rs).Some?;
  }

  /** The status does not change when results are added after the first failure. */
  lemma StatusIgnoresLaterResults(rs: seq<JobResult>, i: nat, tail: seq<JobResult>)
    requires i < |rs| && !Accepted(rs[i])
    requires forall k :: 0 <= k < i ==> Accepted(rs[k])
    ensures Aggregate(rs + tail).status == Aggregate(rs).status
  {
    FirstFailureDecidesStatus(rs, i);
    assert forall k :: 0 <= k <= i ==> (rs + tail)[k] == rs[k];
    FirstFailureDecidesStatus(rs + tail, i);
  }

  /** The last failing case decides the error message. */
  lemma LastFailureDecidesErrorMessage(rs: seq<JobResult>, i: nat)
    requires i < |rs| && !Accepted(rs[i])
    requires forall k :: i < k < |rs| ==> Accepted(rs[k])
    ensures Aggregate(rs).errorMessage == Some(Diagnostic(rs[i]))
  {
    assert LastFailure(rs).Some?;
  }

  /**
   * With two failing cases, the status comes from the earlier one and the
   * error message from the later one.
   */
  lemma StatusAndMessageFromDifferentCases(rs: seq<JobResult>, i: nat, j: nat)
    requires i < j < |rs| && !Accepted(rs[i]) && !Accepted(rs[j])
    requires forall k :: 0 <= k < i ==> Accepted(rs[k])
    requires forall k :: j < k < |rs| ==> Accepted(rs[k])
    ensures Aggregate(rs).status == StatusLabel(FallbackStatusId(Some(rs[i])))
    ensures Aggregate(rs).errorMessage == Some(Diagnostic(rs[j]))
  {
    FirstFailureDecidesStatus(rs, i);
    LastFailureDecidesErrorMessage(rs, j);
  }

  /** Memory is the maximum over the accepted results: an upper bound that is attained. */
  lemma {:induction false} MaxMemoryIsMaximum(rs: seq<JobResult>)
    ensures forall k :: 0 <= k < |rs| && Accepted(rs[k]) ==> rs[k].memory <= MaxMemory(rs)
    ensures MaxMemory(rs) == 0 ||
      exists k :: 0 <= k < |rs| && Accepted(rs[k]) && rs[k].memory == MaxMemory(rs)
  {
    if rs != [] {
      var init := rs[..|rs| - 1];
      MaxMemoryIsMaximum(init);
      assert forall k :: 0 <= k < |init| ==> init[k] == rs[k];
    }
  }

  /** Runtime adds up over consecutive parts of the result list. */
  lemma {:induction false} RuntimeSumAppend(a: seq<JobResult>, b: seq<JobResult>)
    ensures RuntimeSum(a + b) == RuntimeSum(a) + RuntimeSum(b)
  {
    if b != [] {
      var init := b[..|b| - 1];
      RuntimeSumAppend(a, init);
      assert (a + b)[..|a + b| - 1] == a + init;
    } else {
      assert a + b == a;
    }
  }

  /** Failing cases add nothing to the runtime, the count or the memory. */
  lemma {:induction false} FailuresContributeNothing(rs: seq<JobResult>)
    requires forall k :: 0 <= k < |rs| ==> !Accepted(rs[k])
    ensures RuntimeSum(rs) == 0 && CountAccepted(rs) == 0 && MaxMemory(rs) == 0
  {
    if rs != [] {
      var init := rs[..|rs| - 1];
      assert forall k :: 0 <= k < |init| ==> init[k] == rs[k];
      FailuresContributeNothing(init);
    }
  }

  function Passed(time: nat, memory: nat): JobResult
  {
    JobResult(AcceptedId, time, memory, None, None, None)
  }

  /** Appending one result adds its share to the count, the runtime and the memory. */
  lemma AppendOne(rs: seq<JobResult>, r: JobResult)
    ensures CountAccepted(rs + [r]) == CountAccepted(rs) + (if Accepted(r) then 1 else 0)
    ensures RuntimeSum(rs + [r]) == RuntimeSum(rs) + (if Accepted(r) then r.time else 0)
    ensures MaxMemory(rs + [r]) == if Accepted(r) && r.memory > MaxMemory(rs) then r.memory else MaxMemory(rs)
  {
    assert (rs + [r])[..|rs|] == rs;
  }

  /** Two passing cases, then a wrong answer. */
  lemma ScenarioWrongAnswerLast()
    ensures Aggregate([Passed(100, 200), Passed(200, 150), JobResult(4, 0, 0, None, None, None)])
         == Verdict(Some("Wrong Answer"), 2, 300, 200, Some(UnknownError))
  {
    var a, b, c := Passed(100, 200), Passed(200, 150), JobResult(4, 0, 0, None, None, None);
    AppendOne([], a);
    assert [] + [a] == [a];
    AppendOne([a], b);
    assert [a] + [b] == [a, b];
    AppendOne([a, b], c);
    assert [a, b] + [c] == [a, b, c];
    FirstFailureDecidesStatus([a, b, c], 2);
    LastFailureDecidesErrorMessage([a, b, c], 2);
  }

  /**
   * A compilation error, then a runtime error: the status is the compilation
   * error's, the message the runtime error's stderr.
   */
  lemma ScenarioStatusAndMessageDiffer()
    ensures Aggregate([JobResult(6, 0, 0, None, Some("syntax error"), None),
                       JobResult(11, 0, 0, Some("segfault"), None, None)])
         == Verdict(Some("Compilation Error"), 0, 0, 0, Some("segfault"))
  {
    var rs := [JobResult(6, 0, 0, None, Some("syntax error"), None),
               JobResult(11, 0, 0, Some("segfault"), None, None)];
    FailuresContributeNothing(rs);
    StatusAndMessageFromDifferentCases(rs, 0, 1);
  }

  /**
   * A compilation error, then a pass: the status is the compilation error's,
   * but the passing case is still counted, timed and measured.
   */
  lemma ScenarioFailureThenPass()
    ensures Aggregate([JobResult(6, 0, 0, None, Some("syntax error"), None), Passed(120, 300)])
         == Verdict(Some("Compilation Error"), 1, 120, 300, Some("syntax error"))
  {
    var a, b := JobResult(6, 0, 0, None, Some("syntax error"), None), Passed(120, 300);
    AppendOne([], a);
    assert [] + [a] == [a];
    AppendOne([a], b);
    assert [a] + [b] == [a, b];
    FirstFailureDecidesStatus([a, b], 0);
    LastFailureDecidesErrorMessage([a, b], 0);
  }

  // ---------------------------------------------------------------------------
  // Jobs
  // ---------------------------------------------------------------------------

  datatype TestCase = TestCase(input: string, output: string)

  /** A problem as far as submitting needs it. */
  datatype Problem = Problem(hiddenTestCases: seq<TestCase>)

  /** `hiddenTestCases.map(...)`: one job per case, in order. */
  function BuildJobs(code: string, languageId: Option<nat>, cases: seq<TestCase>): (jobs: seq<Job>)
    ensures |jobs| == |cases|
    ensures forall i :: 0 <= i < |cases| ==>
      jobs[i] == Job(code, languageId, cases[i].input, cases[i].output)
  {
    if cases == [] then []
    else [Job(code, languageId, cases[0].input, cases[0].output)] + BuildJobs(code, languageId, cases[1..])
  }

  // ---------------------------------------------------------------------------
  // The submission record and the controller
  // ---------------------------------------------------------------------------

  /**
   * The persisted submission document. Its identity fields are fixed at
   * creation; the verdict fields are assigned in place and then saved.
   * `runtime`, `memory` and `errorMessage` are unset (`None`) until then.
   */
  class Submission {
    const userId: string
    const problemId: string
    const code: string
    const language: string
    const testcasesTotal: nat
    var status: Option<string>
    var testCasesPassed: nat
    var runtime: Option<nat>
    var memory: Option<nat>
    var errorMessage: Option<string>
    var saves: nat

    /** `submission.create({...})`. */
    constructor Create(userId: string, problemId: string, code: string, language: string, testcasesTotal: nat)
      ensures this.userId == userId && this.problemId == problemId
      ensures this.code == code && this.language == language
      ensures this.testcasesTotal == testcasesTotal
      ensures IsPending()
    {
      this.userId := userId;
      this.problemId := problemId;
      this.code := code;
      this.language := language;
      this.testcasesTotal := testcasesTotal;
      status := Some(PendingStatus);
      testCasesPassed := 0;
      runtime := None;
      memory := None;
      errorMessage := None;
      saves := 0;
    }

    /** The state `create` leaves: pending, nothing passed, nothing saved since. */
    predicate IsPending()
      reads this
    {
      status == Some(PendingStatus) && testCasesPassed == 0 && runtime.None? && memory.None?
      && errorMessage.None? && saves == 0
    }

    /** The state after one finalisation with verdict `v`. */
    predicate HoldsVerdict(v: Verdict)
      reads this
    {
      status == v.status && testCasesPassed == v.testCasesPassed && runtime == Some(v.runtime)
      && memory == Some(v.memory) && errorMessage == v.errorMessage && saves == 1
    }

    /** The five field assignments and `save()`. */
    method Finalize(v: Verdict)
      requires saves == 0
      modifies this
      ensures HoldsVerdict(v)
    {
      status := v.status;
      testCasesPassed := v.testCasesPassed;
      errorMessage := v.errorMessage;
      runtime := Some(v.runtime);
      memory := Some(v.memory);
      saves := saves + 1;
    }
  }

  /** The request fields submitProblems reads; "" stands for a missing field. */
  datatype SubmitRequest = SubmitRequest(userId: string, problemId: string, code: string, language: string)

  predicate FieldsPresent(req: SubmitRequest)
  {
    req.userId != "" && req.problemId != "" && req.code != "" && req.language != ""
  }

  datatype Body =
    | Text(text: string)
    | ErrorJson(error: string)
    | StringifiedError
    | SubmissionJson

  datatype HttpResponse = HttpResponse(code: nat, body: Body)

  /** The side effects of one request, in the order they happen. */
  datatype Effect = Created | Dispatched(jobs: seq<Job>) | Polled(requests: nat) | Saved

  /** The message of the TypeError thrown by `undefined.map(...)` in submitToken. */
  const UndefinedMapMessage: string := "Cannot read properties of undefined (reading 'map')"

  /** `err?.message || JSON.stringify(err) || ...` for an error carrying `message`. */
  function ErrorBody(message: string): Body
  {
    if message != "" then ErrorJson(message) else StringifiedError
  }

  /**
   * submitProblems. `problems` is the problem store, `judge` the batch-submit
   * endpoint and `server` the batch-status endpoint.
   */
  method SubmitProblems(
    req: SubmitRequest,
    problems: map<string, Problem>,
    judge: seq<Job> -> BatchReply,
    server: (string, nat) -> Reply)
    returns (res: HttpResponse, record: Submission?, ghost polled: Option<PollOutcome>, ghost effects: seq<Effect>)
    ensures !FieldsPresent(req) ==>
      res == HttpResponse(400, Text("Some field missing")) && record == null && effects == []
    ensures FieldsPresent(req) && req.problemId !in problems ==>
      res == HttpResponse(400, Text("No problem found")) && record == null && effects == []
    ensures FieldsPresent(req) && req.problemId in problems ==>
      var cases := problems[req.problemId].hiddenTestCases;
      var jobs := BuildJobs(req.code, LanguageId(req.language), cases);
      && record != null && fresh(record)
      && record.userId == req.userId && record.problemId == req.problemId
      && record.code == req.code && record.language == req.language
      && record.testcasesTotal == |cases|
      && match SubmitBatch(judge(jobs))
         case None =>
           && polled.None? && effects == [Created, Dispatched(jobs)]
           && res == HttpResponse(500, ErrorJson(UndefinedMapMessage)) && record.IsPending()
         case Some(handles) =>
           && polled.Some?
           && (exists n, s :: PollBehaviour(TokensParam(handles), server, polled.value, n, s)
                && |effects| >= 3 && effects[..3] == [Created, Dispatched(jobs), Polled(n)])
           && match polled.value
              case Completed(rs) =>
                res == HttpResponse(201, SubmissionJson) && record.HoldsVerdict(Aggregate(rs))
                && |effects| == 4 && effects[3] == Saved
              case Rethrown(m) =>
                res == HttpResponse(500, ErrorBody(m)) && record.IsPending() && |effects| == 3
              case TimedOut =>
                res == HttpResponse(500, ErrorJson(TimeoutMessage)) && record.IsPending() && |effects| == 3
  {
    polled := None;
    effects := [];
    if !FieldsPresent(req) {
      return HttpResponse(400, Text("Some field missing")), null, polled, effects;
    }
    if req.problemId !in problems {
      return HttpResponse(400, Text("No problem found")), null, polled, effects;
    }
    var problem := problems[req.problemId];
    record := new Submission.Create(req.userId, req.problemId, req.code, req.language, |problem.hiddenTestCases|);
    effects := effects + [Created];
    var languageId := LanguageId(req.language);
    var submissions := BuildJobs(req.code, languageId, problem.hiddenTestCases);
    var getToken := SubmitBatch(judge(submissions));
    effects := effects + [Dispatched(submissions)];
    if getToken.None? {
      return HttpResponse(500, ErrorJson(UndefinedMapMessage)), record, polled, effects;
    }
    var outcome, requests, sleeps := SubmitToken(getToken.value, server);
    polled := Some(outcome);
    effects := effects + [Polled(requests)];
    match outcome {
      case Rethrown(m) =>
        return HttpResponse(500, ErrorBody(m)), record, polled, effects;
      case TimedOut =>
        return HttpResponse(500, ErrorJson(TimeoutMessage)), record, polled, effects;
      case Completed(getResult) =>
        var verdict := AggregateResults(getResult);
        record.Finalize(verdict);
        effects := effects + [Saved];
        res := HttpResponse(201, SubmissionJson);
    }
  }
}
