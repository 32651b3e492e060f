/**
 * The Judge0 helpers of server/src/utils/ProblemUtlis.js: the language table,
 * the status-label table, the batch-submit wrapper and the bounded poll loop.
 * The remote service is an oracle: the batch-submit reply is a value, and the
 * status endpoint is a function from (query, attempt number) to a reply.
 */
module ProblemUtils {
  import opened Wrappers
  import Text

  // ---------------------------------------------------------------------------
  // Language lookup (getIdByLanguage)
  // ---------------------------------------------------------------------------

  /** Judge0 runtime ids, keyed by lower-case language name. */
  const LanguageTable: map<string, nat> :=
    map["c" := 50, "cpp" := 54, "java" := 62, "javascript" := 63, "rust" := 73]

  /**
   * The runtime id of a language name, compared case-insensitively; `None`
   * stands for JavaScript's `undefined`. Only the table's own keys are found.
   */
  function LanguageId(lang: string): (r: Option<nat>)
    ensures r.Some? <==> Text.Lower(lang) in LanguageTable.Keys
    ensures r.Some? ==> r.value in LanguageTable.Values
  {
    var key := Text.Lower(lang);
    if key in LanguageTable then Some(LanguageTable[key]) else None
  }

  /** The five supported names and their ids; every other name is unsupported. */
  lemma LanguageIdTable(lang: string)
    ensures LanguageId(lang) == Some(50) <==> Text.Lower(lang) == "c"
    ensures LanguageId(lang) == Some(54) <==> Text.Lower(lang) == "cpp"
    ensures LanguageId(lang) == Some(62) <==> Text.Lower(lang) == "java"
    ensures LanguageId(lang) == Some(63) <==> Text.Lower(lang) == "javascript"
    ensures LanguageId(lang) == Some(73) <==> Text.Lower(lang) == "rust"
    ensures LanguageId(lang).None? <==>
      Text.Lower(lang) !in {"c", "cpp", "java", "javascript", "rust"}
  {
  }

  /** The lookup does not depend on how the name is capitalised. */
  lemma LanguageIdIgnoresCase(lang: string)
    ensures LanguageId(Text.Upper(lang)) == LanguageId(lang)
    ensures LanguageId(Text.Lower(lang)) == LanguageId(lang)
  {
    Text.LowerOfUpper(lang);
    Text.LowerIdempotent(lang);
  }

  /**
   * What `languageWithId[key]` yields on a JavaScript object literal: an own
   * property, a member inherited from `Object.prototype`, or `undefined`.
   */
  datatype PropertyLookup = OwnProperty(id: nat) | InheritedMember(name: string) | Absent

  /**
   * The names every object literal inherits from `Object.prototype`. The key is
   * lower-cased first, so only "constructor" and "__proto__" can be reached;
   * the others hold an upper-case letter.
   */
  const ObjectPrototypeMembers: set<string> := {
    "constructor", "__proto__", "hasOwnProperty", "isPrototypeOf",
    "propertyIsEnumerable", "toString", "toLocaleString", "valueOf",
    "__defineGetter__", "__defineSetter__", "__lookupGetter__", "__lookupSetter__"
  }

  /** getIdByLanguage as written: a property read on a plain object literal. */
  function LanguageLookupAsWritten(lang: string): (r: PropertyLookup)
    ensures r.Absent? <==>
      Text.Lower(lang) !in LanguageTable && Text.Lower(lang) !in ObjectPrototypeMembers
  {
    var key := Text.Lower(lang);
    if key in LanguageTable then OwnProperty(LanguageTable[key])
    else if key in ObjectPrototypeMembers then InheritedMember(key)
    else Absent
  }

  /**
   * A language field such as "constructor" or "Constructor", which lower-cases
   * to an inherited member's name, yields that member (a function, or the
   * prototype object) instead of `undefined`.
   */
  lemma LanguageLookupAsWrittenInherits(lang: string)
    requires Text.Lower(lang) == "constructor" || Text.Lower(lang) == "__proto__"
    ensures LanguageLookupAsWritten(lang) == InheritedMember(Text.Lower(lang))
    ensures LanguageId(lang).None?
  {
    assert "constructor" !in LanguageTable && "__proto__" !in LanguageTable;
  }

  /** The corrected lookup agrees with the written one wherever that finds an own id. */
  lemma {:induction false} LanguageIdCorrectsLookup(lang: string)
    ensures LanguageLookupAsWritten(lang).OwnProperty? <==> LanguageId(lang).Some?
    ensures LanguageLookupAsWritten(lang).OwnProperty? ==>
      LanguageId(lang) == Some(LanguageLookupAsWritten(lang).id)
    ensures LanguageId(lang).None? ==> !LanguageLookupAsWritten(lang).OwnProperty?
  {
  }

  // ---------------------------------------------------------------------------
  // Status labels (statusIdValue)
  // ---------------------------------------------------------------------------

  /** Judge0's status id of an accepted run. */
  const AcceptedId: int := 3

  /** The verdict label of a Judge0 status id; `None` stands for `undefined`. */
  function StatusLabel(statusId: int): (r: Option<string>)
    ensures r.Some? <==> 4 <= statusId <= 14
  {
    match statusId
    case 4 => Some("Wrong Answer")
    case 5 => Some("Time Limit Exceeded")
    case 6 => Some("Compilation Error")
    case 7 => Some("Runtime Error (SIGSEGV)")
    case 8 => Some("Runtime Error (SIGXFSZ)")
    case 9 => Some("Runtime Error (SIGFPE)")
    case 10 => Some("Runtime Error (SIGABRT)")
    case 11 => Some("Runtime Error (NZEC)")
    case 12 => Some("Runtime Error (Other)")
    case 13 => Some("Internal Error")
    case 14 => Some("Exec Format Error")
    case _ => None
  }

  /** Distinct ids have distinct labels, and no label reads "accepted" or "pending". */
  lemma StatusLabelInjective(a: int, b: int)
    requires StatusLabel(a).Some? && StatusLabel(a) == StatusLabel(b)
    ensures a == b
    ensures StatusLabel(a) != Some("accepted") && StatusLabel(a) != Some("pending")
  {
  }

  /** Queued (1), processing (2) and accepted (3) runs have no label. */
  lemma StatusLabelOfNonFailures()
    ensures StatusLabel(1).None? && StatusLabel(2).None? && StatusLabel(AcceptedId).None?
  {
  }

  // ---------------------------------------------------------------------------
  // Judge0 batch protocol
  // ---------------------------------------------------------------------------

  /** One element of the batch-submit body: code, runtime id, stdin and expected stdout. */
  datatype Job = Job(sourceCode: string, languageId: Option<nat>, stdin: string, expectedOutput: string)

  /** An element of the batch-submit reply: `{ token }`. */
  datatype Handle = Handle(token: string)

  /**
   * One result of the batch-status reply. `time` and `memory` are naturals
   * (milliseconds, kilobytes); a missing value reads as 0, as `x || 0` does.
   */
  datatype JobResult = JobResult(
    statusId: int,
    time: nat,
    memory: nat,
    stderr: Option<string>,
    compileOutput: Option<string>,
    message: Option<string>)

  /** What the batch-submit request brought back: a body, or a failure (axios throws). */
  datatype BatchReply = BatchOk(handles: seq<Handle>) | BatchFailed(error: string)

  /** submitBatch: the response body on success, `undefined` when the request fails. */
  function SubmitBatch(reply: BatchReply): Option<seq<Handle>>
  {
    match reply
    case BatchOk(handles) => Some(handles)
    case BatchFailed(_) => None
  }

  /** `tokens.join(',')`. */
  function JoinTokens(tokens: seq<string>): string
  {
    if tokens == [] then ""
    else if |tokens| == 1 then tokens[0]
    else tokens[0] + "," + JoinTokens(tokens[1..])
  }

  /** The tokens of the handles, in handle order. */
  function Tokens(handles: seq<Handle>): (r: seq<string>)
    ensures |r| == |handles|
    ensures forall i :: 0 <= i < |handles| ==> r[i] == handles[i].token
  {
    if handles == [] then [] else [handles[0].token] + Tokens(handles[1..])
  }

  /** The `tokens` query parameter of the batch-status request. */
  function TokensParam(handles: seq<Handle>): string
  {
    JoinTokens(Tokens(handles))
  }

  /** Cuts a string at every comma (`s.split(',')`). */
  function SplitCommas(s: string): (r: seq<string>)
    ensures |r| >= 1
  {
    if s == [] then [""]
    else if s[0] == ',' then [""] + SplitCommas(s[1..])
    else var rest := SplitCommas(s[1..]); [[s[0]] + rest[0]] + rest[1..]
  }

  lemma {:induction false} SplitNoComma(t: string, u: string)
    requires ',' !in t
    ensures SplitCommas(t) == [t]
    ensures SplitCommas(t + "," + u) == [t] + SplitCommas(u)
  {
    if t == [] {
      assert t + "," + u == [','] + u;
      assert (t + "," + u)[1..] == u;
    } else {
      SplitNoComma(t[1..], u);
      assert (t + "," + u)[1..] == t[1..] + "," + u;
      assert [t[0]] + t[1..] == t;
    }
  }

  /**
   * The tokens parameter lists the handles' tokens in order: splitting it at
   * commas gives them back, provided there is one and none contains a comma.
   */
  lemma {:induction false} TokensParamRoundTrip(handles: seq<Handle>)
    requires handles != []
    requires forall i :: 0 <= i < |handles| ==> ',' !in handles[i].token
    ensures SplitCommas(TokensParam(handles)) == Tokens(handles)
  {
    var ts := Tokens(handles);
    if |handles| == 1 {
      SplitNoComma(ts[0], "");
    } else {
      TokensParamRoundTrip(handles[1..]);
      assert Tokens(handles[1..]) == ts[1..];
      SplitNoComma(ts[0], JoinTokens(ts[1..]));
    }
  }

  /** The batch-status reply: the `submissions` array, or a failed request. */
  datatype Reply = Submissions(results: seq<JobResult>) | RequestFailed(message: string)

  /** How submitToken ends: with all results, by rethrowing an error, or by timing out. */
  datatype PollOutcome = Completed(results: seq<JobResult>) | Rethrown(message: string) | TimedOut

  const MaxRetries: nat := 10

  const TimeoutMessage: string := "Timeout: Judge0 did not return complete results in time"

  /** `result.every((obj) => obj.status_id > 2)`. */
  predicate AllCompleted(results: seq<JobResult>)
  {
    forall i :: 0 <= i < |results| ==> results[i].statusId > 2
  }

  /** A reply that arrived but still holds a queued or processing result. */
  predicate Incomplete(reply: Reply)
  {
    reply.Submissions? && !AllCompleted(reply.results)
  }

  /**
   * The behaviour of the poll loop: `requests` status requests were made
   * (between 1 and 10), all but the last came back incomplete, and the last
   * decides the outcome. `sleeps` counts the one-second waits.
   */
  ghost predicate PollBehaviour(
    query: string, server: (string, nat) -> Reply,
    outcome: PollOutcome, requests: nat, sleeps: nat)
  {
    && 1 <= requests <= MaxRetries
    && (forall k :: 0 <= k < requests - 1 ==> Incomplete(server(query, k)))
    && match outcome
       case Completed(rs) =>
         server(query, requests - 1) == Submissions(rs) && AllCompleted(rs) && sleeps == requests - 1
       case Rethrown(m) =>
         server(query, requests - 1) == RequestFailed(m) && sleeps == requests - 1
       case TimedOut =>
         requests == MaxRetries && Incomplete(server(query, requests - 1)) && sleeps == requests
  }

  /**
   * submitToken: asks for the status of all handles in one request per attempt,
   * returns the results as soon as every one is terminal, rethrows a failed
   * request at once, and gives up after ten incomplete replies.
   */
  method SubmitToken(handles: seq<Handle>, server: (string, nat) -> Reply)
    returns (outcome: PollOutcome, requests: nat, sleeps: nat)
    ensures PollBehaviour(TokensParam(handles), server, outcome, requests, sleeps)
  {
    var query := TokensParam(handles);
    var retryCount := 0;
    sleeps := 0;
    while retryCount < MaxRetries
      invariant 0 <= retryCount <= MaxRetries
      invariant sleeps == retryCount
      invariant forall k :: 0 <= k < retryCount ==> Incomplete(server(query, k))
    {
      var reply := server(query, retryCount);
      match reply {
        case RequestFailed(m) =>
          return Rethrown(m), retryCount + 1, sleeps;
        case Submissions(result) =>
          if AllCompleted(result) {
            return Completed(result), retryCount + 1, sleeps;
          }
      }
      retryCount := retryCount + 1;
      sleeps := sleeps + 1;
    }
    return TimedOut, MaxRetries, sleeps;
  }

  /** The poll contract leaves no freedom: it fixes the outcome and the request count. */
  lemma PollBehaviourUnique(
    query: string, server: (string, nat) -> Reply,
    o1: PollOutcome, n1: nat, s1: nat, o2: PollOutcome, n2: nat, s2: nat)
    requires PollBehaviour(query, server, o1, n1, s1)
    requires PollBehaviour(query, server, o2, n2, s2)
    ensures o1 == o2 && n1 == n2 && s1 == s2
  {
  }

  /** A complete first reply is returned at once, after one request and no wait. */
  lemma PollCompleteAtFirst(
    query: string, server: (string, nat) -> Reply,
    outcome: PollOutcome, requests: nat, sleeps: nat)
    requires PollBehaviour(query, server, outcome, requests, sleeps)
    requires server(query, 0).Submissions? && AllCompleted(server(query, 0).results)
    ensures outcome == Completed(server(query, 0).results) && requests == 1 && sleeps == 0
  {
  }

  /** A timeout happens exactly when the first ten replies are all incomplete. */
  lemma PollTimeoutIff(
    query: string, server: (string, nat) -> Reply,
    outcome: PollOutcome, requests: nat, sleeps: nat)
    requires PollBehaviour(query, server, outcome, requests, sleeps)
    ensures outcome.TimedOut? <==> forall k :: 0 <= k < MaxRetries ==> Incomplete(server(query, k))
  {
    if !outcome.TimedOut? {
      assert !Incomplete(server(query, requests - 1));
    }
  }
}
