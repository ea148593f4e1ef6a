/** The client hook `useResumeAnalysis`: two pieces of React state
    (`isAnalyzing`, `results`), the `analyzeResume` call with its guard,
    try/catch/finally and error classification, and `clearResults`.
    State setters are sequential assignments; the remote invoke is an
    outcome supplied by the caller; toasts are recorded as notices. */
module Hook {
  import opened Wrappers
  import opened Text
  import opened AnalysisData

  const FallbackMessage := "Failed to analyze resume"
  const UnexpectedMessage := "An unexpected error occurred"
  const RateLimitMarker := "Rate limit"
  const CreditsMarker := "credits"

  /** How the awaited `supabase.functions.invoke` settles. The messages are
      decided by the client library and may be any string. */
  datatype InvokeOutcome =
    | InvokeRejected(errorMessage: Option<string>) // the promise rejects: with an Error and its message, or with another value
    | InvokeFailed(message: string)               // it resolves with `error` set
    | ErrorPayload(error: string)                 // `data.error` is truthy; `error` is its string form
    | Delivered(data: AnalysisResult)             // `data` is the analysis

  /** The body handed to the bridge. */
  datatype InvokeBody = InvokeBody(resume: string, jobDescription: string, companyName: string)

  /** The toasts the hook emits, by kind. */
  datatype Notice =
    | MissingInformation
    | AnalysisComplete(companyName: string, atsScore: int)
    | TooManyRequests
    | CreditsExhausted
    | AnalysisFailed(detail: string)

  datatype Toast = Toast(title: string, description: string, destructive: bool)

  /** The texts shown for each notice. */
  function ToastOf(n: Notice): Toast {
    match n
    case MissingInformation =>
      Toast("Missing information", "Please provide your resume, company name, and job description.", true)
    case AnalysisComplete(company, score) =>
      Toast("Analysis complete!", "Your ATS score for " + company + " is " + IntToDecimal(score) + "%", false)
    case TooManyRequests =>
      Toast("Too many requests", "Please wait a moment before trying again.", true)
    case CreditsExhausted =>
      Toast("Credits exhausted", "Please add AI credits to continue using this feature.", true)
    case AnalysisFailed(detail) =>
      Toast("Analysis failed", detail, true)
  }

  /** The synchronous guard: some input is empty once trimmed. */
  predicate Rejects(resume: string, jobDescription: string, companyName: string)
    ensures Rejects(resume, jobDescription, companyName) <==> Blank(resume) || Blank(jobDescription) || Blank(companyName)
  {
    TrimEmptyIffBlank(resume);
    TrimEmptyIffBlank(jobDescription);
    TrimEmptyIffBlank(companyName);
    Trim(resume) == "" || Trim(jobDescription) == "" || Trim(companyName) == ""
  }

  /** The message the catch block reads, if the try block throws: the
      fallback text applies only to a resolved `error`. */
  function ThrownMessage(outcome: InvokeOutcome): Option<string> {
    match outcome
    case InvokeRejected(e) => Some(if e.Some? then e.value else UnexpectedMessage)
    case InvokeFailed(m) => Some(if m == "" then FallbackMessage else m)
    case ErrorPayload(e) => Some(e)
    case Delivered(_) => None
  }

  /** The catch block's choice of toast. */
  function Classify(message: string): (n: Notice)
    ensures n.TooManyRequests? || n.CreditsExhausted? || n == AnalysisFailed(message)
    ensures n.TooManyRequests? ==> Contains(message, RateLimitMarker)
    ensures n.CreditsExhausted? ==> !Contains(message, RateLimitMarker) && Contains(message, CreditsMarker)
  {
    if Contains(message, RateLimitMarker) then TooManyRequests
    else if Contains(message, CreditsMarker) then CreditsExhausted
    else AnalysisFailed(message)
  }

  /** The toast emitted once the invoke has settled. */
  function SettleNotice(outcome: InvokeOutcome, companyName: string): Notice {
    match ThrownMessage(outcome)
    case Some(m) => Classify(m)
    case None => AnalysisComplete(companyName, outcome.data.atsScore)
  }

  /** What `analyzeResume` resolves to once the invoke has settled. */
  function SettleReturn(outcome: InvokeOutcome): Option<AnalysisResult> {
    if outcome.Delivered? then Some(outcome.data) else None
  }

  /** The observable state of the hook: its two state variables, the toasts
      emitted so far and the bodies sent to the bridge so far. */
  datatype HookState = HookState(
    isAnalyzing: bool,
    results: Option<AnalysisResult>,
    notices: seq<Notice>,
    requests: seq<InvokeBody>)

  /** The state after `analyzeResume` settles, and what it returns. */
  function Analyze(s: HookState, resume: string, jobDescription: string, companyName: string,
                   outcome: InvokeOutcome): (r: (HookState, Option<AnalysisResult>))
    ensures Rejects(resume, jobDescription, companyName) ==>
              r.1 == None && r.0.isAnalyzing == s.isAnalyzing && r.0.requests == s.requests
    ensures !Rejects(resume, jobDescription, companyName) ==>
              !r.0.isAnalyzing && r.0.requests == s.requests + [InvokeBody(resume, jobDescription, companyName)]
    ensures r.1.Some? <==> !Rejects(resume, jobDescription, companyName) && outcome.Delivered?
    ensures r.1.Some? ==> r.0.results == r.1
    ensures r.1.None? ==> r.0.results == s.results
    ensures |r.0.notices| == |s.notices| + 1 && r.0.notices[..|s.notices|] == s.notices
  {
    if Rejects(resume, jobDescription, companyName) then
      (s.(notices := s.notices + [MissingInformation]), None)
    else
      var r := SettleReturn(outcome);
      (HookState(false,
                 if r.Some? then r else s.results,
                 s.notices + [SettleNotice(outcome, companyName)],
                 s.requests + [InvokeBody(resume, jobDescription, companyName)]),
       r)
  }

  /** The state after `clearResults`. */
  function Cleared(s: HookState): HookState {
    s.(results := None)
  }

  /** The trace of `setIsAnalyzing` values left by n accepted calls. */
  function Bracketed(n: nat): seq<bool> {
    if n == 0 then [] else Bracketed(n - 1) + [true, false]
  }

  class ResumeAnalysis {
    var isAnalyzing: bool
    var results: Option<AnalysisResult>
    /** The toasts emitted, oldest first. */
    var notices: seq<Notice>
    /** The bodies handed to the bridge, oldest first. */
    var requests: seq<InvokeBody>
    /** Every value passed to `setIsAnalyzing`, in order. */
    ghost var busyWrites: seq<bool>

    /** Between calls no analysis is in flight, and every invoke was
        bracketed by `setIsAnalyzing(true)` and `setIsAnalyzing(false)`. */
    ghost predicate Valid()
      reads this
    {
      && !isAnalyzing
      && busyWrites == Bracketed(|requests|)
    }

    function State(): HookState
      reads this
    {
      HookState(isAnalyzing, results, notices, requests)
    }

    constructor ()
      ensures Valid()
      ensures State() == HookState(false, None, [], [])
    {
      isAnalyzing := false;
      results := None;
      notices := [];
      requests := [];
      busyWrites := [];
    }

    /** `analyzeResume(resume, jobDescription, companyName)`, with `outcome`
        standing for how the awaited invoke settles. */
    method AnalyzeResume(resume: string, jobDescription: string, companyName: string, outcome: InvokeOutcome)
      returns (r: Option<AnalysisResult>)
      requires Valid()
      modifies this
      ensures Valid()
      ensures (State(), r) == Analyze(old(State()), resume, jobDescription, companyName, outcome)
      ensures Rejects(resume, jobDescription, companyName) ==> busyWrites == old(busyWrites)
      ensures !Rejects(resume, jobDescription, companyName) ==> busyWrites == old(busyWrites) + [true, false]
    {
      if Rejects(resume, jobDescription, companyName) {
        notices := notices + [MissingInformation];
        return None;
      }
      ghost var s0 := State();

      isAnalyzing := true;
      busyWrites := busyWrites + [true];

      requests := requests + [InvokeBody(resume, jobDescription, companyName)];
      var thrown: Option<string> := None;
      match outcome {
        case InvokeRejected(e) =>
          thrown := Some(if e.Some? then e.value else UnexpectedMessage);
        case InvokeFailed(message) =>
          thrown := Some(if message == "" then FallbackMessage else message);
        case ErrorPayload(error) =>
          thrown := Some(error);
        case Delivered(data) =>
          results := Some(data);
          notices := notices + [AnalysisComplete(companyName, data.atsScore)];
          r := Some(data);
      }
      if thrown.Some? {
        notices := notices + [Classify(thrown.value)];
        r := None;
      }

      isAnalyzing := false;
      busyWrites := busyWrites + [false];
      assert r == SettleReturn(outcome);
      assert notices == s0.notices + [SettleNotice(outcome, companyName)];
      assert busyWrites == Bracketed(|requests|);
    }

    /** `clearResults`: drops the stored result and nothing else. */
    method ClearResults()
      requires Valid()
      modifies this`results
      ensures Valid()
      ensures State() == Cleared(old(State()))
    {
      results := None;
    }
  }

  /** A rejected call emits "Missing information", returns null, sends
      nothing and leaves both state variables as they were. */
  lemma GuardShortCircuits(s: HookState, resume: string, jobDescription: string, companyName: string,
                           outcome: InvokeOutcome)
    requires Rejects(resume, jobDescription, companyName)
    ensures Analyze(s, resume, jobDescription, companyName, outcome)
         == (HookState(s.isAnalyzing, s.results, s.notices + [MissingInformation], s.requests), None)
  {
  }

  /** Once an accepted call settles, on any outcome, no analysis is in
      flight, exactly one body was sent and exactly one toast emitted. */
  lemma SettledCallIsIdle(s: HookState, resume: string, jobDescription: string, companyName: string,
                          outcome: InvokeOutcome)
    requires !Rejects(resume, jobDescription, companyName)
    ensures !Analyze(s, resume, jobDescription, companyName, outcome).0.isAnalyzing
    ensures Analyze(s, resume, jobDescription, companyName, outcome).0.requests
         == s.requests + [InvokeBody(resume, jobDescription, companyName)]
    ensures |Analyze(s, resume, jobDescription, companyName, outcome).0.notices| == |s.notices| + 1
  {
  }

  /** On success the analysis is stored and returned, and the toast names
      the company and the score. */
  lemma SuccessStoresResult(s: HookState, resume: string, jobDescription: string, companyName: string,
                            data: AnalysisResult)
    requires !Rejects(resume, jobDescription, companyName)
    ensures var (t, r) := Analyze(s, resume, jobDescription, companyName, Delivered(data));
            r == Some(data) && t.results == Some(data)
            && t.notices == s.notices + [AnalysisComplete(companyName, data.atsScore)]
  {
  }

  /** On a transport error or an error payload the call returns null and
      `results` keeps its previous value; the toast is the classified
      message. */
  lemma FailureKeepsResults(s: HookState, resume: string, jobDescription: string, companyName: string,
                            outcome: InvokeOutcome)
    requires !outcome.Delivered?
    ensures var (t, r) := Analyze(s, resume, jobDescription, companyName, outcome);
            r == None && t.results == s.results
    ensures !Rejects(resume, jobDescription, companyName) ==>
              Analyze(s, resume, jobDescription, companyName, outcome).0.notices
              == s.notices + [Classify(ThrownMessage(outcome).value)]
  {
  }

  /** "Failed to analyze resume" matches neither marker. */
  lemma FallbackIsGeneric()
    ensures Classify(FallbackMessage) == AnalysisFailed(FallbackMessage)
  {
    FallbackLacksRateLimit();
    FallbackLacksCredits();
  }

  lemma FallbackLacksRateLimit()
    ensures !Contains(FallbackMessage, RateLimitMarker)
  {
    AbsentCharExcludes(FallbackMessage, RateLimitMarker, 0);
  }

  lemma FallbackLacksCredits()
    ensures !Contains(FallbackMessage, CreditsMarker)
  {
    AbsentCharExcludes(FallbackMessage, CreditsMarker, 0);
  }

  /** A transport error with an empty message is reported as "Failed to
      analyze resume" under the generic title. */
  lemma EmptyTransportMessageReplaced(companyName: string)
    ensures SettleNotice(InvokeFailed(""), companyName) == AnalysisFailed(FallbackMessage)
  {
    FallbackIsGeneric();
  }

  /** The three notices a caught message can give, each exactly on the
      messages it is meant for; the generic one carries the message. */
  lemma ClassifyCases(message: string)
    ensures Classify(message) == TooManyRequests <==> Contains(message, RateLimitMarker)
    ensures Classify(message) == CreditsExhausted
            <==> !Contains(message, RateLimitMarker) && Contains(message, CreditsMarker)
    ensures Classify(message) == AnalysisFailed(message)
            <==> !Contains(message, RateLimitMarker) && !Contains(message, CreditsMarker)
    ensures Classify(message).TooManyRequests? || Classify(message).CreditsExhausted?
            || Classify(message) == AnalysisFailed(message)
  {
  }

  /** A rejected invoke gets no fallback text: an Error with an empty
      message is shown as an empty generic failure. */
  lemma RejectionGetsNoFallback(companyName: string)
    ensures SettleNotice(InvokeRejected(Some("")), companyName) == AnalysisFailed("")
  {
  }

  /** A rejection with a value that is not an Error is reported as "An
      unexpected error occurred" under the generic title. */
  lemma NonErrorRejectionIsGeneric(companyName: string)
    ensures SettleNotice(InvokeRejected(None), companyName) == AnalysisFailed(UnexpectedMessage)
  {
    AbsentCharExcludes(UnexpectedMessage, RateLimitMarker, 0);
    AbsentCharExcludes(UnexpectedMessage, CreditsMarker, 4);
  }

  /** "Rate limit" wins over "credits" when a message has both. */
  lemma RateLimitCheckedFirst(message: string)
    requires Contains(message, RateLimitMarker) && Contains(message, CreditsMarker)
    ensures Classify(message) == TooManyRequests
  {
  }

  /** The match is case-sensitive: "rate limit" and "Credits" select the
      generic notice. */
  lemma ClassifyIsCaseSensitive()
    ensures Classify("rate limit; Credits") == AnalysisFailed("rate limit; Credits")
  {
    LowerCaseRateLimitMissed();
    UpperCaseCreditsMissed();
  }

  lemma LowerCaseRateLimitMissed()
    ensures !Contains("rate limit; Credits", RateLimitMarker)
  {
    AbsentCharExcludes("rate limit; Credits", RateLimitMarker, 0);
  }

  lemma UpperCaseCreditsMissed()
    ensures !Contains("rate limit; Credits", CreditsMarker)
  {
    AbsentCharExcludes("rate limit; Credits", CreditsMarker, 0);
  }

  /** `clearResults` twice leaves the state it leaves once. */
  lemma ClearedIdempotent(s: HookState)
    ensures Cleared(Cleared(s)) == Cleared(s)
    ensures Cleared(s).isAnalyzing == s.isAnalyzing && Cleared(s).results == None
  {
  }

  /** The success toast of the scenario in which the gateway scores a resume
      at 70 for Acme mentions both "70" and "Acme". */
  lemma SuccessToastScenario()
    ensures var d := ToastOf(AnalysisComplete("Acme", 70)).description;
            Contains(d, "Acme") && Contains(d, "70")
  {
    var d := ToastOf(AnalysisComplete("Acme", 70)).description;
    assert NatToDecimal(70) == "70";
    assert d == "Your ATS score for Acme is 70%";
    assert OccursAt(d, "Acme", 19);
    assert OccursAt(d, "70", 27);
  }
}
