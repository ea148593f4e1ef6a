/** The `Index` page: the three text inputs, the `canAnalyze` value that
    gates the Analyze button, the choice between the input form and the
    results, and the two buttons' handlers on top of the analysis hook. */
module IndexPage {
  import opened Wrappers
  import opened Text
  import opened AnalysisData
  import Hook
  import View = AnalysisResultsView

  /** JavaScript `a && b` on two strings: `a` when it is falsy (empty),
      otherwise `b`. */
  function JsAnd(a: string, b: string): string {
    if a == "" then a else b
  }

  /** The value of `resumeText.trim() && jobDescription.trim() && companyName.trim()`. */
  function CanAnalyzeValue(resumeText: string, jobDescription: string, companyName: string): (v: string)
    ensures v != "" <==> !Hook.Rejects(resumeText, jobDescription, companyName)
    ensures v != "" ==> v == Trim(companyName)
  {
    JsAnd(JsAnd(Trim(resumeText), Trim(jobDescription)), Trim(companyName))
  }

  /** `canAnalyze` used as a condition: its value is truthy. */
  predicate CanAnalyze(resumeText: string, jobDescription: string, companyName: string) {
    CanAnalyzeValue(resumeText, jobDescription, companyName) != ""
  }

  /** What the main section shows. */
  datatype PageView =
    | InputForm(
        resumeText: string,
        jobDescription: string,
        companyName: string,
        analyzeDisabled: bool,
        showsSpinner: bool,
        showsFillHint: bool)
    | ResultsSection(panel: View.ResultsPanel)

  /** `!results ? <form/> : <results/>`; the button is disabled when
      `!canAnalyze || isAnalyzing`, shows the spinner while analysing, and
      the hint below it is shown when `!canAnalyze`. */
  function ViewOf(resumeText: string, jobDescription: string, companyName: string,
                  isAnalyzing: bool, results: Option<AnalysisResult>): (v: PageView)
    ensures v.InputForm? <==> results.None?
    ensures v.InputForm? ==>
              && v.resumeText == resumeText && v.jobDescription == jobDescription && v.companyName == companyName
              && (v.analyzeDisabled <==> Hook.Rejects(resumeText, jobDescription, companyName) || isAnalyzing)
              && (v.showsFillHint <==> Hook.Rejects(resumeText, jobDescription, companyName))
              && (v.showsSpinner <==> isAnalyzing)
    ensures v.ResultsSection? ==> (v.panel == View.Render(results.value, companyName)
                                   && v.panel.targetCompany == companyName)
  {
    var can := CanAnalyze(resumeText, jobDescription, companyName);
    if results.None? then InputForm(resumeText, jobDescription, companyName, !can || isAnalyzing, isAnalyzing, !can)
    else ResultsSection(View.Render(results.value, companyName))
  }

  /** Analysing is possible exactly when each of the three inputs has a
      character that is not whitespace. */
  lemma CanAnalyzeIffNoneBlank(resumeText: string, jobDescription: string, companyName: string)
    ensures CanAnalyze(resumeText, jobDescription, companyName)
            <==> !Blank(resumeText) && !Blank(jobDescription) && !Blank(companyName)
  {
    TrimEmptyIffBlank(resumeText);
    TrimEmptyIffBlank(jobDescription);
    TrimEmptyIffBlank(companyName);
  }

  /** The page: its three `useState` inputs and its `useResumeAnalysis` hook. */
  class Page {
    var resumeText: string
    var jobDescription: string
    var companyName: string
    const analysis: Hook.ResumeAnalysis

    ghost predicate Valid()
      reads this, analysis
    {
      analysis.Valid()
    }

    /** What the page shows now. */
    function Shown(): PageView
      reads this, analysis
    {
      ViewOf(resumeText, jobDescription, companyName, analysis.isAnalyzing, analysis.results)
    }

    constructor ()
      ensures Valid() && fresh(analysis)
      ensures resumeText == "" && jobDescription == "" && companyName == ""
      ensures analysis.State() == Hook.HookState(false, None, [], [])
      ensures Shown() == InputForm("", "", "", true, false, true)
    {
      resumeText := "";
      jobDescription := "";
      companyName := "";
      analysis := new Hook.ResumeAnalysis();
    }

    method SetResumeText(text: string)
      modifies this`resumeText
      ensures resumeText == text
    {
      resumeText := text;
    }

    method SetJobDescription(text: string)
      modifies this`jobDescription
      ensures jobDescription == text
    {
      jobDescription := text;
    }

    method SetCompanyName(text: string)
      modifies this`companyName
      ensures companyName == text
    {
      companyName := text;
    }

    /** `handleAnalyze`: hands the current inputs to the hook. */
    method HandleAnalyze(outcome: Hook.InvokeOutcome)
      requires Valid()
      modifies analysis
      ensures Valid()
      ensures unchanged(this)
      ensures analysis.State()
              == Hook.Analyze(old(analysis.State()), resumeText, jobDescription, companyName, outcome).0
      ensures CanAnalyze(resumeText, jobDescription, companyName) ==>
                analysis.requests
                == old(analysis.requests) + [Hook.InvokeBody(resumeText, jobDescription, companyName)]
    {
      var settled := analysis.AnalyzeResume(resumeText, jobDescription, companyName, outcome);
    }

    /** "Start New Analysis": clears the results only, so the form comes
        back filled with the previous inputs. */
    method StartNewAnalysis()
      requires Valid()
      modifies analysis
      ensures Valid()
      ensures unchanged(this)
      ensures analysis.State() == Hook.Cleared(old(analysis.State()))
      ensures Shown().InputForm?
      ensures Shown().resumeText == resumeText && Shown().jobDescription == jobDescription
              && Shown().companyName == companyName
    {
      analysis.ClearResults();
    }
  }
}
