/** The analysis payload the AI gateway produces through the `analyze_resume`
    tool call, as the client's AnalysisResult interface declares it. Numbers
    are modelled as integers. */
module AnalysisData {

  datatype Priority = High | Medium | Low

  /** One improvement suggestion. */
  datatype Suggestion = Suggestion(title: string, description: string, priority: Priority)

  /** One company the resume is suggested for. */
  datatype CompanyMatch = CompanyMatch(
    company: string,
    position: string,
    location: string,
    score: int,
    matchedSkills: int,
    totalSkills: int)

  datatype AnalysisResult = AnalysisResult(
    atsScore: int,
    matchedSkills: seq<string>,
    missingSkills: seq<string>,
    suggestions: seq<Suggestion>,
    topCompanies: seq<CompanyMatch>)
}
