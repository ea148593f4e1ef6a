/** The `AnalysisResults` component as a function from the analysis to what
    it lays out: the ring's props, the verdict sentence, the two skill
    counts, the skill badges, and the suggestion and company cards with
    their positions. */
module AnalysisResultsView {
  import opened Wrappers
  import opened AnalysisData
  import Ring = ScoreRingComponent

  datatype Verdict = ExcellentMatch | GoodMatch | ConsiderUpdating

  /** The band the verdict sentence is chosen from: 80 and up, 60 to 79,
      below 60. */
  function VerdictOf(score: int): (v: Verdict)
    ensures v == ExcellentMatch <==> score >= 80
    ensures v == GoodMatch <==> 60 <= score < 80
    ensures v == ConsiderUpdating <==> score < 60
  {
    if score >= 80 then ExcellentMatch else if score >= 60 then GoodMatch else ConsiderUpdating
  }

  function VerdictMessage(v: Verdict): string {
    match v
    case ExcellentMatch => "Excellent match! Your resume is well-optimized for this position."
    case GoodMatch => "Good match with room for improvement. Review the suggestions below."
    case ConsiderUpdating => "Consider updating your resume to better match this role."
  }

  /** The ring colour a verdict corresponds to. */
  function VerdictTone(v: Verdict): Ring.Tone {
    match v
    case ExcellentMatch => Ring.Success
    case GoodMatch => Ring.Warning
    case ConsiderUpdating => Ring.Destructive
  }

  datatype SkillBadge = SkillBadge(skill: string, matched: bool)

  datatype SuggestionCard = SuggestionCard(index: nat, title: string, description: string, priority: Priority)

  datatype CompanyCard = CompanyCard(
    rank: nat,
    company: string,
    position: string,
    location: string,
    score: int,
    matchedSkills: int,
    totalSkills: int)

  /** `skills.map(skill => <SkillBadge skill={skill} type=.../>)`. */
  function SkillBadges(skills: seq<string>, matched: bool): (badges: seq<SkillBadge>)
    ensures |badges| == |skills|
    ensures forall i :: 0 <= i < |skills| ==> badges[i] == SkillBadge(skills[i], matched)
  {
    if skills == [] then [] else [SkillBadge(skills[0], matched)] + SkillBadges(skills[1..], matched)
  }

  /** `suggestions.map((s, index) => <SuggestionCard index={index} .../>)`,
      numbering from `first`. */
  function SuggestionCards(suggestions: seq<Suggestion>, first: nat): (cards: seq<SuggestionCard>)
    ensures |cards| == |suggestions|
    ensures forall i :: 0 <= i < |suggestions| ==>
              cards[i] == SuggestionCard(first + i, suggestions[i].title, suggestions[i].description,
                                         suggestions[i].priority)
  {
    if suggestions == [] then []
    else
      var s := suggestions[0];
      [SuggestionCard(first, s.title, s.description, s.priority)] + SuggestionCards(suggestions[1..], first + 1)
  }

  /** `topCompanies.map((c, index) => <CompanyCard rank={index + 1} .../>)`,
      ranking from `firstRank`. */
  function CompanyCards(companies: seq<CompanyMatch>, firstRank: nat): (cards: seq<CompanyCard>)
    ensures |cards| == |companies|
    ensures forall i :: 0 <= i < |companies| ==>
              && cards[i].rank == firstRank + i
              && cards[i].company == companies[i].company
              && cards[i].position == companies[i].position
              && cards[i].location == companies[i].location
              && cards[i].score == companies[i].score
              && cards[i].matchedSkills == companies[i].matchedSkills
              && cards[i].totalSkills == companies[i].totalSkills
  {
    if companies == [] then []
    else
      var c := companies[0];
      [CompanyCard(firstRank, c.company, c.position, c.location, c.score, c.matchedSkills, c.totalSkills)]
      + CompanyCards(companies[1..], firstRank + 1)
  }

  /** What the component lays out. */
  datatype ResultsPanel = ResultsPanel(
    targetCompany: string,
    ring: Ring.RingProps,
    verdict: string,
    matchedCount: nat,
    missingCount: nat,
    matchedBadges: seq<SkillBadge>,
    missingBadges: seq<SkillBadge>,
    suggestionCards: seq<SuggestionCard>,
    companyCards: seq<CompanyCard>)

  /** The ring gets the ATS score at size 160 and stroke 12, the verdict is
      the one for the ring's score, the two counts are the lengths of the
      skill lists, and one badge is laid out per skill, in order. */
  function Render(results: AnalysisResult, targetCompany: string): (p: ResultsPanel)
    ensures p.targetCompany == targetCompany
    ensures p.ring == Ring.RingProps(results.atsScore, 160, 12, "ATS Score")
    ensures p.verdict == VerdictMessage(VerdictOf(p.ring.score))
    ensures p.matchedCount == |results.matchedSkills| == |p.matchedBadges|
    ensures p.missingCount == |results.missingSkills| == |p.missingBadges|
    ensures forall i :: 0 <= i < |results.matchedSkills| ==>
              p.matchedBadges[i] == SkillBadge(results.matchedSkills[i], true)
    ensures forall i :: 0 <= i < |results.missingSkills| ==>
              p.missingBadges[i] == SkillBadge(results.missingSkills[i], false)
  {
    ResultsPanel(
      targetCompany,
      Ring.ResolveProps(results.atsScore, Some(160), Some(12), Some("ATS Score")),
      VerdictMessage(VerdictOf(results.atsScore)),
      |results.matchedSkills|,
      |results.missingSkills|,
      SkillBadges(results.matchedSkills, true),
      SkillBadges(results.missingSkills, false),
      SuggestionCards(results.suggestions, 0),
      CompanyCards(results.topCompanies, 1))
  }

  /** The verdict sentence depends on the score alone. */
  lemma VerdictDependsOnlyOnScore(a: AnalysisResult, b: AnalysisResult, ta: string, tb: string)
    requires a.atsScore == b.atsScore
    ensures Render(a, ta).verdict == Render(b, tb).verdict
  {
  }

  /** The verdict sentence and the ring colour use the same thresholds. */
  lemma VerdictAgreesWithRing(score: int)
    ensures VerdictTone(VerdictOf(score)) == Ring.ScoreTone(score)
  {
  }

  /** Company cards keep the input order and are ranked 1..n. */
  lemma CompanyRanksFromOne(results: AnalysisResult, targetCompany: string)
    ensures var cards := Render(results, targetCompany).companyCards;
            && |cards| == |results.topCompanies|
            && forall i :: 0 <= i < |cards| ==>
                 cards[i].rank == i + 1 && cards[i].company == results.topCompanies[i].company
  {
  }

  /** Suggestion cards keep the input order, each with its 0-based index and
      its own priority. */
  lemma SuggestionsInOrder(results: AnalysisResult, targetCompany: string)
    ensures var cards := Render(results, targetCompany).suggestionCards;
            && |cards| == |results.suggestions|
            && forall i :: 0 <= i < |cards| ==>
                 cards[i].index == i && cards[i].priority == results.suggestions[i].priority
                 && cards[i].title == results.suggestions[i].title
  {
  }
}
