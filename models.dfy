/** The records the analysis produces and the exporter and the views consume.
    Each record is built by a function whose optional parameters carry the
    record's declared defaults, so leaving an argument out gives the default
    the record declares. */
module Models {
  import opened Wrappers

  /** One analysed section of a deck; `notes` may be null. */
  datatype SectionAnalysis = SectionAnalysis(content: string, status: string, notes: Option<string>)

  /** What is extracted from a pitch deck: ten text fields and three lists. */
  datatype PitchDeckData = PitchDeckData(
    startupName: string,
    problem: string,
    solution: string,
    product: string,
    marketTam: string,
    businessModel: string,
    tractionMetrics: string,
    team: string,
    competitiveLandscape: string,
    fundingAskStage: string,
    missingSections: seq<string>,
    weakSignals: seq<string>,
    redFlags: seq<string>)

  /** The investment memo: six text sections, two lists and an optional verdict. */
  datatype InvestmentMemo = InvestmentMemo(
    companyOverview: string,
    problemSolutionClarity: string,
    marketOpportunity: string,
    productDifferentiation: string,
    tractionMetricsAnalysis: string,
    teamAssessment: string,
    risksConcerns: seq<string>,
    openQuestions: seq<string>,
    neutralAssessment: Option<string>)

  /** The executive summary; every field but the bullet points has a default. */
  datatype ExecutiveSummary = ExecutiveSummary(
    summaryBulletPoints: seq<string>,
    decisionOutlook: Option<string>,
    confidenceScore: Option<int>,
    marketAlignmentReasoning: Option<string>)

  const DefaultNeutralAssessment := "No specific assessment provided."
  const DefaultDecisionOutlook := "Neutral"
  const DefaultConfidenceScore := 50
  const DefaultMarketAlignment := "Market alignment data unavailable."

  /** `InvestmentMemo(...)`: the verdict may be left out, and then takes its default. */
  function NewInvestmentMemo(
    companyOverview: string,
    problemSolutionClarity: string,
    marketOpportunity: string,
    productDifferentiation: string,
    tractionMetricsAnalysis: string,
    teamAssessment: string,
    risksConcerns: seq<string>,
    openQuestions: seq<string>,
    neutralAssessment: Option<string> := Some(DefaultNeutralAssessment)): (m: InvestmentMemo)
    ensures m.companyOverview == companyOverview && m.problemSolutionClarity == problemSolutionClarity
    ensures m.marketOpportunity == marketOpportunity && m.productDifferentiation == productDifferentiation
    ensures m.tractionMetricsAnalysis == tractionMetricsAnalysis && m.teamAssessment == teamAssessment
    ensures m.risksConcerns == risksConcerns && m.openQuestions == openQuestions
    ensures m.neutralAssessment == neutralAssessment
  {
    InvestmentMemo(companyOverview, problemSolutionClarity, marketOpportunity, productDifferentiation,
                   tractionMetricsAnalysis, teamAssessment, risksConcerns, openQuestions, neutralAssessment)
  }

  /** `ExecutiveSummary(...)`: only the bullet points are required. The score
      is not range-checked: its 0-100 range is only described. */
  function NewExecutiveSummary(
    summaryBulletPoints: seq<string>,
    decisionOutlook: Option<string> := Some(DefaultDecisionOutlook),
    confidenceScore: Option<int> := Some(DefaultConfidenceScore),
    marketAlignmentReasoning: Option<string> := Some(DefaultMarketAlignment)): (s: ExecutiveSummary)
    ensures s.summaryBulletPoints == summaryBulletPoints
    ensures s.decisionOutlook == decisionOutlook && s.confidenceScore == confidenceScore
    ensures s.marketAlignmentReasoning == marketAlignmentReasoning
  {
    ExecutiveSummary(summaryBulletPoints, decisionOutlook, confidenceScore, marketAlignmentReasoning)
  }

  /** A memo built without a verdict carries the default verdict. */
  lemma MemoVerdictDefault(overview: string, clarity: string, market: string, product: string,
                           traction: string, team: string, risks: seq<string>, questions: seq<string>)
    ensures NewInvestmentMemo(overview, clarity, market, product, traction, team, risks, questions).neutralAssessment
            == Some("No specific assessment provided.")
  {
  }

  /** A summary built from bullet points alone carries the three defaults. */
  lemma SummaryDefaults(bullets: seq<string>)
    ensures NewExecutiveSummary(bullets).decisionOutlook == Some("Neutral")
    ensures NewExecutiveSummary(bullets).confidenceScore == Some(50)
    ensures NewExecutiveSummary(bullets).marketAlignmentReasoning == Some("Market alignment data unavailable.")
  {
  }
}
