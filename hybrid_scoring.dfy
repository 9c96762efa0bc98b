/** The hybrid scoring engine: a 60-point hard match (skills, qualifications and
    experience), a 40-point soft match built from three similarities, the combined
    relevance score and fit verdict, and the gap, suggestion and interview lists.

    The fuzzy scorer (`fuzz.token_set_ratio` as `process.extractOne` applies it) and
    the embedding or TF-IDF cosine similarity are oracles passed in by the caller. */
module HybridScoring {
  import opened Text
  import JdParser
  import ResumeAnalyzer

  // ---------------------------------------------------------------- configuration

  datatype WeightingConfig = WeightingConfig(
    hardMatchWeight: real,
    softMatchWeight: real,
    mustHaveSkillsWeight: real,
    goodToHaveSkillsWeight: real,
    qualificationWeight: real,
    experienceWeight: real,
    semanticSimilarityWeight: real,
    roleAlignmentWeight: real,
    projectRelevanceWeight: real,
    highFitThreshold: real,
    mediumFitThreshold: real)

  /** `WeightingConfig()` with its declared defaults. */
  const DefaultConfig := WeightingConfig(0.6, 0.4, 0.4, 0.2, 0.2, 0.2, 0.5, 0.3, 0.2, 75.0, 50.0)

  /** The minimum `fuzz.token_set_ratio` score counted as a fuzzy skill match. */
  const FuzzyThreshold := 80

  /** `FitVerdict` with its values "High", "Medium" and "Low". */
  datatype FitVerdict = High | Medium | Low

  type FuzzyScorer = (string, string) -> int

  /** Cosine similarity of two texts under the loaded embedding model or the TF-IDF fallback. */
  type Cosine = (string, string) -> real

  function MinReal(a: real, b: real): real { if a <= b then a else b }
  function MaxReal(a: real, b: real): real { if a >= b then a else b }

  // ---------------------------------------------------------------- _match_skills

  /** `[s.lower() for s in xs]` */
  function LowerAll(xs: seq<string>): (r: seq<string>)
    ensures |r| == |xs|
    ensures forall i :: 0 <= i < |xs| ==> r[i] == Lower(xs[i])
  {
    seq(|xs|, i requires 0 <= i < |xs| => Lower(xs[i]))
  }

  /** `process.extractOne(query, choices, scorer=...)` returns a match scoring at least the
      threshold exactly when some choice does, since it returns the best-scoring choice. */
  predicate FuzzyHit(query: string, choices: seq<string>, scorer: FuzzyScorer)
  {
    exists c :: c in choices && scorer(query, c) >= FuzzyThreshold
  }

  /** A required skill is matched by a case-insensitive exact hit or a fuzzy hit. */
  predicate SkillHit(required: string, candidatesLower: seq<string>, scorer: FuzzyScorer)
  {
    Lower(required) in candidatesLower || FuzzyHit(Lower(required), candidatesLower, scorer)
  }

  function HitTest(candidatesLower: seq<string>, scorer: FuzzyScorer): string -> bool
  {
    r => SkillHit(r, candidatesLower, scorer)
  }

  function MissTest(candidatesLower: seq<string>, scorer: FuzzyScorer): string -> bool
  {
    r => !SkillHit(r, candidatesLower, scorer)
  }

  /** `_match_skills`: the required skills, in order and with their own casing, split into
      matched and missing. */
  method MatchSkills(required: seq<string>, candidates: seq<string>, scorer: FuzzyScorer)
    returns (matched: seq<string>, missing: seq<string>)
    ensures matched == Filter(required, HitTest(LowerAll(candidates), scorer))
    ensures missing == Filter(required, MissTest(LowerAll(candidates), scorer))
  {
    var candidatesLower := LowerAll(candidates);
    var hit := HitTest(candidatesLower, scorer);
    var miss := MissTest(candidatesLower, scorer);
    matched := [];
    missing := [];
    for i := 0 to |required|
      invariant matched == Filter(required[..i], hit)
      invariant missing == Filter(required[..i], miss)
    {
      MatchStep(required, i, candidatesLower, scorer);
      var requiredLower := Lower(required[i]);
      if requiredLower in candidatesLower {
        matched := matched + [required[i]];
        continue;
      }
      if FuzzyHit(requiredLower, candidatesLower, scorer) {
        matched := matched + [required[i]];
      } else {
        missing := missing + [required[i]];
      }
    }
    assert required[..|required|] == required;
  }

  /** One more required skill joins the matched list when it is a hit and the missing list
      otherwise. */
  lemma MatchStep(required: seq<string>, i: nat, candidatesLower: seq<string>, scorer: FuzzyScorer)
    requires i < |required|
    ensures var r := required[i];
      var hits := Filter(required[..i], HitTest(candidatesLower, scorer));
      var misses := Filter(required[..i], MissTest(candidatesLower, scorer));
      && Filter(required[..i + 1], HitTest(candidatesLower, scorer)) ==
           (if SkillHit(r, candidatesLower, scorer) then hits + [r] else hits)
      && Filter(required[..i + 1], MissTest(candidatesLower, scorer)) ==
           (if SkillHit(r, candidatesLower, scorer) then misses else misses + [r])
  {
    assert required[..i + 1] == required[..i] + [required[i]];
    FilterSnoc(required[..i], required[i], HitTest(candidatesLower, scorer));
    FilterSnoc(required[..i], required[i], MissTest(candidatesLower, scorer));
  }

  lemma {:induction false} FilterPartition(s: seq<string>, p: string -> bool, q: string -> bool)
    requires forall x :: q(x) == !p(x)
    ensures |Filter(s, p)| + |Filter(s, q)| == |s|
  {
    if |s| > 0 {
      FilterPartition(s[1..], p, q);
    }
  }

  lemma {:induction false} FilterNone(s: seq<string>, p: string -> bool)
    requires forall x :: p(x)
    ensures Filter(s, p) == s
  {
    if |s| > 0 {
      FilterNone(s[1..], p);
      assert s == [s[0]] + s[1..];
    }
  }

  /** Every required skill lands in exactly one list; the lists hold required skills only
      and share their length; exact case-insensitive hits are always matched; and with no
      candidate skills every required skill is missing. */
  lemma MatchSkillsShape(required: seq<string>, candidates: seq<string>, scorer: FuzzyScorer)
    ensures var cl := LowerAll(candidates);
      var matched := Filter(required, HitTest(cl, scorer));
      var missing := Filter(required, MissTest(cl, scorer));
      && |matched| + |missing| == |required|
      && (forall s :: s in matched <==> s in required && SkillHit(s, cl, scorer))
      && (forall s :: s in missing <==> s in required && !SkillHit(s, cl, scorer))
      && (forall s :: s in required && Lower(s) in cl ==> s in matched)
      && (|candidates| == 0 ==> missing == required && matched == [])
  {
    var cl := LowerAll(candidates);
    FilterPartition(required, HitTest(cl, scorer), MissTest(cl, scorer));
    if |candidates| == 0 {
      FilterNone(required, MissTest(cl, scorer));
    }
  }

  // ---------------------------------------------------------------- _match_qualifications

  const DegreeKeywords := ["bachelor", "master", "phd", "b.tech", "m.tech", "bca", "mca"]
  const FieldKeywords := ["computer", "information", "technology", "engineering"]

  /** `_match_qualifications`: the keyword loop can only return True when some education
      entry exists, so the answer is "nothing required, or any education". */
  method MatchQualifications(required: seq<string>, education: seq<ResumeAnalyzer.Education>) returns (ok: bool)
    ensures ok <==> |required| == 0 || |education| > 0
  {
    if |required| == 0 {
      return true;
    }
    var degrees := [];
    for i := 0 to |education|
      invariant |degrees| == 2 * i
    {
      degrees := degrees + [Lower(education[i].degree), Lower(education[i].field)];
    }
    var candidateText := Join(" ", degrees);
    assert |education| == 0 ==> candidateText == "";
    for k := 0 to |required| {
      if exists kw :: kw in DegreeKeywords && Contains(candidateText, kw) {
        if exists f :: f in FieldKeywords && Contains(candidateText, f) {
          assert |education| > 0 by {
            var kw :| kw in DegreeKeywords && Contains(candidateText, kw);
            if |education| == 0 {
              NothingInEmpty(kw);
            }
          }
          return true;
        }
      }
    }
    return |education| > 0;
  }

  // ---------------------------------------------------------------- _match_experience

  /** `_match_experience`: the first number in the requirement, if any, decides. */
  function MatchExperience(requiredExperience: string, candidateYears: real): bool
  {
    match FirstNumber(requiredExperience)
    case None => true
    case Some(years) =>
      if years <= 1 then candidateYears >= 0.0 else candidateYears >= years as real * 0.8
  }

  /** Without a digit there is no requirement; up to one year any non-negative experience
      passes; above that 80% of the requirement is needed. */
  lemma MatchExperienceCases(requiredExperience: string, candidateYears: real)
    ensures !HasDigit(requiredExperience) ==> MatchExperience(requiredExperience, candidateYears)
    ensures FirstNumber(requiredExperience).Some? && FirstNumber(requiredExperience).value <= 1 ==>
      (MatchExperience(requiredExperience, candidateYears) <==> candidateYears >= 0.0)
    ensures FirstNumber(requiredExperience).Some? && FirstNumber(requiredExperience).value > 1 ==>
      (MatchExperience(requiredExperience, candidateYears) <==> candidateYears >= FirstNumber(requiredExperience).value as real * 0.8)
  {
    if !HasDigit(requiredExperience) {
      FirstNumberNone(requiredExperience);
    }
  }

  /** More experience never turns a match into a mismatch. */
  lemma MatchExperienceMonotone(requiredExperience: string, fewer: real, more: real)
    requires fewer <= more
    ensures MatchExperience(requiredExperience, fewer) ==> MatchExperience(requiredExperience, more)
  {
  }

  // ---------------------------------------------------------------- _calculate_hard_match_score

  /** `len(matched) / max(len(total), 1)` */
  function Ratio(matched: seq<string>, total: seq<string>): (r: real)
    ensures r >= 0.0
    ensures |total| == 0 ==> r == |matched| as real
  {
    |matched| as real / MaxInt(|total|, 1) as real
  }

  lemma RatioAtMostOne(matched: seq<string>, total: seq<string>)
    requires |matched| <= |total|
    ensures Ratio(matched, total) <= 1.0
    ensures |matched| == |total| > 0 ==> Ratio(matched, total) == 1.0
  {
    QuotientAtMostOne(|matched| as real, MaxInt(|total|, 1) as real);
  }

  lemma QuotientAtMostOne(m: real, d: real)
    requires 0.0 <= m <= d && d > 0.0
    ensures m / d <= 1.0
    ensures m == d ==> m / d == 1.0
  {
    QuotientBelowOne(m, d);
    if m == d {
      QuotientOfSelf(d);
    }
  }

  lemma QuotientBelowOne(m: real, d: real)
    requires 0.0 <= m <= d && d > 0.0
    ensures m / d <= 1.0
  {
    var q := m / d;
    assert q * d == m;
  }

  lemma QuotientOfSelf(d: real)
    requires d > 0.0
    ensures d / d == 1.0
  {
    var q := d / d;
    assert q * d == d;
    assert (q - 1.0) * d == 0.0;
  }

  function Indicator(b: bool): real { if b then 1.0 else 0.0 }

  /** The weighted hard-match sum before scaling to 60 points. */
  function HardMatchFraction(c: WeightingConfig, matchedMust: seq<string>, totalMust: seq<string>,
                             matchedGood: seq<string>, totalGood: seq<string>, qualification: bool, experience: bool): real
  {
    Ratio(matchedMust, totalMust) * c.mustHaveSkillsWeight
    + Ratio(matchedGood, totalGood) * c.goodToHaveSkillsWeight
    + Indicator(qualification) * c.qualificationWeight
    + Indicator(experience) * c.experienceWeight
  }

  /** `_calculate_hard_match_score`: the weighted sum scaled to 60 points and capped at 60. */
  function HardMatchScore(c: WeightingConfig, matchedMust: seq<string>, totalMust: seq<string>,
                          matchedGood: seq<string>, totalGood: seq<string>, qualification: bool, experience: bool): (r: real)
    ensures r <= 60.0
  {
    MinReal(HardMatchFraction(c, matchedMust, totalMust, matchedGood, totalGood, qualification, experience) * 60.0, 60.0)
  }

  /** Under the default weights, with no more matches than skills, the score is
      60·(0.4·must + 0.2·good + 0.2·[qual] + 0.2·[exp]); the cap never binds, and an
      empty skill list contributes nothing. */
  lemma HardMatchScoreDefault(matchedMust: seq<string>, totalMust: seq<string>,
                              matchedGood: seq<string>, totalGood: seq<string>, qualification: bool, experience: bool)
    requires |matchedMust| <= |totalMust| && |matchedGood| <= |totalGood|
    ensures var r := HardMatchScore(DefaultConfig, matchedMust, totalMust, matchedGood, totalGood, qualification, experience);
      && r == 60.0 * (0.4 * Ratio(matchedMust, totalMust) + 0.2 * Ratio(matchedGood, totalGood)
                      + 0.2 * Indicator(qualification) + 0.2 * Indicator(experience))
      && 0.0 <= r <= 60.0
      && (|totalMust| == 0 ==> Ratio(matchedMust, totalMust) == 0.0)
      && (|totalGood| == 0 ==> Ratio(matchedGood, totalGood) == 0.0)
  {
    RatioAtMostOne(matchedMust, totalMust);
    RatioAtMostOne(matchedGood, totalGood);
  }

  /** Every skill matched, qualification and experience met: the full 60 points. */
  lemma HardMatchScoreFull(must: seq<string>, good: seq<string>)
    requires |must| > 0 && |good| > 0
    ensures HardMatchScore(DefaultConfig, must, must, good, good, true, true) == 60.0
  {
    RatioAtMostOne(must, must);
    RatioAtMostOne(good, good);
  }

  // ---------------------------------------------------------------- hard matching

  datatype HardMatchResult = HardMatchResult(
    matchedMustHaveSkills: seq<string>,
    matchedGoodToHaveSkills: seq<string>,
    missingMustHaveSkills: seq<string>,
    missingGoodToHaveSkills: seq<string>,
    qualificationMatch: bool,
    experienceMatch: bool,
    hardMatchScore: real)

  /** The candidate skills both skill matches compare against. */
  function CandidateSkills(resume: ResumeAnalyzer.ResumeAnalysis): seq<string>
  {
    resume.extractedSkills + resume.technicalSkills
  }

  function HardMatchOf(c: WeightingConfig, job: JdParser.JobDescriptionAnalysis, resume: ResumeAnalyzer.ResumeAnalysis,
                       scorer: FuzzyScorer): HardMatchResult
  {
    var cl := LowerAll(CandidateSkills(resume));
    var matchedMust := Filter(job.mustHaveSkills, HitTest(cl, scorer));
    var matchedGood := Filter(job.goodToHaveSkills, HitTest(cl, scorer));
    var qualification := |job.qualifications| == 0 || |resume.education| > 0;
    var experience := MatchExperience(job.experienceRequired, resume.totalExperienceYears);
    HardMatchResult(
      matchedMust, matchedGood,
      Filter(job.mustHaveSkills, MissTest(cl, scorer)), Filter(job.goodToHaveSkills, MissTest(cl, scorer)),
      qualification, experience,
      HardMatchScore(c, matchedMust, job.mustHaveSkills, matchedGood, job.goodToHaveSkills, qualification, experience))
  }

  /** `_perform_hard_matching` */
  method PerformHardMatching(c: WeightingConfig, job: JdParser.JobDescriptionAnalysis, resume: ResumeAnalyzer.ResumeAnalysis,
                             scorer: FuzzyScorer) returns (result: HardMatchResult)
    ensures result == HardMatchOf(c, job, resume, scorer)
  {
    var matchedMust, missingMust := MatchSkills(job.mustHaveSkills, CandidateSkills(resume), scorer);
    var matchedGood, missingGood := MatchSkills(job.goodToHaveSkills, CandidateSkills(resume), scorer);
    var qualification := MatchQualifications(job.qualifications, resume.education);
    var experience := MatchExperience(job.experienceRequired, resume.totalExperienceYears);
    var score := HardMatchScore(c, matchedMust, job.mustHaveSkills, matchedGood, job.goodToHaveSkills, qualification, experience);
    result := HardMatchResult(matchedMust, matchedGood, missingMust, missingGood, qualification, experience, score);
  }

  /** Under the default weights the hard score lies in [0, 60]. */
  lemma HardMatchBounds(job: JdParser.JobDescriptionAnalysis, resume: ResumeAnalyzer.ResumeAnalysis, scorer: FuzzyScorer)
    ensures var h := HardMatchOf(DefaultConfig, job, resume, scorer);
      0.0 <= h.hardMatchScore <= 60.0
  {
    var cl := LowerAll(CandidateSkills(resume));
    FilterPartition(job.mustHaveSkills, HitTest(cl, scorer), MissTest(cl, scorer));
    FilterPartition(job.goodToHaveSkills, HitTest(cl, scorer), MissTest(cl, scorer));
    var h := HardMatchOf(DefaultConfig, job, resume, scorer);
    HardMatchScoreDefault(h.matchedMustHaveSkills, job.mustHaveSkills, h.matchedGoodToHaveSkills, job.goodToHaveSkills,
                          h.qualificationMatch, h.experienceMatch);
  }

  // ---------------------------------------------------------------- soft matching

  datatype SoftMatchResult = SoftMatchResult(
    semanticSimilarityScore: real,
    roleAlignmentScore: real,
    projectRelevanceScore: real,
    overallSemanticScore: real)

  /** `_calculate_semantic_similarity`: the cosine similarity, floored at 0. */
  function SemanticSimilarity(a: string, b: string, cosine: Cosine): (r: real)
    ensures r >= 0.0
    ensures (forall x, y :: cosine(x, y) <= 1.0) ==> r <= 1.0
  {
    MaxReal(0.0, cosine(a, b))
  }

  /** `' '.join(exp['role'] + ' ' + str(exp['duration']) for exp in work_experience)` */
  function ExperienceText(work: seq<ResumeAnalyzer.WorkExperience>): string
  {
    Join(" ", seq(|work|, i requires 0 <= i < |work| => work[i].role + " " + work[i].duration))
  }

  /** `_calculate_role_alignment` */
  function RoleAlignment(responsibilities: seq<string>, work: seq<ResumeAnalyzer.WorkExperience>, cosine: Cosine): (r: real)
    ensures r >= 0.0
    ensures (forall x, y :: cosine(x, y) <= 1.0) ==> r <= 1.0
    ensures |responsibilities| == 0 || |work| == 0 ==> r == 0.0
  {
    if |responsibilities| == 0 || |work| == 0 then 0.0
    else SemanticSimilarity(Join(" ", responsibilities), ExperienceText(work), cosine)
  }

  /** The title, description and technologies of every project, joined. */
  function ProjectText(projects: seq<ResumeAnalyzer.Project>): string
  {
    Join(" ", seq(|projects|, i requires 0 <= i < |projects| =>
      projects[i].title + " " + projects[i].description + " " + Join(" ", projects[i].technologies)))
  }

  /** `_calculate_project_relevance` */
  function ProjectRelevance(keywords: seq<string>, projects: seq<ResumeAnalyzer.Project>, cosine: Cosine): (r: real)
    ensures r >= 0.0
    ensures (forall x, y :: cosine(x, y) <= 1.0) ==> r <= 1.0
    ensures |projects| == 0 ==> r == 0.0
  {
    if |projects| == 0 then 0.0
    else SemanticSimilarity(Join(" ", keywords), ProjectText(projects), cosine)
  }

  /** The soft score from its three similarities, scaled to 40 points. */
  function SoftScore(c: WeightingConfig, semantic: real, role: real, project: real): real
  {
    (semantic * c.semanticSimilarityWeight + role * c.roleAlignmentWeight + project * c.projectRelevanceWeight) * 40.0
  }

  /** Similarities in [0, 1] give a default soft score in [0, 40]. */
  lemma SoftScoreBounds(semantic: real, role: real, project: real)
    requires 0.0 <= semantic <= 1.0 && 0.0 <= role <= 1.0 && 0.0 <= project <= 1.0
    ensures 0.0 <= SoftScore(DefaultConfig, semantic, role, project) <= 40.0
    ensures SoftScore(DefaultConfig, semantic, role, project) == 40.0 * (0.5 * semantic + 0.3 * role + 0.2 * project)
  {
  }

  /** The similarity scores of `_perform_soft_matching`; the job text is the full job
      description. */
  function SoftMatchOf(c: WeightingConfig, job: JdParser.JobDescriptionAnalysis, jobText: string,
                       resume: ResumeAnalyzer.ResumeAnalysis, cosine: Cosine): SoftMatchResult
  {
    var semantic := SemanticSimilarity(jobText, resume.parsedText, cosine);
    var role := RoleAlignment(job.roleResponsibilities, resume.workExperience, cosine);
    var project := ProjectRelevance(job.technicalSkills + job.domainKeywords, resume.projects, cosine);
    SoftMatchResult(semantic * 40.0, role * 40.0, project * 40.0, SoftScore(c, semantic, role, project))
  }

  /** With similarities bounded by 1 the default soft score lies in [0, 40]; without
      responsibilities or work experience the role score is 0, and without projects the
      project score is 0. */
  lemma SoftMatchBounds(job: JdParser.JobDescriptionAnalysis, jobText: string, resume: ResumeAnalyzer.ResumeAnalysis, cosine: Cosine)
    requires forall x, y :: cosine(x, y) <= 1.0
    ensures var s := SoftMatchOf(DefaultConfig, job, jobText, resume, cosine);
      && 0.0 <= s.overallSemanticScore <= 40.0
      && (|job.roleResponsibilities| == 0 || |resume.workExperience| == 0 ==> s.roleAlignmentScore == 0.0)
      && (|resume.projects| == 0 ==> s.projectRelevanceScore == 0.0)
  {
    var semantic := SemanticSimilarity(jobText, resume.parsedText, cosine);
    var role := RoleAlignment(job.roleResponsibilities, resume.workExperience, cosine);
    var project := ProjectRelevance(job.technicalSkills + job.domainKeywords, resume.projects, cosine);
    SoftScoreBounds(semantic, role, project);
  }

  // ---------------------------------------------------------------- relevance and verdict

  function Clamp(x: real): (r: real)
    ensures 0.0 <= r <= 100.0
    ensures 0.0 <= x <= 100.0 ==> r == x
  {
    MinReal(100.0, MaxReal(0.0, x))
  }

  /** `_calculate_relevance_score` as written: the hard and soft scores, already on their
      60- and 40-point scales, are weighted a second time. */
  function RelevanceScore(c: WeightingConfig, hard: HardMatchResult, soft: SoftMatchResult): (r: real)
    ensures 0.0 <= r <= 100.0
  {
    Clamp(hard.hardMatchScore * c.hardMatchWeight + soft.overallSemanticScore * c.softMatchWeight)
  }

  /** `_determine_fit_verdict` */
  function FitVerdictOf(c: WeightingConfig, score: real): FitVerdict
  {
    if score >= c.highFitThreshold then High
    else if score >= c.mediumFitThreshold then Medium
    else Low
  }

  /** The verdict bands are inclusive at 75 and 50 and monotone in the score. */
  lemma FitVerdictBands(score: real, higher: real)
    requires score <= higher
    ensures FitVerdictOf(DefaultConfig, score) == High <==> score >= 75.0
    ensures FitVerdictOf(DefaultConfig, score) == Medium <==> 50.0 <= score < 75.0
    ensures FitVerdictOf(DefaultConfig, score) == Low <==> score < 50.0
    ensures FitVerdictOf(DefaultConfig, score) == High ==> FitVerdictOf(DefaultConfig, higher) == High
    ensures FitVerdictOf(DefaultConfig, score) == Medium ==> FitVerdictOf(DefaultConfig, higher) != Low
  {
  }

  /** As written, default relevance never exceeds 0.6·60 + 0.4·40 = 52, so no resume is
      ever rated High. */
  lemma HighUnreachable(job: JdParser.JobDescriptionAnalysis, jobText: string, resume: ResumeAnalyzer.ResumeAnalysis,
                        scorer: FuzzyScorer, cosine: Cosine)
    requires forall x, y :: cosine(x, y) <= 1.0
    ensures var r := RelevanceScore(DefaultConfig, HardMatchOf(DefaultConfig, job, resume, scorer),
                                    SoftMatchOf(DefaultConfig, job, jobText, resume, cosine));
      r <= 52.0 && FitVerdictOf(DefaultConfig, r) != High
  {
    HardMatchBounds(job, resume, scorer);
    SoftMatchBounds(job, jobText, resume, cosine);
  }

  /** The evidently intended relevance: the 60-point hard score plus the 40-point soft
      score, clamped to [0, 100]. */
  function CombinedRelevance(hard: HardMatchResult, soft: SoftMatchResult): (r: real)
    ensures 0.0 <= r <= 100.0
  {
    Clamp(hard.hardMatchScore + soft.overallSemanticScore)
  }

  /** With both scores on their own scales the clamp never binds, and a resume that
      matches every skill with full similarity is rated High. */
  lemma CombinedRelevanceReachesHigh(hard: HardMatchResult, soft: SoftMatchResult)
    requires 0.0 <= hard.hardMatchScore <= 60.0 && 0.0 <= soft.overallSemanticScore <= 40.0
    ensures CombinedRelevance(hard, soft) == hard.hardMatchScore + soft.overallSemanticScore
    ensures hard.hardMatchScore == 60.0 && soft.overallSemanticScore == 40.0 ==>
      FitVerdictOf(DefaultConfig, CombinedRelevance(hard, soft)) == High
  {
  }

  /** The perfect-match scores feeding `CombinedRelevanceReachesHigh` are attainable. */
  lemma PerfectMatchIsHigh(must: seq<string>, good: seq<string>)
    requires |must| > 0 && |good| > 0
    ensures var hard := HardMatchResult(must, good, [], [], true, true,
                                        HardMatchScore(DefaultConfig, must, must, good, good, true, true));
      var soft := SoftMatchResult(40.0, 40.0, 40.0, SoftScore(DefaultConfig, 1.0, 1.0, 1.0));
      FitVerdictOf(DefaultConfig, CombinedRelevance(hard, soft)) == High
  {
    HardMatchScoreFull(must, good);
  }

  // ---------------------------------------------------------------- missing elements

  /** One entry of `_identify_missing_elements`. */
  datatype Gap = CriticalSkill(skill: string) | PreferredSkill(skill: string) | Certifications | MoreProjects | MoreExperience(role: string)

  function GapText(g: Gap): string
  {
    match g
    case CriticalSkill(s) => "Critical skill: " + s
    case PreferredSkill(s) => "Preferred skill: " + s
    case Certifications => "Relevant technical certifications"
    case MoreProjects => "More relevant projects demonstrating technical skills"
    case MoreExperience(role) => "Additional experience in " + role
  }

  function CriticalGaps(skills: seq<string>): (r: seq<Gap>)
    ensures |r| == |skills| && forall i :: 0 <= i < |r| ==> r[i] == CriticalSkill(skills[i])
  {
    seq(|skills|, i requires 0 <= i < |skills| => CriticalSkill(skills[i]))
  }

  function PreferredGaps(skills: seq<string>): (r: seq<Gap>)
    ensures |r| == |skills| && forall i :: 0 <= i < |r| ==> r[i] == PreferredSkill(skills[i])
  {
    seq(|skills|, i requires 0 <= i < |skills| => PreferredSkill(skills[i]))
  }

  function When<T>(b: bool, x: T): seq<T> { if b then [x] else [] }

  /** The "Preferred skill" entries: the first three missing good-to-have skills, only
      when more of them are missing than matched. */
  function PreferredPart(hard: HardMatchResult): (r: seq<Gap>)
    ensures |r| <= 3
    ensures forall i :: 0 <= i < |r| ==> i < |hard.missingGoodToHaveSkills| && r[i] == PreferredSkill(hard.missingGoodToHaveSkills[i])
    ensures |r| > 0 ==> |hard.missingGoodToHaveSkills| > |hard.matchedGoodToHaveSkills|
    ensures |hard.missingGoodToHaveSkills| > |hard.matchedGoodToHaveSkills| ==>
      |r| == MinInt(3, |hard.missingGoodToHaveSkills|)
  {
    if |hard.missingGoodToHaveSkills| > |hard.matchedGoodToHaveSkills|
    then PreferredGaps(Take(hard.missingGoodToHaveSkills, 3)) else []
  }

  /** The qualification, project and experience gaps, each under its own condition. */
  function ClosingGaps(hard: HardMatchResult, projectCount: nat, roleTitle: string): (r: seq<Gap>)
    ensures |r| <= 3
    ensures forall g :: g in r ==> g.Certifications? || g.MoreProjects? || g.MoreExperience?
    ensures Certifications in r <==> !hard.qualificationMatch
    ensures MoreProjects in r <==> projectCount < 2
    ensures MoreExperience(roleTitle) in r <==> !hard.experienceMatch
  {
    When(!hard.qualificationMatch, Certifications)
    + When(projectCount < 2, MoreProjects)
    + When(!hard.experienceMatch, MoreExperience(roleTitle))
  }

  function MissingElementsOf(hard: HardMatchResult, projectCount: nat, roleTitle: string): seq<Gap>
  {
    CriticalGaps(hard.missingMustHaveSkills) + PreferredPart(hard) + ClosingGaps(hard, projectCount, roleTitle)
  }

  /** `_identify_missing_elements` */
  method IdentifyMissingElements(job: JdParser.JobDescriptionAnalysis, resume: ResumeAnalyzer.ResumeAnalysis, hard: HardMatchResult)
    returns (missing: seq<Gap>)
    ensures missing == MissingElementsOf(hard, |resume.projects|, job.roleTitle)
  {
    missing := [];
    for i := 0 to |hard.missingMustHaveSkills|
      invariant missing == CriticalGaps(hard.missingMustHaveSkills[..i])
    {
      missing := missing + [CriticalSkill(hard.missingMustHaveSkills[i])];
    }
    assert hard.missingMustHaveSkills[..|hard.missingMustHaveSkills|] == hard.missingMustHaveSkills;
    var preferred := [];
    if |hard.missingGoodToHaveSkills| > |hard.matchedGoodToHaveSkills| {
      var top := Take(hard.missingGoodToHaveSkills, 3);
      for i := 0 to |top|
        invariant preferred == PreferredGaps(top[..i])
      {
        preferred := preferred + [PreferredSkill(top[i])];
      }
      assert top[..|top|] == top;
    }
    assert preferred == PreferredPart(hard);
    var closing := [];
    if !hard.qualificationMatch {
      closing := closing + [Certifications];
    }
    if |resume.projects| < 2 {
      closing := closing + [MoreProjects];
    }
    if !hard.experienceMatch {
      closing := closing + [MoreExperience(job.roleTitle)];
    }
    assert closing == ClosingGaps(hard, |resume.projects|, job.roleTitle);
    missing := missing + preferred + closing;
  }

  /** The missing must-have skills come first, one "Critical skill" each and in order;
      at most three "Preferred skill" entries follow them directly, and only when missing
      good-to-have skills outnumber matched ones; the certification, project and
      experience gaps close the list, each exactly under its condition. */
  lemma MissingElementsShape(hard: HardMatchResult, projectCount: nat, roleTitle: string)
    ensures var r := MissingElementsOf(hard, projectCount, roleTitle);
      var n := |hard.missingMustHaveSkills|;
      && n <= |r| <= n + 6
      && (forall i :: 0 <= i < n ==> r[i] == CriticalSkill(hard.missingMustHaveSkills[i]))
      && (forall i :: n <= i < |r| ==> !r[i].CriticalSkill?)
      && (forall i :: n + 3 <= i < |r| ==> !r[i].PreferredSkill?)
      && ((exists i :: n <= i < |r| && r[i].PreferredSkill?) ==> |hard.missingGoodToHaveSkills| > |hard.matchedGoodToHaveSkills|)
      && (Certifications in r <==> !hard.qualificationMatch)
      && (MoreProjects in r <==> projectCount < 2)
      && (MoreExperience(roleTitle) in r <==> !hard.experienceMatch)
  {
    var critical := CriticalGaps(hard.missingMustHaveSkills);
    var pref := PreferredPart(hard);
    var tail := ClosingGaps(hard, projectCount, roleTitle);
    var r := critical + pref + tail;
    var n := |critical|;
    forall i | n <= i < |r|
      ensures !r[i].CriticalSkill?
      ensures i >= n + 3 ==> !r[i].PreferredSkill?
      ensures r[i].PreferredSkill? ==> |pref| > 0
    {
      if i < n + |pref| {
        assert r[i] == pref[i - n];
      } else {
        assert r[i] == tail[i - n - |pref|];
        assert tail[i - n - |pref|] in tail;
      }
    }
    forall g | g in critical
      ensures g.CriticalSkill?
    {
    }
    forall g | g in pref
      ensures g.PreferredSkill?
    {
    }
  }

  // ---------------------------------------------------------------- improvement suggestions

  /** One entry of `_generate_improvement_suggestions`. */
  datatype Suggestion =
    | LearnMissing(skills: seq<string>, role: string)
    | SkillProgress(have: nat, required: nat)
    | BuildProjects(technologies: seq<string>)
    | GainExperience
    | GetCertified(certification: string)
    | HighlightSoftSkills
    | ImproveResume

  function SuggestionText(s: Suggestion): string
  {
    match s
    case LearnMissing(skills, role) => "Priority: Learn " + Join(", ", skills) + " as these are critical for the " + role + " role"
    case SkillProgress(have, required) =>
      "You have " + NatToString(have) + " out of " + NatToString(required) + " required skills. Focus on the missing ones."
    case BuildProjects(techs) => "Build 2-3 projects using " + Join(", ", techs) + " to demonstrate practical skills"
    case GainExperience => "Consider internships or freelance projects to gain relevant experience"
    case GetCertified(cert) => "Consider getting certified in " + cert + " to strengthen your profile"
    case HighlightSoftSkills => "Highlight your experience with teamwork, communication, and problem-solving skills"
    case ImproveResume => "Improve resume structure: add quantified achievements, technical project details, and contact links"
  }

  /** `s.lower()` contains the keyword. */
  predicate Mentions(s: string, keyword: string)
  {
    Contains(Lower(s), keyword)
  }

  function MentionsTest(keyword: string): string -> bool
  {
    q => Mentions(q, keyword)
  }

  /** The qualifications that mention "certified". */
  function CertifiedQualifications(qualifications: seq<string>): seq<string>
  {
    Filter(qualifications, MentionsTest(CertifiedKeyword))
  }

  const CertifiedKeyword := "certified"
  const SeniorKeyword := "senior"

  /** A role title that mentions "senior". */
  predicate SeniorRole(roleTitle: string)
  {
    Mentions(roleTitle, SeniorKeyword)
  }

  /** The parts of the job and the resume the suggestions depend on. */
  datatype SuggestionFacts = SuggestionFacts(
    roleTitle: string,
    mustHaveCount: nat,
    technicalSkills: seq<string>,
    qualifications: seq<string>,
    projectCount: nat,
    experienceYears: real,
    qualityScore: real)

  function FactsOf(job: JdParser.JobDescriptionAnalysis, resume: ResumeAnalyzer.ResumeAnalysis): SuggestionFacts
  {
    SuggestionFacts(job.roleTitle, |job.mustHaveSkills|, job.technicalSkills, job.qualifications,
                    |resume.projects|, resume.totalExperienceYears, resume.resumeQualityScore)
  }

  /** The two skill suggestions. */
  function SkillSuggestions(f: SuggestionFacts, hard: HardMatchResult): (r: seq<Suggestion>)
    ensures forall s :: s in r ==> s.LearnMissing? || s.SkillProgress?
    ensures forall s :: s in r && s.LearnMissing? ==> |hard.missingMustHaveSkills| > 0 && s.skills == Take(hard.missingMustHaveSkills, 3)
    ensures forall s :: s in r && s.SkillProgress? ==> |hard.matchedMustHaveSkills| > 0 && |hard.missingMustHaveSkills| > 0
  {
    When(|hard.missingMustHaveSkills| > 0, LearnMissing(Take(hard.missingMustHaveSkills, 3), f.roleTitle))
    + When(|hard.matchedMustHaveSkills| > 0 && |hard.missingMustHaveSkills| > 0,
           SkillProgress(|hard.matchedMustHaveSkills|, f.mustHaveCount))
  }

  /** The certification suggestion: the first qualification that mentions "certified",
      when qualifications are not met. */
  function CertificationSuggestion(f: SuggestionFacts, hard: HardMatchResult): (r: seq<Suggestion>)
    ensures |r| <= 1
    ensures forall s :: s in r ==> (&& s.GetCertified? && !hard.qualificationMatch
      && s.certification in f.qualifications && Mentions(s.certification, CertifiedKeyword))
  {
    var certs := CertifiedQualifications(f.qualifications);
    if !hard.qualificationMatch && |certs| > 0 then
      assert certs[0] in certs;
      [GetCertified(certs[0])]
    else []
  }

  /** The project, experience and certification suggestions. */
  function ProfileSuggestions(f: SuggestionFacts, hard: HardMatchResult): (r: seq<Suggestion>)
    ensures forall s :: s in r ==> s.BuildProjects? || s == GainExperience || s.GetCertified?
    ensures forall s :: s in r && s.BuildProjects? ==> f.projectCount < 2
    ensures GainExperience in r <==> f.experienceYears < 1.0 && !SeniorRole(f.roleTitle)
    ensures forall s :: (s in r && s.GetCertified?) ==> (&& !hard.qualificationMatch
      && s.certification in f.qualifications && Mentions(s.certification, CertifiedKeyword))
  {
    When(f.projectCount < 2, BuildProjects(Take(f.technicalSkills, 3)))
    + When(f.experienceYears < 1.0 && !SeniorRole(f.roleTitle), GainExperience)
    + CertificationSuggestion(f, hard)
  }

  /** The soft-skill and resume-structure suggestions. */
  function PresentationSuggestions(f: SuggestionFacts, soft: SoftMatchResult): (r: seq<Suggestion>)
    ensures forall s :: s in r ==> s == HighlightSoftSkills || s == ImproveResume
    ensures HighlightSoftSkills in r <==> soft.roleAlignmentScore < 30.0
    ensures ImproveResume in r <==> f.qualityScore < 7.0
  {
    When(soft.roleAlignmentScore < 30.0, HighlightSoftSkills)
    + When(f.qualityScore < 7.0, ImproveResume)
  }

  /** Every suggestion `_generate_improvement_suggestions` can make, each under its
      condition, in the order they are considered. */
  function SuggestionCandidates(f: SuggestionFacts, hard: HardMatchResult, soft: SoftMatchResult): seq<Suggestion>
  {
    SkillSuggestions(f, hard) + ProfileSuggestions(f, hard) + PresentationSuggestions(f, soft)
  }

  /** `_generate_improvement_suggestions`: the first five candidates. */
  function SuggestionsOf(job: JdParser.JobDescriptionAnalysis, resume: ResumeAnalyzer.ResumeAnalysis,
                         hard: HardMatchResult, soft: SoftMatchResult): seq<Suggestion>
  {
    Take(SuggestionCandidates(FactsOf(job, resume), hard, soft), 5)
  }

  /** Each candidate suggestion that carries data is there only under its condition and
      carries what the source puts in it. */
  lemma CandidatesSound(f: SuggestionFacts, hard: HardMatchResult, soft: SoftMatchResult)
    ensures var all := SuggestionCandidates(f, hard, soft);
      && (forall s :: s in all && s.LearnMissing? ==> |hard.missingMustHaveSkills| > 0 && s.skills == Take(hard.missingMustHaveSkills, 3))
      && (forall s :: s in all && s.SkillProgress? ==> |hard.matchedMustHaveSkills| > 0 && |hard.missingMustHaveSkills| > 0)
      && (forall s :: s in all && s.BuildProjects? ==> f.projectCount < 2)
      && (forall s :: (s in all && s.GetCertified?) ==> (&& !hard.qualificationMatch
            && s.certification in f.qualifications && Mentions(s.certification, CertifiedKeyword)))
  {
    var r1 := SkillSuggestions(f, hard);
    var r2 := ProfileSuggestions(f, hard);
    var r3 := PresentationSuggestions(f, soft);
    assert SuggestionCandidates(f, hard, soft) == r1 + r2 + r3;
  }

  /** The fixed suggestions are there exactly when their conditions hold. */
  lemma CandidatesPresence(f: SuggestionFacts, hard: HardMatchResult, soft: SoftMatchResult)
    ensures var all := SuggestionCandidates(f, hard, soft);
      && (GainExperience in all <==> f.experienceYears < 1.0 && !SeniorRole(f.roleTitle))
      && (HighlightSoftSkills in all <==> soft.roleAlignmentScore < 30.0)
      && (ImproveResume in all <==> f.qualityScore < 7.0)
  {
    var r1 := SkillSuggestions(f, hard);
    var r2 := ProfileSuggestions(f, hard);
    var r3 := PresentationSuggestions(f, soft);
    assert SuggestionCandidates(f, hard, soft) == r1 + r2 + r3;
  }

  /** At most five suggestions, each present only under its condition. */
  lemma SuggestionsShape(job: JdParser.JobDescriptionAnalysis, resume: ResumeAnalyzer.ResumeAnalysis,
                         hard: HardMatchResult, soft: SoftMatchResult)
    ensures var r := SuggestionsOf(job, resume, hard, soft);
      && |r| <= 5
      && (forall s :: s in r && s.LearnMissing? ==> |hard.missingMustHaveSkills| > 0 && s.skills == Take(hard.missingMustHaveSkills, 3))
      && (forall s :: s in r && s.SkillProgress? ==> |hard.matchedMustHaveSkills| > 0 && |hard.missingMustHaveSkills| > 0)
      && (forall s :: s in r && s.BuildProjects? ==> |resume.projects| < 2)
      && (GainExperience in r ==> resume.totalExperienceYears < 1.0 && !SeniorRole(job.roleTitle))
      && (forall s :: (s in r && s.GetCertified?) ==> (&& !hard.qualificationMatch
            && s.certification in job.qualifications && Mentions(s.certification, CertifiedKeyword)))
      && (HighlightSoftSkills in r ==> soft.roleAlignmentScore < 30.0)
      && (ImproveResume in r ==> resume.resumeQualityScore < 7.0)
  {
    var f := FactsOf(job, resume);
    var all := SuggestionCandidates(f, hard, soft);
    CandidatesSound(f, hard, soft);
    CandidatesPresence(f, hard, soft);
    var r := Take(all, 5);
    forall s | s in r
      ensures s in all
    {
      var k :| 0 <= k < |r| && r[k] == s;
      assert all[k] == s;
    }
  }

  // ---------------------------------------------------------------- interview focus

  /** One entry of `_generate_interview_focus_areas`. */
  datatype FocusArea = DeepDive(skills: seq<string>) | ProjectDiscussion(title: string) | LearningAbility(skill: string)

  function FocusText(f: FocusArea): string
  {
    match f
    case DeepDive(skills) => "Deep dive into " + Join(", ", skills)
    case ProjectDiscussion(title) => "Technical discussion about " + title
    case LearningAbility(skill) => "Assess learning ability and interest in " + skill
  }

  /** `_generate_interview_focus_areas` */
  function InterviewFocusOf(resume: ResumeAnalyzer.ResumeAnalysis, hard: HardMatchResult): (r: seq<FocusArea>)
    ensures |r| <= 3
    ensures forall f :: f in r && f.DeepDive? ==> |hard.matchedMustHaveSkills| > 0 && f.skills == Take(hard.matchedMustHaveSkills, 2)
    ensures forall f :: f in r && f.ProjectDiscussion? ==> |resume.projects| > 0 && f.title == resume.projects[0].title
    ensures forall f :: f in r && f.LearningAbility? ==> |hard.missingMustHaveSkills| > 0 && f.skill == hard.missingMustHaveSkills[0]
    ensures |hard.matchedMustHaveSkills| > 0 ==> DeepDive(Take(hard.matchedMustHaveSkills, 2)) in r
  {
    When(|hard.matchedMustHaveSkills| > 0, DeepDive(Take(hard.matchedMustHaveSkills, 2)))
    + (if |resume.projects| > 0 then [ProjectDiscussion(resume.projects[0].title)] else [])
    + (if |hard.missingMustHaveSkills| > 0 then [LearningAbility(hard.missingMustHaveSkills[0])] else [])
  }

  // ---------------------------------------------------------------- evaluation

  datatype RelevanceAnalysisResult = RelevanceAnalysisResult(
    hardMatch: HardMatchResult,
    softMatch: SoftMatchResult,
    relevanceScore: real,
    fitVerdict: FitVerdict,
    missingElements: seq<string>,
    improvementSuggestions: seq<string>)

  function GapTexts(gaps: seq<Gap>): seq<string>
  {
    seq(|gaps|, i requires 0 <= i < |gaps| => GapText(gaps[i]))
  }

  function SuggestionTexts(suggestions: seq<Suggestion>): seq<string>
  {
    seq(|suggestions|, i requires 0 <= i < |suggestions| => SuggestionText(suggestions[i]))
  }

  /** The record `evaluate_resume_relevance` returns once the two match results and the
      relevance score are known: the verdict for that score, then the gaps and suggestions. */
  function Assemble(c: WeightingConfig, job: JdParser.JobDescriptionAnalysis, resume: ResumeAnalyzer.ResumeAnalysis,
                    hard: HardMatchResult, soft: SoftMatchResult, relevance: real): RelevanceAnalysisResult
  {
    RelevanceAnalysisResult(hard, soft, relevance, FitVerdictOf(c, relevance),
      GapTexts(MissingElementsOf(hard, |resume.projects|, job.roleTitle)),
      SuggestionTexts(SuggestionsOf(job, resume, hard, soft)))
  }

  /** `evaluate_resume_relevance` with the double-weighted relevance score as written;
      the soft match takes the job text as `jobText` (see `SoftMatchAsWritten`). */
  function EvaluationOf(c: WeightingConfig, job: JdParser.JobDescriptionAnalysis, jobText: string,
                        resume: ResumeAnalyzer.ResumeAnalysis, scorer: FuzzyScorer, cosine: Cosine): RelevanceAnalysisResult
  {
    var hard := HardMatchOf(c, job, resume, scorer);
    var soft := SoftMatchOf(c, job, jobText, resume, cosine);
    Assemble(c, job, resume, hard, soft, RelevanceScore(c, hard, soft))
  }

  /** `evaluate_resume_relevance`: the five steps in order. */
  method EvaluateResumeRelevance(c: WeightingConfig, job: JdParser.JobDescriptionAnalysis, jobText: string,
                                 resume: ResumeAnalyzer.ResumeAnalysis, scorer: FuzzyScorer, cosine: Cosine)
    returns (result: RelevanceAnalysisResult)
    ensures result == EvaluationOf(c, job, jobText, resume, scorer, cosine)
  {
    var hard := PerformHardMatching(c, job, resume, scorer);
    var soft := SoftMatchOf(c, job, jobText, resume, cosine);
    var relevance := RelevanceScore(c, hard, soft);
    var verdict := FitVerdictOf(c, relevance);
    var gaps := IdentifyMissingElements(job, resume, hard);
    var suggestions := SuggestionsOf(job, resume, hard, soft);
    result := RelevanceAnalysisResult(hard, soft, relevance, verdict, GapTexts(gaps), SuggestionTexts(suggestions));
  }

  /** Under the default weights and similarities bounded by 1 the relevance score is
      0.6·hard + 0.4·soft with no clamping, at most 52, so the verdict is never High and is
      Low exactly below 50; at most five suggestions are made. */
  lemma EvaluationShape(job: JdParser.JobDescriptionAnalysis, jobText: string, resume: ResumeAnalyzer.ResumeAnalysis,
                        scorer: FuzzyScorer, cosine: Cosine)
    requires forall x, y :: cosine(x, y) <= 1.0
    ensures var r := EvaluationOf(DefaultConfig, job, jobText, resume, scorer, cosine);
      && r.relevanceScore == 0.6 * r.hardMatch.hardMatchScore + 0.4 * r.softMatch.overallSemanticScore
      && r.relevanceScore <= 52.0
      && r.fitVerdict != High
      && (r.fitVerdict == Low <==> r.relevanceScore < 50.0)
      && |r.improvementSuggestions| <= 5
  {
    var hard := HardMatchOf(DefaultConfig, job, resume, scorer);
    var soft := SoftMatchOf(DefaultConfig, job, jobText, resume, cosine);
    HardMatchBounds(job, resume, scorer);
    SoftMatchBounds(job, jobText, resume, cosine);
    FitVerdictBands(RelevanceScore(DefaultConfig, hard, soft), RelevanceScore(DefaultConfig, hard, soft));
    SuggestionsShape(job, resume, hard, soft);
  }

  /** The evaluation with the evidently intended relevance `CombinedRelevance`. */
  function CorrectedEvaluationOf(c: WeightingConfig, job: JdParser.JobDescriptionAnalysis, jobText: string,
                                 resume: ResumeAnalyzer.ResumeAnalysis, scorer: FuzzyScorer, cosine: Cosine): RelevanceAnalysisResult
  {
    var hard := HardMatchOf(c, job, resume, scorer);
    var soft := SoftMatchOf(c, job, jobText, resume, cosine);
    Assemble(c, job, resume, hard, soft, CombinedRelevance(hard, soft))
  }

  /** With the corrected relevance the score is the plain sum of the hard and soft scores,
      and every one of the 75/50 bands is in play. */
  lemma CorrectedEvaluationShape(job: JdParser.JobDescriptionAnalysis, jobText: string, resume: ResumeAnalyzer.ResumeAnalysis,
                                 scorer: FuzzyScorer, cosine: Cosine)
    requires forall x, y :: cosine(x, y) <= 1.0
    ensures var r := CorrectedEvaluationOf(DefaultConfig, job, jobText, resume, scorer, cosine);
      && r.relevanceScore == r.hardMatch.hardMatchScore + r.softMatch.overallSemanticScore
      && (r.fitVerdict == High <==> r.relevanceScore >= 75.0)
      && (r.fitVerdict == Low <==> r.relevanceScore < 50.0)
      && |r.improvementSuggestions| <= 5
  {
    var hard := HardMatchOf(DefaultConfig, job, resume, scorer);
    var soft := SoftMatchOf(DefaultConfig, job, jobText, resume, cosine);
    HardMatchBounds(job, resume, scorer);
    SoftMatchBounds(job, jobText, resume, cosine);
    CombinedRelevanceReachesHigh(hard, soft);
    FitVerdictBands(CombinedRelevance(hard, soft), CombinedRelevance(hard, soft));
    SuggestionsShape(job, resume, hard, soft);
  }

  // ---------------------------------------------------------------- the missing attribute

  /** The attribute `_perform_soft_matching` reads for the job text. */
  const JobTextAttribute := "job_description"

  /** Python's `AttributeError` message for an attribute a class does not declare. */
  function NoAttributeMessage(cls: string, name: string): string
  {
    "'" + cls + "' object has no attribute '" + name + "'"
  }

  /** `_perform_soft_matching` as written. Its first step reads `job_analysis.job_description`.
      Only a declared dataclass field could be read; `jobText` stands for the value such a
      field would hold. Any other name raises `AttributeError` before any similarity is
      computed. */
  function SoftMatchAsWritten(c: WeightingConfig, job: JdParser.JobDescriptionAnalysis, jobText: string,
                              resume: ResumeAnalyzer.ResumeAnalysis, cosine: Cosine): Outcome<SoftMatchResult>
  {
    if JobTextAttribute in JdParser.AnalysisFields then Ok(SoftMatchOf(c, job, jobText, resume, cosine))
    else Raised(NoAttributeMessage("JobDescriptionAnalysis", JobTextAttribute))
  }

  /** `evaluate_resume_relevance` as written: step 1 runs, and an exception in step 2
      propagates to the caller. */
  function EvaluationAsWritten(c: WeightingConfig, job: JdParser.JobDescriptionAnalysis, jobText: string,
                               resume: ResumeAnalyzer.ResumeAnalysis, scorer: FuzzyScorer, cosine: Cosine)
    : Outcome<RelevanceAnalysisResult>
  {
    var hard := HardMatchOf(c, job, resume, scorer);
    match SoftMatchAsWritten(c, job, jobText, resume, cosine)
    case Raised(m) => Raised(m)
    case Ok(soft) => Ok(Assemble(c, job, resume, hard, soft, RelevanceScore(c, hard, soft)))
  }

  /** `JobDescriptionAnalysis` declares no `job_description` field, so as written every
      call of `evaluate_resume_relevance` raises `AttributeError` and returns no result. */
  lemma AsWrittenEvaluationRaises(c: WeightingConfig, job: JdParser.JobDescriptionAnalysis, jobText: string,
                                  resume: ResumeAnalyzer.ResumeAnalysis, scorer: FuzzyScorer, cosine: Cosine)
    ensures JobTextAttribute !in JdParser.AnalysisFields
    ensures SoftMatchAsWritten(c, job, jobText, resume, cosine).Raised?
    ensures EvaluationAsWritten(c, job, jobText, resume, scorer, cosine)
      == Raised(NoAttributeMessage("JobDescriptionAnalysis", "job_description"))
  {
  }
}
