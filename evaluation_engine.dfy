/** The evaluation engine behind the evaluations router: it turns a job record and a parsed
    resume into a hard (skill) score, a lexical "semantic" score, their weighted blend, a
    High/Medium/Low suitability, matched and missing skill lists, qualification keyword lists
    and a feedback text. */
module EvaluationEngine {
  import opened Text

  /** The weights the engine reads from the application settings (0.4 hard, 0.6 semantic);
      the 0.6/0.4 defaults of the engine's own `getattr` calls never apply. */
  const HardMatchWeight: real := 0.4
  const SemanticMatchWeight: real := 0.6

  /** A resume skill counts as a fuzzy hit when its character-set similarity reaches 50. */
  const FuzzyThreshold: real := 50.0

  /** The two suitability cut-offs, shared by the verdict and the closing recommendation. */
  const HighCutoff: real := 70.0
  const MediumCutoff: real := 45.0

  /** An entry of the resume's education list: a JSON object with degree and institution, or
      (as some callers send) a plain string, on which `edu.get` raises. */
  datatype EducationEntry = EducationRecord(degree: string, institution: string) | EducationText(text: string)

  /** The job record as the router builds it; a NULL qualifications column arrives as None. */
  datatype JobData = JobData(
    title: string,
    description: string,
    requiredSkills: seq<string>,
    preferredSkills: seq<string>,
    qualifications: Option<string>)

  /** The resume record as the router builds it; a NULL extracted text arrives as None. */
  datatype ResumeData = ResumeData(text: Option<string>, skills: seq<string>, education: seq<EducationEntry>)

  datatype Suitability = High | Medium | Low

  datatype HardMatch = HardMatch(score: real, matched: seq<string>, missing: seq<string>)

  datatype QualificationMatch = QualificationMatch(matched: seq<string>, missing: seq<string>)

  datatype Evaluation = Evaluation(
    relevanceScore: real,
    hardMatchScore: real,
    semanticMatchScore: real,
    matchedSkills: seq<string>,
    missingSkills: seq<string>,
    matchedQualifications: seq<string>,
    missingQualifications: seq<string>,
    suitability: Suitability,
    feedback: string)

  // ================================================================ skill normalisation

  /** The ten-entry synonym table of `normalize_skill`, looked up on a trimmed lower-case key. */
  function Alias(key: string): Option<string>
  {
    if key == "js" then Some("javascript")
    else if key == "ts" then Some("typescript")
    else if key == "reactjs" || key == "react.js" then Some("react")
    else if key == "nodejs" || key == "node" then Some("node.js")
    else if key == "ml" then Some("machine learning")
    else if key == "ai" then Some("artificial intelligence")
    else if key == "aws" then Some("amazon web services")
    else if key == "gcp" then Some("google cloud platform")
    else None
  }

  const AliasTargets: set<string> := {"javascript", "typescript", "react", "node.js", "machine learning",
                                      "artificial intelligence", "amazon web services", "google cloud platform"}

  /** Every synonym maps to one of the eight canonical names, and no canonical name is itself a synonym. */
  lemma AliasTargetsAreCanonical(key: string)
    ensures Alias(key).Some? ==> Alias(key).value in AliasTargets
    ensures key in AliasTargets ==> Alias(key).None?
  {
  }

  lemma AliasTargetShape(v: string)
    requires v in AliasTargets
    ensures IsLowerCase(v) && Strip(v) == v
  {
    if v == "javascript" { CanonicalShape(v); }
    else if v == "typescript" { CanonicalShape(v); }
    else if v == "react" { CanonicalShape(v); }
    else if v == "node.js" { CanonicalShape(v); }
    else if v == "machine learning" { CanonicalShape(v); }
    else if v == "artificial intelligence" { CanonicalShape(v); }
    else if v == "amazon web services" { CanonicalShape(v); }
    else { CanonicalShape(v); }
  }

  lemma CanonicalShape(v: string)
    requires |v| > 0 && forall i :: 0 <= i < |v| ==> IsLowerChar(v[i]) || v[i] == '.' || v[i] == ' '
    requires v[0] != ' ' && v[|v| - 1] != ' '
    ensures IsLowerCase(v) && Strip(v) == v
  {
    StripOfTrimmed(v);
  }

  /** Trim and lower-case a skill, then map it through the synonym table. The result is a
      normal form: trimmed, lower-case and not itself a synonym. */
  function NormalizeSkill(skill: string): (r: string)
    ensures IsLowerCase(r) && Strip(r) == r
    ensures Alias(r).None?
    ensures Alias(Lower(Strip(skill))).None? ==> r == Lower(Strip(skill))
  {
    var key := Lower(Strip(skill));
    LowerIsLowerCase(Strip(skill));
    StripLower(Strip(skill));
    StripIdempotent(skill);
    AliasTargetsAreCanonical(key);
    match Alias(key)
    case Some(target) =>
      AliasTargetShape(target);
      AliasTargetsAreCanonical(target);
      target
    case None => key
  }

  function NormalizeAll(skills: seq<string>): (r: seq<string>)
    ensures |r| == |skills|
    ensures forall i :: 0 <= i < |skills| ==> r[i] == NormalizeSkill(skills[i])
  {
    seq(|skills|, i requires 0 <= i < |skills| => NormalizeSkill(skills[i]))
  }

  /** Normalising twice is normalising once. */
  lemma NormalizeIdempotent(skill: string)
    ensures NormalizeSkill(NormalizeSkill(skill)) == NormalizeSkill(skill)
  {
    var r := NormalizeSkill(skill);
    LowerOfLowerCase(r);
  }

  /** Normalisation ignores letter case. */
  lemma NormalizeIgnoresCase(skill: string)
    ensures NormalizeSkill(Lower(skill)) == NormalizeSkill(skill)
  {
    StripLower(skill);
    LowerIdempotent(Strip(skill));
  }

  /** Normalisation ignores surrounding whitespace. */
  lemma NormalizeIgnoresPadding(skill: string, c: char)
    requires IsSpace(c)
    ensures NormalizeSkill([c] + skill) == NormalizeSkill(skill)
    ensures NormalizeSkill(skill + [c]) == NormalizeSkill(skill)
  {
    StripPadded(skill, c);
  }

  /** The canonical names are fixed points, and every synonym normalises to its canonical name. */
  lemma NormalizeCanonical(v: string)
    requires v in AliasTargets
    ensures NormalizeSkill(v) == v
    ensures forall c :: IsSpace(c) ==> NormalizeSkill([c] + Upper(v)) == v
  {
    AliasTargetShape(v);
    AliasTargetsAreCanonical(v);
    LowerOfLowerCase(v);
    forall c | IsSpace(c) ensures NormalizeSkill([c] + Upper(v)) == v {
      NormalizeIgnoresPadding(Upper(v), c);
      NormalizeIgnoresCase(Upper(v));
      LowerUpper(v);
    }
  }

  // ================================================================ character-set similarity

  function CharSet(s: string): set<char> { set c | c in s }

  lemma SubsetCardinality<T>(a: set<T>, b: set<T>)
    requires a <= b
    ensures |a| <= |b|
  {
    if a != {} {
      var x :| x in a;
      SubsetCardinality(a - {x}, b - {x});
    }
  }

  lemma RatioBounds(k: real, n: real)
    requires 0.0 <= k <= n && n > 0.0
    ensures 0.0 <= k / n <= 1.0
  {
  }

  /** The Jaccard index of two sets, as a percentage; two empty sets score 0. */
  function JaccardPercent<T>(a: set<T>, b: set<T>): (r: real)
    ensures 0.0 <= r <= 100.0
    ensures a * b == {} ==> r == 0.0
    ensures a == b && a != {} ==> r == 100.0
  {
    if |a + b| == 0 then 0.0
    else
      SubsetCardinality(a * b, a + b);
      RatioBounds(|a * b| as real, |a + b| as real);
      assert a == b ==> a + b == a && a * b == a;
      (|a * b| as real / |a + b| as real) * 100.0
  }

  /** `_calculate_string_similarity`: the Jaccard index of the two lower-cased character sets, times 100. */
  function StringSimilarity(s1: string, s2: string): (r: real)
    ensures 0.0 <= r <= 100.0
  {
    JaccardPercent(CharSet(Lower(s1)), CharSet(Lower(s2)))
  }

  lemma SimilaritySymmetric(s1: string, s2: string)
    ensures StringSimilarity(s1, s2) == StringSimilarity(s2, s1)
  {
    var a := CharSet(Lower(s1));
    var b := CharSet(Lower(s2));
    assert a + b == b + a && a * b == b * a;
  }

  /** Two strings with the same lower-cased character set score 100, unless both are empty (0). */
  lemma SimilaritySameCharacters(s1: string, s2: string)
    requires CharSet(Lower(s1)) == CharSet(Lower(s2))
    ensures StringSimilarity(s1, s2) == if |s1| == 0 then 0.0 else 100.0
  {
    var a := CharSet(Lower(s1));
    if |s1| > 0 {
      assert Lower(s1)[0] in a;
    } else {
      assert Lower(s1) == [];
      assert a == {};
    }
  }

  /** Strings without a common character (ignoring case) score 0. */
  lemma SimilarityDisjoint(s1: string, s2: string)
    requires forall i, j :: 0 <= i < |s1| && 0 <= j < |s2| ==> LowerChar(s1[i]) != LowerChar(s2[j])
    ensures StringSimilarity(s1, s2) == 0.0
  {
    var a := CharSet(Lower(s1));
    var b := CharSet(Lower(s2));
    forall c | c in a ensures c !in b {
      var i :| 0 <= i < |s1| && Lower(s1)[i] == c;
      assert forall j :: 0 <= j < |s2| ==> Lower(s2)[j] != c;
    }
    assert a * b == {};
  }

  lemma SimilarityWithItself(s: string)
    ensures StringSimilarity(s, s) == if |s| == 0 then 0.0 else 100.0
  {
    SimilaritySameCharacters(s, s);
  }

  // ================================================================ hard match

  predicate FuzzyHit(skill: string, candidates: seq<string>)
  {
    exists c :: c in candidates && StringSimilarity(skill, c) >= FuzzyThreshold
  }

  /** A job skill is matched when it is a candidate skill or fuzzily close to one. */
  predicate SkillHit(skill: string, candidates: seq<string>)
  {
    skill in candidates || FuzzyHit(skill, candidates)
  }

  /** The exact-match pass: the job skills found among the candidate skills, in order. */
  function ExactMatches(skills: seq<string>, candidates: seq<string>): (r: seq<string>)
    ensures forall s :: s in r <==> s in skills && s in candidates
  {
    if |skills| == 0 then []
    else
      var last := skills[|skills| - 1];
      var r := ExactMatches(skills[..|skills| - 1], candidates);
      assert forall s :: s in skills <==> s in skills[..|skills| - 1] || s == last;
      if last in candidates then r + [last] else r
  }

  /** The fuzzy pass over `skills`, appending to `acc` each skill not yet in it that has a fuzzy hit. */
  function FuzzyPass(skills: seq<string>, candidates: seq<string>, acc: seq<string>): (r: seq<string>)
    ensures forall s :: s in r <==> s in acc || (s in skills && FuzzyHit(s, candidates))
  {
    if |skills| == 0 then acc
    else
      var last := skills[|skills| - 1];
      var r := FuzzyPass(skills[..|skills| - 1], candidates, acc);
      assert forall s :: s in skills <==> s in skills[..|skills| - 1] || s == last;
      if last !in r && FuzzyHit(last, candidates) then r + [last] else r
  }

  function MatchedSkills(jobSkills: seq<string>, candidates: seq<string>): seq<string>
  {
    FuzzyPass(jobSkills, candidates, ExactMatches(jobSkills, candidates))
  }

  /** A job skill is matched exactly when it has an exact or a fuzzy hit; nothing else is matched. */
  lemma MatchedSkillsMembers(jobSkills: seq<string>, candidates: seq<string>, s: string)
    ensures s in MatchedSkills(jobSkills, candidates) <==> s in jobSkills && SkillHit(s, candidates)
  {
  }

  /** `[skill for skill in xs if skill not in matched]` */
  function Unmatched(xs: seq<string>, matched: seq<string>): (r: seq<string>)
    ensures forall s :: s in r <==> s in xs && s !in matched
  {
    if |xs| == 0 then []
    else
      var last := xs[|xs| - 1];
      var r := Unmatched(xs[..|xs| - 1], matched);
      assert forall s :: s in xs <==> s in xs[..|xs| - 1] || s == last;
      if last !in matched then r + [last] else r
  }

  /** `sum(1 for skill in xs if skill in matched)` */
  function CountIn(xs: seq<string>, matched: seq<string>): (n: nat)
    ensures n <= |xs|
  {
    if |xs| == 0 then 0
    else CountIn(xs[..|xs| - 1], matched) + (if xs[|xs| - 1] in matched then 1 else 0)
  }

  lemma {:induction false} CountInAll(xs: seq<string>, matched: seq<string>)
    ensures CountIn(xs, matched) == |xs| <==> forall s :: s in xs ==> s in matched
  {
    if |xs| > 0 {
      CountInAll(xs[..|xs| - 1], matched);
      assert forall s :: s in xs <==> s in xs[..|xs| - 1] || s == xs[|xs| - 1];
    }
  }

  lemma {:induction false} CountInMonotone(xs: seq<string>, m1: seq<string>, m2: seq<string>)
    requires forall s :: s in xs && s in m1 ==> s in m2
    ensures CountIn(xs, m1) <= CountIn(xs, m2)
  {
    if |xs| > 0 {
      CountInMonotone(xs[..|xs| - 1], m1, m2);
    }
  }

  lemma RatioOne(k: real, n: real)
    requires n > 0.0
    ensures k / n == 1.0 <==> k == n
  {
    if k / n == 1.0 {
      assert k == (k / n) * n;
    }
  }

  lemma RatioMonotone(k1: real, k2: real, n: real)
    requires 0.0 <= k1 <= k2 && n > 0.0
    ensures k1 / n <= k2 / n
  {
  }

  /** The fraction of `xs` found in `matched`. */
  function Share(xs: seq<string>, matched: seq<string>): (r: real)
    requires |xs| > 0
    ensures 0.0 <= r <= 1.0
    ensures r == 1.0 <==> forall s :: s in xs ==> s in matched
  {
    CountInAll(xs, matched);
    RatioBounds(CountIn(xs, matched) as real, |xs| as real);
    RatioOne(CountIn(xs, matched) as real, |xs| as real);
    CountIn(xs, matched) as real / |xs| as real
  }

  lemma ShareMonotone(xs: seq<string>, m1: seq<string>, m2: seq<string>)
    requires |xs| > 0
    requires forall s :: s in m1 ==> s in m2
    ensures Share(xs, m1) <= Share(xs, m2)
  {
    CountInMonotone(xs, m1, m2);
    RatioMonotone(CountIn(xs, m1) as real, CountIn(xs, m2) as real, |xs| as real);
  }

  /** The 60/40 required/preferred formula: no required skills earn 0 required credit,
      no preferred skills earn the full 0.4 preferred credit. */
  function HardScore(required: seq<string>, preferred: seq<string>, matched: seq<string>): real
  {
    var requiredScore := if |required| > 0 then Share(required, matched) * 0.6 else 0.0;
    var preferredScore := if |preferred| > 0 then Share(preferred, matched) * 0.4 else 0.4;
    (requiredScore + preferredScore) * 100.0
  }

  /** The formula stays within 0..100 and reaches 100 exactly when there is a required skill
      and every required and preferred skill is matched. */
  lemma HardScoreBounds(required: seq<string>, preferred: seq<string>, matched: seq<string>)
    ensures 0.0 <= HardScore(required, preferred, matched) <= 100.0
    ensures HardScore(required, preferred, matched) == 100.0 <==>
      |required| > 0 && forall s :: s in required + preferred ==> s in matched
  {
    var all := forall s :: s in required + preferred ==> s in matched;
    if |required| > 0 && |preferred| > 0 {
      assert all <==> Share(required, matched) == 1.0 && Share(preferred, matched) == 1.0;
    } else if |required| > 0 {
      assert required + preferred == required;
    }
  }

  lemma HardScoreMonotone(required: seq<string>, preferred: seq<string>, m1: seq<string>, m2: seq<string>)
    requires forall s :: s in m1 ==> s in m2
    ensures HardScore(required, preferred, m1) <= HardScore(required, preferred, m2)
  {
    if |required| > 0 {
      ShareMonotone(required, m1, m2);
    }
    if |preferred| > 0 {
      ShareMonotone(preferred, m1, m2);
    }
  }

  function AllJobSkills(job: JobData): seq<string>
  {
    NormalizeAll(job.requiredSkills) + NormalizeAll(job.preferredSkills)
  }

  /** What `calculate_hard_match_score` returns for a job and a resume. */
  function HardMatchOf(job: JobData, resume: ResumeData): HardMatch
  {
    HardMatchFor(NormalizeAll(job.requiredSkills), NormalizeAll(job.preferredSkills), NormalizeAll(resume.skills))
  }

  /** The hard match on already normalised skill lists. */
  function HardMatchFor(required: seq<string>, preferred: seq<string>, candidates: seq<string>): HardMatch
  {
    var all := required + preferred;
    if |all| == 0 then HardMatch(0.0, [], [])
    else
      var matched := MatchedSkills(all, candidates);
      HardMatch(HardScore(required, preferred, matched), matched, Unmatched(all, matched))
  }

  /** The hard match partitions the normalised job skills: each is matched or missing, never
      both, and neither list holds anything else; a job without skills scores 0 with empty lists. */
  lemma HardMatchPartition(job: JobData, resume: ResumeData)
    ensures var h := HardMatchOf(job, resume);
      && (forall s :: s in AllJobSkills(job) ==> (s in h.matched <==> s !in h.missing))
      && (forall s :: s in h.matched || s in h.missing ==> s in AllJobSkills(job))
      && (forall s :: s in h.matched ==> SkillHit(s, NormalizeAll(resume.skills)))
      && (|AllJobSkills(job)| == 0 ==> h == HardMatch(0.0, [], []))
      && 0.0 <= h.score <= 100.0
  {
    var required := NormalizeAll(job.requiredSkills);
    var preferred := NormalizeAll(job.preferredSkills);
    if |required + preferred| > 0 {
      HardScoreBounds(required, preferred, MatchedSkills(required + preferred, NormalizeAll(resume.skills)));
    }
  }

  lemma HardMatchInRange(job: JobData, resume: ResumeData)
    ensures 0.0 <= HardMatchOf(job, resume).score <= 100.0
  {
    var required := NormalizeAll(job.requiredSkills);
    var preferred := NormalizeAll(job.preferredSkills);
    if |required + preferred| > 0 {
      HardScoreBounds(required, preferred, MatchedSkills(required + preferred, NormalizeAll(resume.skills)));
    }
  }

  /** The hard score is 100 exactly when the job lists a required skill and every job skill matched. */
  lemma HardMatchPerfect(job: JobData, resume: ResumeData)
    ensures var h := HardMatchOf(job, resume);
      h.score == 100.0 <==> |job.requiredSkills| > 0 && forall s :: s in AllJobSkills(job) ==> s in h.matched
  {
    var required := NormalizeAll(job.requiredSkills);
    var preferred := NormalizeAll(job.preferredSkills);
    if |required + preferred| > 0 {
      HardScoreBounds(required, preferred, MatchedSkills(required + preferred, NormalizeAll(resume.skills)));
    }
  }

  /** Adding a skill to the resume never un-matches a job skill and never lowers the hard score. */
  lemma HardMatchMonotone(job: JobData, resume: ResumeData, extra: string)
    ensures var before := HardMatchOf(job, resume);
      var after := HardMatchOf(job, resume.(skills := resume.skills + [extra]));
      (forall s :: s in before.matched ==> s in after.matched) && before.score <= after.score
  {
    var all := AllJobSkills(job);
    var c1 := NormalizeAll(resume.skills);
    var c2 := NormalizeAll(resume.skills + [extra]);
    assert forall c :: c in c1 ==> c in c2 by {
      forall c | c in c1 ensures c in c2 {
        var i :| 0 <= i < |c1| && c1[i] == c;
        assert c2[i] == c;
      }
    }
    forall s | s in MatchedSkills(all, c1) ensures s in MatchedSkills(all, c2) {
      MatchedSkillsMembers(all, c1, s);
      MatchedSkillsMembers(all, c2, s);
    }
    if |all| > 0 {
      HardScoreMonotone(NormalizeAll(job.requiredSkills), NormalizeAll(job.preferredSkills),
                        MatchedSkills(all, c1), MatchedSkills(all, c2));
    }
  }

  /** The inner loop of the fuzzy pass: does some candidate reach the fuzzy threshold? It stops at the first one. */
  method HasFuzzyHit(skill: string, candidates: seq<string>) returns (found: bool)
    ensures found == FuzzyHit(skill, candidates)
  {
    found := false;
    var j := 0;
    while j < |candidates| && !found
      invariant 0 <= j <= |candidates|
      invariant found ==> FuzzyHit(skill, candidates)
      invariant !found ==> forall k :: 0 <= k < j ==> StringSimilarity(skill, candidates[k]) < FuzzyThreshold
    {
      if StringSimilarity(skill, candidates[j]) >= FuzzyThreshold {
        found := true;
      }
      j := j + 1;
    }
  }

  /** The number of `xs` that are in `matched`, counted by a loop. */
  method CountMatched(xs: seq<string>, matched: seq<string>) returns (n: nat)
    ensures n == CountIn(xs, matched)
  {
    n := 0;
    for i := 0 to |xs|
      invariant n == CountIn(xs[..i], matched)
    {
      assert xs[..i + 1][..i] == xs[..i];
      if xs[i] in matched {
        n := n + 1;
      }
    }
    assert xs[..|xs|] == xs;
  }

  /** The exact and the fuzzy pass of `calculate_hard_match_score`. */
  method MatchJobSkills(all: seq<string>, candidates: seq<string>) returns (matched: seq<string>)
    ensures matched == MatchedSkills(all, candidates)
  {
    var exact := ExactPass(all, candidates);
    matched := FuzzyPassLoop(all, candidates, exact);
  }

  /** `matched_skills = [skill for skill in all_job_skills if skill in candidate_skills]` */
  method ExactPass(all: seq<string>, candidates: seq<string>) returns (matched: seq<string>)
    ensures matched == ExactMatches(all, candidates)
  {
    matched := [];
    for i := 0 to |all|
      invariant matched == ExactMatches(all[..i], candidates)
    {
      assert all[..i + 1][..i] == all[..i];
      if all[i] in candidates {
        matched := matched + [all[i]];
      }
    }
    assert all[..|all|] == all;
  }

  /** The fuzzy pass: each job skill not matched yet is added when a candidate is close enough. */
  method FuzzyPassLoop(all: seq<string>, candidates: seq<string>, exact: seq<string>) returns (matched: seq<string>)
    ensures matched == FuzzyPass(all, candidates, exact)
  {
    matched := exact;
    for i := 0 to |all|
      invariant matched == FuzzyPass(all[..i], candidates, exact)
    {
      assert all[..i + 1][..i] == all[..i];
      if all[i] !in matched {
        var found := HasFuzzyHit(all[i], candidates);
        if found {
          matched := matched + [all[i]];
        }
      }
    }
    assert all[..|all|] == all;
  }

  /** `[skill for skill in all_job_skills if skill not in matched_skills]`, by a loop. */
  method MissingSkills(all: seq<string>, matched: seq<string>) returns (missing: seq<string>)
    ensures missing == Unmatched(all, matched)
  {
    missing := [];
    for i := 0 to |all|
      invariant missing == Unmatched(all[..i], matched)
    {
      assert all[..i + 1][..i] == all[..i];
      if all[i] !in matched {
        missing := missing + [all[i]];
      }
    }
    assert all[..|all|] == all;
  }

  /** `calculate_hard_match_score`: normalise, match, score the 60/40 formula capped at 100, list the missing skills. */
  method CalculateHardMatchScore(job: JobData, resume: ResumeData) returns (h: HardMatch)
    ensures h == HardMatchOf(job, resume)
  {
    h := ScoreSkills(NormalizeAll(job.requiredSkills), NormalizeAll(job.preferredSkills), NormalizeAll(resume.skills));
  }

  method ScoreSkills(required: seq<string>, preferred: seq<string>, candidates: seq<string>) returns (h: HardMatch)
    ensures h == HardMatchFor(required, preferred, candidates)
  {
    var all := required + preferred;
    if |all| == 0 {
      return HardMatch(0.0, [], []);
    }
    var matched := MatchJobSkills(all, candidates);
    var requiredMatched := CountMatched(required, matched);
    var preferredMatched := CountMatched(preferred, matched);
    var requiredScore := 0.0;
    if |required| > 0 {
      requiredScore := (requiredMatched as real / |required| as real) * 0.6;
      assert requiredScore == Share(required, matched) * 0.6;
    }
    var preferredScore := 0.4;
    if |preferred| > 0 {
      preferredScore := (preferredMatched as real / |preferred| as real) * 0.4;
      assert preferredScore == Share(preferred, matched) * 0.4;
    }
    var score := (requiredScore + preferredScore) * 100.0;
    assert score == HardScore(required, preferred, matched);
    HardScoreBounds(required, preferred, matched);
    var missing := MissingSkills(all, matched);
    h := HardMatch(if score < 100.0 then score else 100.0, matched, missing);
  }

  // ================================================================ lexical semantic score

  function WordSet(s: string): set<string> { set w | w in Words(s) }

  /** `_calculate_simple_text_similarity`: the Jaccard index of the word sets of the lower-cased
      "title description" and resume texts, times 100; a missing resume text raises inside the
      method's own try block and yields 0. */
  function TextSimilarity(job: JobData, resume: ResumeData): (r: real)
    ensures 0.0 <= r <= 100.0
    ensures resume.text.None? ==> r == 0.0
  {
    match resume.text
    case None => 0.0
    case Some(text) =>
      var jobText := Lower(job.title + " " + job.description);
      var resumeText := Lower(text);
      if |jobText| == 0 || |resumeText| == 0 then 0.0
      else
        var score := JaccardPercent(WordSet(jobText), WordSet(resumeText));
        if score < 100.0 then score else 100.0
  }

  lemma WordSetOfEmpty(s: string)
    requires |s| == 0
    ensures WordSet(s) == {}
  {
    assert TrimStart(s) == [];
  }

  /** Texts with no word in common score 0; texts with the same non-empty word set score 100. */
  lemma TextSimilarityExtremes(job: JobData, resume: ResumeData)
    requires resume.text.Some?
    ensures var a := WordSet(Lower(job.title + " " + job.description));
      var b := WordSet(Lower(resume.text.value));
      (a * b == {} ==> TextSimilarity(job, resume) == 0.0) &&
      (a == b && a != {} ==> TextSimilarity(job, resume) == 100.0)
  {
    var b := WordSet(Lower(resume.text.value));
    if |Lower(resume.text.value)| == 0 {
      WordSetOfEmpty(Lower(resume.text.value));
    }
  }

  // ================================================================ qualifications

  const QualificationKeywords: seq<string> := [
    "bachelor", "master", "phd", "doctorate", "degree",
    "computer science", "engineering", "information technology",
    "mathematics", "statistics"]

  /** The text of the education entries, `' '.join(f"{degree} {institution}")`, lower-cased;
      a plain-string entry makes `edu.get` raise. */
  function EducationText(education: seq<EducationEntry>): Outcome<string>
  {
    if exists i :: 0 <= i < |education| && education[i].EducationText? then
      Raised("'str' object has no attribute 'get'")
    else
      Ok(Lower(Join(" ", seq(|education|, i requires 0 <= i < |education| =>
        education[i].degree + " " + education[i].institution))))
  }

  /** Keywords of `keys` occurring in the job text, split by whether they also occur in the education text. */
  function KeywordsFound(keys: seq<string>, jobText: string, eduText: string, inEducation: bool): (r: seq<string>)
    ensures forall k :: k in r <==> k in keys && Contains(jobText, k) && (Contains(eduText, k) == inEducation)
  {
    if |keys| == 0 then []
    else
      var last := keys[|keys| - 1];
      var r := KeywordsFound(keys[..|keys| - 1], jobText, eduText, inEducation);
      assert forall s :: s in keys <==> s in keys[..|keys| - 1] || s == last;
      if Contains(jobText, last) && Contains(eduText, last) == inEducation then r + [last] else r
  }

  /** What `calculate_qualification_match` returns or raises. */
  function QualificationMatchOf(job: JobData, resume: ResumeData): Outcome<QualificationMatch>
  {
    match job.qualifications
    case None => Raised("'NoneType' object has no attribute 'lower'")
    case Some(q) =>
      match EducationText(resume.education)
      case Raised(m) => Raised(m)
      case Ok(e) =>
        Ok(QualificationMatch(
          KeywordsFound(QualificationKeywords, Lower(q), e, true),
          KeywordsFound(QualificationKeywords, Lower(q), e, false)))
  }

  /** The two lists are disjoint, their union is the keywords found in the qualifications text,
      and a keyword is matched exactly when the education text also holds it. */
  lemma QualificationPartition(job: JobData, resume: ResumeData)
    requires QualificationMatchOf(job, resume).Ok?
    ensures var r := QualificationMatchOf(job, resume).value;
      var q := Lower(job.qualifications.value);
      var e := EducationText(resume.education).value;
      && (forall k :: k in r.matched || k in r.missing <==> k in QualificationKeywords && Contains(q, k))
      && (forall k :: k in r.matched <==> k in QualificationKeywords && Contains(q, k) && Contains(e, k))
      && (forall k :: !(k in r.matched && k in r.missing))
  {
  }

  /** `calculate_qualification_match`: a loop over the keyword list appending to matched or missing. */
  method CalculateQualificationMatch(job: JobData, resume: ResumeData) returns (r: Outcome<QualificationMatch>)
    ensures r == QualificationMatchOf(job, resume)
    ensures r.Ok? ==> forall k :: !(k in r.value.matched && k in r.value.missing)
    ensures r.Ok? ==> forall k :: k in r.value.matched + r.value.missing ==> k in QualificationKeywords
  {
    if job.qualifications.None? {
      return Raised("'NoneType' object has no attribute 'lower'");
    }
    var jobQualifications := Lower(job.qualifications.value);
    var education := EducationText(resume.education);
    if education.Raised? {
      return Raised(education.message);
    }
    var matched: seq<string> := [];
    var missing: seq<string> := [];
    for i := 0 to |QualificationKeywords|
      invariant matched == KeywordsFound(QualificationKeywords[..i], jobQualifications, education.value, true)
      invariant missing == KeywordsFound(QualificationKeywords[..i], jobQualifications, education.value, false)
    {
      assert QualificationKeywords[..i + 1][..i] == QualificationKeywords[..i];
      var keyword := QualificationKeywords[i];
      if Contains(jobQualifications, keyword) {
        if Contains(education.value, keyword) {
          matched := matched + [keyword];
        } else {
          missing := missing + [keyword];
        }
      }
    }
    assert QualificationKeywords[..|QualificationKeywords|] == QualificationKeywords;
    r := Ok(QualificationMatch(matched, missing));
  }

  // ================================================================ verdict and feedback

  function DetermineSuitability(score: real): (s: Suitability)
    ensures s == High <==> score >= HighCutoff
    ensures s == Medium <==> MediumCutoff <= score < HighCutoff
    ensures s == Low <==> score < MediumCutoff
  {
    if score >= HighCutoff then High else if score >= MediumCutoff then Medium else Low
  }

  function Rank(s: Suitability): nat
  {
    match s
    case Low => 0
    case Medium => 1
    case High => 2
  }

  lemma SuitabilityMonotone(a: real, b: real)
    requires a <= b
    ensures Rank(DetermineSuitability(a)) <= Rank(DetermineSuitability(b))
  {
  }

  function Opening(s: Suitability): string
  {
    match s
    case High => "Excellent match! Your profile aligns very well with the job requirements."
    case Medium => "Good match! Your profile has strong potential for this role."
    case Low => "Your profile shows promise, but there are areas for improvement."
  }

  function Recommendation(s: Suitability): string
  {
    match s
    case Low => "Recommendation: Focus on building the key skills mentioned above and gain relevant project experience."
    case Medium => "Recommendation: You're on the right track! Consider specializing in a few key areas and showcasing relevant projects."
    case High => "Recommendation: Great profile! Consider applying and highlighting your strongest skills in your application."
  }

  /** The closing line, chosen from the score with the 45/70 cut-offs. */
  function Closing(score: real): string
  {
    if score < MediumCutoff then Recommendation(Low)
    else if score < HighCutoff then Recommendation(Medium)
    else Recommendation(High)
  }

  function MatchedLine(matched: seq<string>): string
  {
    "Strong skills match: " + Join(", ", Take(matched, 5))
      + (if |matched| > 5 then " and " + NatToString(|matched| - 5) + " more" else "")
  }

  /** The lines between the opening and the closing: strengths, then up to two lines of gaps. */
  function FeedbackBody(matched: seq<string>, missing: seq<string>): (body: seq<string>)
    ensures |body| <= 3
    ensures |body| == 0 <==> |matched| == 0 && |missing| == 0
    ensures |matched| > 0 ==> body[0] == MatchedLine(matched)
  {
    (if |matched| > 0 then [MatchedLine(matched)] else [])
    + (if |missing| > 0 then ["Consider developing: " + Join(", ", Take(missing, 3))] else [])
    + (if |missing| > 3 then ["Additional skills to explore: " + Join(", ", Take(missing[3..], 3))] else [])
  }

  /** The parts `generate_feedback` joins with spaces: always an opening and a closing line. */
  function FeedbackParts(score: real, matched: seq<string>, missing: seq<string>, suitability: Suitability): (parts: seq<string>)
    ensures 2 <= |parts| <= 5
    ensures parts[0] == Opening(suitability) && parts[|parts| - 1] == Closing(score)
  {
    var body := FeedbackBody(matched, missing);
    var parts := [Opening(suitability)] + body + [Closing(score)];
    assert parts[0] == Opening(suitability);
    assert parts[|parts| - 1] == Closing(score);
    parts
  }

  function GenerateFeedback(score: real, matched: seq<string>, missing: seq<string>, suitability: Suitability): string
  {
    Join(" ", FeedbackParts(score, matched, missing, suitability))
  }

  /** Given the verdict of the same score, the opening and the closing lines name the same band. */
  lemma FeedbackBandsAgree(score: real, matched: seq<string>, missing: seq<string>)
    ensures var s := DetermineSuitability(score);
      var parts := FeedbackParts(score, matched, missing, s);
      parts[0] == Opening(s) && parts[|parts| - 1] == Recommendation(s)
  {
  }

  // ================================================================ evaluate

  function Blend(hard: real, semantic: real): (r: real)
    ensures 0.0 <= hard <= 100.0 && 0.0 <= semantic <= 100.0 ==> 0.0 <= r <= 100.0
  {
    hard * HardMatchWeight + semantic * SemanticMatchWeight
  }

  /** The result of the catch-all: everything zero or empty, Low, the raw required skills as missing. */
  function FallbackEvaluation(job: JobData, message: string): Evaluation
  {
    Evaluation(0.0, 0.0, 0.0, [], job.requiredSkills, [], [], Low,
               "Unable to complete evaluation due to technical error: " + message)
  }

  /** What `evaluate` returns (the two-place rounding of the reported scores is not modelled). */
  function EvaluationOf(job: JobData, resume: ResumeData): Evaluation
  {
    match QualificationMatchOf(job, resume)
    case Raised(message) => FallbackEvaluation(job, message)
    case Ok(q) =>
      var h := HardMatchOf(job, resume);
      var semantic := TextSimilarity(job, resume);
      var relevance := Blend(h.score, semantic);
      var suitability := DetermineSuitability(relevance);
      Evaluation(relevance, h.score, semantic, h.matched, h.missing,
                 q.matched, q.missing, suitability,
                 GenerateFeedback(relevance, h.matched, h.missing, suitability))
  }

  /** `evaluate`: hard match, lexical similarity, qualification match, blend, verdict, feedback;
      any exception raised on the way yields the fallback result. */
  method Evaluate(job: JobData, resume: ResumeData) returns (e: Evaluation)
    ensures e == EvaluationOf(job, resume)
  {
    var hard := CalculateHardMatchScore(job, resume);
    var semantic := TextSimilarity(job, resume);
    var qualifications := CalculateQualificationMatch(job, resume);
    if qualifications.Raised? {
      return FallbackEvaluation(job, qualifications.message);
    }
    var relevance := Blend(hard.score, semantic);
    var suitability := DetermineSuitability(relevance);
    var feedback := GenerateFeedback(relevance, hard.matched, hard.missing, suitability);
    e := Evaluation(relevance, hard.score, semantic, hard.matched, hard.missing,
                    qualifications.value.matched, qualifications.value.missing, suitability, feedback);
  }

  /** Every reported score lies in 0..100. */
  lemma EvaluationInRange(job: JobData, resume: ResumeData)
    ensures var e := EvaluationOf(job, resume);
      0.0 <= e.relevanceScore <= 100.0 && 0.0 <= e.hardMatchScore <= 100.0 && 0.0 <= e.semanticMatchScore <= 100.0
  {
    match QualificationMatchOf(job, resume)
    case Raised(_) =>
    case Ok(_) =>
      var h := HardMatchOf(job, resume);
      HardMatchInRange(job, resume);
      var semantic := TextSimilarity(job, resume);
      var relevance := Blend(h.score, semantic);
  }

  /** The fallback reports a zero score and Low with the raw required skills as missing. */
  lemma EvaluationFallback(job: JobData, resume: ResumeData)
    requires QualificationMatchOf(job, resume).Raised?
    ensures var e := EvaluationOf(job, resume);
      e.relevanceScore == 0.0 && e.suitability == Low && e.missingSkills == job.requiredSkills
  {
  }

  /** Otherwise the verdict is the band of the reported relevance score, which is the
      0.4/0.6 blend of the reported hard and semantic scores. */
  lemma EvaluationVerdictAgrees(job: JobData, resume: ResumeData)
    requires QualificationMatchOf(job, resume).Ok?
    ensures var e := EvaluationOf(job, resume);
      && e.relevanceScore == 0.4 * e.hardMatchScore + 0.6 * e.semanticMatchScore
      && (e.suitability == High <==> e.relevanceScore >= 70.0)
      && (e.suitability == Low <==> e.relevanceScore < 45.0)
  {
    var e := EvaluationOf(job, resume);
    var r := Blend(HardMatchOf(job, resume).score, TextSimilarity(job, resume));
    assert e.relevanceScore == r && e.suitability == DetermineSuitability(r);
  }

  /** On a successful evaluation the matched and missing skills partition the normalised job
      skills, exactly as the hard match computed them. */
  lemma EvaluationSkillsPartition(job: JobData, resume: ResumeData)
    requires QualificationMatchOf(job, resume).Ok?
    ensures var e := EvaluationOf(job, resume);
      && (forall s :: s in AllJobSkills(job) ==> (s in e.matchedSkills <==> s !in e.missingSkills))
      && (forall s :: s in e.matchedSkills ==> s in AllJobSkills(job) && SkillHit(s, NormalizeAll(resume.skills)))
  {
    HardMatchPartition(job, resume);
  }

  /** The less-strict-evaluation script sends education as plain strings, so its run ends in the fallback. */
  lemma PlainStringEducationFallsBack(job: JobData, resume: ResumeData)
    requires job.qualifications.Some?
    requires exists i :: 0 <= i < |resume.education| && resume.education[i].EducationText?
    ensures QualificationMatchOf(job, resume) == Raised("'str' object has no attribute 'get'")
  {
  }
}
