# Resume relevance scoring — a Dafny model

This project models the scoring core of the resume relevance system. That core is what turns a parsed job description and a parsed resume into scores, a suitability verdict and lists of gaps and suggestions. Around it sit the table lookups, de-duplication and caps of the three parsers that feed it, and the two text splitters that cut documents into overlapping chunks.

The modules follow the source files:

| Dafny file | module | source |
|---|---|---|
| `text.dfy` | `Text` | the Python string and list built-ins the code relies on: ASCII `lower`/`upper`/`strip`/`split`, substring search, `list(set(…))` de-duplication, first-number parsing, and the `Option`/`Outcome` wrappers |
| `evaluation_engine.dfy` | `EvaluationEngine` | `EvaluationEngine` in `resume-relevance-system/backend/app/services/evaluation_engine.py` |
| `hybrid_scoring.dfy` | `HybridScoring` | `WeightingConfig` and `InnomaticsHybridScoringEngine` in `hybrid_scoring_engine.py` |
| `jd_parser.dfy` | `JdParser` | `InnomaticsJDParser` in `jd_parser.py` |
| `resume_analyzer.dfy` | `ResumeAnalyzer` | `InnomaticsResumeAnalyzer`; its two copies are identical, and one model serves both |
| `resume_parser.dfy` | `ResumeParser` | `ResumeParser`; its two copies are identical, and one model serves both |
| `service_splitter.dfy` | `ServiceSplitter` | `SimpleTextSplitter.split_text` in `backend/app/services/pinecone_gemini_service.py` |
| `demo_splitter.dfy` | `DemoSplitter` | `SimpleTextSplitter.split_text` in `resume-relevance-system/backend/pinecone_gemini_demo.py` |

## How the model is built

- **Mixed code.** Where the code builds a list by appending inside a loop, the model has a `method` with a `while` loop. Its `ensures` ties the result to a specification function, and lemmas then prove the promised properties of that function. Where the code is a pure expression, the model is a `function` with a named result.
- **Parser tables.** The skill, city, field and pattern tables of each parser are held in a datatype (`JdParser.Parser`, `ResumeAnalyzer.Analyzer`, `ResumeParser.Parser`). Its constant `Default` holds the source's values. Every operation is generic in the table, so each proof holds for any table, including the shipped one.
- **Outside calls.** Regular expressions, the fuzzy scorer, cosine similarities, spaCy, PDF and DOCX readers and the clock are function-typed parameters. The model is exact about everything the code does around them.
- **Error paths.** A method that raises inside its caller's `try` becomes an `Outcome` (`Ok(value)` or `Raised(message)`), and the caller's fallback is modelled.
- **Scores.** Scores are exact `real`s.

## Model

| member | source | states |
|---|---|---|
| `Text.Lower` | resume-relevance-system/backend/app/services/jd_parser.py:264 | `str.lower` keeps the length and lowers each ASCII capital, leaving every other character alone |
| `Text.Upper` | backend/app/services/resume_parser.py:111 | `str.upper` keeps the length and upper-cases each ASCII lower-case letter, leaving every other character alone |
| `Text.Title` | backend/app/services/innomatics_resume_analyzer.py:260 | `str.title` keeps the length and leaves non-letters unchanged; a letter is lower-cased when a letter precedes it and upper-cased otherwise, so a leading letter is upper-cased |
| `Text.SplitOnAny` | backend/app/services/innomatics_resume_analyzer.py:292 | splitting on a character class always gives at least one part |
| `Text.SplitOnAnyParts` | backend/app/services/innomatics_resume_analyzer.py:292 | no part of a split contains a separator |
| `Text.SplitJoin` | backend/app/services/resume_parser.py:138 | joining the parts of `s.split(c)` with `c` gives `s` back |
| `Text.TableHits` | resume-relevance-system/backend/app/services/jd_parser.py:263-269 | the table entries kept by the loop are exactly those occurring as substrings of the text, in table order |
| `Text.CollectHits` | resume-relevance-system/backend/app/services/jd_parser.py:263-269 | the appending loop over the table produces exactly `TableHits` |
| `Text.Dedup` | resume-relevance-system/backend/app/services/jd_parser.py:271 | `list(set(xs))` has no duplicates and the same members as `xs` |
| `Text.StripShape` | resume-relevance-system/backend/app/services/jd_parser.py:229 | `strip()` leaves no outer whitespace, gives a substring of its input, and is empty exactly for blank input |
| `Text.Strip` | resume-relevance-system/backend/app/services/jd_parser.py:229 | specification function without a contract of its own; `StripShape`, `StripIdempotent` and `StripLower` state what `strip()` promises |
| `Text.StripIdempotent` | resume-relevance-system/backend/app/services/evaluation_engine.py:83 | stripping twice is stripping once |
| `Text.StripLower` | resume-relevance-system/backend/app/services/evaluation_engine.py:83 | `strip` and `lower` commute |
| `Text.CollapseSpaces` | backend/app/services/pinecone_gemini_service.py:40 | `re.sub(r'\s+', ' ', …)` leaves no whitespace but ' ', is no longer than its input, and is empty exactly for empty input |
| `Text.CollapseShape` | backend/app/services/pinecone_gemini_service.py:40 | every whitespace run becomes one space, so no two spaces are adjacent, and the non-whitespace characters are those of the input, in order |
| `Text.CollapseLast` | backend/app/services/pinecone_gemini_service.py:40 | a text ending in a non-whitespace character keeps that last character |
| `Text.VisibleStrip` | backend/app/services/pinecone_gemini_service.py:40 | `strip()` removes only whitespace: the non-whitespace characters are kept, in order |
| `Text.StripBlank` | backend/app/services/pinecone_gemini_service.py:36 | `text.strip()` is empty exactly when every character of the text is whitespace |
| `Text.FirstNumberNone` | resume-relevance-system/backend/app/services/hybrid_scoring_engine.py:275-277 | `re.search(r'(\d+)', s)` finds nothing exactly when `s` has no digit |
| `Text.Take` | resume-relevance-system/backend/app/services/jd_parser.py:259 | `xs[:n]` is the prefix of length `min(n, len(xs))` |
| `EvaluationEngine.AliasTargetsAreCanonical` | resume-relevance-system/backend/app/services/evaluation_engine.py:86-97 | every alias maps into the eight canonical names, and no canonical name is itself an alias key |
| `EvaluationEngine.NormalizeSkill` | resume-relevance-system/backend/app/services/evaluation_engine.py:81-99 | the normalised skill is lower-case, stripped and never an alias key; a trimmed lower-cased skill that is not an alias passes through unchanged |
| `EvaluationEngine.NormalizeAll` | resume-relevance-system/backend/app/services/evaluation_engine.py:109-114 | normalising a list normalises each element in place |
| `EvaluationEngine.NormalizeIdempotent` | resume-relevance-system/backend/app/services/evaluation_engine.py:81-99 | normalising twice equals normalising once |
| `EvaluationEngine.NormalizeIgnoresCase` | resume-relevance-system/backend/app/services/evaluation_engine.py:83 | a skill and its lower-cased form normalise alike |
| `EvaluationEngine.NormalizeIgnoresPadding` | resume-relevance-system/backend/app/services/evaluation_engine.py:83 | leading or trailing whitespace does not change the normalised skill |
| `EvaluationEngine.NormalizeCanonical` | resume-relevance-system/backend/app/services/evaluation_engine.py:86-99 | a canonical name normalises to itself, also upper-cased and padded |
| `EvaluationEngine.JaccardPercent` | resume-relevance-system/backend/app/services/evaluation_engine.py:72-79 | the Jaccard percentage lies in [0,100], is 0 for disjoint sets and 100 for equal non-empty sets |
| `EvaluationEngine.StringSimilarity` | resume-relevance-system/backend/app/services/evaluation_engine.py:67-79 | the character-set similarity lies in [0,100] |
| `EvaluationEngine.SimilaritySymmetric` | resume-relevance-system/backend/app/services/evaluation_engine.py:67-79 | the similarity is symmetric in its two strings |
| `EvaluationEngine.SimilaritySameCharacters` | resume-relevance-system/backend/app/services/evaluation_engine.py:67-79 | strings with the same lower-cased character set score 100, or 0 when both are empty |
| `EvaluationEngine.SimilarityDisjoint` | resume-relevance-system/backend/app/services/evaluation_engine.py:67-79 | strings sharing no lower-cased character score 0 |
| `EvaluationEngine.SimilarityWithItself` | resume-relevance-system/backend/app/services/evaluation_engine.py:67-79 | a non-empty string scores 100 against itself and the empty string scores 0 |
| `EvaluationEngine.ExactMatches` | resume-relevance-system/backend/app/services/evaluation_engine.py:121-124 | the exact pass keeps exactly the job skills that are also resume skills |
| `EvaluationEngine.FuzzyPass` | resume-relevance-system/backend/app/services/evaluation_engine.py:126-133 | the fuzzy pass adds exactly the job skills with a resume skill at similarity 50 or more |
| `EvaluationEngine.MatchedSkillsMembers` | resume-relevance-system/backend/app/services/evaluation_engine.py:119-133 | a skill is matched exactly when it is a job skill with an exact or fuzzy hit |
| `EvaluationEngine.Unmatched` | resume-relevance-system/backend/app/services/evaluation_engine.py:157 | the missing list holds exactly the job skills that were not matched |
| `EvaluationEngine.CountIn` | resume-relevance-system/backend/app/services/evaluation_engine.py:140-141 | a hit count never exceeds the length of the list counted |
| `EvaluationEngine.CountInAll` | resume-relevance-system/backend/app/services/evaluation_engine.py:140-141 | the count equals the list length exactly when every listed skill was matched |
| `EvaluationEngine.CountInMonotone` | resume-relevance-system/backend/app/services/evaluation_engine.py:140-141 | a larger matched set never lowers the count |
| `EvaluationEngine.Share` | resume-relevance-system/backend/app/services/evaluation_engine.py:144-152 | a hit share lies in [0,1] and is 1 exactly when all listed skills matched |
| `EvaluationEngine.ShareMonotone` | resume-relevance-system/backend/app/services/evaluation_engine.py:144-152 | a larger matched set never lowers the share |
| `EvaluationEngine.HardScoreBounds` | resume-relevance-system/backend/app/services/evaluation_engine.py:143-154 | the hard score lies in [0,100] and is 100 exactly when required skills exist and every job skill matched (no preferred skills gives their full 40) |
| `EvaluationEngine.HardScoreMonotone` | resume-relevance-system/backend/app/services/evaluation_engine.py:143-154 | a larger matched set never lowers the hard score |
| `EvaluationEngine.HardMatchPartition` | resume-relevance-system/backend/app/services/evaluation_engine.py:101-159 | each job skill is either matched or missing, never both; both lists hold only job skills; matched ones have a hit; a job with no skills gives score 0 and two empty lists |
| `EvaluationEngine.HardMatchInRange` | resume-relevance-system/backend/app/services/evaluation_engine.py:143-159 | the hard-match score lies in [0,100] |
| `EvaluationEngine.HardMatchPerfect` | resume-relevance-system/backend/app/services/evaluation_engine.py:143-159 | the score is 100 exactly when required skills exist and every job skill matched |
| `EvaluationEngine.HardMatchMonotone` | resume-relevance-system/backend/app/services/evaluation_engine.py:121-141 | adding a resume skill never unmatches a job skill and never lowers the score |
| `EvaluationEngine.HardMatchOf` | resume-relevance-system/backend/app/services/evaluation_engine.py:101-159 | specification function without a contract of its own; `HardMatchPartition`, `HardMatchInRange`, `HardMatchPerfect` and `HardMatchMonotone` state its properties, and `CalculateHardMatchScore` computes it |
| `EvaluationEngine.HasFuzzyHit` | resume-relevance-system/backend/app/services/evaluation_engine.py:129-133 | the early-break inner loop reports exactly whether some resume skill reaches the threshold |
| `EvaluationEngine.CountMatched` | resume-relevance-system/backend/app/services/evaluation_engine.py:140-141 | the counting loop computes `CountIn` |
| `EvaluationEngine.ExactPass` | resume-relevance-system/backend/app/services/evaluation_engine.py:121-124 | the exact-pass loop computes `ExactMatches` |
| `EvaluationEngine.FuzzyPassLoop` | resume-relevance-system/backend/app/services/evaluation_engine.py:126-133 | the fuzzy-pass loop computes `FuzzyPass` |
| `EvaluationEngine.MatchJobSkills` | resume-relevance-system/backend/app/services/evaluation_engine.py:119-133 | the two passes together compute `MatchedSkills` |
| `EvaluationEngine.MissingSkills` | resume-relevance-system/backend/app/services/evaluation_engine.py:157 | the list comprehension computes `Unmatched` |
| `EvaluationEngine.ScoreSkills` | resume-relevance-system/backend/app/services/evaluation_engine.py:119-159 | matching, counting and scoring the normalised lists gives `HardMatchFor` |
| `EvaluationEngine.CalculateHardMatchScore` | resume-relevance-system/backend/app/services/evaluation_engine.py:101-159 | the whole method computes `HardMatchOf`, including the early return for a job with no skills |
| `EvaluationEngine.TextSimilarity` | resume-relevance-system/backend/app/services/evaluation_engine.py:171-203 | the word-set similarity lies in [0,100] and is 0 when the resume text is missing (the exception path) |
| `EvaluationEngine.TextSimilarityExtremes` | resume-relevance-system/backend/app/services/evaluation_engine.py:189-201 | disjoint word sets score 0 and equal non-empty word sets score 100 |
| `EvaluationEngine.KeywordsFound` | resume-relevance-system/backend/app/services/evaluation_engine.py:239-244 | a keyword is kept exactly when it occurs in the qualifications text and its presence in the education text is as asked |
| `EvaluationEngine.QualificationPartition` | resume-relevance-system/backend/app/services/evaluation_engine.py:226-246 | matched and missing are disjoint, their union is exactly the keywords in the qualifications text, and matched ones also occur in the education text |
| `EvaluationEngine.QualificationMatchOf` | resume-relevance-system/backend/app/services/evaluation_engine.py:213-246 | specification function without a contract of its own; `QualificationPartition` and `PlainStringEducationFallsBack` state its properties, including the raised error, and `CalculateQualificationMatch` computes it |
| `EvaluationEngine.CalculateQualificationMatch` | resume-relevance-system/backend/app/services/evaluation_engine.py:213-246 | the loop computes `QualificationMatchOf`, whose lists are disjoint and drawn from the keyword list |
| `EvaluationEngine.DetermineSuitability` | resume-relevance-system/backend/app/services/evaluation_engine.py:248-255 | High exactly at 70 or more, Medium exactly in [45,70), Low exactly below 45 |
| `EvaluationEngine.SuitabilityMonotone` | resume-relevance-system/backend/app/services/evaluation_engine.py:248-255 | a higher score never gets a lower band |
| `EvaluationEngine.FeedbackBody` | resume-relevance-system/backend/app/services/evaluation_engine.py:276-289 | the middle of the feedback has at most three lines and is empty exactly when both skill lists are empty; the strengths line comes first |
| `EvaluationEngine.FeedbackParts` | resume-relevance-system/backend/app/services/evaluation_engine.py:257-299 | feedback has two to five parts, opening with the band's line and closing with the score's recommendation |
| `EvaluationEngine.FeedbackBandsAgree` | resume-relevance-system/backend/app/services/evaluation_engine.py:257-299 | given `DetermineSuitability(score)`, the opening and the closing recommendation name the same band |
| `EvaluationEngine.GenerateFeedback` | resume-relevance-system/backend/app/services/evaluation_engine.py:257-299 | specification function without a contract of its own; it joins the sentences of `FeedbackParts` with spaces, and `FeedbackParts` and `FeedbackBandsAgree` state their order and their agreement with the suitability bands |
| `EvaluationEngine.Blend` | resume-relevance-system/backend/app/config.py:33-34 | the 0.4/0.6 blend of two scores in [0,100] is in [0,100] |
| `EvaluationEngine.Evaluate` | resume-relevance-system/backend/app/services/evaluation_engine.py:301-363 | the method computes `EvaluationOf`, taking the catch-all when a step raises |
| `EvaluationEngine.EvaluationInRange` | resume-relevance-system/backend/app/services/evaluation_engine.py:338-341 | all three reported scores lie in [0,100] |
| `EvaluationEngine.EvaluationFallback` | resume-relevance-system/backend/app/services/evaluation_engine.py:350-363 | when qualification matching raises, relevance is 0, suitability Low and missing skills the raw required list |
| `EvaluationEngine.EvaluationVerdictAgrees` | resume-relevance-system/backend/app/services/evaluation_engine.py:324-331 | relevance is 0.4·hard + 0.6·semantic and the verdict follows the 70/45 bands of that score |
| `EvaluationEngine.EvaluationSkillsPartition` | resume-relevance-system/backend/app/services/evaluation_engine.py:310-348 | the reported matched and missing skills partition the job skills, matched ones having a hit |
| `EvaluationEngine.EvaluationOf` | resume-relevance-system/backend/app/services/evaluation_engine.py:301-363 | specification function without a contract of its own; `EvaluationInRange`, `EvaluationFallback`, `EvaluationVerdictAgrees` and `EvaluationSkillsPartition` state its properties, and `Evaluate` computes it |
| `EvaluationEngine.PlainStringEducationFallsBack` | resume-relevance-system/backend/app/services/evaluation_engine.py:234-237 | an education entry that is a plain string makes qualification matching raise `'str' object has no attribute 'get'` |
| `HybridScoring.LowerAll` | resume-relevance-system/backend/app/services/hybrid_scoring_engine.py:226 | lower-casing the candidate list lowers each element in place |
| `HybridScoring.MatchSkills` | resume-relevance-system/backend/app/services/hybrid_scoring_engine.py:221-248 | the loop splits the required skills, in order, between a matched list and a missing list by the exact-or-fuzzy test |
| `HybridScoring.FilterPartition` | resume-relevance-system/backend/app/services/hybrid_scoring_engine.py:221-248 | filtering by a test and by its negation together keep every element once |
| `HybridScoring.MatchSkillsShape` | resume-relevance-system/backend/app/services/hybrid_scoring_engine.py:221-248 | every required skill lands in exactly one list; lists are matched iff hit; case-insensitive exact hits are matched; with no candidates everything is missing |
| `HybridScoring.MatchQualifications` | resume-relevance-system/backend/app/services/hybrid_scoring_engine.py:250-270 | the result is true exactly when nothing is required or there is an education entry |
| `HybridScoring.MatchExperienceCases` | resume-relevance-system/backend/app/services/hybrid_scoring_engine.py:272-286 | no digit means true; a first number of at most 1 accepts any non-negative experience; otherwise at least 0.8 times the number is needed |
| `HybridScoring.MatchExperienceMonotone` | resume-relevance-system/backend/app/services/hybrid_scoring_engine.py:272-286 | more experience never turns a match into a mismatch |
| `HybridScoring.MatchExperience` | resume-relevance-system/backend/app/services/hybrid_scoring_engine.py:272-286 | specification function without a contract of its own; `MatchExperienceCases` and `MatchExperienceMonotone` state its properties |
| `HybridScoring.Ratio` | resume-relevance-system/backend/app/services/hybrid_scoring_engine.py:300-303 | the `max(len, 1)` ratio is non-negative, and with an empty total the denominator is 1 |
| `HybridScoring.RatioAtMostOne` | resume-relevance-system/backend/app/services/hybrid_scoring_engine.py:300-303 | a ratio of a sub-list is at most 1, and exactly 1 for a full non-empty list |
| `HybridScoring.HardMatchScore` | resume-relevance-system/backend/app/services/hybrid_scoring_engine.py:288-314 | the hard score never exceeds its 60-point cap |
| `HybridScoring.HardMatchScoreDefault` | resume-relevance-system/backend/app/services/hybrid_scoring_engine.py:15-35 | under the default weights the score is 60·(0.4·must + 0.2·good + 0.2·[qual] + 0.2·[exp]), in [0,60], and empty lists add 0 |
| `HybridScoring.HardMatchScoreFull` | resume-relevance-system/backend/app/services/hybrid_scoring_engine.py:288-314 | everything matched gives the full 60 points |
| `HybridScoring.PerformHardMatching` | resume-relevance-system/backend/app/services/hybrid_scoring_engine.py:118-173 | the method computes `HardMatchOf` |
| `HybridScoring.HardMatchBounds` | resume-relevance-system/backend/app/services/hybrid_scoring_engine.py:118-173 | the hard-match score of any job and resume lies in [0,60] |
| `HybridScoring.HardMatchOf` | resume-relevance-system/backend/app/services/hybrid_scoring_engine.py:118-173 | specification function without a contract of its own; `HardMatchBounds` and `MatchSkillsShape` state its properties and `PerformHardMatching` computes it |
| `HybridScoring.SemanticSimilarity` | resume-relevance-system/backend/app/services/hybrid_scoring_engine.py:316-334 | the similarity is floored at 0, and is at most 1 when the cosine is |
| `HybridScoring.RoleAlignment` | resume-relevance-system/backend/app/services/hybrid_scoring_engine.py:351-365 | role alignment lies in [0,1] for a bounded cosine and is 0 without responsibilities or work experience |
| `HybridScoring.ProjectRelevance` | resume-relevance-system/backend/app/services/hybrid_scoring_engine.py:367-382 | project relevance lies in [0,1] for a bounded cosine and is 0 without projects |
| `HybridScoring.SoftScoreBounds` | resume-relevance-system/backend/app/services/hybrid_scoring_engine.py:208-212 | under the default weights the soft score is 40·(0.5·sem + 0.3·role + 0.2·proj), in [0,40] |
| `HybridScoring.SoftMatchBounds` | resume-relevance-system/backend/app/services/hybrid_scoring_engine.py:175-219 | the overall soft score lies in [0,40]; role and project scores are 0 when their inputs are empty |
| `HybridScoring.SoftMatchOf` | resume-relevance-system/backend/app/services/hybrid_scoring_engine.py:175-219 | specification function without a contract of its own, with the job text as the parameter `jobText` (see Findings); `SoftMatchBounds` states its properties |
| `HybridScoring.Clamp` | resume-relevance-system/backend/app/services/hybrid_scoring_engine.py:393 | clamping gives a value in [0,100] and keeps values already there |
| `HybridScoring.RelevanceScore` | resume-relevance-system/backend/app/services/hybrid_scoring_engine.py:384-393 | the as-written relevance lies in [0,100] |
| `HybridScoring.FitVerdictBands` | resume-relevance-system/backend/app/services/hybrid_scoring_engine.py:395-402 | HIGH exactly at 75 or more, MEDIUM in [50,75), LOW below 50, and a higher score never gets a lower verdict |
| `HybridScoring.FitVerdictOf` | resume-relevance-system/backend/app/services/hybrid_scoring_engine.py:395-402 | specification function without a contract of its own; `FitVerdictBands` states its bands and their monotonicity |
| `HybridScoring.HighUnreachable` | resume-relevance-system/backend/app/services/hybrid_scoring_engine.py:384-402 | as written, with the default weights, relevance is at most 52 and never HIGH |
| `HybridScoring.CombinedRelevance` | resume-relevance-system/backend/app/services/hybrid_scoring_engine.py:384-393 | the corrected relevance lies in [0,100] |
| `HybridScoring.CombinedRelevanceReachesHigh` | resume-relevance-system/backend/app/services/hybrid_scoring_engine.py:384-402 | the corrected relevance is hard + soft, so a 60-point hard and a 40-point soft score give HIGH |
| `HybridScoring.PerfectMatchIsHigh` | resume-relevance-system/backend/app/services/hybrid_scoring_engine.py:288-402 | a full match with perfect similarities is HIGH under the corrected relevance |
| `HybridScoring.CriticalGaps` | resume-relevance-system/backend/app/services/hybrid_scoring_engine.py:414-415 | one critical-skill entry per missing must-have skill, in order |
| `HybridScoring.PreferredGaps` | resume-relevance-system/backend/app/services/hybrid_scoring_engine.py:419-420 | one preferred-skill entry per given skill, in order |
| `HybridScoring.PreferredPart` | resume-relevance-system/backend/app/services/hybrid_scoring_engine.py:418-420 | at most three preferred-skill entries, the first missing ones, and only when missing good-to-have skills outnumber matched ones |
| `HybridScoring.ClosingGaps` | resume-relevance-system/backend/app/services/hybrid_scoring_engine.py:422-432 | the certification, project and experience gaps appear exactly under their conditions |
| `HybridScoring.IdentifyMissingElements` | resume-relevance-system/backend/app/services/hybrid_scoring_engine.py:404-434 | the appending method computes `MissingElementsOf` |
| `HybridScoring.MissingElementsShape` | resume-relevance-system/backend/app/services/hybrid_scoring_engine.py:404-434 | the critical entries come first and in order; at most three preferred entries follow, only when missing outnumber matched; each closing gap appears exactly under its condition |
| `HybridScoring.MissingElementsOf` | resume-relevance-system/backend/app/services/hybrid_scoring_engine.py:404-434 | specification function without a contract of its own; `MissingElementsShape` states its properties and `IdentifyMissingElements` computes it |
| `HybridScoring.SkillSuggestions` | resume-relevance-system/backend/app/services/hybrid_scoring_engine.py:446-457 | the learn suggestion names the first three missing must-haves and the progress suggestion needs both matched and missing must-haves |
| `HybridScoring.CertificationSuggestion` | resume-relevance-system/backend/app/services/hybrid_scoring_engine.py:472-478 | at most one certification suggestion, only without a qualification match, naming a qualification that mentions "certified" |
| `HybridScoring.ProfileSuggestions` | resume-relevance-system/backend/app/services/hybrid_scoring_engine.py:459-478 | the project suggestion needs fewer than two projects; the experience one appears exactly under one year for a non-senior role |
| `HybridScoring.PresentationSuggestions` | resume-relevance-system/backend/app/services/hybrid_scoring_engine.py:480-490 | the soft-skills and resume-structure suggestions appear exactly under their thresholds |
| `HybridScoring.CandidatesSound` | resume-relevance-system/backend/app/services/hybrid_scoring_engine.py:444-490 | every suggestion before the cut is present only under its stated condition |
| `HybridScoring.CandidatesPresence` | resume-relevance-system/backend/app/services/hybrid_scoring_engine.py:466-490 | before the cut, the experience, soft-skills and resume suggestions are present exactly under their conditions |
| `HybridScoring.SuggestionsShape` | resume-relevance-system/backend/app/services/hybrid_scoring_engine.py:436-492 | at most five suggestions, each present only under its condition |
| `HybridScoring.SuggestionsOf` | resume-relevance-system/backend/app/services/hybrid_scoring_engine.py:436-492 | specification function without a contract of its own; `CandidatesSound`, `CandidatesPresence` and `SuggestionsShape` state its properties |
| `HybridScoring.InterviewFocusOf` | resume-relevance-system/backend/app/services/hybrid_scoring_engine.py:535-556 | at most three focus areas, each present only under its condition, and the deep dive on the first two matched must-haves is present whenever there are any |
| `HybridScoring.EvaluationOf` | resume-relevance-system/backend/app/services/hybrid_scoring_engine.py:76-116 | specification function without a contract of its own: the five steps with the as-written relevance `RelevanceScore`; `EvaluationShape` states its properties |
| `HybridScoring.EvaluateResumeRelevance` | resume-relevance-system/backend/app/services/hybrid_scoring_engine.py:76-116 | the method computes `EvaluationOf`: the five steps in order, with the as-written relevance and the job text as `jobText` |
| `HybridScoring.EvaluationShape` | resume-relevance-system/backend/app/services/hybrid_scoring_engine.py:384-402 | as written, the relevance is 0.6·hard + 0.4·soft unclamped, at most 52, never HIGH, LOW exactly below 50, and at most five suggestions are made |
| `HybridScoring.CorrectedEvaluationOf` | resume-relevance-system/backend/app/services/hybrid_scoring_engine.py:384-393 | specification function without a contract of its own: the evaluation with the corrected relevance `CombinedRelevance`; `CorrectedEvaluationShape` states its properties |
| `HybridScoring.CorrectedEvaluationShape` | resume-relevance-system/backend/app/services/hybrid_scoring_engine.py:76-116 | with the corrected relevance the score is hard + soft, HIGH exactly at 75 or more, LOW exactly below 50, and at most five suggestions are made |
| `HybridScoring.SoftMatchAsWritten` | resume-relevance-system/backend/app/services/hybrid_scoring_engine.py:190-193 | specification function without a contract of its own: reading `job_description` succeeds only if `JobDescriptionAnalysis` declares it, and raises `AttributeError` otherwise |
| `HybridScoring.EvaluationAsWritten` | resume-relevance-system/backend/app/services/hybrid_scoring_engine.py:92-95 | specification function without a contract of its own: `evaluate_resume_relevance` with the soft-match exception passed on to the caller |
| `HybridScoring.AsWrittenEvaluationRaises` | resume-relevance-system/backend/app/services/hybrid_scoring_engine.py:191 | `JobDescriptionAnalysis` has no `job_description` field, so the as-written soft match raises and every as-written evaluation is the `AttributeError` |
| `JdParser.ExtractTableSkills` | resume-relevance-system/backend/app/services/jd_parser.py:261-271 | the result holds exactly the table skills occurring in the lower-cased text, with no duplicates |
| `JdParser.ExtractTechnicalSkills` | resume-relevance-system/backend/app/services/jd_parser.py:261-271 | the technical skills are exactly the table skills found in the lower-cased text, with no duplicates |
| `JdParser.ExtractSoftSkills` | resume-relevance-system/backend/app/services/jd_parser.py:273-282 | the soft skills are exactly the soft-skill entries found in the lower-cased text, with no duplicates |
| `JdParser.PatternSkills` | resume-relevance-system/backend/app/services/jd_parser.py:201-206 | pattern hits kept are longer than two characters and occur in the text |
| `JdParser.SkillsFromTable` | resume-relevance-system/backend/app/services/jd_parser.py:184-208 | the extracted skills are distinct, occur in the text and include every table skill found there |
| `JdParser.ChunkSkills` | resume-relevance-system/backend/app/services/jd_parser.py:153-156 | no section chunks give no skills |
| `JdParser.SectionSkillsFromChunks` | resume-relevance-system/backend/app/services/jd_parser.py:151-156 | every section skill occurs in some chunk captured by some pattern |
| `JdParser.ChunkSkillsFromChunk` | resume-relevance-system/backend/app/services/jd_parser.py:153-156 | every chunk skill occurs in one of the chunks |
| `JdParser.CollectChunkSkills` | resume-relevance-system/backend/app/services/jd_parser.py:153-156 | the loop over the chunks computes `ChunkSkills` |
| `JdParser.CollectSectionSkills` | resume-relevance-system/backend/app/services/jd_parser.py:151-156 | the loop over the patterns computes `SectionSkills` |
| `JdParser.ExtractMustHaveSkills` | resume-relevance-system/backend/app/services/jd_parser.py:141-164 | the method computes `MustHaveFrom` on the parser's tables |
| `JdParser.CollectMustHave` | resume-relevance-system/backend/app/services/jd_parser.py:141-164 | the method computes `MustHaveFrom` for any table and patterns |
| `JdParser.MustHaveShape` | resume-relevance-system/backend/app/services/jd_parser.py:158-164 | the must-haves are distinct; without a section they are at most 10 skills from the general extraction; with one, each comes from a captured chunk |
| `JdParser.ExtractGoodToHaveSkills` | resume-relevance-system/backend/app/services/jd_parser.py:166-182 | the good-to-have skills are the de-duplicated section skills |
| `JdParser.StrippedNonEmpty` | resume-relevance-system/backend/app/services/jd_parser.py:229 | the kept phrases are non-empty and stripped |
| `JdParser.QualificationsFrom` | resume-relevance-system/backend/app/services/jd_parser.py:210-229 | the qualifications are distinct, non-empty and stripped |
| `JdParser.CollectMatches` | resume-relevance-system/backend/app/services/jd_parser.py:214-227 | the loop over the patterns computes `AllMatches` |
| `JdParser.ExtractQualifications` | resume-relevance-system/backend/app/services/jd_parser.py:210-229 | the method computes `QualificationsFrom` |
| `JdParser.ExperienceText` | resume-relevance-system/backend/app/services/jd_parser.py:236-239 | every experience text found ends in " years" |
| `JdParser.ExperienceFrom` | resume-relevance-system/backend/app/services/jd_parser.py:231-241 | the result is "Not specified" exactly when no remaining pattern matches |
| `JdParser.ExperienceRequirementOf` | resume-relevance-system/backend/app/services/jd_parser.py:231-241 | the requirement is "Not specified" exactly when no pattern matches |
| `JdParser.ExtractExperienceRequirement` | resume-relevance-system/backend/app/services/jd_parser.py:231-241 | the loop computes `ExperienceRequirementOf` |
| `JdParser.ExperienceWithoutDigits` | resume-relevance-system/backend/app/services/jd_parser.py:231-241 | text with no digit gives "Not specified", since every pattern needs a digit group |
| `JdParser.ExperienceShape` | resume-relevance-system/backend/app/services/jd_parser.py:234-239 | a found requirement is the "a-b years" or "a years" text of a matching pattern |
| `JdParser.ResponsibilityItems` | resume-relevance-system/backend/app/services/jd_parser.py:250-257 | every responsibility item is non-empty and stripped |
| `JdParser.CollectResponsibilities` | resume-relevance-system/backend/app/services/jd_parser.py:250-257 | the loop computes `ResponsibilityItems` |
| `JdParser.ExtractResponsibilities` | resume-relevance-system/backend/app/services/jd_parser.py:243-259 | at most 8 items, each non-empty and stripped, the first of `ResponsibilityItems` |
| `JdParser.CollectEntityKeywords` | resume-relevance-system/backend/app/services/jd_parser.py:294-296 | the entity loop computes `EntityKeywords` |
| `JdParser.CollectChunkKeywords` | resume-relevance-system/backend/app/services/jd_parser.py:299-301 | the noun-chunk loop computes `ChunkKeywords` |
| `JdParser.ExtractDomainKeywords` | resume-relevance-system/backend/app/services/jd_parser.py:284-303 | the method computes `DomainKeywordsOf`: at most 20 distinct keywords |
| `JdParser.DomainKeywordsShape` | resume-relevance-system/backend/app/services/jd_parser.py:284-303 | no spaCy model gives [], and otherwise at most 20 distinct keywords |
| `JdParser.DomainKeywordsOf` | resume-relevance-system/backend/app/services/jd_parser.py:284-303 | specification function without a contract of its own; `DomainKeywordsShape` states its properties and `ExtractDomainKeywords` computes it |
| `JdParser.FirstGroupFrom` | resume-relevance-system/backend/app/services/jd_parser.py:314-317 | there is no match exactly when no pattern matches |
| `JdParser.FindFirst` | resume-relevance-system/backend/app/services/jd_parser.py:314-317 | the early-return loop computes `FirstGroupFrom` |
| `JdParser.RoleTitleOf` | resume-relevance-system/backend/app/services/jd_parser.py:305-319 | no match gives "Software Engineer"; a match gives a stripped title |
| `JdParser.ExtractRoleTitle` | resume-relevance-system/backend/app/services/jd_parser.py:305-319 | the method computes `RoleTitleOf` |
| `JdParser.SalaryRangeOf` | resume-relevance-system/backend/app/services/jd_parser.py:321-334 | the salary is None exactly when no pattern matches |
| `JdParser.ExtractSalaryRange` | resume-relevance-system/backend/app/services/jd_parser.py:321-334 | the method computes `SalaryRangeOf` |
| `JdParser.ParseJobDescription` | resume-relevance-system/backend/app/services/jd_parser.py:90-128 | the assembly computes `AnalysisOf` |
| `JdParser.AnalysisShape` | resume-relevance-system/backend/app/services/jd_parser.py:90-128 | the skill and qualification lists are distinct, responsibilities at most 8, keywords at most 20, technical skills exactly the table hits, and the experience and title defaults apply exactly under their conditions |
| `JdParser.AnalysisOf` | resume-relevance-system/backend/app/services/jd_parser.py:90-128 | specification function without a contract of its own; `AnalysisShape` states its properties and `ParseJobDescription` computes it |
| `JdParser.ComplexityScore` | resume-relevance-system/backend/app/services/jd_parser.py:349-361 | the score is min(must,5) + min(tech,3) + 2 for a senior or lead title, in [0,10], so the cap at 10 never binds |
| `JdParser.ComplexityMonotone` | resume-relevance-system/backend/app/services/jd_parser.py:349-361 | more must-have or technical skills never lower the complexity |
| `JdParser.IsSeniorRole` | resume-relevance-system/backend/app/services/jd_parser.py:356 | predicate without a contract of its own: "senior" or "lead" in the lower-cased title; `ComplexityScore` and `ComplexityMonotone` state its effect on the score |
| `JdParser.GetJdSummary` | resume-relevance-system/backend/app/services/jd_parser.py:336-347 | the counts are the list lengths, the top technical skills are a prefix of at most 5, and the complexity lies in [0,10] |
| `ResumeAnalyzer.AdditionalSkills` | backend/app/services/innomatics_resume_analyzer.py:288-296 | additional skills are lower-cased stripped section candidates longer than one character and not in the technical list, and every such candidate is kept |
| `ResumeAnalyzer.CollectAdditionalSkills` | backend/app/services/innomatics_resume_analyzer.py:293-296 | the loop computes `AdditionalSkills` |
| `ResumeAnalyzer.ExtractSkills` | backend/app/services/innomatics_resume_analyzer.py:267-304 | the method computes `SkillsOf` |
| `ResumeAnalyzer.SkillsFromTables` | backend/app/services/innomatics_resume_analyzer.py:267-304 | technical and soft skills are exactly the table entries found in the lower-cased text, and no list has duplicates |
| `ResumeAnalyzer.AllSkillsShape` | resume-relevance-system/backend/app/services/innomatics_resume_analyzer.py:267-304 | technical and soft skills are inside all skills, and anything else in all skills is a section candidate |
| `ResumeAnalyzer.SkillsOf` | backend/app/services/innomatics_resume_analyzer.py:267-304 | specification function without a contract of its own; `AllSkillsShape` states its properties and `ExtractSkills` computes it |
| `ResumeAnalyzer.FirstTitled` | backend/app/services/innomatics_resume_analyzer.py:256-263 | the result is the title-cased first table entry found in the lower-cased text, or the default when none is |
| `ResumeAnalyzer.FindFirstTitled` | resume-relevance-system/backend/app/services/innomatics_resume_analyzer.py:250-263 | the early-break loop computes `FirstTitled` |
| `ResumeAnalyzer.FirstWholeMatch` | backend/app/services/innomatics_resume_analyzer.py:228-247 | no match gives "", and a first-pattern match gives its whole text |
| `ResumeAnalyzer.ExtractContactInfo` | backend/app/services/innomatics_resume_analyzer.py:224-265 | the method computes `ContactInfoOf`, whose location is the first listed city found, or "" |
| `ResumeAnalyzer.ContactInfoOf` | backend/app/services/innomatics_resume_analyzer.py:224-265 | specification function without a contract of its own; the e-mail is the whole first match or empty, the phone the first pattern that matches (`FirstWholeMatch`), and the city the first listed one in the text, title-cased (`FirstTitled`); `ExtractContactInfo` computes it |
| `ResumeAnalyzer.ExtractFieldOfStudy` | backend/app/services/innomatics_resume_analyzer.py:620-633 | the field is the title-cased first listed field found in the context, defaulting to "Computer Science" |
| `ResumeAnalyzer.YearsFromDuration` | backend/app/services/innomatics_resume_analyzer.py:596-618 | the years of a duration are never negative |
| `ResumeAnalyzer.DurationRange` | resume-relevance-system/backend/app/services/innomatics_resume_analyzer.py:610-616 | without years or months, a date range gives max(0, end − start), with an open end meaning the current year |
| `ResumeAnalyzer.DurationDefault` | backend/app/services/innomatics_resume_analyzer.py:618 | a duration matching no pattern counts as 1 year |
| `ResumeAnalyzer.SumYearsNonNegative` | backend/app/services/innomatics_resume_analyzer.py:502-504 | a sum of non-negative entry years is non-negative |
| `ResumeAnalyzer.CalculateTotalExperience` | backend/app/services/innomatics_resume_analyzer.py:500-521 | the method computes `TotalExperienceOf` |
| `ResumeAnalyzer.MatchYearsNonNegative` | backend/app/services/innomatics_resume_analyzer.py:509-518 | a number read from a pattern match is non-negative |
| `ResumeAnalyzer.YearsFromPatternsNonNegative` | backend/app/services/innomatics_resume_analyzer.py:506-521 | the pattern fallback is non-negative |
| `ResumeAnalyzer.TotalExperienceShape` | resume-relevance-system/backend/app/services/innomatics_resume_analyzer.py:500-521 | the total is non-negative and, with work entries, their sum |
| `ResumeAnalyzer.TotalExperienceOf` | backend/app/services/innomatics_resume_analyzer.py:500-521 | specification function without a contract of its own; `TotalExperienceShape` states its properties and `CalculateTotalExperience` computes it |
| `ResumeAnalyzer.NoMatchNoYears` | backend/app/services/innomatics_resume_analyzer.py:506-521 | no matching pattern gives 0.0 |
| `ResumeAnalyzer.ShortDescription` | backend/app/services/innomatics_resume_analyzer.py:442 | a description is at most 203 characters and short ones are only stripped |
| `ResumeAnalyzer.SectionProject` | backend/app/services/innomatics_resume_analyzer.py:430-445 | a section project has a description of at most 203 characters, at most 5 distinct table technologies found in it, and kind Academic or Personal |
| `ResumeAnalyzer.SectionProjects` | backend/app/services/innomatics_resume_analyzer.py:421-445 | section projects respect the same caps and are never Inferred |
| `ResumeAnalyzer.IndicatorProjects` | backend/app/services/innomatics_resume_analyzer.py:452-458 | one Inferred project with no technologies per indicator match |
| `ResumeAnalyzer.InferredProjects` | backend/app/services/innomatics_resume_analyzer.py:448-458 | at most two Inferred projects per indicator, each without technologies |
| `ResumeAnalyzer.CollectSectionProjects` | backend/app/services/innomatics_resume_analyzer.py:430-445 | the loop computes `SectionProjects` |
| `ResumeAnalyzer.CollectIndicatorProjects` | backend/app/services/innomatics_resume_analyzer.py:452-458 | the loop computes `IndicatorProjects` |
| `ResumeAnalyzer.CollectInferredProjects` | backend/app/services/innomatics_resume_analyzer.py:449-458 | the loop computes `InferredProjects` |
| `ResumeAnalyzer.ExtractProjects` | backend/app/services/innomatics_resume_analyzer.py:411-460 | the method computes `ProjectsOf` |
| `ResumeAnalyzer.ProjectsShape` | resume-relevance-system/backend/app/services/innomatics_resume_analyzer.py:411-460 | at most 5 projects; section ones keep the 203-character and 5-technology caps, with technologies from the skill table and no repeats; inferred ones have no technologies, their descriptions are not capped, and they appear only when no section project is found |
| `ResumeAnalyzer.ProjectsOf` | backend/app/services/innomatics_resume_analyzer.py:411-460 | specification function without a contract of its own; `ProjectsShape` states its properties and `ExtractProjects` computes it |
| `ResumeAnalyzer.CalculateResumeQuality` | backend/app/services/innomatics_resume_analyzer.py:558-594 | the accumulating method computes `ResumeQuality` |
| `ResumeAnalyzer.QualityBounds` | resume-relevance-system/backend/app/services/innomatics_resume_analyzer.py:558-594 | the quality is a whole number in [0,10], the count of passed checks, so the cap never binds |
| `ResumeAnalyzer.QualityZeroReachable` | backend/app/services/innomatics_resume_analyzer.py:558-594 | a short resume with no contacts and no content scores 0, despite the "1-10" comment |
| `ResumeAnalyzer.QualityMonotone` | backend/app/services/innomatics_resume_analyzer.py:569-588 | more skills, work entries or projects never lower the quality |
| `ResumeAnalyzer.ResumeQuality` | backend/app/services/innomatics_resume_analyzer.py:558-594 | specification function without a contract of its own; `QualityBounds`, `QualityZeroReachable` and `QualityMonotone` state its properties and `CalculateResumeQuality` computes it |
| `ResumeParser.LastIndex` | backend/app/services/resume_parser.py:87 | the last occurrence of a character, or −1 when absent |
| `ResumeParser.Extension` | backend/app/services/resume_parser.py:87 | the extension is a dot-led suffix of the path with no further dot or slash, or "" |
| `ResumeParser.ExtensionOfStem` | backend/app/services/resume_parser.py:87 | `stem.name` has extension `.name` |
| `ResumeParser.HiddenFileHasNoExtension` | backend/app/services/resume_parser.py:87 | a dot file has no extension, as `os.path.splitext` says |
| `ResumeParser.FormatOf` | backend/app/services/resume_parser.py:85-95 | ".pdf" means PDF, ".docx" or ".doc" means DOCX, and anything else raises with the extension in the message, all on the lower-cased extension |
| `ResumeParser.ExtractText` | backend/app/services/resume_parser.py:85-95 | text comes from the reader the extension selects, or the unsupported-format error |
| `ResumeParser.DispatchIgnoresCase` | resume-relevance-system/backend/app/services/resume_parser.py:85-95 | the dispatch does not depend on the extension's case |
| `ResumeParser.ReplaceDisallowed` | backend/app/services/resume_parser.py:104 | each character outside word characters, whitespace and `.,-()@+#` becomes a space |
| `ResumeParser.CleanText` | backend/app/services/resume_parser.py:97-106 | cleaned text is no longer than its input and holds only word characters, spaces and `.,-()@+#` (no tab or newline) |
| `ResumeParser.ReplaceDisallowedOfClean` | resume-relevance-system/backend/app/services/resume_parser.py:104 | clean text has nothing to replace |
| `ResumeParser.CleanTextOfClean` | resume-relevance-system/backend/app/services/resume_parser.py:97-106 | cleaning is the identity on already clean, single-spaced, stripped text |
| `ResumeParser.AddNew` | backend/app/services/resume_parser.py:112-115 | adding to a duplicate-free set keeps it duplicate-free, with exactly the old and new members |
| `ResumeParser.AddAll` | backend/app/services/resume_parser.py:112-115 | the `set.update` loop computes `AddNew` |
| `ResumeParser.MatchedSkills` | backend/app/services/resume_parser.py:112-115 | the pattern passes add exactly the pattern matches |
| `ResumeParser.AliasMatches` | backend/app/services/resume_parser.py:118-131 | a canonical name is added exactly when one of its variations, upper-cased, occurs in the upper-cased text |
| `ResumeParser.HasVariation` | backend/app/services/resume_parser.py:128-131 | the inner loop reports whether some upper-cased variation occurs |
| `ResumeParser.AddAliasSkills` | backend/app/services/resume_parser.py:118-131 | the alias loop adds `AliasMatches` to the set |
| `ResumeParser.AddPatternSkills` | backend/app/services/resume_parser.py:112-115 | the pattern loop computes `MatchedSkills` |
| `ResumeParser.ExtractSkills` | backend/app/services/resume_parser.py:108-133 | the method computes `SkillsOf` |
| `ResumeParser.SkillsShape` | resume-relevance-system/backend/app/services/resume_parser.py:108-133 | the skills are distinct, every alias hit is present, and every skill is a pattern match or an alias hit |
| `ResumeParser.SkillsOf` | backend/app/services/resume_parser.py:108-133 | specification function without a contract of its own; `SkillsShape` states its properties and `ExtractSkills` computes it |
| `ResumeParser.StripAll` | backend/app/services/resume_parser.py:140-141 | stripping the lines keeps their number |
| `ResumeParser.StripAllAt` | backend/app/services/resume_parser.py:140-141 | the i-th stripped line is the i-th line stripped |
| `ResumeParser.Picked` | backend/app/services/resume_parser.py:140-163 | at most one entry per line index |
| `ResumeParser.PickedCovers` | backend/app/services/resume_parser.py:140-163 | every hit line contributes its entry |
| `ResumeParser.PickedSound` | backend/app/services/resume_parser.py:140-163 | every entry comes from a hit line |
| `ResumeParser.MatchesAnyPattern` | backend/app/services/resume_parser.py:144-145 | the loop reports whether some degree pattern matches the line |
| `ResumeParser.BuildEducationEntry` | backend/app/services/resume_parser.py:147-158 | the method builds `EducationEntryAt` from the line and its neighbours |
| `ResumeParser.ExtractEducation` | backend/app/services/resume_parser.py:135-165 | the method computes `EducationOf` |
| `ResumeParser.EducationShape` | resume-relevance-system/backend/app/services/resume_parser.py:135-165 | entries are distinct, at most one per line, every degree line's entry is present, and every entry comes from a degree line |
| `ResumeParser.EducationOf` | backend/app/services/resume_parser.py:135-165 | specification function without a contract of its own; `EducationShape` states its properties and `ExtractEducation` computes it |
| `ResumeParser.MaxOf` | backend/app/services/resume_parser.py:173-175 | the maximum bounds every count, is one of them, and is 0 for none |
| `ResumeParser.YearCounts` | backend/app/services/resume_parser.py:173-175 | each year match is read as its integer |
| `ResumeParser.TitlesFrom` | backend/app/services/resume_parser.py:183-186 | the titles are exactly the matches of the job-title patterns |
| `ResumeParser.ExtractExperience` | backend/app/services/resume_parser.py:167-195 | the method computes `ExperienceOf` |
| `ResumeParser.ExperienceShape` | resume-relevance-system/backend/app/services/resume_parser.py:167-195 | at most one entry, present exactly when a title matched or a year count is non-zero; its total is the largest count, or 0, and its roles are the distinct titles |
| `ResumeParser.ExperienceOf` | backend/app/services/resume_parser.py:167-195 | specification function without a contract of its own; `ExperienceShape` states its properties and `ExtractExperience` computes it |
| `ResumeParser.Abbreviate` | backend/app/services/resume_parser.py:215 | contexts over 200 characters become their first 200 plus "...", others stay |
| `ResumeParser.ProjectDescriptions` | backend/app/services/resume_parser.py:205-216 | every description is longer than 20 and at most 203 characters |
| `ResumeParser.UniqueProjects` | backend/app/services/resume_parser.py:218-227 | the `seen`-set loop keeps the first five distinct descriptions |
| `ResumeParser.ExtractProjects` | backend/app/services/resume_parser.py:197-227 | the method computes `ProjectsOf` |
| `ResumeParser.ProjectsShape` | resume-relevance-system/backend/app/services/resume_parser.py:197-227 | at most 5 distinct projects in first-occurrence order, each of 21 to 203 characters, and no description dropped unless five are kept |
| `ResumeParser.ProjectsOf` | backend/app/services/resume_parser.py:197-227 | specification function without a contract of its own; `ProjectsShape` states its properties and `ExtractProjects` computes it |
| `ResumeParser.FirstFiveUnique` | backend/app/services/resume_parser.py:218-227 | the first five distinct descriptions keep their order and length bounds, and none is dropped unless five are kept |
| `ResumeParser.RemovePunctuation` | backend/app/services/resume_parser.py:270 | removing "." and "," leaves neither and adds nothing |
| `ResumeParser.FindName` | backend/app/services/resume_parser.py:261-272 | the loop over the first five lines computes `NameFrom` |
| `ResumeParser.ExtractContactInfo` | backend/app/services/resume_parser.py:245-274 | the method computes `ContactOf` |
| `ResumeParser.FirstStrippedFound` | backend/app/services/resume_parser.py:261-272 | a found name is the first stripped line passing the rule |
| `ResumeParser.FirstStrippedAbsent` | backend/app/services/resume_parser.py:261-272 | no name means no line passes the rule |
| `ResumeParser.NameFromFirstFive` | resume-relevance-system/backend/app/services/resume_parser.py:261-272 | a name is a stripped line among the first five that looks like a name; without one, none of those lines does |
| `ResumeParser.ContactOf` | backend/app/services/resume_parser.py:245-274 | specification function without a contract of its own; `NameFromFirstFive` states how the name is found and `ExtractContactInfo` computes it |
| `ServiceSplitter.NormalizedText` | backend/app/services/pinecone_gemini_service.py:40 | the normalized text is empty exactly for blank input, holds no whitespace but ' ', has no two adjacent spaces and none at either end, and keeps the non-whitespace characters of the input in order |
| `ServiceSplitter.SentenceBreak` | backend/app/services/pinecone_gemini_service.py:56-59 | a break, when found, lies just after the last sentence mark in the scanned range; none means no mark there |
| `ServiceSplitter.SentenceBreakAt` | backend/app/services/pinecone_gemini_service.py:56-59 | the break is placed after the last mark in range |
| `ServiceSplitter.SentenceBreakNone` | backend/app/services/pinecone_gemini_service.py:56-60 | a range without marks gives no break |
| `ServiceSplitter.WordBoundary` | backend/app/services/pinecone_gemini_service.py:62-63 | backing up stops at the last space at or before the end, or at the start |
| `ServiceSplitter.WordBoundaryAt` | backend/app/services/pinecone_gemini_service.py:62-63 | backing up stops exactly at the last space |
| `ServiceSplitter.ChunkEnd` | backend/app/services/pinecone_gemini_service.py:47-65 | the end passes the start; the window is at most the chunk size or a tail shorter than 1.5 chunks; a short tail is absorbed; an inner end follows a mark, a space or the fallback |
| `ServiceSplitter.NextStart` | backend/app/services/pinecone_gemini_service.py:75-77 | the corrected next start always passes the current start |
| `ServiceSplitter.NextStartRefinesAsWritten` | backend/app/services/pinecone_gemini_service.py:75-77 | the corrected next start equals the code's whenever the code's advances, in particular `end − overlap` when the overlap fits |
| `ServiceSplitter.NextStartAsWritten` | backend/app/services/pinecone_gemini_service.py:75-77 | specification function without a contract of its own; `NextStartRefinesAsWritten` relates it to the corrected step, and `AsWrittenNeverEnds` shows the state it can repeat |
| `ServiceSplitter.Emit` | backend/app/services/pinecone_gemini_service.py:68-69 | a chunk is kept exactly when non-empty |
| `ServiceSplitter.ChunksStep` | backend/app/services/pinecone_gemini_service.py:45-77 | one round emits the window's chunk and stops at the end of the text, or continues at the next start |
| `ServiceSplitter.WindowShape` | backend/app/services/pinecone_gemini_service.py:67 | a window's chunk is stripped, shorter than 1.5 chunk sizes and a substring of the text |
| `ServiceSplitter.OccursInSlice` | backend/app/services/pinecone_gemini_service.py:67 | a substring of a slice is a substring of the text |
| `ServiceSplitter.ChunksShape` | backend/app/services/pinecone_gemini_service.py:45-77 | the loop yields no more chunks than characters, each non-empty, stripped, bounded and a substring of the text |
| `ServiceSplitter.Chunks` | backend/app/services/pinecone_gemini_service.py:45-77 | specification function without a contract of its own; `ChunksStep` and `ChunksShape` state its properties and `SplitNormalized` computes it |
| `ServiceSplitter.SplitShape` | backend/app/services/pinecone_gemini_service.py:34-79 | blank input gives [], and every chunk is non-empty, stripped and a substring of the collapsed text |
| `ServiceSplitter.SplitOf` | backend/app/services/pinecone_gemini_service.py:34-79 | specification function without a contract of its own; `SplitShape` states its properties and `SplitText` computes it |
| `ServiceSplitter.FindSentenceBreak` | backend/app/services/pinecone_gemini_service.py:56-59 | the backward scan computes `SentenceBreak` |
| `ServiceSplitter.FindWordBoundary` | backend/app/services/pinecone_gemini_service.py:62-63 | the decrementing loop computes `WordBoundary` |
| `ServiceSplitter.FindChunkEnd` | backend/app/services/pinecone_gemini_service.py:47-65 | the end adjustment computes `ChunkEnd` |
| `ServiceSplitter.SplitNormalized` | backend/app/services/pinecone_gemini_service.py:42-79 | the loop, with the corrected next start, computes `Chunks` and terminates |
| `ServiceSplitter.SplitText` | backend/app/services/pinecone_gemini_service.py:34-79 | the whole method computes `SplitOf` |
| `ServiceSplitter.StuckText` | backend/app/services/pinecone_gemini_service.py:75 | the counterexample text is all 'a' except a '.' at 460 and a space at 461 |
| `ServiceSplitter.StuckTextIsNormalized` | backend/app/services/pinecone_gemini_service.py:36-40 | that text survives normalisation unchanged and is not blank |
| `ServiceSplitter.StuckTextFirstWindow` | backend/app/services/pinecone_gemini_service.py:47-75 | with the defaults 500/50 the first window ends at 461 and the next start is 411 |
| `ServiceSplitter.AsWrittenNeverEnds` | backend/app/services/pinecone_gemini_service.py:45-77 | as written, the window at 411 ends at 461 again and the next start is 411 again, so the loop repeats its state forever; the corrected start moves to 461 |
| `DemoSplitter.WindowEnd` | resume-relevance-system/backend/pinecone_gemini_demo.py:45 | a window ends after its start, at most a chunk size later, and exactly a chunk size later unless it reaches the end |
| `DemoSplitter.Windows` | resume-relevance-system/backend/pinecone_gemini_demo.py:44-51 | the first window is at the given start, all lie inside the text, each next one starts exactly `overlap` before the previous ended, and only the last reaches the end |
| `DemoSplitter.WindowAfter` | resume-relevance-system/backend/pinecone_gemini_demo.py:49-51 | after window k comes one starting at its end minus the overlap, unless it is the last |
| `DemoSplitter.WindowShape` | resume-relevance-system/backend/pinecone_gemini_demo.py:46 | a chunk is stripped, at most a chunk size long and a substring of the text |
| `DemoSplitter.KeptTexts` | resume-relevance-system/backend/pinecone_gemini_demo.py:46-48 | there are no more kept chunks than windows |
| `DemoSplitter.KeptTextsSnoc` | resume-relevance-system/backend/pinecone_gemini_demo.py:47-48 | one more window appends its chunk when non-empty |
| `DemoSplitter.KeptTextsFrom` | resume-relevance-system/backend/pinecone_gemini_demo.py:47-48 | every kept chunk is the non-empty text of some window |
| `DemoSplitter.KeptTextsStep` | resume-relevance-system/backend/pinecone_gemini_demo.py:47-48 | extending the window prefix by one appends that window's chunk when non-empty |
| `DemoSplitter.WindowsCover` | resume-relevance-system/backend/pinecone_gemini_demo.py:40-51 | with a non-negative overlap every character lies inside some window |
| `DemoSplitter.NextWindowAdvances` | resume-relevance-system/backend/pinecone_gemini_demo.py:51 | the next start passes the current one exactly when the overlap is below the chunk size |
| `DemoSplitter.OverlapTooLargeNeverEnds` | resume-relevance-system/backend/pinecone_gemini_demo.py:44-51 | with an overlap of at least the chunk size, once a window ends before the text does, every later start (`StartAfter`, k passes on) stays at or before it and its window also ends before the text, so the `break` is never reached and the loop never ends |
| `DemoSplitter.DemoSplitShape` | resume-relevance-system/backend/pinecone_gemini_demo.py:35-53 | blank input gives []; there are no more chunks than windows, each non-empty, stripped, at most a chunk size and the text of a window |
| `DemoSplitter.DemoSplitOf` | resume-relevance-system/backend/pinecone_gemini_demo.py:35-53 | specification function without a contract of its own; `DemoSplitShape` states its properties and `DemoSplitText` computes it |
| `DemoSplitter.CutWindow` | resume-relevance-system/backend/pinecone_gemini_demo.py:45-46 | one cut gives the window's end and its stripped text |
| `DemoSplitter.DemoTurn` | resume-relevance-system/backend/pinecone_gemini_demo.py:45-51 | one round appends window k's chunk and reports an end that either closes the last window or starts the next one `overlap` earlier |
| `DemoSplitter.DemoSplitNormalized` | resume-relevance-system/backend/pinecone_gemini_demo.py:42-53 | the loop keeps the non-empty chunks of exactly the `Windows` sequence |
| `DemoSplitter.DemoSplitText` | resume-relevance-system/backend/pinecone_gemini_demo.py:35-53 | the whole method computes `DemoSplitOf` |

## Left out

- Regular expressions: every `re.search`, `re.findall` and `re.finditer` is an opaque function parameter (`Search`, `FindAll`), so lazy quantifiers, DOTALL, IGNORECASE and look-aheads are not modelled. Where a result depends on what a pattern can match (`JdParser.ExperienceWithoutDigits`), the lemma states that dependence as a precondition.
- The fuzzy scorer (`token_set_ratio`), the sentence-transformer and TF-IDF cosines and spaCy are inputs. Their internals and the exception fallbacks inside `_calculate_semantic_similarity` and `_calculate_tfidf_similarity` are not modelled.
- Text handling is ASCII only. `lower`, `upper`, `isspace`, `isalpha`, `title` and `\w` act on ASCII letters, digits and whitespace, with no Unicode case mapping.
- Floating point: scores are exact reals, and `round(x, 2)` on the reported evaluation scores is not modelled. The verdict and feedback use the unrounded score, as in the source.
- Python sets: `list(set(xs))` is modelled as keeping first occurrences in order. Membership, distinctness and length bounds hold for any order; the exact order Python produces is not modelled.
- Feedback and suggestion strings drop their emoji prefixes. The wording is otherwise given as datatype constructors with their text functions.
- File access, PyPDF2, python-docx and the `analyze_resume` / `parse_resume` drivers: the readers are function parameters of `ResumeParser.ExtractText`, and the drivers only assemble fields already modelled.
- `datetime.now()` in `_extract_years_from_duration` is a `currentYear` parameter.
- `InnomaticsJDParser._clean_text` is not modelled (it is a pair of regex substitutions); the JD operations take the cleaned text.
- In `InnomaticsResumeAnalyzer`, `_extract_name`, `_extract_work_experience`, `_extract_education`, `_extract_certifications`, `_extract_achievements`, `_extract_links`, `_clean_text` and `get_resume_summary` are not modelled. They are regex extractors whose outputs enter the model as inputs.
- `ResumeParser.extract_certifications` is not modelled (it is a regex collector).
- `get_detailed_analysis_report` of the hybrid engine is not modelled (it is dictionary formatting of modelled results).
- `HybridScoring.EvaluateResumeRelevance` returns a result, but as written `evaluate_resume_relevance` never does: `_perform_soft_matching` reads `job_analysis.job_description`, which `JobDescriptionAnalysis` does not declare, so every call raises `AttributeError` in step 2 (see Findings). The method takes the job text as the parameter `jobText`; the as-written behaviour is `HybridScoring.EvaluationAsWritten`.
- `HybridScoring.EvaluationOf` and `HybridScoring.EvaluateResumeRelevance` keep the as-written relevance 0.6·hard + 0.4·soft. The corrected hard + soft relevance (see Findings) is `HybridScoring.CorrectedEvaluationOf`.
- `Text.IsSpace` counts only the six common ASCII whitespace characters; Python's `str.isspace` and `\s` also accept the separator controls 0x1C to 0x1F.
- `ServiceSplitter.SplitNormalized`: the loop uses the corrected next start, so it terminates on every input. The as-written step is `ServiceSplitter.NextStartAsWritten`, and its repeating state is exhibited in `ServiceSplitter.AsWrittenNeverEnds`.
- `ServiceSplitter.SplitText` and `DemoSplitter.DemoSplitText` require a positive chunk size. With a chunk size of 0 or less the code never advances, which the model does not describe.
- `DemoSplitter.DemoSplitText` requires `chunk_overlap < chunk_size`: otherwise the loop does not terminate. `DemoSplitter.OverlapTooLargeNeverEnds` proves it.
- The sentence search in the service splitter scans the first min(100, window) characters of the window, exactly as written, not the end of the window.
- `EvaluationEngine.Blend`: weights are fixed at the settings values 0.4 and 0.6; the `getattr` fallbacks 0.6/0.4 never apply.
- The FastAPI routers and apps, ORM models, pydantic schemas and settings are not modelled; only `FitVerdict` is reused as a datatype.

## Findings

| source | as written | input that shows it | evidently intended | confidence | as-written member | corrected member |
|---|---|---|---|---|---|---|
| resume-relevance-system/backend/app/services/hybrid_scoring_engine.py:384-393 | relevance = 0.6·hard + 0.4·soft, yet hard is already scaled to 60 points and soft to 40, so relevance is at most 0.6·60 + 0.4·40 = 52 and the HIGH verdict (75 or more) can never be given | a perfect match: every skill matched, qualification and experience met, all three similarities 1.0; relevance is 52, verdict MEDIUM | relevance = hard + soft, clamped to [0,100], so a perfect match scores 100 and is HIGH | not executed | `HybridScoring.HighUnreachable` (with `HybridScoring.RelevanceScore` and `HybridScoring.EvaluationShape`) | `HybridScoring.CombinedRelevance` (with `HybridScoring.CombinedRelevanceReachesHigh`, `HybridScoring.PerfectMatchIsHigh`, used by `HybridScoring.CorrectedEvaluationOf`) |
| resume-relevance-system/backend/app/services/hybrid_scoring_engine.py:191 | `_perform_soft_matching` reads `job_analysis.job_description`, but the `JobDescriptionAnalysis` dataclass declares no such field, and its caller in `innomatics_main.py` sets none; the read raises `AttributeError`, so `evaluate_resume_relevance` never returns a result | any job analysis returned by `parse_job_description`, with any resume: step 2 raises "'JobDescriptionAnalysis' object has no attribute 'job_description'" | the soft match compares the full job-description text with the resume text | not executed | `HybridScoring.AsWrittenEvaluationRaises` (with `HybridScoring.SoftMatchAsWritten`, `HybridScoring.EvaluationAsWritten`) | `HybridScoring.SoftMatchOf` (taking the text as `jobText`, used by `HybridScoring.EvaluationOf`) |
| backend/app/services/pinecone_gemini_service.py:75 | the next start is `end - chunk_overlap`, which need not pass the current start, so the loop can return to a state it has been in and never end | defaults 500/50 on a text of 1161 or more 'a's with a '.' at index 460 and a space at 461: the window at 411 ends at 461, and the next start is 411 again | every round advances: the next start is `end - chunk_overlap` only when that passes the current start, and `end` otherwise | not executed | `ServiceSplitter.AsWrittenNeverEnds` (with `ServiceSplitter.NextStartAsWritten`, `ServiceSplitter.StuckTextFirstWindow`) | `ServiceSplitter.NextStart` (used by `ServiceSplitter.SplitNormalized`) |
