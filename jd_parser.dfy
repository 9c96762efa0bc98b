/** The job-description parser of the Innomatics placement system: it turns a cleaned job
    description into must-have and good-to-have skills, qualifications, an experience
    requirement, responsibilities, technical and soft skills, domain keywords, a role title and
    a salary range, and summarises the result with a complexity score.

    Every `re` call is an oracle (`Search` / `FindAll`) applied to the pattern text below; the
    spaCy pipeline is an optional function from text to a parsed document. */
module JdParser {
  import opened Text

  /** `JobDescriptionAnalysis`. */
  datatype JobDescriptionAnalysis = JobDescriptionAnalysis(
    roleTitle: string,
    companyName: string,
    mustHaveSkills: seq<string>,
    goodToHaveSkills: seq<string>,
    qualifications: seq<string>,
    experienceRequired: string,
    roleResponsibilities: seq<string>,
    technicalSkills: seq<string>,
    softSkills: seq<string>,
    domainKeywords: seq<string>,
    salaryRange: Option<string>)

  /** The attribute names the `JobDescriptionAnalysis` dataclass declares, in order. */
  const AnalysisFields := ["role_title", "company_name", "must_have_skills", "good_to_have_skills",
                           "qualifications", "experience_required", "role_responsibilities",
                           "technical_skills", "soft_skills", "domain_keywords", "salary_range"]

  /** A named entity or noun chunk of the spaCy document. */
  datatype Entity = Entity(text: string, tag: string)
  datatype NlpDoc = NlpDoc(ents: seq<Entity>, nounChunks: seq<string>)

  /** The technical skill table, its seven categories concatenated in declaration order. */
  const TechnicalSkills: seq<string> := [
    // programming languages
    "python", "java", "javascript", "typescript", "c++", "c#", "go", "rust", "kotlin", "swift",
    "scala", "r", "matlab", "php", "ruby", "perl", "shell scripting", "bash",
    // web technologies
    "react", "angular", "vue.js", "nodejs", "express", "django", "flask", "spring boot",
    "html", "css", "scss", "sass", "bootstrap", "tailwind", "jquery", "webpack",
    // databases
    "mysql", "postgresql", "mongodb", "redis", "elasticsearch", "cassandra", "dynamodb",
    "sqlite", "oracle", "sql server", "neo4j", "firebase",
    // cloud platforms
    "aws", "azure", "gcp", "google cloud", "docker", "kubernetes", "jenkins", "terraform",
    "ansible", "helm", "openshift", "cloudformation",
    // data science
    "machine learning", "deep learning", "tensorflow", "pytorch", "scikit-learn", "pandas",
    "numpy", "matplotlib", "seaborn", "jupyter", "apache spark", "hadoop", "kafka", "airflow",
    // mobile development
    "android", "ios", "react native", "flutter", "xamarin", "ionic", "cordova",
    // testing
    "selenium", "junit", "testng", "pytest", "jest", "cypress", "postman", "jmeter"]

  const SoftSkills: seq<string> := [
    "communication", "leadership", "teamwork", "problem solving", "analytical thinking",
    "project management", "time management", "adaptability", "creativity", "attention to detail",
    "collaboration", "mentoring", "presentation", "documentation", "agile", "scrum"]

  // The regex patterns, each standing for itself together with the flags of its call site.

  const MustHavePatterns: seq<string> := [
    @"must\s*have:?(.*?)(?:good\s*to\s*have|nice\s*to\s*have|preferred|desired|plus|\n\n|$)",
    @"required\s*skills?:?(.*?)(?:preferred|desired|plus|nice\s*to\s*have|\n\n|$)",
    @"mandatory:?(.*?)(?:preferred|desired|plus|\n\n|$)",
    @"essential:?(.*?)(?:preferred|desired|plus|\n\n|$)"]

  const GoodToHavePatterns: seq<string> := [
    @"(?:good\s*to\s*have|nice\s*to\s*have|preferred|desired|plus):?(.*?)(?:\n\n|$)",
    @"additional\s*skills?:?(.*?)(?:\n\n|$)",
    @"bonus:?(.*?)(?:\n\n|$)"]

  const BulletPattern: string := @"[•\-\*]\s*([^\n•\-\*]+)"
  const CommaPattern: string := @"(\w+(?:\.\w+)*)\s*(?:,|$)"

  /** The four qualification patterns followed by the three qualification phrases. */
  const QualificationPatterns: seq<string> := [
    @"(?:bachelor|b\.?tech|b\.?e\.?|bca|mca|m\.?tech|m\.?e\.?|mba|phd)",
    @"(?:computer science|information technology|electronics|electrical|mechanical)",
    @"(?:certification|certified|certificate)",
    @"(?:aws certified|azure certified|google certified|oracle certified)",
    @"(?:bachelor|master|phd).*?(?:degree|certification)",
    @"(?:b\.?tech|m\.?tech|bca|mca).*?(?:computer|information|electronics)",
    @"(?:aws|azure|google|oracle)\s*certified.*?(?:associate|professional|expert)"]

  /** The first pattern has two groups, the others one. */
  const ExperiencePatterns: seq<string> := [
    @"(\d+)[\+\-\s]*(?:to|[\-\+])\s*(\d+)\s*years?",
    @"(\d+)[\+\-\s]*years?",
    @"minimum\s*(\d+)\s*years?",
    @"atleast\s*(\d+)\s*years?",
    @"(\d+)[\+\-\s]*yrs?"]

  const ResponsibilityPatterns: seq<string> := [
    @"(?:responsibilities|duties|role):?(.*?)(?:requirements|qualifications|skills|\n\n|$)",
    @"(?:what you\'ll do|you will):?(.*?)(?:requirements|qualifications|skills|\n\n|$)"]

  const TitlePatterns: seq<string> := [
    @"(?:role|position|title):\s*([^\n]+)",
    @"hiring\s*for\s*([^\n]+)",
    @"^([^\n]+?)(?:engineer|developer|analyst|manager)"]

  const SalaryPatterns: seq<string> := [
    @"(\d+(?:\.\d+)?)\s*(?:to|-)\s*(\d+(?:\.\d+)?)\s*(?:lpa|lakhs?|k|thousand)",
    @"(?:salary|package|compensation):\s*([^\n]+)",
    @"(\d+)\s*(?:lpa|lakhs?)\s*(?:to|-)\s*(\d+)\s*(?:lpa|lakhs?)"]

  const NotSpecified: string := "Not specified"
  const DefaultRoleTitle: string := "Software Engineer"
  const EntityLabels: set<string> := {"ORG", "PRODUCT", "TECHNOLOGY"}

  /** The skill tables and pattern lists a `JDParser` works with: the two databases and two
      pattern lists its constructor sets up, and the pattern lists local to its extractors.
      `Default` holds the source's values; the operations below work for any of them. */
  datatype Parser = Parser(
    technicalSkills: seq<string>,
    softSkills: seq<string>,
    mustHavePatterns: seq<string>,
    goodToHavePatterns: seq<string>,
    qualificationPatterns: seq<string>,
    experiencePatterns: seq<string>,
    responsibilityPatterns: seq<string>,
    titlePatterns: seq<string>,
    salaryPatterns: seq<string>)

  const Default: Parser := Parser(TechnicalSkills, SoftSkills, MustHavePatterns, GoodToHavePatterns,
                                  QualificationPatterns, ExperiencePatterns, ResponsibilityPatterns,
                                  TitlePatterns, SalaryPatterns)

  // ================================================================ table lookups

  /** The table skills occurring in the lower-cased text, without duplicates: the body of
      `_extract_technical_skills` and `_extract_soft_skills`. */
  method ExtractTableSkills(table: seq<string>, text: string) returns (skills: seq<string>)
    ensures skills == Dedup(TableHits(table, Lower(text)))
    ensures forall s :: s in skills <==> s in table && Contains(Lower(text), s)
    ensures NoDups(skills)
  {
    var hits := CollectHits(table, Lower(text));
    skills := Dedup(hits);
  }

  /** `_extract_technical_skills`. */
  method ExtractTechnicalSkills(p: Parser, text: string) returns (skills: seq<string>)
    ensures skills == Dedup(TableHits(p.technicalSkills, Lower(text)))
    ensures forall s :: s in skills <==> s in p.technicalSkills && Contains(Lower(text), s)
    ensures NoDups(skills)
  {
    skills := ExtractTableSkills(p.technicalSkills, text);
  }

  /** `_extract_soft_skills`. */
  method ExtractSoftSkills(p: Parser, text: string) returns (skills: seq<string>)
    ensures skills == Dedup(TableHits(p.softSkills, Lower(text)))
    ensures forall s :: s in skills <==> s in p.softSkills && Contains(Lower(text), s)
    ensures NoDups(skills)
  {
    skills := ExtractTableSkills(p.softSkills, text);
  }

  // ================================================================ skills in a text chunk

  /** The bullet or comma matches kept by `_extract_skills_from_text`: stripped, longer than two
      characters and, lower-cased, occurring in the lower-cased chunk. */
  function PatternSkills(matches: seq<string>, textLower: string): (r: seq<string>)
    ensures |r| <= |matches|
    ensures forall s :: s in r ==> |s| > 2 && Contains(textLower, s)
  {
    if |matches| == 0 then []
    else
      var r := PatternSkills(matches[..|matches| - 1], textLower);
      var skill := Strip(matches[|matches| - 1]);
      if |skill| > 2 && Contains(textLower, Lower(skill)) then r + [Lower(skill)] else r
  }

  /** `_extract_skills_from_text` against a skill table: table hits, then bullet and comma matches, de-duplicated. */
  function SkillsFromTable(table: seq<string>, text: string, findAll: FindAll): (r: seq<string>)
    ensures NoDups(r)
    ensures forall s :: s in r ==> Contains(Lower(text), s)
    ensures forall s :: s in table && Contains(Lower(text), s) ==> s in r
  {
    var textLower := Lower(text);
    Dedup(TableHits(table, textLower)
          + PatternSkills(findAll(BulletPattern, text), textLower)
          + PatternSkills(findAll(CommaPattern, text), textLower))
  }

  /** The skills of every section match, match after match: `must_have_skills.extend(...)`. */
  function ChunkSkills(table: seq<string>, chunks: seq<string>, findAll: FindAll): (r: seq<string>)
    ensures |chunks| == 0 ==> r == []
  {
    if |chunks| == 0 then []
    else ChunkSkills(table, chunks[..|chunks| - 1], findAll) + SkillsFromTable(table, chunks[|chunks| - 1], findAll)
  }

  /** The section skills for every pattern, pattern after pattern. */
  function SectionSkills(table: seq<string>, patterns: seq<string>, text: string, findAll: FindAll): seq<string>
  {
    if |patterns| == 0 then []
    else SectionSkills(table, patterns[..|patterns| - 1], text, findAll)
         + ChunkSkills(table, findAll(patterns[|patterns| - 1], text), findAll)
  }

  /** Everything a section contributes comes from one of its matched chunks. */
  lemma {:induction false} SectionSkillsFromChunks(table: seq<string>, patterns: seq<string>, text: string,
                                                   findAll: FindAll, s: string)
    requires s in SectionSkills(table, patterns, text, findAll)
    ensures exists p, c :: p in patterns && c in findAll(p, text) && Contains(Lower(c), s)
  {
    var n := |patterns|;
    var p := patterns[n - 1];
    if s in SectionSkills(table, patterns[..n - 1], text, findAll) {
      SectionSkillsFromChunks(table, patterns[..n - 1], text, findAll, s);
      var q, c :| q in patterns[..n - 1] && c in findAll(q, text) && Contains(Lower(c), s);
      assert q in patterns;
    } else {
      ChunkSkillsFromChunk(table, findAll(p, text), findAll, s);
    }
  }

  lemma {:induction false} ChunkSkillsFromChunk(table: seq<string>, chunks: seq<string>, findAll: FindAll, s: string)
    requires s in ChunkSkills(table, chunks, findAll)
    ensures exists c :: c in chunks && Contains(Lower(c), s)
  {
    var n := |chunks|;
    if s in ChunkSkills(table, chunks[..n - 1], findAll) {
      ChunkSkillsFromChunk(table, chunks[..n - 1], findAll, s);
      var c :| c in chunks[..n - 1] && Contains(Lower(c), s);
      assert c in chunks;
    } else {
      assert chunks[n - 1] in chunks;
    }
  }

  /** The inner loop: the skills of each matched chunk of one section pattern. */
  method CollectChunkSkills(table: seq<string>, chunks: seq<string>, findAll: FindAll) returns (skills: seq<string>)
    ensures skills == ChunkSkills(table, chunks, findAll)
  {
    skills := [];
    for j := 0 to |chunks|
      invariant skills == ChunkSkills(table, chunks[..j], findAll)
    {
      assert chunks[..j + 1][..j] == chunks[..j];
      skills := skills + SkillsFromTable(table, chunks[j], findAll);
    }
    assert chunks[..|chunks|] == chunks;
  }

  /** The loop over patterns and section matches shared by the must-have and good-to-have extractors. */
  method CollectSectionSkills(table: seq<string>, patterns: seq<string>, text: string, findAll: FindAll)
    returns (skills: seq<string>)
    ensures skills == SectionSkills(table, patterns, text, findAll)
  {
    skills := [];
    for i := 0 to |patterns|
      invariant skills == SectionSkills(table, patterns[..i], text, findAll)
    {
      assert patterns[..i + 1][..i] == patterns[..i];
      var fromChunks := CollectChunkSkills(table, findAll(patterns[i], text), findAll);
      skills := skills + fromChunks;
    }
    assert patterns[..|patterns|] == patterns;
  }

  /** What `_extract_must_have_skills` returns, against a skill table and the section patterns. */
  function MustHaveFrom(table: seq<string>, patterns: seq<string>, text: string, findAll: FindAll): seq<string>
  {
    var sections := SectionSkills(table, patterns, text, findAll);
    Dedup(if |sections| == 0 then Take(SkillsFromTable(table, text, findAll), 10) else sections)
  }

  /** `_extract_must_have_skills`: the skills of the must-have sections, or, when they yield none,
      the first ten skills of the whole text. */
  method ExtractMustHaveSkills(p: Parser, text: string, findAll: FindAll) returns (skills: seq<string>)
    ensures skills == MustHaveFrom(p.technicalSkills, p.mustHavePatterns, text, findAll)
  {
    skills := CollectMustHave(p.technicalSkills, p.mustHavePatterns, text, findAll);
  }

  method CollectMustHave(table: seq<string>, patterns: seq<string>, text: string, findAll: FindAll)
    returns (skills: seq<string>)
    ensures skills == MustHaveFrom(table, patterns, text, findAll)
  {
    skills := CollectSectionSkills(table, patterns, text, findAll);
    if |skills| == 0 {
      var all := SkillsFromTable(table, text, findAll);
      skills := Take(all, 10);
    }
    skills := Dedup(skills);
  }

  /** Without section matches the list is at most ten distinct skills of the general extraction;
      with them, every skill comes from a matched section. */
  lemma MustHaveShape(table: seq<string>, patterns: seq<string>, text: string, findAll: FindAll)
    ensures NoDups(MustHaveFrom(table, patterns, text, findAll))
    ensures SectionSkills(table, patterns, text, findAll) == [] ==>
      |MustHaveFrom(table, patterns, text, findAll)| <= 10 &&
      forall s :: s in MustHaveFrom(table, patterns, text, findAll) ==> s in SkillsFromTable(table, text, findAll)
    ensures SectionSkills(table, patterns, text, findAll) != [] ==>
      forall s :: s in MustHaveFrom(table, patterns, text, findAll) ==>
        exists p, c :: p in patterns && c in findAll(p, text) && Contains(Lower(c), s)
  {
    var sections := SectionSkills(table, patterns, text, findAll);
    if sections != [] {
      forall s | s in MustHaveFrom(table, patterns, text, findAll)
        ensures exists p, c :: p in patterns && c in findAll(p, text) && Contains(Lower(c), s)
      {
        SectionSkillsFromChunks(table, patterns, text, findAll, s);
      }
    } else {
      var all := SkillsFromTable(table, text, findAll);
      assert forall s :: s in Take(all, 10) ==> s in all;
    }
  }

  /** `_extract_good_to_have_skills`: the de-duplicated skills of the good-to-have sections. */
  method ExtractGoodToHaveSkills(p: Parser, text: string, findAll: FindAll) returns (skills: seq<string>)
    ensures skills == Dedup(SectionSkills(p.technicalSkills, p.goodToHavePatterns, text, findAll))
    ensures NoDups(skills)
  {
    skills := CollectSectionSkills(p.technicalSkills, p.goodToHavePatterns, text, findAll);
    skills := Dedup(skills);
  }

  // ================================================================ qualifications, experience

  function AllMatches(patterns: seq<string>, text: string, findAll: FindAll): seq<string>
  {
    if |patterns| == 0 then []
    else AllMatches(patterns[..|patterns| - 1], text, findAll) + findAll(patterns[|patterns| - 1], text)
  }

  /** `[q.strip() for q in qualifications if q.strip()]` */
  function StrippedNonEmpty(xs: seq<string>): (r: seq<string>)
    ensures |r| <= |xs|
    ensures forall s :: s in r ==> |s| > 0 && Strip(s) == s
  {
    if |xs| == 0 then []
    else
      var r := StrippedNonEmpty(xs[..|xs| - 1]);
      var q := Strip(xs[|xs| - 1]);
      StripIdempotent(xs[|xs| - 1]);
      if |q| > 0 then r + [q] else r
  }

  /** `_extract_qualifications` over a list of patterns: every pattern's matches, stripped,
      non-empty and de-duplicated. */
  function QualificationsFrom(patterns: seq<string>, text: string, findAll: FindAll): (r: seq<string>)
    ensures NoDups(r)
    ensures forall q :: q in r ==> |q| > 0 && Strip(q) == q
  {
    Dedup(StrippedNonEmpty(AllMatches(patterns, text, findAll)))
  }

  /** The pattern loops of `_extract_qualifications`: every pattern's matches, in order. */
  method CollectMatches(patterns: seq<string>, text: string, findAll: FindAll) returns (all: seq<string>)
    ensures all == AllMatches(patterns, text, findAll)
  {
    all := [];
    for i := 0 to |patterns|
      invariant all == AllMatches(patterns[..i], text, findAll)
    {
      assert patterns[..i + 1][..i] == patterns[..i];
      all := all + findAll(patterns[i], text);
    }
    assert patterns[..|patterns|] == patterns;
  }

  /** `_extract_qualifications`. */
  method ExtractQualifications(p: Parser, text: string, findAll: FindAll) returns (quals: seq<string>)
    ensures quals == QualificationsFrom(p.qualificationPatterns, text, findAll)
  {
    var all := CollectMatches(p.qualificationPatterns, text, findAll);
    quals := Dedup(StrippedNonEmpty(all));
  }

  /** `str(m.group(k))`: a group that did not take part prints as "None". */
  function GroupText(m: Match, k: nat): string
  {
    match Group(m, k)
    case Some(g) => g
    case None => "None"
  }

  /** The requirement text of one experience match: both groups when the pattern has two,
      `len(match.groups()) == 2`, the first otherwise. */
  function ExperienceText(m: Match): (r: string)
    ensures |r| >= 6 && r[|r| - 6..] == " years"
  {
    if |m.groups| == 2 then GroupText(m, 1) + "-" + GroupText(m, 2) + " years"
    else GroupText(m, 1) + " years"
  }

  /** `_extract_experience_requirement` over the patterns from position `i` on. */
  function ExperienceFrom(patterns: seq<string>, text: string, search: Search, i: nat): (r: string)
    requires i <= |patterns|
    ensures r == NotSpecified <==> forall j :: i <= j < |patterns| ==> search(patterns[j], text).None?
    decreases |patterns| - i
  {
    if i == |patterns| then NotSpecified
    else match search(patterns[i], text)
      case Some(m) =>
        var r := ExperienceText(m);
        assert r[|r| - 1] == 's' && NotSpecified[|NotSpecified| - 1] == 'd';
        r
      case None => ExperienceFrom(patterns, text, search, i + 1)
  }

  /** What `_extract_experience_requirement` returns: the text of the first pattern that matches,
      or "Not specified" exactly when none does. */
  function ExperienceRequirementOf(patterns: seq<string>, text: string, search: Search): (r: string)
    ensures r == NotSpecified <==> forall q :: q in patterns ==> search(q, text).None?
  {
    ExperienceFrom(patterns, text, search, 0)
  }

  /** `_extract_experience_requirement`: the pattern loop with its early return. */
  method ExtractExperienceRequirement(p: Parser, text: string, search: Search) returns (r: string)
    ensures r == ExperienceRequirementOf(p.experiencePatterns, text, search)
  {
    var patterns := p.experiencePatterns;
    var i := 0;
    while i < |patterns|
      invariant 0 <= i <= |patterns|
      invariant ExperienceFrom(patterns, text, search, i) == ExperienceRequirementOf(patterns, text, search)
      decreases |patterns| - i
    {
      var m := search(patterns[i], text);
      if m.Some? {
        return ExperienceText(m.value);
      }
      i := i + 1;
    }
    r := NotSpecified;
  }

  /** What the `(\d+)` groups of the experience patterns guarantee: a match's first group is a
      non-empty run of digits occurring in the text. */
  predicate DigitGroupsSound(patterns: seq<string>, search: Search, text: string)
  {
    forall q :: q in patterns && search(q, text).Some? ==>
      var g := Group(search(q, text).value, 1);
      g.Some? && |g.value| > 0 && IsDigit(g.value[0]) && Contains(text, g.value)
  }

  /** A requirement text without a digit is always "Not specified". */
  lemma ExperienceWithoutDigits(patterns: seq<string>, text: string, search: Search)
    requires DigitGroupsSound(patterns, search, text)
    requires !HasDigit(text)
    ensures ExperienceRequirementOf(patterns, text, search) == NotSpecified
  {
    forall q | q in patterns ensures search(q, text).None? {
      if search(q, text).Some? {
        var g := Group(search(q, text).value, 1).value;
        ContainsChar(text, g, 0);
      }
    }
  }

  /** A found requirement always reads "<group> years" or "<group>-<group> years", taken from
      the first pattern that matches. */
  lemma {:induction false} ExperienceShape(patterns: seq<string>, text: string, search: Search, i: nat)
    requires i <= |patterns|
    requires ExperienceFrom(patterns, text, search, i) != NotSpecified
    ensures exists j :: (i <= j < |patterns| && search(patterns[j], text).Some? &&
      ExperienceFrom(patterns, text, search, i) == ExperienceText(search(patterns[j], text).value))
    decreases |patterns| - i
  {
    if search(patterns[i], text).None? {
      ExperienceShape(patterns, text, search, i + 1);
      var j :| i + 1 <= j < |patterns| && search(patterns[j], text).Some? &&
        ExperienceFrom(patterns, text, search, i + 1) == ExperienceText(search(patterns[j], text).value);
      assert i <= j;
    }
  }

  // ================================================================ responsibilities, keywords

  /** The responsibilities of the two sections, before the cap. */
  function ResponsibilityItems(patterns: seq<string>, text: string, search: Search, findAll: FindAll): (r: seq<string>)
    ensures forall s :: s in r ==> |s| > 0 && Strip(s) == s
  {
    if |patterns| == 0 then []
    else
      var r := ResponsibilityItems(patterns[..|patterns| - 1], text, search, findAll);
      match search(patterns[|patterns| - 1], text)
      case None => r
      case Some(m) => r + StrippedNonEmpty(findAll(BulletPattern, GroupText(m, 1)))
  }

  /** The loop of `_extract_responsibilities` over its section patterns. */
  method CollectResponsibilities(patterns: seq<string>, text: string, search: Search, findAll: FindAll)
    returns (items: seq<string>)
    ensures items == ResponsibilityItems(patterns, text, search, findAll)
  {
    items := [];
    for i := 0 to |patterns|
      invariant items == ResponsibilityItems(patterns[..i], text, search, findAll)
    {
      assert patterns[..i + 1][..i] == patterns[..i];
      var m := search(patterns[i], text);
      if m.Some? {
        var bullets := findAll(BulletPattern, GroupText(m.value, 1));
        items := items + StrippedNonEmpty(bullets);
      }
    }
    assert patterns[..|patterns|] == patterns;
  }

  /** `_extract_responsibilities`: the bullets of each matched section, stripped and non-empty,
      capped at eight. */
  method ExtractResponsibilities(p: Parser, text: string, search: Search, findAll: FindAll) returns (items: seq<string>)
    ensures items == Take(ResponsibilityItems(p.responsibilityPatterns, text, search, findAll), 8)
    ensures |items| <= 8
    ensures forall s :: s in items ==> |s| > 0 && Strip(s) == s
  {
    items := CollectResponsibilities(p.responsibilityPatterns, text, search, findAll);
    assert forall s :: s in Take(items, 8) ==> s in items;
    items := Take(items, 8);
  }

  function EntityKeywords(ents: seq<Entity>): seq<string>
  {
    if |ents| == 0 then []
    else
      var r := EntityKeywords(ents[..|ents| - 1]);
      var e := ents[|ents| - 1];
      if e.tag in EntityLabels then r + [e.text] else r
  }

  function ChunkKeywords(chunks: seq<string>): seq<string>
  {
    if |chunks| == 0 then []
    else
      var r := ChunkKeywords(chunks[..|chunks| - 1]);
      var c := chunks[|chunks| - 1];
      if |Words(c)| <= 3 && |c| > 3 then r + [c] else r
  }

  /** What `_extract_domain_keywords` returns. */
  function DomainKeywordsOf(text: string, nlp: Option<string -> NlpDoc>): seq<string>
  {
    match nlp
    case None => []
    case Some(parse) =>
      var doc := parse(Lower(text));
      Dedup(Take(EntityKeywords(doc.ents) + ChunkKeywords(doc.nounChunks), 20))
  }

  method CollectEntityKeywords(ents: seq<Entity>) returns (keywords: seq<string>)
    ensures keywords == EntityKeywords(ents)
  {
    keywords := [];
    for i := 0 to |ents|
      invariant keywords == EntityKeywords(ents[..i])
    {
      assert ents[..i + 1][..i] == ents[..i];
      if ents[i].tag in EntityLabels {
        keywords := keywords + [ents[i].text];
      }
    }
    assert ents[..|ents|] == ents;
  }

  method CollectChunkKeywords(chunks: seq<string>) returns (keywords: seq<string>)
    ensures keywords == ChunkKeywords(chunks)
  {
    keywords := [];
    for i := 0 to |chunks|
      invariant keywords == ChunkKeywords(chunks[..i])
    {
      assert chunks[..i + 1][..i] == chunks[..i];
      var chunk := chunks[i];
      if |Words(chunk)| <= 3 && |chunk| > 3 {
        keywords := keywords + [chunk];
      }
    }
    assert chunks[..|chunks|] == chunks;
  }

  /** `_extract_domain_keywords`: organisation, product and technology entities, then short noun
      chunks; the first twenty, de-duplicated. */
  method ExtractDomainKeywords(text: string, nlp: Option<string -> NlpDoc>) returns (keywords: seq<string>)
    ensures keywords == DomainKeywordsOf(text, nlp)
    ensures |keywords| <= 20 && NoDups(keywords)
  {
    if nlp.None? {
      return [];
    }
    var doc := nlp.value(Lower(text));
    var fromEntities := CollectEntityKeywords(doc.ents);
    var fromChunks := CollectChunkKeywords(doc.nounChunks);
    keywords := Dedup(Take(fromEntities + fromChunks, 20));
  }

  /** No spaCy model means no keywords; otherwise at most twenty distinct ones. */
  lemma DomainKeywordsShape(text: string, nlp: Option<string -> NlpDoc>)
    ensures nlp.None? ==> DomainKeywordsOf(text, nlp) == []
    ensures |DomainKeywordsOf(text, nlp)| <= 20 && NoDups(DomainKeywordsOf(text, nlp))
  {
  }

  // ================================================================ title, salary, assembly

  function FirstGroupFrom(patterns: seq<string>, text: string, search: Search): (r: Option<Match>)
    ensures r.None? <==> forall p :: p in patterns ==> search(p, text).None?
  {
    if |patterns| == 0 then None
    else if search(patterns[0], text).Some? then search(patterns[0], text)
    else
      assert forall p :: p in patterns <==> p == patterns[0] || p in patterns[1..];
      FirstGroupFrom(patterns[1..], text, search)
  }

  /** The pattern loop of `_extract_role_title` and `_extract_salary_range`: the first match. */
  method FindFirst(patterns: seq<string>, text: string, search: Search) returns (r: Option<Match>)
    ensures r == FirstGroupFrom(patterns, text, search)
  {
    var i := 0;
    while i < |patterns|
      invariant 0 <= i <= |patterns|
      invariant FirstGroupFrom(patterns[i..], text, search) == FirstGroupFrom(patterns, text, search)
    {
      if search(patterns[i], text).Some? {
        return search(patterns[i], text);
      }
      assert patterns[i..][1..] == patterns[i + 1..];
      i := i + 1;
    }
    r := None;
  }

  /** What `_extract_role_title` returns: the stripped first group of the first title pattern that
      matches, or "Software Engineer" when none does. */
  function RoleTitleOf(patterns: seq<string>, text: string, search: Search): (r: string)
    ensures (forall q :: q in patterns ==> search(q, text).None?) ==> r == DefaultRoleTitle
    ensures (exists q :: q in patterns && search(q, text).Some?) ==> Strip(r) == r
  {
    match FirstGroupFrom(patterns, text, search)
    case Some(m) => StripIdempotent(GroupText(m, 1)); Strip(GroupText(m, 1))
    case None => DefaultRoleTitle
  }

  /** `_extract_role_title`. */
  method ExtractRoleTitle(p: Parser, text: string, search: Search) returns (r: string)
    ensures r == RoleTitleOf(p.titlePatterns, text, search)
  {
    var m := FindFirst(p.titlePatterns, text, search);
    r := if m.Some? then Strip(GroupText(m.value, 1)) else DefaultRoleTitle;
  }

  /** What `_extract_salary_range` returns: the whole match of the first salary pattern that
      matches, and nothing exactly when none does. */
  function SalaryRangeOf(patterns: seq<string>, text: string, search: Search): (r: Option<string>)
    ensures r.None? <==> forall q :: q in patterns ==> search(q, text).None?
  {
    match FirstGroupFrom(patterns, text, search)
    case Some(m) => Some(m.whole)
    case None => None
  }

  /** `_extract_salary_range`. */
  method ExtractSalaryRange(p: Parser, text: string, search: Search) returns (r: Option<string>)
    ensures r == SalaryRangeOf(p.salaryPatterns, text, search)
  {
    var m := FindFirst(p.salaryPatterns, text, search);
    r := if m.Some? then Some(m.value.whole) else None;
  }

  /** What `parse_job_description` returns for the cleaned text: every field is its extractor's
      result, and a given role title wins over the extracted one. */
  function AnalysisOf(p: Parser, cleanedText: string, roleTitle: string, companyName: string,
                      search: Search, findAll: FindAll, nlp: Option<string -> NlpDoc>): JobDescriptionAnalysis
  {
    JobDescriptionAnalysis(
      if |roleTitle| > 0 then roleTitle else RoleTitleOf(p.titlePatterns, cleanedText, search),
      companyName,
      MustHaveFrom(p.technicalSkills, p.mustHavePatterns, cleanedText, findAll),
      Dedup(SectionSkills(p.technicalSkills, p.goodToHavePatterns, cleanedText, findAll)),
      QualificationsFrom(p.qualificationPatterns, cleanedText, findAll),
      ExperienceRequirementOf(p.experiencePatterns, cleanedText, search),
      Take(ResponsibilityItems(p.responsibilityPatterns, cleanedText, search, findAll), 8),
      Dedup(TableHits(p.technicalSkills, Lower(cleanedText))),
      Dedup(TableHits(p.softSkills, Lower(cleanedText))),
      DomainKeywordsOf(cleanedText, nlp),
      SalaryRangeOf(p.salaryPatterns, cleanedText, search))
  }

  /** `parse_job_description`: the extractors run one after the other on the cleaned text. */
  method ParseJobDescription(p: Parser, cleanedText: string, roleTitle: string, companyName: string,
                             search: Search, findAll: FindAll, nlp: Option<string -> NlpDoc>)
    returns (analysis: JobDescriptionAnalysis)
    ensures analysis == AnalysisOf(p, cleanedText, roleTitle, companyName, search, findAll, nlp)
  {
    var mustHave := ExtractMustHaveSkills(p, cleanedText, findAll);
    var goodToHave := ExtractGoodToHaveSkills(p, cleanedText, findAll);
    var qualifications := ExtractQualifications(p, cleanedText, findAll);
    var experience := ExtractExperienceRequirement(p, cleanedText, search);
    var responsibilities := ExtractResponsibilities(p, cleanedText, search, findAll);
    var technical := ExtractTechnicalSkills(p, cleanedText);
    var soft := ExtractSoftSkills(p, cleanedText);
    var keywords := ExtractDomainKeywords(cleanedText, nlp);
    var salary := ExtractSalaryRange(p, cleanedText, search);
    var title := roleTitle;
    if |roleTitle| == 0 {
      title := ExtractRoleTitle(p, cleanedText, search);
    }
    analysis := JobDescriptionAnalysis(title, companyName, mustHave, goodToHave, qualifications, experience,
                                       responsibilities, technical, soft, keywords, salary);
  }

  /** The promises of the parsed analysis: distinct skill lists, at most eight responsibilities
      and twenty keywords, technical skills exactly the table entries in the text, and the
      "Not specified" and default-title fallbacks exactly when nothing matches. */
  lemma AnalysisShape(p: Parser, cleanedText: string, roleTitle: string, companyName: string,
                      search: Search, findAll: FindAll, nlp: Option<string -> NlpDoc>)
    ensures var a := AnalysisOf(p, cleanedText, roleTitle, companyName, search, findAll, nlp);
      NoDups(a.mustHaveSkills) && NoDups(a.goodToHaveSkills) && NoDups(a.qualifications) &&
      NoDups(a.technicalSkills) && NoDups(a.softSkills) &&
      |a.roleResponsibilities| <= 8 && |a.domainKeywords| <= 20
    ensures var a := AnalysisOf(p, cleanedText, roleTitle, companyName, search, findAll, nlp);
      forall s :: s in a.technicalSkills <==> s in p.technicalSkills && Contains(Lower(cleanedText), s)
    ensures var a := AnalysisOf(p, cleanedText, roleTitle, companyName, search, findAll, nlp);
      a.experienceRequired == NotSpecified <==> forall q :: q in p.experiencePatterns ==> search(q, cleanedText).None?
    ensures var a := AnalysisOf(p, cleanedText, roleTitle, companyName, search, findAll, nlp);
      |roleTitle| == 0 && (forall q :: q in p.titlePatterns ==> search(q, cleanedText).None?) ==>
        a.roleTitle == DefaultRoleTitle
  {
    MustHaveShape(p.technicalSkills, p.mustHavePatterns, cleanedText, findAll);
    DomainKeywordsShape(cleanedText, nlp);
  }

  // ================================================================ summary

  predicate IsSeniorRole(title: string)
  {
    Contains(Lower(title), "senior") || Contains(Lower(title), "lead")
  }

  /** `_calculate_complexity_score`: up to 5 for must-have skills, up to 3 for technical skills,
      2 for a senior or lead title. The final `min(score, 10)` never binds. */
  function ComplexityScore(analysis: JobDescriptionAnalysis): (score: int)
    ensures 0 <= score <= 10
    ensures score == MinInt(|analysis.mustHaveSkills|, 5) + MinInt(|analysis.technicalSkills|, 3)
                     + (if IsSeniorRole(analysis.roleTitle) then 2 else 0)
  {
    var score := MinInt(|analysis.mustHaveSkills|, 5) + MinInt(|analysis.technicalSkills|, 3)
                 + (if IsSeniorRole(analysis.roleTitle) then 2 else 0);
    MinInt(score, 10)
  }

  /** More must-have or technical skills never lower the complexity. */
  lemma ComplexityMonotone(a: JobDescriptionAnalysis, b: JobDescriptionAnalysis)
    requires |a.mustHaveSkills| <= |b.mustHaveSkills| && |a.technicalSkills| <= |b.technicalSkills|
    requires a.roleTitle == b.roleTitle
    ensures ComplexityScore(a) <= ComplexityScore(b)
  {
  }

  datatype JdSummary = JdSummary(
    roleTitle: string,
    company: string,
    experienceRequired: string,
    totalMustHaveSkills: nat,
    totalGoodToHaveSkills: nat,
    topTechnicalSkills: seq<string>,
    keyQualifications: seq<string>,
    complexityScore: int)

  /** `get_jd_summary`. */
  function GetJdSummary(analysis: JobDescriptionAnalysis): (s: JdSummary)
    ensures s.totalMustHaveSkills == |analysis.mustHaveSkills|
    ensures s.totalGoodToHaveSkills == |analysis.goodToHaveSkills|
    ensures |s.topTechnicalSkills| <= 5 && |s.topTechnicalSkills| <= |analysis.technicalSkills|
    ensures s.topTechnicalSkills == analysis.technicalSkills[..|s.topTechnicalSkills|]
    ensures 0 <= s.complexityScore <= 10
  {
    JdSummary(analysis.roleTitle, analysis.companyName, analysis.experienceRequired,
              |analysis.mustHaveSkills|, |analysis.goodToHaveSkills|,
              Take(analysis.technicalSkills, 5), analysis.qualifications, ComplexityScore(analysis))
  }
}
