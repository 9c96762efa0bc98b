/** The resume analyzer of the Innomatics placement system: skill, contact, project and
    experience extraction on cleaned resume text, and the resume quality score.

    Every `re` call is an oracle (`Search` / `FindAll`) applied to the pattern text below; the
    skill tables, city and field lists, project indicators and experience patterns are carried
    by an `Analyzer` value whose `Default` holds the source's lists. */
module ResumeAnalyzer {
  import opened Text

  datatype ContactInfo = ContactInfo(email: string, phone: string, location: string)

  /** One `work_experience` entry. */
  datatype WorkExperience = WorkExperience(role: string, company: string, duration: string, years: real)

  /** One `education` entry. */
  datatype Education = Education(degree: string, institution: string, year: string, field: string)

  /** One `projects` entry; `kind` is its 'type': "Academic", "Personal" or "Inferred". */
  datatype Project = Project(title: string, description: string, technologies: seq<string>, kind: string)

  /** The dictionary `_extract_skills` returns. */
  datatype Skills = Skills(allSkills: seq<string>, technicalSkills: seq<string>, softSkills: seq<string>)

  /** `ResumeAnalysis`. */
  datatype ResumeAnalysis = ResumeAnalysis(
    studentName: string,
    contactInfo: ContactInfo,
    extractedSkills: seq<string>,
    technicalSkills: seq<string>,
    softSkills: seq<string>,
    workExperience: seq<WorkExperience>,
    education: seq<Education>,
    projects: seq<Project>,
    certifications: seq<string>,
    totalExperienceYears: real,
    achievements: seq<string>,
    githubLinks: seq<string>,
    linkedinProfile: Option<string>,
    resumeQualityScore: real,
    parsedText: string)

  /** The technical skill table, its eight categories concatenated in declaration order. */
  const TechnicalSkills: seq<string> := [
    // programming languages
    "python", "java", "javascript", "typescript", "c++", "c#", "go", "rust", "kotlin", "swift",
    "scala", "r", "matlab", "php", "ruby", "perl", "shell scripting", "bash",
    // web technologies
    "react", "angular", "vue.js", "nodejs", "express", "django", "flask", "spring boot",
    "html", "css", "scss", "sass", "bootstrap", "tailwind", "jquery", "webpack", "nextjs",
    // databases
    "mysql", "postgresql", "mongodb", "redis", "elasticsearch", "cassandra", "dynamodb",
    "sqlite", "oracle", "sql server", "neo4j", "firebase", "supabase",
    // cloud platforms
    "aws", "azure", "gcp", "google cloud", "docker", "kubernetes", "jenkins", "terraform",
    "ansible", "helm", "openshift", "cloudformation", "github actions", "gitlab ci",
    // data science
    "machine learning", "deep learning", "tensorflow", "pytorch", "scikit-learn", "pandas",
    "numpy", "matplotlib", "seaborn", "jupyter", "apache spark", "hadoop", "kafka", "airflow",
    // mobile development
    "android", "ios", "react native", "flutter", "xamarin", "ionic", "cordova",
    // testing
    "selenium", "junit", "testng", "pytest", "jest", "cypress", "postman", "jmeter",
    // tools and frameworks
    "git", "github", "gitlab", "jira", "confluence", "slack", "trello", "figma", "photoshop"]

  const SoftSkills: seq<string> := [
    "communication", "leadership", "teamwork", "problem solving", "analytical thinking",
    "project management", "time management", "adaptability", "creativity", "attention to detail",
    "collaboration", "mentoring", "presentation", "documentation", "agile", "scrum"]

  const IndianCities: seq<string> := [
    "mumbai", "delhi", "bangalore", "hyderabad", "chennai", "kolkata", "pune", "ahmedabad",
    "surat", "jaipur", "lucknow", "kanpur", "nagpur", "indore", "thane", "bhopal",
    "visakhapatnam", "pimpri", "patna", "vadodara", "ghaziabad", "ludhiana", "agra", "nashik"]

  const FieldsOfStudy: seq<string> := [
    "computer science", "information technology", "electronics", "electrical",
    "mechanical", "civil", "chemical", "biotechnology", "mathematics",
    "physics", "business administration", "commerce"]

  const ProjectIndicators: seq<string> := [
    "project", "built", "developed", "created", "implemented", "designed",
    "worked on", "contributed to", "led", "managed"]

  // The regex patterns, each standing for itself together with the flags of its call site.

  const ExperiencePatterns: seq<string> := [
    @"(\d+(?:\.\d+)?)\s*(?:years?|yrs?)\s*(?:of\s*)?experience",
    @"experience.*?(\d+(?:\.\d+)?)\s*(?:years?|yrs?)",
    @"(\d{4})\s*(?:to|-|–)\s*(?:present|current|\d{4})",
    @"(?:from|since)\s*(\d{4})",
    @"(\d+)\s*months?\s*(?:of\s*)?experience"]

  const PhonePatterns: seq<string> := [
    @"\+91[\s-]?\d{10}",
    @"\b\d{10}\b",
    @"\(\+91\)[\s-]?\d{10}",
    @"\b\d{3}[\s-]\d{3}[\s-]\d{4}\b"]

  const EmailPattern: string := @"\b[A-Za-z0-9._%+-]+@[A-Za-z0-9.-]+\.[A-Z|a-z]{2,}\b"
  const SkillsSectionPattern: string := @"(?:skills?|technologies?|technical\s*skills?):\s*(.*?)(?:\n[A-Z]|$)"
  const YearPattern: string := @"(\d+(?:\.\d+)?)\s*(?:years?|yrs?)"
  const MonthPattern: string := @"(\d+)\s*(?:months?|mon)"
  const DateRangePattern: string := @"(\d{4})\s*(?:to|-|–)\s*(?:present|current|(\d{4}))"
  /** Appended to a project indicator to find inferred projects. */
  const IndicatorSuffix: string := @"\s+([^.]+\.)"

  /** The separators of `re.split(r'[,\n•\-\|]', ...)` in the skills section. */
  const SkillSeparators: set<char> := {',', '\n', '•', '-', '|'}
  const DefaultField: string := "Computer Science"

  /** The lists an `InnomaticsResumeAnalyzer` works with. */
  datatype Analyzer = Analyzer(
    technicalSkills: seq<string>,
    softSkills: seq<string>,
    cities: seq<string>,
    fields: seq<string>,
    projectIndicators: seq<string>,
    experiencePatterns: seq<string>,
    phonePatterns: seq<string>)

  const Default: Analyzer := Analyzer(TechnicalSkills, SoftSkills, IndianCities, FieldsOfStudy,
                                      ProjectIndicators, ExperiencePatterns, PhonePatterns)

  /** `m.group(k)` for a group the pattern always fills; "" should it not take part. */
  function GroupOrEmpty(m: Match, k: nat): string
  {
    match Group(m, k)
    case Some(g) => g
    case None => ""
  }

  // ================================================================ skills

  /** The additional skills of the skills section: each piece, stripped and lower-cased, kept
      when it is longer than one character and not already a technical skill. */
  function AdditionalSkills(candidates: seq<string>, technical: seq<string>): (r: seq<string>)
    ensures forall s :: s in r ==> |s| > 1 && s !in technical && IsLowerCase(s)
    ensures forall s :: s in r ==> exists c :: c in candidates && s == Lower(Strip(c))
    ensures forall c :: c in candidates && |Lower(Strip(c))| > 1 && Lower(Strip(c)) !in technical ==> Lower(Strip(c)) in r
  {
    if |candidates| == 0 then []
    else
      var rest := candidates[..|candidates| - 1];
      var c := candidates[|candidates| - 1];
      var r := AdditionalSkills(rest, technical);
      assert forall x :: x in candidates <==> x in rest || x == c;
      var skill := Lower(Strip(c));
      LowerIsLowerCase(Strip(c));
      if |skill| > 1 && skill !in technical then r + [skill] else r
  }

  /** The pieces of the skills section, or none when the text has no such section. */
  function SectionCandidates(text: string, search: Search): seq<string>
  {
    match search(SkillsSectionPattern, text)
    case Some(m) => SplitOnAny(GroupOrEmpty(m, 1), SkillSeparators)
    case None => []
  }

  /** What `_extract_skills` returns. */
  function SkillsOf(a: Analyzer, text: string, search: Search): Skills
  {
    var technical := TableHits(a.technicalSkills, Lower(text));
    var soft := TableHits(a.softSkills, Lower(text));
    var additional := AdditionalSkills(SectionCandidates(text, search), technical);
    Skills(Dedup(technical + soft + additional), Dedup(technical), Dedup(soft))
  }

  /** The loop over the section pieces in `_extract_skills`. */
  method CollectAdditionalSkills(candidates: seq<string>, technical: seq<string>) returns (additional: seq<string>)
    ensures additional == AdditionalSkills(candidates, technical)
  {
    additional := [];
    for i := 0 to |candidates|
      invariant additional == AdditionalSkills(candidates[..i], technical)
    {
      assert candidates[..i + 1][..i] == candidates[..i];
      var skill := Lower(Strip(candidates[i]));
      if |skill| > 1 && skill !in technical {
        additional := additional + [skill];
      }
    }
    assert candidates[..|candidates|] == candidates;
  }

  /** `_extract_skills`. */
  method ExtractSkills(a: Analyzer, text: string, search: Search) returns (skills: Skills)
    ensures skills == SkillsOf(a, text, search)
  {
    var textLower := Lower(text);
    var technical := CollectHits(a.technicalSkills, textLower);
    var soft := CollectHits(a.softSkills, textLower);
    var additional := CollectAdditionalSkills(SectionCandidates(text, search), technical);
    skills := Skills(Dedup(technical + soft + additional), Dedup(technical), Dedup(soft));
  }

  /** Technical and soft skills are exactly the table entries in the lower-cased text, and no
      list holds a duplicate. */
  lemma SkillsFromTables(a: Analyzer, text: string, search: Search)
    ensures var s := SkillsOf(a, text, search);
      (forall x :: x in s.technicalSkills <==> x in a.technicalSkills && Contains(Lower(text), x)) &&
      (forall x :: x in s.softSkills <==> x in a.softSkills && Contains(Lower(text), x))
    ensures var s := SkillsOf(a, text, search);
      NoDups(s.allSkills) && NoDups(s.technicalSkills) && NoDups(s.softSkills)
  {
  }

  /** Technical and soft skills are contained in `all_skills`, whose other members are the
      additional skills of the skills section. */
  lemma AllSkillsShape(a: Analyzer, text: string, search: Search)
    ensures var s := SkillsOf(a, text, search);
      (forall x :: x in s.technicalSkills ==> x in s.allSkills) &&
      (forall x :: x in s.softSkills ==> x in s.allSkills)
    ensures var s := SkillsOf(a, text, search);
      forall x :: x in s.allSkills && x !in s.technicalSkills && x !in s.softSkills ==>
        |x| > 1 && exists c :: c in SectionCandidates(text, search) && x == Lower(Strip(c))
  {
    var technical := TableHits(a.technicalSkills, Lower(text));
    var soft := TableHits(a.softSkills, Lower(text));
    var additional := AdditionalSkills(SectionCandidates(text, search), technical);
    assert forall x :: x in technical + soft + additional <==> x in technical || x in soft || x in additional;
  }

  // ================================================================ contact information

  /** The title-cased first entry of `table`, in table order, that occurs in the lower-cased
      text, or `default` when none does: the lookup behind the location and the field of study. */
  function FirstTitled(table: seq<string>, text: string, default: string): (r: string)
    ensures (forall e :: e in table ==> !Contains(Lower(text), e)) ==> r == default
    ensures forall k :: (0 <= k < |table| && Contains(Lower(text), table[k]) &&
                         (forall j :: 0 <= j < k ==> !Contains(Lower(text), table[j]))) ==> r == Title(table[k])
  {
    var k := FirstHitIndex(table, Lower(text));
    if k < |table| then Title(table[k]) else default
  }

  /** The loop with `break` (or `return`) behind `FirstTitled`. */
  method FindFirstTitled(table: seq<string>, text: string, default: string) returns (r: string)
    ensures r == FirstTitled(table, text, default)
  {
    var textLower := Lower(text);
    var i := 0;
    while i < |table|
      invariant 0 <= i <= |table|
      invariant forall j :: 0 <= j < i ==> !Contains(textLower, table[j])
    {
      if Contains(textLower, table[i]) {
        return Title(table[i]);
      }
      i := i + 1;
    }
    r := default;
  }

  /** The whole match of the first pattern that matches, or "". */
  function FirstWholeMatch(patterns: seq<string>, text: string, search: Search): (r: string)
    ensures (forall p :: p in patterns ==> search(p, text).None?) ==> r == ""
    ensures |patterns| > 0 && search(patterns[0], text).Some? ==> r == search(patterns[0], text).value.whole
  {
    if |patterns| == 0 then ""
    else if search(patterns[0], text).Some? then search(patterns[0], text).value.whole
    else
      assert forall p :: p in patterns[1..] ==> p in patterns;
      FirstWholeMatch(patterns[1..], text, search)
  }

  /** What `_extract_contact_info` returns. */
  function ContactInfoOf(a: Analyzer, text: string, search: Search): ContactInfo
  {
    var email := match search(EmailPattern, text) case Some(m) => m.whole case None => "";
    ContactInfo(email, FirstWholeMatch(a.phonePatterns, text, search), FirstTitled(a.cities, text, ""))
  }

  /** `_extract_contact_info`: the e-mail match, the first phone pattern's match (the loop with
      `break`) and the location. */
  method ExtractContactInfo(a: Analyzer, text: string, search: Search) returns (info: ContactInfo)
    ensures info == ContactInfoOf(a, text, search)
  {
    var email := "";
    var m := search(EmailPattern, text);
    if m.Some? {
      email := m.value.whole;
    }
    var phone := "";
    var i := 0;
    while i < |a.phonePatterns|
      invariant 0 <= i <= |a.phonePatterns|
      invariant FirstWholeMatch(a.phonePatterns[i..], text, search) == FirstWholeMatch(a.phonePatterns, text, search)
    {
      var pm := search(a.phonePatterns[i], text);
      if pm.Some? {
        phone := pm.value.whole;
        break;
      }
      assert a.phonePatterns[i..][1..] == a.phonePatterns[i + 1..];
      i := i + 1;
    }
    var location := FindFirstTitled(a.cities, text, "");
    info := ContactInfo(email, phone, location);
  }

  // ================================================================ field of study

  /** `_extract_field_of_study`: the title-cased first listed field in the context, else
      "Computer Science". */
  method ExtractFieldOfStudy(a: Analyzer, context: string) returns (field: string)
    ensures field == FirstTitled(a.fields, context, DefaultField)
  {
    field := FindFirstTitled(a.fields, context, DefaultField);
  }

  // ================================================================ experience

  /** `_extract_years_from_duration`: a years figure, else months / 12, else a date range
      (a missing end year means the current year), else the default 1.0. */
  function YearsFromDuration(duration: string, search: Search, currentYear: int): (r: real)
    ensures r >= 0.0
  {
    var d := Lower(duration);
    match search(YearPattern, d)
    case Some(y) => DecimalValue(GroupOrEmpty(y, 1))
    case None =>
      match search(MonthPattern, d)
      case Some(mo) => DigitsValue(GroupOrEmpty(mo, 1)) as real / 12.0
      case None =>
        match search(DateRangePattern, d)
        case Some(dr) =>
          var start := DigitsValue(GroupOrEmpty(dr, 1));
          var end := match Group(dr, 2) case Some(g) => DigitsValue(g) as int case None => currentYear;
          MaxInt(0, end - start) as real
        case None => 1.0
  }

  /** A range written as running to the present counts up to the current year, and a range
      that ends before it starts counts as zero years. */
  lemma DurationRange(duration: string, search: Search, currentYear: int)
    requires search(YearPattern, Lower(duration)).None? && search(MonthPattern, Lower(duration)).None?
    requires search(DateRangePattern, Lower(duration)).Some?
    ensures var dr := search(DateRangePattern, Lower(duration)).value;
      var start := DigitsValue(GroupOrEmpty(dr, 1));
      (Group(dr, 2).None? ==> YearsFromDuration(duration, search, currentYear) == MaxInt(0, currentYear - start) as real) &&
      (Group(dr, 2).Some? && DigitsValue(Group(dr, 2).value) <= start ==>
         YearsFromDuration(duration, search, currentYear) == 0.0)
  {
  }

  /** A duration with none of the three forms counts as one year. */
  lemma DurationDefault(duration: string, search: Search, currentYear: int)
    requires search(YearPattern, Lower(duration)).None? && search(MonthPattern, Lower(duration)).None?
    requires search(DateRangePattern, Lower(duration)).None?
    ensures YearsFromDuration(duration, search, currentYear) == 1.0
  {
  }

  /** `sum(exp.get('years', 0) for exp in work_experience)` */
  function SumYears(entries: seq<WorkExperience>): real
  {
    if |entries| == 0 then 0.0 else SumYears(entries[..|entries| - 1]) + entries[|entries| - 1].years
  }

  lemma {:induction false} SumYearsNonNegative(entries: seq<WorkExperience>)
    requires forall e :: e in entries ==> e.years >= 0.0
    ensures SumYears(entries) >= 0.0
  {
    if |entries| > 0 {
      assert forall e :: e in entries[..|entries| - 1] ==> e in entries;
      SumYearsNonNegative(entries[..|entries| - 1]);
      assert entries[|entries| - 1] in entries;
    }
  }

  /** The years one experience-pattern match yields, or nothing when reading the number fails
      (the `except: continue`): a match mentioning "month" gives months / 12, any other its first
      decimal number. */
  function MatchYears(whole: string): Option<real>
  {
    if Contains(whole, "month") then
      match FirstNumber(whole) case Some(n) => Some(n as real / 12.0) case None => None
    else FirstDecimal(whole)
  }

  /** The pattern fallback of `_calculate_total_experience` from pattern `i` on. */
  function YearsFromPatterns(patterns: seq<string>, text: string, search: Search, i: nat): real
    requires i <= |patterns|
    decreases |patterns| - i
  {
    if i == |patterns| then 0.0
    else match search(patterns[i], text)
      case Some(m) =>
        (match MatchYears(m.whole)
         case Some(y) => y
         case None => YearsFromPatterns(patterns, text, search, i + 1))
      case None => YearsFromPatterns(patterns, text, search, i + 1)
  }

  /** What `_calculate_total_experience` returns. */
  function TotalExperienceOf(a: Analyzer, work: seq<WorkExperience>, text: string, search: Search): real
  {
    if |work| > 0 then SumYears(work) else YearsFromPatterns(a.experiencePatterns, text, search, 0)
  }

  /** `_calculate_total_experience`: the summed entry years, or the first readable pattern match
      in the text, or 0.0. */
  method CalculateTotalExperience(a: Analyzer, work: seq<WorkExperience>, text: string, search: Search)
    returns (years: real)
    ensures years == TotalExperienceOf(a, work, text, search)
  {
    if |work| > 0 {
      return SumYears(work);
    }
    var patterns := a.experiencePatterns;
    var i := 0;
    while i < |patterns|
      invariant 0 <= i <= |patterns|
      invariant YearsFromPatterns(patterns, text, search, i) == TotalExperienceOf(a, work, text, search)
      decreases |patterns| - i
    {
      var m := search(patterns[i], text);
      if m.Some? {
        var y := MatchYears(m.value.whole);
        if y.Some? {
          return y.value;
        }
      }
      i := i + 1;
    }
    years := 0.0;
  }

  lemma {:induction false} MatchYearsNonNegative(whole: string)
    ensures MatchYears(whole).Some? ==> MatchYears(whole).value >= 0.0
  {
    FirstDecimalNonNegative(whole);
  }

  lemma {:induction false} YearsFromPatternsNonNegative(patterns: seq<string>, text: string, search: Search, i: nat)
    requires i <= |patterns|
    ensures YearsFromPatterns(patterns, text, search, i) >= 0.0
    decreases |patterns| - i
  {
    if i < |patterns| {
      YearsFromPatternsNonNegative(patterns, text, search, i + 1);
      match search(patterns[i], text)
      case Some(m) => MatchYearsNonNegative(m.whole);
      case None =>
    }
  }

  /** Total experience is never negative when no entry has negative years, is the entries' sum
      when there are entries, and is 0.0 when there are none and no pattern matches. */
  lemma TotalExperienceShape(a: Analyzer, work: seq<WorkExperience>, text: string, search: Search)
    requires forall e :: e in work ==> e.years >= 0.0
    ensures TotalExperienceOf(a, work, text, search) >= 0.0
    ensures |work| > 0 ==> TotalExperienceOf(a, work, text, search) == SumYears(work)
  {
    if |work| > 0 {
      SumYearsNonNegative(work);
    } else {
      YearsFromPatternsNonNegative(a.experiencePatterns, text, search, 0);
    }
  }

  lemma {:induction false} NoMatchNoYears(patterns: seq<string>, text: string, search: Search, i: nat)
    requires i <= |patterns|
    requires forall p :: p in patterns ==> search(p, text).None?
    ensures YearsFromPatterns(patterns, text, search, i) == 0.0
    decreases |patterns| - i
  {
    if i < |patterns| {
      assert search(patterns[i], text).None?;
      NoMatchNoYears(patterns, text, search, i + 1);
    }
  }

  // ================================================================ projects

  /** One (title, description) pair the project-entry regex finds in the projects section. */
  datatype ProjectEntry = ProjectEntry(title: string, description: string)

  /** `description.strip()[:200] + "..." if len(description) > 200 else description.strip()`:
      the test is on the unstripped description. */
  function ShortDescription(description: string): (r: string)
    ensures |r| <= 203
    ensures |description| <= 200 ==> r == Strip(description)
  {
    var d := Strip(description);
    if |description| > 200 then Take(d, 200) + "..." else d
  }

  predicate IsProjectTitle(indicators: seq<string>, title: string)
  {
    exists k :: 0 <= k < |indicators| && Contains(Lower(title), indicators[k])
  }

  function ProjectKind(title: string): string
  {
    var t := Lower(title);
    if Contains(t, "academic") || Contains(t, "college") || Contains(t, "university") then "Academic" else "Personal"
  }

  /** The project of one section entry: `list(set(tech_used))[:5]` as its technologies. */
  function SectionProject(table: seq<string>, e: ProjectEntry): (p: Project)
    ensures |p.description| <= 203 && |p.technologies| <= 5 && NoDups(p.technologies)
    ensures forall t :: t in p.technologies ==> t in table && Contains(Lower(e.description), t)
    ensures p.kind == "Academic" || p.kind == "Personal"
  {
    var techs := Dedup(TableHits(table, Lower(e.description)));
    PrefixNoDups(techs, |Take(techs, 5)|);
    Project(Strip(e.title), ShortDescription(e.description), Take(techs, 5), ProjectKind(e.title))
  }

  /** The section projects: entries whose lower-cased title mentions an indicator. */
  function SectionProjects(a: Analyzer, entries: seq<ProjectEntry>): (r: seq<Project>)
    ensures |r| <= |entries|
    ensures forall p :: p in r ==>
      |p.description| <= 203 && |p.technologies| <= 5 && NoDups(p.technologies) && p.kind != "Inferred" &&
      forall t :: t in p.technologies ==> t in a.technicalSkills
  {
    if |entries| == 0 then []
    else
      var r := SectionProjects(a, entries[..|entries| - 1]);
      var e := entries[|entries| - 1];
      if IsProjectTitle(a.projectIndicators, e.title) then r + [SectionProject(a.technicalSkills, e)] else r
  }

  /** The inferred projects of one indicator: its first two matches. */
  function IndicatorProjects(indicator: string, matches: seq<string>): (r: seq<Project>)
    ensures |r| == |matches|
    ensures forall p :: p in r ==> p.kind == "Inferred" && p.technologies == []
  {
    if |matches| == 0 then []
    else IndicatorProjects(indicator, matches[..|matches| - 1])
         + [Project("Project involving " + indicator, Strip(matches[|matches| - 1]), [], "Inferred")]
  }

  /** The inferred projects of the indicators, indicator after indicator. */
  function InferredProjects(indicators: seq<string>, text: string, findAll: FindAll): (r: seq<Project>)
    ensures |r| <= 2 * |indicators|
    ensures forall p :: p in r ==> p.kind == "Inferred" && p.technologies == []
  {
    if |indicators| == 0 then []
    else
      var ind := indicators[|indicators| - 1];
      InferredProjects(indicators[..|indicators| - 1], text, findAll)
      + IndicatorProjects(ind, Take(findAll(ind + IndicatorSuffix, text), 2))
  }

  /** What `_extract_projects` returns: the section projects, or else the inferred projects of
      the first three indicators, capped at five. */
  function ProjectsOf(a: Analyzer, entries: seq<ProjectEntry>, text: string, findAll: FindAll): seq<Project>
  {
    var section := SectionProjects(a, entries);
    Take(if |section| > 0 then section else InferredProjects(Take(a.projectIndicators, 3), text, findAll), 5)
  }

  method CollectSectionProjects(a: Analyzer, entries: seq<ProjectEntry>) returns (projects: seq<Project>)
    ensures projects == SectionProjects(a, entries)
  {
    projects := [];
    for i := 0 to |entries|
      invariant projects == SectionProjects(a, entries[..i])
    {
      assert entries[..i + 1][..i] == entries[..i];
      if IsProjectTitle(a.projectIndicators, entries[i].title) {
        projects := projects + [SectionProject(a.technicalSkills, entries[i])];
      }
    }
    assert entries[..|entries|] == entries;
  }

  method CollectIndicatorProjects(indicator: string, matches: seq<string>) returns (projects: seq<Project>)
    ensures projects == IndicatorProjects(indicator, matches)
  {
    projects := [];
    for j := 0 to |matches|
      invariant projects == IndicatorProjects(indicator, matches[..j])
    {
      assert matches[..j + 1][..j] == matches[..j];
      projects := projects + [Project("Project involving " + indicator, Strip(matches[j]), [], "Inferred")];
    }
    assert matches[..|matches|] == matches;
  }

  method CollectInferredProjects(indicators: seq<string>, text: string, findAll: FindAll) returns (projects: seq<Project>)
    ensures projects == InferredProjects(indicators, text, findAll)
  {
    projects := [];
    for i := 0 to |indicators|
      invariant projects == InferredProjects(indicators[..i], text, findAll)
    {
      assert indicators[..i + 1][..i] == indicators[..i];
      var ind := indicators[i];
      var fromIndicator := CollectIndicatorProjects(ind, Take(findAll(ind + IndicatorSuffix, text), 2));
      projects := projects + fromIndicator;
    }
    assert indicators[..|indicators|] == indicators;
  }

  /** `_extract_projects`, given the entries the regex finds in the projects section (none
      without a section). */
  method ExtractProjects(a: Analyzer, entries: seq<ProjectEntry>, text: string, findAll: FindAll)
    returns (projects: seq<Project>)
    ensures projects == ProjectsOf(a, entries, text, findAll)
  {
    projects := CollectSectionProjects(a, entries);
    if |projects| == 0 {
      projects := CollectInferredProjects(Take(a.projectIndicators, 3), text, findAll);
    }
    projects := Take(projects, 5);
  }

  /** At most five projects. Section projects have descriptions of at most 203 characters and
      at most five distinct table technologies; inferred ones, used only without any section
      project, have no technologies. */
  lemma ProjectsShape(a: Analyzer, entries: seq<ProjectEntry>, text: string, findAll: FindAll)
    ensures |ProjectsOf(a, entries, text, findAll)| <= 5
    ensures forall p :: p in ProjectsOf(a, entries, text, findAll) && p.kind != "Inferred" ==>
      |p.description| <= 203 && |p.technologies| <= 5 && NoDups(p.technologies) &&
      forall t :: t in p.technologies ==> t in a.technicalSkills
    ensures forall p :: p in ProjectsOf(a, entries, text, findAll) && p.kind == "Inferred" ==>
      p.technologies == [] && SectionProjects(a, entries) == []
  {
    var section := SectionProjects(a, entries);
    var all := if |section| > 0 then section else InferredProjects(Take(a.projectIndicators, 3), text, findAll);
    assert forall p :: p in Take(all, 5) ==> p in all;
  }

  // ================================================================ quality

  predicate DigitRunAt(text: string, i: int, n: nat)
  {
    0 <= i && i + n <= |text| && forall j :: i <= j < i + n ==> IsDigit(text[j])
  }

  /** `re.search(r'\d{10}', text)` succeeds. */
  predicate HasTenDigits(text: string)
  {
    exists i :: 0 <= i <= |text| && DigitRunAt(text, i, 10)
  }

  function Point(check: bool): nat { if check then 1 else 0 }

  /** The points of the ten checks of `_calculate_resume_quality`, one point each. */
  function QualityPoints(text: string, skills: Skills, experience: seq<WorkExperience>,
                         education: seq<Education>, projects: seq<Project>): nat
  {
    Point(|text| > 500) + Point('@' in text && HasTenDigits(text))
    + Point(|skills.technicalSkills| >= 5) + Point(|skills.allSkills| >= 10)
    + Point(|experience| > 0) + Point(|experience| >= 2)
    + Point(|education| > 0)
    + Point(|projects| > 0) + Point(|projects| >= 2)
    + Point(Contains(text, "github.com") || Contains(text, "linkedin.com"))
  }

  /** What `_calculate_resume_quality` returns: the points, under the cap of 10. */
  function ResumeQuality(text: string, skills: Skills, experience: seq<WorkExperience>,
                         education: seq<Education>, projects: seq<Project>): real
  {
    MinInt(QualityPoints(text, skills, experience, education, projects), 10) as real
  }

  /** `_calculate_resume_quality`: one point per passed check, then `min(score, 10.0)`. */
  method CalculateResumeQuality(text: string, skills: Skills, experience: seq<WorkExperience>,
                                education: seq<Education>, projects: seq<Project>) returns (score: real)
    ensures score == ResumeQuality(text, skills, experience, education, projects)
  {
    // `if check: score += 1` for each check; the nested experience and project checks imply
    // their enclosing ones
    score := 0.0;
    score := score + Point(|text| > 500) as real;
    score := score + Point('@' in text && HasTenDigits(text)) as real;
    score := score + Point(|skills.technicalSkills| >= 5) as real;
    score := score + Point(|skills.allSkills| >= 10) as real;
    score := score + Point(|experience| > 0) as real;
    score := score + Point(|experience| >= 2) as real;
    score := score + Point(|education| > 0) as real;
    score := score + Point(|projects| > 0) as real;
    score := score + Point(|projects| >= 2) as real;
    score := score + Point(Contains(text, "github.com") || Contains(text, "linkedin.com")) as real;
    score := if score <= 10.0 then score else 10.0;
  }

  /** The score is a whole number in [0, 10] equal to the number of checks passed: the cap
      never binds. */
  lemma QualityBounds(text: string, skills: Skills, experience: seq<WorkExperience>,
                      education: seq<Education>, projects: seq<Project>)
    ensures var q := ResumeQuality(text, skills, experience, education, projects);
      0.0 <= q <= 10.0 && q == q.Floor as real &&
      q == QualityPoints(text, skills, experience, education, projects) as real
  {
  }

  /** Despite the "1-10" comment, a score of 0 is reachable: a short text without contact
      details or links, and nothing extracted. */
  lemma QualityZeroReachable(text: string)
    requires |text| <= 500 && '@' !in text && !Contains(text, "github.com") && !Contains(text, "linkedin.com")
    ensures ResumeQuality(text, Skills([], [], []), [], [], []) == 0.0
  {
  }

  /** More skills, experience entries or projects never lower the score. */
  lemma QualityMonotone(text: string, s1: Skills, s2: Skills, e1: seq<WorkExperience>, e2: seq<WorkExperience>,
                        education: seq<Education>, p1: seq<Project>, p2: seq<Project>)
    requires |s1.technicalSkills| <= |s2.technicalSkills| && |s1.allSkills| <= |s2.allSkills|
    requires |e1| <= |e2| && |p1| <= |p2|
    ensures ResumeQuality(text, s1, e1, education, p1) <= ResumeQuality(text, s2, e2, education, p2)
  {
  }
}
