/** The regex-based resume parser: text cleaning, pattern and alias skill extraction,
    education, experience and project extraction, the contact and name rules, and the
    extension dispatch that picks a document reader.

    Every `re` call is an oracle (`Search`, `FindAll`) applied to the pattern string of
    its call site. All patterns and tables live in a `Parser` value; `Default` holds
    the ones the parser is constructed with. */
module ResumeParser {
  import opened Text

  /** One canonical skill name and the spellings that stand for it. */
  datatype Alias = Alias(canonical: string, variations: seq<string>)

  datatype Parser = Parser(
    skillPatterns: seq<string>,
    educationPatterns: seq<string>,
    /** Declared by the parser but read by none of its extractors. */
    experiencePatterns: seq<string>,
    aliases: seq<Alias>,
    degreePattern: string,
    graduationYearPattern: string,
    yearCountPattern: string,
    jobTitlePatterns: seq<string>,
    projectKeywords: seq<string>,
    nameHeaders: seq<string>,
    emailPattern: string,
    phonePattern: string)

  const Default := Parser(
    [ @"\b(?:Python|Java|JavaScript|TypeScript|C\+\+|C#|Go|Rust|Ruby|PHP|Swift|Kotlin|Scala|R|MATLAB|SQL)\b",
      @"\b(?:React|Angular|Vue|Node\.js|Express|Django|Flask|Spring|ASP\.NET|Laravel|Ruby on Rails)\b",
      @"\b(?:MySQL|PostgreSQL|MongoDB|Redis|Oracle|SQL Server|SQLite|Elasticsearch|Cassandra|DynamoDB)\b",
      @"\b(?:AWS|Azure|GCP|Docker|Kubernetes|Jenkins|GitLab|GitHub|Terraform|Ansible|Vagrant)\b",
      @"\b(?:TensorFlow|PyTorch|Scikit-learn|Pandas|NumPy|Matplotlib|Jupyter|Apache Spark|Hadoop|Tableau)\b",
      @"\b(?:iOS|Android|React Native|Flutter|Xamarin|Ionic|Cordova)\b",
      @"\b(?:Git|Linux|Unix|Windows|macOS|Agile|Scrum|JIRA|Confluence|Slack|Figma|Adobe Creative Suite)\b" ],
    [ @"\b(?:Bachelor|Master|PhD|Doctorate|B\.Tech|M\.Tech|B\.Sc|M\.Sc|MBA|B\.A|M\.A|B\.E|M\.E)\b",
      @"\b(?:Computer Science|Engineering|Information Technology|Software|Mathematics|Statistics|Physics)\b" ],
    [ @"(\d+)\s*(?:years?|yrs?)\s*(?:of\s*)?(?:experience|exp)",
      @"(\d+)\s*\+\s*(?:years?|yrs?)",
      @"(\d{4})\s*-\s*(\d{4}|\w+)",
      @"(?:January|February|March|April|May|June|July|August|September|October|November|December)\s*\d{4}" ],
    [ Alias("MACHINE LEARNING", ["ML", "Machine Learning", "machine learning"]),
      Alias("ARTIFICIAL INTELLIGENCE", ["AI", "Artificial Intelligence"]),
      Alias("REACT.JS", ["React", "ReactJS", "React.js"]),
      Alias("NODE.JS", ["Node", "NodeJS", "Node.js"]),
      Alias("JAVASCRIPT", ["JS"]),
      Alias("TYPESCRIPT", ["TS"]) ],
    @"\b(Bachelor|Master|PhD|Doctorate|B\.Tech|M\.Tech|B\.Sc|M\.Sc|MBA|B\.A|M\.A|B\.E|M\.E)[^,\n]*",
    @"\b(19|20)\d{2}\b",
    @"(\d+)\s*(?:years?|yrs?)",
    [ @"\b(Software Engineer|Developer|Programmer|Analyst|Manager|Lead|Senior|Junior)\b[^,\n]*",
      @"\b(Data Scientist|Machine Learning Engineer|DevOps Engineer|Full Stack Developer)\b[^,\n]*" ],
    ["project", "built", "developed", "created", "implemented"],
    ["resume", "curriculum vitae", "cv"],
    @"\b[A-Za-z0-9._%+-]+@[A-Za-z0-9.-]+\.[A-Z|a-z]{2,}\b",
    @"(?:\+?1[-.\s]?)?\(?[0-9]{3}\)?[-.\s]?[0-9]{3}[-.\s]?[0-9]{4}")

  // ---------------------------------------------------------------- extension dispatch

  /** Index of the last `c` in `s`, or -1 (`str.rfind`). */
  function LastIndex(s: string, c: char): (r: int)
    ensures -1 <= r < |s|
    ensures r >= 0 ==> s[r] == c
    ensures forall j :: r < j < |s| ==> s[j] != c
  {
    if |s| == 0 then -1
    else if s[|s| - 1] == c then |s| - 1
    else LastIndex(s[..|s| - 1], c)
  }

  /** `os.path.splitext(path)[1]` on POSIX: the text from the last '.' of the last path
      component, unless that component has nothing but dots before it. */
  function Extension(path: string): (ext: string)
    ensures |ext| <= |path|
    ensures ext == "" || (ext[0] == '.' && ext == path[|path| - |ext|..])
    ensures forall j :: 0 < j < |ext| ==> ext[j] != '.' && ext[j] != '/'
  {
    var sep := LastIndex(path, '/');
    var dot := LastIndex(path, '.');
    if dot > sep && exists j :: sep < j < dot && path[j] != '.' then
      path[dot..]
    else ""
  }

  /** A dotted suffix after a stem whose last component holds a non-dot character is
      the extension that `splitext` finds. */
  lemma ExtensionOfStem(stem: string, name: string)
    requires |stem| > 0 && stem[|stem| - 1] != '.' && stem[|stem| - 1] != '/'
    requires '.' !in name && '/' !in name
    ensures Extension(stem + "." + name) == "." + name
  {
    var path := stem + "." + name;
    var dot := |stem|;
    assert path[dot] == '.';
    assert forall j :: dot < j < |path| ==> path[j] == name[j - dot - 1];
    assert LastIndex(path, '.') == dot;
    assert LastIndex(path, '/') < dot;
    assert path[dot - 1] != '.';
    assert path[dot..] == "." + name;
  }

  /** A hidden file such as `.pdf` has no extension. */
  lemma HiddenFileHasNoExtension(dir: string, name: string)
    requires '.' !in name && '/' !in name
    ensures Extension(dir + "/." + name) == ""
  {
    var path := dir + "/." + name;
    var dot := |dir| + 1;
    assert path[dot] == '.' && path[dot - 1] == '/';
    assert forall j :: dot < j < |path| ==> path[j] == name[j - dot - 1];
    assert LastIndex(path, '.') == dot;
    assert LastIndex(path, '/') == dot - 1;
  }

  /** The two readers the parser dispatches to. */
  datatype Format = Pdf | Docx

  const UnsupportedFormat := "Unsupported file format: "

  /** The reader chosen for a path, or the `ValueError` raised for any other extension. */
  function FormatOf(path: string): (r: Outcome<Format>)
    ensures r == Ok(Pdf) <==> Lower(Extension(path)) == ".pdf"
    ensures r == Ok(Docx) <==> Lower(Extension(path)) in [".docx", ".doc"]
    ensures r.Raised? ==> r.message == UnsupportedFormat + Lower(Extension(path))
  {
    var ext := Lower(Extension(path));
    if ext == ".pdf" then Ok(Pdf)
    else if ext in [".docx", ".doc"] then Ok(Docx)
    else Raised(UnsupportedFormat + ext)
  }

  /** `extract_text`: the document readers are file I/O and are passed in. A reader
      that fails returns the empty string itself. */
  function ExtractText(path: string, readPdf: string -> string, readDocx: string -> string): (r: Outcome<string>)
    ensures FormatOf(path) == Ok(Pdf) ==> r == Ok(readPdf(path))
    ensures FormatOf(path) == Ok(Docx) ==> r == Ok(readDocx(path))
    ensures FormatOf(path).Raised? ==> r == Raised(FormatOf(path).message)
  {
    match FormatOf(path)
    case Ok(Pdf) => Ok(readPdf(path))
    case Ok(Docx) => Ok(readDocx(path))
    case Raised(msg) => Raised(msg)
  }

  /** Extension matching ignores case: `CV.PDF` goes to the PDF reader. */
  lemma DispatchIgnoresCase(stem: string, name: string)
    requires |stem| > 0 && stem[|stem| - 1] != '.' && stem[|stem| - 1] != '/'
    requires '.' !in name && '/' !in name
    ensures FormatOf(stem + "." + name) == FormatOf(stem + "." + Lower(name))
  {
    ExtensionOfStem(stem, name);
    var lname := Lower(name);
    assert forall i :: 0 <= i < |lname| ==> lname[i] == LowerChar(name[i]);
    assert '.' !in lname && '/' !in lname;
    ExtensionOfStem(stem, lname);
    assert Lower("." + name) == "." + lname;
    LowerIdempotent(name);
    assert Lower("." + lname) == "." + lname;
  }

  // ---------------------------------------------------------------- clean_text

  /** Python's `\w` on ASCII. */
  predicate IsWordChar(c: char) { IsLetter(c) || IsDigit(c) || c == '_' }

  /** The punctuation the cleaner keeps. */
  const KeptPunctuation := ".,-()@+#"

  /** The characters outside `[^\w\s\.\,\-\(\)\@\+\#]`. */
  predicate Kept(c: char) { IsWordChar(c) || IsSpace(c) || c in KeptPunctuation }

  /** What cleaned text is made of. */
  predicate Clean(c: char) { IsWordChar(c) || c == ' ' || c in KeptPunctuation }

  /** `re.sub(r'[^\w\s\.\,\-\(\)\@\+\#]', ' ', s)` */
  function ReplaceDisallowed(s: string): (r: string)
    ensures |r| == |s|
    ensures forall i :: 0 <= i < |s| ==> r[i] == if Kept(s[i]) then s[i] else ' '
  {
    seq(|s|, i requires 0 <= i < |s| => if Kept(s[i]) then s[i] else ' ')
  }

  /** Stripping keeps the characters of a slice. */
  lemma StripChars(s: string)
    ensures forall i :: 0 <= i < |Strip(s)| ==> Strip(s)[i] in s
  {
    StripShape(s);
    var r := Strip(s);
    var a :| OccursAt(s, r, a);
    assert forall i :: 0 <= i < |r| ==> r[i] == s[a + i];
  }

  /** `clean_text`: after it no tab or newline is left, and only word characters,
      spaces and `. , - ( ) @ + #` remain. */
  function CleanText(text: string): (r: string)
    ensures |r| <= |text|
    ensures forall i :: 0 <= i < |r| ==> Clean(r[i])
  {
    var collapsed := CollapseSpaces(text);
    var stripped := Strip(collapsed);
    StripChars(collapsed);
    assert forall i :: 0 <= i < |stripped| ==> stripped[i] == ' ' || !IsSpace(stripped[i]);
    ReplaceDisallowed(stripped)
  }

  lemma ReplaceDisallowedOfClean(s: string)
    requires forall i :: 0 <= i < |s| ==> Clean(s[i])
    ensures ReplaceDisallowed(s) == s
  {
    assert forall i :: 0 <= i < |s| ==> Kept(s[i]);
  }

  /** Text that is already clean (no surrounding or doubled spaces, only the kept
      characters) passes through `clean_text` unchanged. */
  lemma CleanTextOfClean(s: string)
    requires forall i :: 0 <= i < |s| ==> Clean(s[i])
    requires forall i :: 0 <= i < |s| - 1 ==> s[i] != ' ' || s[i + 1] != ' '
    requires |s| == 0 || (s[0] != ' ' && s[|s| - 1] != ' ')
    ensures CleanText(s) == s
  {
    assert forall i :: 0 <= i < |s| ==> s[i] == ' ' || !IsSpace(s[i]);
    CollapseOfCollapsed(s);
    StripOfTrimmed(s);
    ReplaceDisallowedOfClean(s);
  }

  // ---------------------------------------------------------------- extract_skills

  /** `set.update(xs)` / `set.add(x)` on a list that keeps first-insertion order. */
  function AddNew(acc: seq<string>, xs: seq<string>): (r: seq<string>)
    ensures NoDups(acc) ==> NoDups(r)
    ensures forall x :: x in r <==> x in acc || x in xs
    decreases |xs|
  {
    if |xs| == 0 then acc
    else AddNew(if xs[0] in acc then acc else acc + [xs[0]], xs[1..])
  }

  method AddAll(acc: seq<string>, xs: seq<string>) returns (r: seq<string>)
    ensures r == AddNew(acc, xs)
  {
    r := acc;
    for j := 0 to |xs|
      invariant AddNew(r, xs[j..]) == AddNew(acc, xs)
    {
      assert xs[j..][1..] == xs[j + 1..];
      if xs[j] !in r {
        r := r + [xs[j]];
      }
    }
  }

  /** The pattern matches of every skill pattern, added to `acc` pattern by pattern. */
  function MatchedSkills(patterns: seq<string>, text: string, findAll: FindAll, acc: seq<string>): (r: seq<string>)
    ensures NoDups(acc) ==> NoDups(r)
    ensures forall x :: x in r <==> x in acc || exists k :: 0 <= k < |patterns| && x in findAll(patterns[k], text)
    decreases |patterns|
  {
    if |patterns| == 0 then acc
    else
      var r := MatchedSkills(patterns[1..], text, findAll, AddNew(acc, findAll(patterns[0], text)));
      assert forall k :: 1 <= k < |patterns| ==> patterns[1..][k - 1] == patterns[k];
      r
  }

  /** Some spelling of the alias, upper-cased, occurs in the upper-cased text. */
  predicate AliasHit(alias: Alias, upperText: string)
  {
    exists v :: v in alias.variations && Contains(upperText, Upper(v))
  }

  /** The canonical names whose alias hits, in table order. */
  function AliasMatches(aliases: seq<Alias>, upperText: string): (r: seq<string>)
    ensures forall c :: c in r <==> exists k :: 0 <= k < |aliases| && aliases[k].canonical == c && AliasHit(aliases[k], upperText)
  {
    if |aliases| == 0 then []
    else
      var rest := AliasMatches(aliases[1..], upperText);
      assert forall k :: 1 <= k < |aliases| ==> aliases[1..][k - 1] == aliases[k];
      (if AliasHit(aliases[0], upperText) then [aliases[0].canonical] else []) + rest
  }

  function SkillsOf(p: Parser, text: string, findAll: FindAll): seq<string>
  {
    AddNew(MatchedSkills(p.skillPatterns, text, findAll, []), AliasMatches(p.aliases, Upper(text)))
  }

  /** The inner loop over an alias's spellings, stopping at the first that occurs. */
  method HasVariation(upperText: string, variations: seq<string>) returns (hit: bool)
    ensures hit <==> exists v :: v in variations && Contains(upperText, Upper(v))
  {
    hit := false;
    for j := 0 to |variations|
      invariant !hit
      invariant forall i :: 0 <= i < j ==> !Contains(upperText, Upper(variations[i]))
    {
      if Contains(upperText, Upper(variations[j])) {
        hit := true;
        break;
      }
    }
  }

  /** The alias pass of `extract_skills`: each canonical name whose spelling occurs is added. */
  method AddAliasSkills(aliases: seq<Alias>, textUpper: string, acc: seq<string>) returns (skills: seq<string>)
    ensures skills == AddNew(acc, AliasMatches(aliases, textUpper))
  {
    skills := acc;
    for k := 0 to |aliases|
      invariant AddNew(skills, AliasMatches(aliases[k..], textUpper)) == AddNew(acc, AliasMatches(aliases, textUpper))
    {
      var rest := AliasMatches(aliases[k + 1..], textUpper);
      assert aliases[k..][1..] == aliases[k + 1..];
      var hit := HasVariation(textUpper, aliases[k].variations);
      var c := aliases[k].canonical;
      if hit {
        assert AliasMatches(aliases[k..], textUpper) == [c] + rest;
        assert ([c] + rest)[1..] == rest;
        if c !in skills {
          skills := skills + [c];
        }
      } else {
        assert AliasMatches(aliases[k..], textUpper) == [] + rest == rest;
      }
    }
    assert aliases[|aliases|..] == [];
  }

  /** The pattern pass of `extract_skills`: every findall match is added. */
  method AddPatternSkills(patterns: seq<string>, text: string, findAll: FindAll) returns (skills: seq<string>)
    ensures skills == MatchedSkills(patterns, text, findAll, [])
  {
    skills := [];
    for i := 0 to |patterns|
      invariant MatchedSkills(patterns[i..], text, findAll, skills) == MatchedSkills(patterns, text, findAll, [])
    {
      assert patterns[i..][1..] == patterns[i + 1..];
      var matches := findAll(patterns[i], text);
      skills := AddAll(skills, matches);
    }
    assert patterns[|patterns|..] == [];
  }

  /** `extract_skills`; the resulting list is `list(skills)`, whose order Python leaves open. */
  method ExtractSkills(p: Parser, text: string, findAll: FindAll) returns (skills: seq<string>)
    ensures skills == SkillsOf(p, text, findAll)
  {
    var textUpper := Upper(text);
    skills := AddPatternSkills(p.skillPatterns, text, findAll);
    skills := AddAliasSkills(p.aliases, textUpper, skills);
  }

  /** The skills are duplicate-free; a canonical name is among them when one of its
      spellings occurs case-insensitively, and every skill is a pattern match or such a
      canonical name. */
  lemma SkillsShape(p: Parser, text: string, findAll: FindAll)
    ensures var r := SkillsOf(p, text, findAll);
      && NoDups(r)
      && (forall k :: 0 <= k < |p.aliases| && AliasHit(p.aliases[k], Upper(text)) ==> p.aliases[k].canonical in r)
      && (forall s :: s in r ==>
            (exists k :: 0 <= k < |p.skillPatterns| && s in findAll(p.skillPatterns[k], text))
            || (exists k :: 0 <= k < |p.aliases| && p.aliases[k].canonical == s && AliasHit(p.aliases[k], Upper(text))))
  {
  }

  // ---------------------------------------------------------------- extract_education

  /** `[line.strip() for line in lines]` */
  function StripAll(lines: seq<string>): (r: seq<string>)
    ensures |r| == |lines|
  {
    if |lines| == 0 then [] else [Strip(lines[0])] + StripAll(lines[1..])
  }

  lemma {:induction false} StripAllAt(lines: seq<string>, i: nat)
    requires i < |lines|
    ensures StripAll(lines)[i] == Strip(lines[i])
  {
    if i > 0 {
      StripAllAt(lines[1..], i - 1);
      assert lines[1..][i - 1] == lines[i];
    }
  }

  /** Stripping the lines commutes with dropping the first one. */
  lemma StripAllTail(lines: seq<string>)
    requires |lines| > 0
    ensures StripAll(lines)[0] == Strip(lines[0]) && StripAll(lines)[1..] == StripAll(lines[1..])
  {
  }

  datatype EducationEntry = EducationEntry(degree: string, institution: string, year: string)

  /** `lines[lo:hi]` with Python's clamping of `max(0, i - before)` and `min(len, i + after)`. */
  function Around(lines: seq<string>, i: nat, before: nat, after: nat): seq<string>
    requires i < |lines|
  {
    lines[MaxInt(0, i - before)..MinInt(|lines|, i + after)]
  }

  /** The entry built for line i from the line before it and the two after it. */
  function EducationEntryAt(p: Parser, lines: seq<string>, i: nat, search: Search): EducationEntry
    requires i < |lines|
  {
    var line := StripAll(lines)[i];
    var context := Join(" ", Around(lines, i, 1, 3));
    var degree := match search(p.degreePattern, context)
      case Some(m) => Strip(m.whole)
      case None => Strip(line);
    var year := match search(p.graduationYearPattern, context)
      case Some(m) => m.whole
      case None => "";
    EducationEntry(degree, "", year)
  }

  /** Some education pattern matches the (stripped) line. */
  predicate IsDegreeLine(patterns: seq<string>, line: string, search: Search)
  {
    exists k :: 0 <= k < |patterns| && search(patterns[k], line).Some?
  }

  /** The values `make(i)` for the indices i < n with `hit(i)`, in index order. */
  function Picked<T>(n: nat, hit: nat -> bool, make: nat -> T): (r: seq<T>)
    ensures |r| <= n
  {
    if n == 0 then [] else Picked(n - 1, hit, make) + if hit(n - 1) then [make(n - 1)] else []
  }

  lemma {:induction false} PickedCovers<T>(n: nat, hit: nat -> bool, make: nat -> T, i: nat)
    requires i < n && hit(i)
    ensures make(i) in Picked(n, hit, make)
  {
    if i < n - 1 {
      PickedCovers(n - 1, hit, make, i);
    }
  }

  lemma {:induction false} PickedSound<T>(n: nat, hit: nat -> bool, make: nat -> T, x: T) returns (i: nat)
    requires x in Picked(n, hit, make)
    ensures i < n && hit(i) && make(i) == x
  {
    if x in Picked(n - 1, hit, make) {
      i := PickedSound(n - 1, hit, make, x);
    } else {
      i := n - 1;
    }
  }

  /** Line i is a degree line: some education pattern matches it once stripped. */
  function DegreeLineHit(p: Parser, lines: seq<string>, search: Search): nat -> bool
  {
    (i: nat) => i < |lines| && IsDegreeLine(p.educationPatterns, StripAll(lines)[i], search)
  }

  function EntryMaker(p: Parser, lines: seq<string>, search: Search): nat -> EducationEntry
  {
    (i: nat) => if i < |lines| then EducationEntryAt(p, lines, i, search) else EducationEntry("", "", "")
  }

  /** `if edu_entry not in education: education.append(edu_entry)` over all degree lines. */
  function EducationOf(p: Parser, text: string, search: Search): seq<EducationEntry>
  {
    var lines := Lines(text);
    Dedup(Picked(|lines|, DegreeLineHit(p, lines, search), EntryMaker(p, lines, search)))
  }

  /** The inner loop over the education patterns, stopping at the first that matches. */
  method MatchesAnyPattern(patterns: seq<string>, line: string, search: Search) returns (found: bool)
    ensures found <==> IsDegreeLine(patterns, line, search)
  {
    found := false;
    for k := 0 to |patterns|
      invariant !found
      invariant forall j :: 0 <= j < k ==> search(patterns[j], line).None?
    {
      if search(patterns[k], line).Some? {
        found := true;
        break;
      }
    }
  }

  /** The body of `extract_education` for a degree line: the degree and year from the
      context around it. */
  method BuildEducationEntry(p: Parser, lines: seq<string>, i: nat, search: Search) returns (entry: EducationEntry)
    requires i < |lines|
    ensures entry == EducationEntryAt(p, lines, i, search)
  {
    var line := Strip(lines[i]);
    StripAllAt(lines, i);
    var context := Join(" ", lines[MaxInt(0, i - 1)..MinInt(|lines|, i + 3)]);
    var degree: string;
    var degreeMatch := search(p.degreePattern, context);
    if degreeMatch.Some? {
      degree := Strip(degreeMatch.value.whole);
    } else {
      degree := Strip(line);
    }
    var year := "";
    var yearMatch := search(p.graduationYearPattern, context);
    if yearMatch.Some? {
      year := yearMatch.value.whole;
    }
    entry := EducationEntry(degree, "", year);
  }

  /** One more line either leaves the entries as they are or appends the entry built at it,
      when the line is a degree line whose entry is new. */
  lemma EducationStep(p: Parser, lines: seq<string>, search: Search, i: nat)
    requires i < |lines|
    ensures var hit := DegreeLineHit(p, lines, search);
      var make := EntryMaker(p, lines, search);
      var before := Dedup(Picked(i, hit, make));
      var entry := EducationEntryAt(p, lines, i, search);
      Dedup(Picked(i + 1, hit, make)) ==
        if !IsDegreeLine(p.educationPatterns, Strip(lines[i]), search) || entry in before then before
        else before + [entry]
  {
    var hit := DegreeLineHit(p, lines, search);
    var make := EntryMaker(p, lines, search);
    var before := Picked(i, hit, make);
    StripAllAt(lines, i);
    if hit(i) {
      assert Picked(i + 1, hit, make) == before + [make(i)];
      DedupSnoc(before, make(i));
    } else {
      assert Picked(i + 1, hit, make) == before + [];
      assert before + [] == before;
    }
  }

  /** `extract_education` */
  method ExtractEducation(p: Parser, text: string, search: Search) returns (education: seq<EducationEntry>)
    ensures education == EducationOf(p, text, search)
  {
    var lines := Lines(text);
    ghost var hit := DegreeLineHit(p, lines, search);
    ghost var make := EntryMaker(p, lines, search);
    education := [];
    for i := 0 to |lines|
      invariant education == Dedup(Picked(i, hit, make))
    {
      var line := Strip(lines[i]);
      var found := MatchesAnyPattern(p.educationPatterns, line, search);
      EducationStep(p, lines, search, i);
      if found {
        var entry := BuildEducationEntry(p, lines, i, search);
        if entry !in education {
          education := education + [entry];
        }
      }
    }
  }

  /** No entry appears twice, there is at most one per line, and the entries are exactly
      those built at the lines that some education pattern matches. */
  lemma EducationShape(p: Parser, text: string, search: Search)
    ensures var lines := Lines(text);
      var r := EducationOf(p, text, search);
      && NoDups(r) && |r| <= |lines|
      && (forall i :: 0 <= i < |lines| && IsDegreeLine(p.educationPatterns, Strip(lines[i]), search) ==>
            EducationEntryAt(p, lines, i, search) in r)
      && (forall e :: e in r ==>
            (exists i :: 0 <= i < |lines| && IsDegreeLine(p.educationPatterns, Strip(lines[i]), search) && EducationEntryAt(p, lines, i, search) == e))
  {
    var lines := Lines(text);
    forall i | 0 <= i < |lines|
      ensures StripAll(lines)[i] == Strip(lines[i])
    {
      StripAllAt(lines, i);
    }
    var hit := DegreeLineHit(p, lines, search);
    var make := EntryMaker(p, lines, search);
    forall e | e in EducationOf(p, text, search)
      ensures exists i :: 0 <= i < |lines| && IsDegreeLine(p.educationPatterns, Strip(lines[i]), search) && EducationEntryAt(p, lines, i, search) == e
    {
      var i := PickedSound(|lines|, hit, make, e);
    }
    forall i | 0 <= i < |lines| && IsDegreeLine(p.educationPatterns, Strip(lines[i]), search)
      ensures EducationEntryAt(p, lines, i, search) in EducationOf(p, text, search)
    {
      PickedCovers(|lines|, hit, make, i);
    }
  }

  // ---------------------------------------------------------------- extract_experience

  /** The single experience record: the largest year count and the distinct matched titles. */
  datatype ExperienceSummary = ExperienceSummary(totalYears: nat, roles: seq<string>)

  /** `max(xs)`, or 0 for the empty list. */
  function MaxOf(xs: seq<nat>): (m: nat)
    ensures forall k :: 0 <= k < |xs| ==> xs[k] <= m
    ensures |xs| == 0 ==> m == 0
    ensures |xs| > 0 ==> exists k :: 0 <= k < |xs| && xs[k] == m
  {
    if |xs| == 0 then 0
    else
      var rest := MaxOf(xs[1..]);
      assert forall k :: 1 <= k < |xs| ==> xs[1..][k - 1] == xs[k];
      if xs[0] >= rest then xs[0] else rest
  }

  /** `[int(m) for m in matches]` for digit-only matches. */
  function YearCounts(matches: seq<string>): (r: seq<nat>)
    ensures |r| == |matches|
    ensures forall k :: 0 <= k < |r| ==> r[k] == DigitsValue(matches[k])
  {
    seq(|matches|, k requires 0 <= k < |matches| => DigitsValue(matches[k]))
  }

  /** The findall results of every job-title pattern, concatenated. */
  function TitlesFrom(patterns: seq<string>, text: string, findAll: FindAll): (r: seq<string>)
    ensures forall t :: t in r <==> exists k :: 0 <= k < |patterns| && t in findAll(patterns[k], text)
  {
    if |patterns| == 0 then []
    else
      var rest := TitlesFrom(patterns[1..], text, findAll);
      assert forall k :: 1 <= k < |patterns| ==> patterns[1..][k - 1] == patterns[k];
      findAll(patterns[0], text) + rest
  }

  function ExperienceOf(p: Parser, text: string, findAll: FindAll): seq<ExperienceSummary>
  {
    var total := MaxOf(YearCounts(findAll(p.yearCountPattern, text)));
    var titles := TitlesFrom(p.jobTitlePatterns, text, findAll);
    if |titles| > 0 || total != 0 then [ExperienceSummary(total, Dedup(titles))] else []
  }

  /** `extract_experience` */
  method ExtractExperience(p: Parser, text: string, findAll: FindAll) returns (experience: seq<ExperienceSummary>)
    ensures experience == ExperienceOf(p, text, findAll)
  {
    experience := [];
    var totalYears := 0;
    var yearMatches := findAll(p.yearCountPattern, text);
    if |yearMatches| > 0 {
      totalYears := MaxOf(YearCounts(yearMatches));
    }
    var jobTitles := [];
    for i := 0 to |p.jobTitlePatterns|
      invariant jobTitles + TitlesFrom(p.jobTitlePatterns[i..], text, findAll) == TitlesFrom(p.jobTitlePatterns, text, findAll)
    {
      assert p.jobTitlePatterns[i..][1..] == p.jobTitlePatterns[i + 1..];
      var matches := findAll(p.jobTitlePatterns[i], text);
      assert TitlesFrom(p.jobTitlePatterns[i..], text, findAll)
        == matches + TitlesFrom(p.jobTitlePatterns[i + 1..], text, findAll);
      jobTitles := jobTitles + matches;
    }
    assert p.jobTitlePatterns[|p.jobTitlePatterns|..] == [];
    assert jobTitles + [] == jobTitles;
    if |jobTitles| > 0 || totalYears != 0 {
      experience := experience + [ExperienceSummary(totalYears, Dedup(jobTitles))];
    }
  }

  /** At most one record; it exists exactly when some title matched or the year count is
      non-zero; its year count is the largest number matched before "year(s)"/"yr(s)",
      or 0; and its roles are the matched titles without repeats. */
  lemma ExperienceShape(p: Parser, text: string, findAll: FindAll)
    ensures var r := ExperienceOf(p, text, findAll);
      var counts := findAll(p.yearCountPattern, text);
      var titles := TitlesFrom(p.jobTitlePatterns, text, findAll);
      && |r| <= 1
      && (|r| == 1 <==> |titles| > 0 || exists m :: m in counts && DigitsValue(m) != 0)
      && (|r| == 1 ==>
            && (forall m :: m in counts ==> DigitsValue(m) <= r[0].totalYears)
            && (|counts| == 0 ==> r[0].totalYears == 0)
            && (|counts| > 0 ==> exists m :: m in counts && DigitsValue(m) == r[0].totalYears)
            && NoDups(r[0].roles)
            && (forall t :: t in r[0].roles <==> exists k :: 0 <= k < |p.jobTitlePatterns| && t in findAll(p.jobTitlePatterns[k], text)))
  {
    var counts := findAll(p.yearCountPattern, text);
    var ys := YearCounts(counts);
    var total := MaxOf(ys);
    assert forall m :: m in counts ==> exists k :: 0 <= k < |counts| && counts[k] == m && ys[k] == DigitsValue(m);
    if |counts| > 0 {
      var k :| 0 <= k < |ys| && ys[k] == total;
      assert counts[k] in counts;
    }
  }

  // ---------------------------------------------------------------- extract_projects

  /** Some project keyword occurs in the lower-cased line. */
  predicate MentionsProject(keywords: seq<string>, line: string)
  {
    exists k :: 0 <= k < |keywords| && Contains(Lower(line), keywords[k])
  }

  /** The line before, the line itself and the line after, joined and stripped. */
  function ProjectContext(lines: seq<string>, i: nat): string
    requires i < |lines|
  {
    Strip(Join(" ", Around(lines, i, 1, 2)))
  }

  /** `context[:200] + '...'` when the context is longer than 200 characters. */
  function Abbreviate(context: string): (r: string)
    ensures |context| > 200 ==> |r| == 203 && r[..200] == context[..200]
    ensures |context| <= 200 ==> r == context
  {
    if |context| > 200 then context[..200] + "..." else context
  }

  /** The descriptions built from the first n lines, before de-duplication. */
  function ProjectDescriptions(keywords: seq<string>, lines: seq<string>, n: nat): (r: seq<string>)
    requires n <= |lines|
    ensures forall k :: 0 <= k < |r| ==> 20 < |r[k]| <= 203
  {
    if n == 0 then []
    else
      var acc := ProjectDescriptions(keywords, lines, n - 1);
      var context := ProjectContext(lines, n - 1);
      if MentionsProject(keywords, lines[n - 1]) && |context| > 20 then acc + [Abbreviate(context)] else acc
  }

  function ProjectsOf(p: Parser, text: string): seq<string>
  {
    Take(Dedup(ProjectDescriptions(p.projectKeywords, Lines(text), |Lines(text)|)), 5)
  }

  /** The de-duplication pass: a description is kept when it is new and fewer than five are kept. */
  method UniqueProjects(descriptions: seq<string>) returns (unique: seq<string>)
    ensures unique == Take(Dedup(descriptions), 5)
  {
    unique := [];
    var seen: set<string> := {};
    for i := 0 to |descriptions|
      invariant unique == Take(Dedup(descriptions[..i]), 5)
      invariant forall x :: x in seen <==> x in unique
      invariant |unique| < 5 ==> unique == Dedup(descriptions[..i])
    {
      var desc := descriptions[i];
      assert descriptions[..i + 1][..i] == descriptions[..i];
      var before := Dedup(descriptions[..i]);
      var after := Dedup(descriptions[..i + 1]);
      assert after == if desc in before then before else before + [desc];
      if |unique| == 5 {
        assert |before| >= 5;
        assert after[..5] == before[..5];
      }
      if desc !in seen && |unique| < 5 {
        unique := unique + [desc];
        seen := seen + {desc};
      }
    }
    assert descriptions[..|descriptions|] == descriptions;
  }

  /** `extract_projects`; each entry holds only its description. */
  method ExtractProjects(p: Parser, text: string) returns (projects: seq<string>)
    ensures projects == ProjectsOf(p, text)
  {
    var lines := Lines(text);
    var descriptions := [];
    for i := 0 to |lines|
      invariant descriptions == ProjectDescriptions(p.projectKeywords, lines, i)
    {
      if MentionsProject(p.projectKeywords, lines[i]) {
        var context := ProjectContext(lines, i);
        if |context| > 20 {
          descriptions := descriptions + [Abbreviate(context)];
        }
      }
    }
    projects := UniqueProjects(descriptions);
  }

  /** At most five projects with distinct descriptions, each longer than 20 and at most
      203 characters, in first-occurrence order; a description is dropped only once
      five are kept. */
  lemma ProjectsShape(p: Parser, text: string)
    ensures var descs := ProjectDescriptions(p.projectKeywords, Lines(text), |Lines(text)|);
      var r := ProjectsOf(p, text);
      && |r| <= 5 && NoDups(r)
      && (forall k :: 0 <= k < |r| ==> 20 < |r[k]| <= 203)
      && r == Dedup(descs)[..|r|]
      && (forall d :: d in descs ==> d in r || |r| == 5)
  {
    FirstFiveUnique(ProjectDescriptions(p.projectKeywords, Lines(text), |Lines(text)|));
  }

  /** The first five distinct descriptions: at most five, distinct, of the lengths the
      descriptions have, and missing a description only when five are kept. */
  lemma FirstFiveUnique(descs: seq<string>)
    requires forall k :: 0 <= k < |descs| ==> 20 < |descs[k]| <= 203
    ensures var r := Take(Dedup(descs), 5);
      && |r| <= 5 && NoDups(r)
      && (forall k :: 0 <= k < |r| ==> 20 < |r[k]| <= 203)
      && r == Dedup(descs)[..|r|]
      && (forall d :: d in descs ==> d in r || |r| == 5)
  {
    var d := Dedup(descs);
    var r := Take(d, 5);
    PrefixNoDups(d, |r|);
    forall k | 0 <= k < |r| ensures 20 < |r[k]| <= 203 {
      assert r[k] == d[k];
      assert d[k] in descs;
    }
  }

  // ---------------------------------------------------------------- extract_contact_info

  /** `w.replace('.', '').replace(',', '')` */
  function RemovePunctuation(w: string): (r: string)
    ensures |r| <= |w|
    ensures forall i :: 0 <= i < |r| ==> r[i] != '.' && r[i] != ','
    ensures forall i :: 0 <= i < |r| ==> r[i] in w
  {
    if |w| == 0 then ""
    else (if w[0] == '.' || w[0] == ',' then "" else [w[0]]) + RemovePunctuation(w[1..])
  }

  /** `str.isalpha` on ASCII: non-empty and letters only. */
  predicate IsAlpha(s: string) { |s| > 0 && forall i :: 0 <= i < |s| ==> IsLetter(s[i]) }

  /** The name rule on an already stripped line. */
  predicate LooksLikeName(headers: seq<string>, line: string)
  {
    && |line| > 0
    && Lower(line) !in headers
    && var words := Words(line);
      2 <= |words| <= 4 && forall k :: 0 <= k < |words| ==> IsAlpha(RemovePunctuation(words[k]))
  }

  /** The first line that, stripped, satisfies `ok`. */
  function FirstStripped(lines: seq<string>, ok: string -> bool): Option<string>
  {
    if |lines| == 0 then None
    else if ok(Strip(lines[0])) then Some(Strip(lines[0]))
    else FirstStripped(lines[1..], ok)
  }

  /** The first line that, stripped, looks like a name. */
  function NameFrom(headers: seq<string>, lines: seq<string>): Option<string>
  {
    FirstStripped(lines, line => LooksLikeName(headers, line))
  }

  /** The contact dictionary; a key the text does not supply is absent (None). */
  datatype ContactDetails = ContactDetails(email: Option<string>, phone: Option<string>, name: Option<string>)

  function WholeMatch(m: Option<Match>): Option<string>
  {
    match m
    case Some(x) => Some(x.whole)
    case None => None
  }

  function ContactOf(p: Parser, text: string, search: Search): ContactDetails
  {
    ContactDetails(
      WholeMatch(search(p.emailPattern, text)),
      WholeMatch(search(p.phonePattern, text)),
      NameFrom(p.nameHeaders, Take(Lines(text), 5)))
  }

  /** The name loop over the first five lines, skipping blanks and headers. */
  method FindName(headers: seq<string>, lines: seq<string>) returns (name: Option<string>)
    ensures name == NameFrom(headers, Take(lines, 5))
  {
    var first := Take(lines, 5);
    name := None;
    for i := 0 to |first|
      invariant name == None
      invariant NameFrom(headers, first[i..]) == NameFrom(headers, first)
    {
      assert first[i..][1..] == first[i + 1..];
      var line := Strip(first[i]);
      if |line| == 0 || Lower(line) in headers {
        continue;
      }
      var words := Words(line);
      if 2 <= |words| <= 4 && forall k :: 0 <= k < |words| ==> IsAlpha(RemovePunctuation(words[k])) {
        name := Some(line);
        break;
      }
    }
  }

  /** `extract_contact_info` */
  method ExtractContactInfo(p: Parser, text: string, search: Search) returns (contact: ContactDetails)
    ensures contact == ContactOf(p, text, search)
  {
    var email := None;
    var emailMatch := search(p.emailPattern, text);
    if emailMatch.Some? {
      email := Some(emailMatch.value.whole);
    }
    var phone := None;
    var phoneMatch := search(p.phonePattern, text);
    if phoneMatch.Some? {
      phone := Some(phoneMatch.value.whole);
    }
    var name := FindName(p.nameHeaders, Lines(text));
    contact := ContactDetails(email, phone, name);
  }

  /** A result, when present, is the stripped form of the line at index i, which
      satisfies `ok`, and no earlier line does. */
  lemma {:induction false} FirstStrippedFound(lines: seq<string>, ok: string -> bool) returns (i: nat)
    requires FirstStripped(lines, ok).Some?
    ensures i < |lines| && FirstStripped(lines, ok).value == Strip(lines[i]) && ok(Strip(lines[i]))
    ensures forall j :: 0 <= j < i ==> !ok(Strip(lines[j]))
  {
    if ok(Strip(lines[0])) {
      i := 0;
    } else {
      var tail := lines[1..];
      var k := FirstStrippedFound(tail, ok);
      i := k + 1;
      StripShiftBlocked(lines, ok, k);
    }
  }

  /** When neither the first line nor any of the first k lines after it satisfies `ok` (stripped),
      none of the first k + 1 lines does. */
  lemma StripShiftBlocked(lines: seq<string>, ok: string -> bool, k: nat)
    requires 0 < |lines| && k < |lines| - 1
    requires !ok(Strip(lines[0]))
    requires forall j :: 0 <= j < k ==> !ok(Strip(lines[1..][j]))
    ensures forall j :: 0 <= j < k + 1 ==> !ok(Strip(lines[j]))
  {
    forall j | 0 < j < k + 1
      ensures !ok(Strip(lines[j]))
    {
      assert lines[j] == lines[1..][j - 1];
    }
  }

  /** No result means no line satisfies `ok`. */
  lemma {:induction false} FirstStrippedAbsent(lines: seq<string>, ok: string -> bool)
    ensures FirstStripped(lines, ok).None? ==> forall i :: 0 <= i < |lines| ==> !ok(Strip(lines[i]))
  {
    if |lines| > 0 && !ok(Strip(lines[0])) {
      FirstStrippedAbsent(lines[1..], ok);
      assert forall i :: 1 <= i < |lines| ==> lines[i] == lines[1..][i - 1];
    }
  }

  /** Only the first five lines are looked at. */
  lemma NameFromFirstFive(p: Parser, text: string, search: Search)
    ensures var name := ContactOf(p, text, search).name;
      var lines := Lines(text);
      && (name.Some? ==> exists i :: (0 <= i < 5 && i < |lines| && name.value == Strip(lines[i])
            && LooksLikeName(p.nameHeaders, name.value)))
      && (name.None? ==> forall i :: 0 <= i < 5 && i < |lines| ==> !LooksLikeName(p.nameHeaders, Strip(lines[i])))
  {
    var lines := Lines(text);
    var first := Take(lines, 5);
    var ok := line => LooksLikeName(p.nameHeaders, line);
    assert forall i :: 0 <= i < |first| ==> first[i] == lines[i];
    FirstStrippedAbsent(first, ok);
    if FirstStripped(first, ok).Some? {
      var i := FirstStrippedFound(first, ok);
      assert ok(Strip(first[i]));
    }
  }
}
