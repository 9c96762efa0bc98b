/** String and list helpers shared by the parsers and the scoring engines.

    They model the handful of Python built-ins the core relies on: `str.lower`,
    `str.upper`, `str.strip`, `str.split`, `str.title`, the `in` substring test,
    `' '.join`, and `list(set(xs))`. Case mapping and the whitespace and letter
    classes are modelled on ASCII. Calls into Python's `re` module are opaque:
    a caller passes their results in, as the `Search` and `FindAll` oracles below. */
module Text {

  datatype Option<T> = None | Some(value: T)

  /** A computation that either yields a value or raises an exception with a message. */
  datatype Outcome<T> = Ok(value: T) | Raised(message: string)

  /** The result of one `re.search`: the whole match and its numbered groups (group k is groups[k-1]). */
  datatype Match = Match(whole: string, groups: seq<Option<string>>)

  /** `re.search(pattern, text)`; the pattern string stands for the regex and the flags of its call site. */
  type Search = (string, string) -> Option<Match>

  /** `re.findall(pattern, text)` for a pattern with at most one group. */
  type FindAll = (string, string) -> seq<string>

  /** `m.group(k)`, or None when the group did not take part in the match. */
  function Group(m: Match, k: nat): Option<string>
  {
    if 1 <= k <= |m.groups| then m.groups[k - 1] else None
  }

  // ---------------------------------------------------------------- characters

  predicate IsUpperChar(c: char) { 'A' <= c <= 'Z' }
  predicate IsLowerChar(c: char) { 'a' <= c <= 'z' }
  predicate IsLetter(c: char) { IsUpperChar(c) || IsLowerChar(c) }
  predicate IsDigit(c: char) { '0' <= c <= '9' }

  /** The six common ASCII whitespace characters: space, tab, newline, carriage return,
      vertical tab and form feed. Python's `str.isspace` also accepts the separator
      controls 0x1C to 0x1F, which the model treats as ordinary characters. */
  predicate IsSpace(c: char)
  {
    c == ' ' || c == '\t' || c == '\n' || c == '\r' || c == '\U{B}' || c == '\U{C}'
  }

  function LowerChar(c: char): (r: char)
    ensures !IsUpperChar(r)
    ensures IsSpace(r) <==> IsSpace(c)
    ensures IsLetter(r) <==> IsLetter(c)
    ensures IsDigit(r) <==> IsDigit(c)
    ensures !IsUpperChar(c) ==> r == c
  {
    if IsUpperChar(c) then (c as int + 32) as char else c
  }

  function UpperChar(c: char): (r: char)
    ensures !IsLowerChar(r)
    ensures IsLetter(r) <==> IsLetter(c)
    ensures !IsLowerChar(c) ==> r == c
  {
    if IsLowerChar(c) then (c as int - 32) as char else c
  }

  // ---------------------------------------------------------------- case mapping

  /** `s.lower()` */
  function Lower(s: string): (r: string)
    ensures |r| == |s|
    ensures forall i :: 0 <= i < |s| ==> r[i] == LowerChar(s[i])
  {
    seq(|s|, i requires 0 <= i < |s| => LowerChar(s[i]))
  }

  /** `s.upper()` */
  function Upper(s: string): (r: string)
    ensures |r| == |s|
    ensures forall i :: 0 <= i < |s| ==> r[i] == UpperChar(s[i])
  {
    seq(|s|, i requires 0 <= i < |s| => UpperChar(s[i]))
  }

  predicate IsLowerCase(s: string) { forall i :: 0 <= i < |s| ==> !IsUpperChar(s[i]) }

  lemma LowerIsLowerCase(s: string)
    ensures IsLowerCase(Lower(s))
  {
  }

  lemma LowerOfLowerCase(s: string)
    requires IsLowerCase(s)
    ensures Lower(s) == s
  {
  }

  /** Upper-casing a lower-case string loses nothing: lower-casing undoes it. */
  lemma LowerUpper(s: string)
    requires IsLowerCase(s)
    ensures Lower(Upper(s)) == s
  {
  }

  lemma LowerIdempotent(s: string)
    ensures Lower(Lower(s)) == Lower(s)
  {
    LowerOfLowerCase(Lower(s));
  }

  lemma LowerAppend(a: string, b: string)
    ensures Lower(a + b) == Lower(a) + Lower(b)
  {
  }

  /** `s.title()`: a letter is upper-cased when the character before it is not a letter, lower-cased otherwise. */
  function Title(s: string): (r: string)
    ensures |r| == |s|
    ensures |s| > 0 && IsLetter(s[0]) ==> r[0] == UpperChar(s[0])
    ensures forall i :: 0 <= i < |s| && !IsLetter(s[i]) ==> r[i] == s[i]
    ensures forall i :: 0 < i < |s| && IsLetter(s[i]) ==>
      r[i] == (if IsLetter(s[i - 1]) then LowerChar(s[i]) else UpperChar(s[i]))
  {
    TitleAfter(s, false)
  }

  function TitleAfter(s: string, afterLetter: bool): (r: string)
    ensures |r| == |s|
    ensures |s| > 0 && IsLetter(s[0]) && !afterLetter ==> r[0] == UpperChar(s[0])
    ensures forall i :: 0 <= i < |s| && !IsLetter(s[i]) ==> r[i] == s[i]
    ensures forall i :: 0 <= i < |s| && IsLetter(s[i]) ==>
      r[i] == (if (if i == 0 then afterLetter else IsLetter(s[i - 1])) then LowerChar(s[i]) else UpperChar(s[i]))
  {
    if |s| == 0 then ""
    else
      var c := s[0];
      var d := if !IsLetter(c) then c else if afterLetter then LowerChar(c) else UpperChar(c);
      [d] + TitleAfter(s[1..], IsLetter(c))
  }

  // ---------------------------------------------------------------- substrings

  predicate OccursAt(text: string, pat: string, i: int)
  {
    0 <= i && i + |pat| <= |text| && text[i..i + |pat|] == pat
  }

  /** Python's `pat in text` on strings. */
  predicate Contains(text: string, pat: string)
  {
    exists i :: 0 <= i <= |text| - |pat| && OccursAt(text, pat, i)
  }

  lemma ContainsWitness(text: string, pat: string, i: int)
    requires OccursAt(text, pat, i)
    ensures Contains(text, pat)
  {
  }

  lemma NothingInEmpty(pat: string)
    requires |pat| > 0
    ensures !Contains("", pat)
  {
  }

  /** Every character of an occurrence is a character of the text. */
  lemma ContainsChar(text: string, pat: string, k: int)
    requires Contains(text, pat) && 0 <= k < |pat|
    ensures pat[k] in text
  {
    var i :| 0 <= i <= |text| - |pat| && OccursAt(text, pat, i);
    assert text[i..i + |pat|][k] == text[i + k];
  }

  // ---------------------------------------------------------------- table lookups

  /** The entries of `table` that occur in `text`, in table order:
      `[entry for entry in table if entry in text]`. */
  function TableHits(table: seq<string>, text: string): (r: seq<string>)
    ensures |r| <= |table|
    ensures forall s :: s in r <==> s in table && Contains(text, s)
  {
    if |table| == 0 then []
    else
      var last := table[|table| - 1];
      var r := TableHits(table[..|table| - 1], text);
      assert forall s :: s in table <==> s in table[..|table| - 1] || s == last;
      if Contains(text, last) then r + [last] else r
  }

  /** The lookup loop behind `TableHits`. */
  method CollectHits(table: seq<string>, text: string) returns (hits: seq<string>)
    ensures hits == TableHits(table, text)
  {
    hits := [];
    for i := 0 to |table|
      invariant hits == TableHits(table[..i], text)
    {
      assert table[..i + 1][..i] == table[..i];
      if Contains(text, table[i]) {
        hits := hits + [table[i]];
      }
    }
    assert table[..|table|] == table;
  }

  /** The position of the first entry of `table` that occurs in `text`, or |table| if none does. */
  function FirstHitIndex(table: seq<string>, text: string): (k: nat)
    ensures k <= |table|
    ensures forall j :: 0 <= j < k ==> !Contains(text, table[j])
    ensures k < |table| ==> Contains(text, table[k])
  {
    if |table| == 0 then 0
    else if Contains(text, table[0]) then 0
    else
      var k := FirstHitIndex(table[1..], text);
      assert forall j :: 1 <= j < |table| ==> table[j] == table[1..][j - 1];
      1 + k
  }

  // ---------------------------------------------------------------- whitespace

  function TrimStart(s: string): (r: string)
    ensures |r| <= |s|
    ensures r == s[|s| - |r|..]
    ensures |r| > 0 ==> !IsSpace(r[0])
    ensures forall i :: 0 <= i < |s| - |r| ==> IsSpace(s[i])
  {
    if |s| > 0 && IsSpace(s[0]) then TrimStart(s[1..]) else s
  }

  function TrimEnd(s: string): (r: string)
    ensures |r| <= |s|
    ensures r == s[..|r|]
    ensures |r| > 0 ==> !IsSpace(r[|r| - 1])
    ensures forall i :: |r| <= i < |s| ==> IsSpace(s[i])
  {
    if |s| > 0 && IsSpace(s[|s| - 1]) then TrimEnd(s[..|s| - 1]) else s
  }

  /** `s.strip()` */
  function Strip(s: string): (r: string)
  {
    TrimEnd(TrimStart(s))
  }

  /** A stripped string has no surrounding whitespace, is a slice of its input, and is
      empty exactly when the input is all whitespace. */
  lemma StripShape(s: string)
    ensures var r := Strip(s);
      && (|r| > 0 ==> !IsSpace(r[0]) && !IsSpace(r[|r| - 1]))
      && (exists a :: OccursAt(s, r, a))
      && (r == "" <==> forall i :: 0 <= i < |s| ==> IsSpace(s[i]))
  {
    StripEnds(s);
    StripOccurs(s);
    StripBlank(s);
  }

  lemma StripEnds(s: string)
    ensures var r := Strip(s); |r| > 0 ==> !IsSpace(r[0]) && !IsSpace(r[|r| - 1])
  {
    var t := TrimStart(s);
    var r := TrimEnd(t);
    if |r| > 0 {
      assert r[0] == t[0];
    }
  }

  lemma StripOccurs(s: string)
    ensures OccursAt(s, Strip(s), |s| - |TrimStart(s)|)
  {
    var t := TrimStart(s);
    var r := TrimEnd(t);
    var a := |s| - |t|;
    assert t == s[a..];
    assert r == t[..|r|];
    OccursAtSuffixPrefix(s, a, |r|);
  }

  lemma OccursAtSuffixPrefix(s: string, a: nat, m: nat)
    requires a + m <= |s|
    ensures OccursAt(s, s[a..][..m], a)
  {
    assert s[a..][..m] == s[a..a + m];
  }

  lemma StripBlank(s: string)
    ensures Strip(s) == "" <==> forall i :: 0 <= i < |s| ==> IsSpace(s[i])
  {
    var t := TrimStart(s);
    var a := |s| - |t|;
    var r := TrimEnd(t);
    assert t == s[a..];
    BlankJoin(s, a);
    if |r| > 0 {
      assert r[|r| - 1] == t[|r| - 1];
    }
  }

  /** A string is all whitespace when a blank prefix and the rest are. */
  lemma BlankJoin(s: string, a: nat)
    requires a <= |s|
    requires forall i :: 0 <= i < a ==> IsSpace(s[i])
    ensures (forall i :: 0 <= i < |s| ==> IsSpace(s[i])) <==> (forall i :: 0 <= i < |s| - a ==> IsSpace(s[a..][i]))
  {
    if forall i :: 0 <= i < |s| - a ==> IsSpace(s[a..][i]) {
      forall i | a <= i < |s|
        ensures IsSpace(s[i])
      {
        assert s[i] == s[a..][i - a];
      }
    }
  }

  lemma TrimStartOfTrimmed(s: string)
    requires |s| == 0 || !IsSpace(s[0])
    ensures TrimStart(s) == s
  {
  }

  /** `re.sub(r'\s+', ' ', s)`: every run of whitespace becomes one space. */
  function CollapseSpaces(s: string): (r: string)
    ensures |r| <= |s|
    ensures |r| == 0 <==> |s| == 0
    ensures forall i :: 0 <= i < |r| ==> r[i] == ' ' || !IsSpace(r[i])
    decreases |s|
  {
    if |s| == 0 then ""
    else if IsSpace(s[0]) then " " + CollapseSpaces(TrimStart(s[1..]))
    else [s[0]] + CollapseSpaces(s[1..])
  }

  /** No two spaces stand next to each other. */
  predicate SingleSpaced(s: string)
  {
    forall i :: 0 <= i < |s| - 1 ==> s[i] != ' ' || s[i + 1] != ' '
  }

  /** The characters of `s` that are not whitespace, in order. */
  function Visible(s: string): string
    decreases |s|
  {
    if |s| == 0 then "" else (if IsSpace(s[0]) then "" else [s[0]]) + Visible(s[1..])
  }

  lemma {:induction false} VisibleTrimStart(s: string)
    ensures Visible(TrimStart(s)) == Visible(s)
    decreases |s|
  {
    if |s| > 0 && IsSpace(s[0]) {
      VisibleTrimStart(s[1..]);
    }
  }

  lemma {:induction false} VisibleConcat(a: string, b: string)
    ensures Visible(a + b) == Visible(a) + Visible(b)
    decreases |a|
  {
    if |a| > 0 {
      assert (a + b)[1..] == a[1..] + b;
      VisibleConcat(a[1..], b);
    } else {
      assert a + b == b;
    }
  }

  /** Stripping removes only whitespace. */
  lemma VisibleStrip(s: string)
    ensures Visible(Strip(s)) == Visible(s)
  {
    var t := TrimStart(s);
    var r := TrimEnd(t);
    VisibleTrimStart(s);
    VisibleTrimEnd(t);
  }

  /** Trimming the end removes only whitespace. */
  lemma {:induction false} VisibleTrimEnd(s: string)
    ensures Visible(TrimEnd(s)) == Visible(s)
    decreases |s|
  {
    if |s| > 0 && IsSpace(s[|s| - 1]) {
      var p := s[..|s| - 1];
      var c := s[|s| - 1];
      VisibleTrimEnd(p);
      assert s == p + [c];
      VisibleConcat(p, [c]);
      assert [c][1..] == [];
      assert Visible([c]) == "";
      assert Visible(p) + "" == Visible(p);
    }
  }

  /** Collapsing keeps a final character that is not whitespace. */
  lemma {:induction false} CollapseLast(s: string)
    ensures |s| > 0 && !IsSpace(s[|s| - 1]) ==>
      |CollapseSpaces(s)| > 0 && CollapseSpaces(s)[|CollapseSpaces(s)| - 1] == s[|s| - 1]
    decreases |s|
  {
    if |s| > 1 && !IsSpace(s[|s| - 1]) {
      if IsSpace(s[0]) {
        var t := TrimStart(s[1..]);
        assert |t| > 0;
        assert t[|t| - 1] == s[|s| - 1];
        CollapseLast(t);
      } else {
        assert s[1..][|s| - 2] == s[|s| - 1];
        CollapseLast(s[1..]);
      }
    }
  }

  /** Collapsing turns every whitespace run into exactly one space: no two spaces are left
      side by side, and the other characters are those of the input, in order. */
  lemma {:induction false} CollapseShape(s: string)
    ensures SingleSpaced(CollapseSpaces(s))
    ensures Visible(CollapseSpaces(s)) == Visible(s)
    decreases |s|
  {
    if |s| > 0 {
      var r := CollapseSpaces(s);
      if IsSpace(s[0]) {
        var t := TrimStart(s[1..]);
        var rest := CollapseSpaces(t);
        CollapseShape(t);
        VisibleTrimStart(s[1..]);
        assert r == " " + rest;
        assert r[1..] == rest;
        assert |t| > 0 ==> rest[0] == t[0] && !IsSpace(t[0]);
        assert forall i :: 1 <= i < |r| ==> r[i] == rest[i - 1];
      } else {
        var rest := CollapseSpaces(s[1..]);
        CollapseShape(s[1..]);
        assert r == [s[0]] + rest;
        assert r[1..] == rest;
        assert forall i :: 1 <= i < |r| ==> r[i] == rest[i - 1];
      }
    }
  }

  /** Text with no whitespace but single spaces is its own collapse. */
  lemma {:induction false} CollapseOfCollapsed(s: string)
    requires forall i :: 0 <= i < |s| ==> s[i] == ' ' || !IsSpace(s[i])
    requires forall i :: 0 <= i < |s| - 1 ==> s[i] != ' ' || s[i + 1] != ' '
    ensures CollapseSpaces(s) == s
    decreases |s|
  {
    if |s| > 0 {
      CollapseOfCollapsed(s[1..]);
      if IsSpace(s[0]) {
        TrimStartOfTrimmed(s[1..]);
      }
      assert s == [s[0]] + s[1..];
    }
  }

  lemma TrimStartOfTrimEnd(t: string)
    requires |t| == 0 || !IsSpace(t[0])
    ensures |TrimEnd(t)| == 0 || !IsSpace(TrimEnd(t)[0])
  {
  }

  /** A string without surrounding whitespace is its own strip. */
  lemma StripOfTrimmed(s: string)
    requires |s| == 0 || (!IsSpace(s[0]) && !IsSpace(s[|s| - 1]))
    ensures Strip(s) == s
  {
    TrimStartOfTrimmed(s);
  }

  /** Stripping ignores one whitespace character added at either end. */
  lemma StripPadded(s: string, c: char)
    requires IsSpace(c)
    ensures Strip([c] + s) == Strip(s) && Strip(s + [c]) == Strip(s)
  {
    assert ([c] + s)[1..] == s;
    if |s| > 0 && IsSpace(s[0]) {
      assert (s + [c])[1..] == s[1..] + [c];
      StripPadded(s[1..], c);
    } else if |s| > 0 {
      assert (s + [c])[..|s|] == s;
      TrimStartOfTrimmed(s + [c]);
      TrimStartOfTrimmed(s);
    } else {
      assert s + [c] == [c] && [c][1..] == [];
    }
  }

  lemma StripIdempotent(s: string)
    ensures Strip(Strip(s)) == Strip(s)
  {
    var r := Strip(s);
    StripShape(s);
    TrimStartOfTrimmed(r);
  }

  lemma {:induction false} TrimStartLower(s: string)
    ensures TrimStart(Lower(s)) == Lower(TrimStart(s))
    decreases |s|
  {
    if |s| > 0 && IsSpace(s[0]) {
      assert Lower(s)[1..] == Lower(s[1..]);
      TrimStartLower(s[1..]);
    }
  }

  lemma {:induction false} TrimEndLower(s: string)
    ensures TrimEnd(Lower(s)) == Lower(TrimEnd(s))
    decreases |s|
  {
    if |s| > 0 && IsSpace(s[|s| - 1]) {
      assert Lower(s)[..|s| - 1] == Lower(s[..|s| - 1]);
      TrimEndLower(s[..|s| - 1]);
    }
  }

  /** Lower-casing and stripping commute, because case mapping never touches whitespace. */
  lemma StripLower(s: string)
    ensures Strip(Lower(s)) == Lower(Strip(s))
  {
    TrimStartLower(s);
    TrimEndLower(TrimStart(s));
  }

  // ---------------------------------------------------------------- splitting and joining

  /** Length of the leading run of non-space characters. */
  function WordLength(s: string): (k: nat)
    ensures k <= |s|
    ensures forall i :: 0 <= i < k ==> !IsSpace(s[i])
    ensures k < |s| ==> IsSpace(s[k])
  {
    if |s| == 0 || IsSpace(s[0]) then 0 else 1 + WordLength(s[1..])
  }

  /** `s.split()` with no separator: the maximal runs of non-whitespace characters. */
  function Words(s: string): (ws: seq<string>)
    ensures forall k :: 0 <= k < |ws| ==> |ws[k]| > 0
    decreases |s|
  {
    var t := TrimStart(s);
    if |t| == 0 then []
    else
      var k := WordLength(t);
      [t[..k]] + Words(t[k..])
  }

  /** `s.split(sep)` for a one-character separator, generalised to a set of separators as used by
      `re.split` with a character class. */
  function SplitOnAny(s: string, seps: set<char>): (parts: seq<string>)
    ensures |parts| >= 1
  {
    if |s| == 0 then [""]
    else
      var rest := SplitOnAny(s[1..], seps);
      if s[0] in seps then [""] + rest else [[s[0]] + rest[0]] + rest[1..]
  }

  predicate Unbroken(part: string, seps: set<char>)
  {
    forall j :: 0 <= j < |part| ==> part[j] !in seps
  }

  /** No part of a split holds a separator. */
  lemma {:induction false} SplitOnAnyParts(s: string, seps: set<char>)
    ensures forall i :: 0 <= i < |SplitOnAny(s, seps)| ==> Unbroken(SplitOnAny(s, seps)[i], seps)
  {
    if |s| > 0 {
      SplitOnAnyParts(s[1..], seps);
      var rest := SplitOnAny(s[1..], seps);
      assert forall i :: 0 <= i < |rest| ==> Unbroken(rest[i], seps);
    }
  }

  /** Splitting on one character and joining with it gives the text back. */
  lemma {:induction false} SplitJoin(s: string, c: char)
    ensures Join([c], SplitOnAny(s, {c})) == s
  {
    if |s| > 0 {
      SplitJoin(s[1..], c);
      var rest := SplitOnAny(s[1..], {c});
      assert s == [s[0]] + s[1..];
      if s[0] == c {
        assert SplitOnAny(s, {c}) == [""] + rest;
        JoinFirst(c, "", rest);
      } else {
        assert SplitOnAny(s, {c}) == [[s[0]] + rest[0]] + rest[1..];
        assert rest == [rest[0]] + rest[1..];
        JoinFirst(c, [s[0]] + rest[0], rest[1..]);
        JoinFirst(c, rest[0], rest[1..]);
      }
    }
  }

  /** The join of a list is its first element, then the separator and the join of the rest. */
  lemma JoinFirst(c: char, head: string, rest: seq<string>)
    ensures Join([c], [head] + rest) == head + (if |rest| == 0 then "" else [c] + Join([c], rest))
  {
    assert ([head] + rest)[1..] == rest;
  }

  /** `s.split('\n')` */
  function Lines(s: string): (parts: seq<string>)
    ensures |parts| >= 1
  {
    SplitOnAny(s, {'\n'})
  }

  /** `sep.join(parts)` */
  function Join(sep: string, parts: seq<string>): string
  {
    if |parts| == 0 then ""
    else if |parts| == 1 then parts[0]
    else parts[0] + sep + Join(sep, parts[1..])
  }

  /** The empty list joins to the empty string, and only it does when the separator is non-empty. */
  lemma JoinEmpty(sep: string, parts: seq<string>)
    requires |sep| > 0
    ensures Join(sep, parts) == "" <==> (|parts| == 0 || (|parts| == 1 && parts[0] == ""))
  {
  }

  // ---------------------------------------------------------------- lists as sets

  predicate NoDups<T(==)>(s: seq<T>)
  {
    forall i, j :: 0 <= i < j < |s| ==> s[i] != s[j]
  }

  /** `list(set(s))`, keeping the first occurrence of each element in order; Python's set order is unspecified. */
  function Dedup<T(==,!new)>(s: seq<T>): (r: seq<T>)
    ensures NoDups(r)
    ensures forall x :: x in r <==> x in s
    ensures |r| <= |s|
  {
    if |s| == 0 then []
    else
      var r := Dedup(s[..|s| - 1]);
      assert forall x :: x in s <==> x in s[..|s| - 1] || x == s[|s| - 1];
      if s[|s| - 1] in r then r else r + [s[|s| - 1]]
  }

  /** Appending to the input appends to the result unless the new element is already kept. */
  lemma DedupSnoc<T(!new)>(s: seq<T>, x: T)
    ensures Dedup(s + [x]) == if x in Dedup(s) then Dedup(s) else Dedup(s) + [x]
  {
    assert (s + [x])[..|s|] == s;
  }

  lemma DedupOfDistinct<T(!new)>(s: seq<T>)
    requires NoDups(s)
    ensures Dedup(s) == s
  {
    if |s| > 0 {
      DedupOfDistinct(s[..|s| - 1]);
      assert s[|s| - 1] !in s[..|s| - 1];
    }
  }

  lemma PrefixNoDups<T>(s: seq<T>, k: nat)
    requires NoDups(s) && k <= |s|
    ensures NoDups(s[..k])
  {
  }

  function Filter<T(!new)>(s: seq<T>, p: T -> bool): (r: seq<T>)
    ensures |r| <= |s|
    ensures forall x :: x in r <==> x in s && p(x)
  {
    if |s| == 0 then []
    else if p(s[0]) then [s[0]] + Filter(s[1..], p)
    else Filter(s[1..], p)
  }

  lemma FilterAppend<T(!new)>(a: seq<T>, b: seq<T>, p: T -> bool)
    ensures Filter(a + b, p) == Filter(a, p) + Filter(b, p)
  {
    if |a| > 0 {
      assert (a + b)[0] == a[0];
      assert (a + b)[1..] == a[1..] + b;
      FilterAppend(a[1..], b, p);
    } else {
      assert a + b == b;
    }
  }

  lemma FilterSnoc<T(!new)>(a: seq<T>, x: T, p: T -> bool)
    ensures Filter(a + [x], p) == if p(x) then Filter(a, p) + [x] else Filter(a, p)
  {
    FilterAppend(a, [x], p);
  }

  function Take<T>(s: seq<T>, n: nat): (r: seq<T>)
    ensures |r| <= n && |r| <= |s|
    ensures r == s[..|r|]
    ensures |r| == if |s| < n then |s| else n
  {
    if |s| <= n then s else s[..n]
  }

  function MinInt(a: int, b: int): int { if a <= b then a else b }
  function MaxInt(a: int, b: int): int { if a >= b then a else b }

  // ---------------------------------------------------------------- numbers in text

  function DigitValue(c: char): nat { if IsDigit(c) then (c as int - '0' as int) else 0 }

  /** The value of a run of decimal digits (`int(s)` for such a run). */
  function DigitsValue(s: string): nat
  {
    if |s| == 0 then 0 else 10 * DigitsValue(s[..|s| - 1]) + DigitValue(s[|s| - 1])
  }

  function DigitRun(s: string): (k: nat)
    ensures k <= |s|
    ensures forall i :: 0 <= i < k ==> IsDigit(s[i])
  {
    if |s| == 0 || !IsDigit(s[0]) then 0 else 1 + DigitRun(s[1..])
  }

  predicate HasDigit(s: string) { exists i :: 0 <= i < |s| && IsDigit(s[i]) }

  /** The value of the first run of digits: `re.search(r'(\d+)', s)`. */
  function FirstNumber(s: string): Option<nat>
  {
    if |s| == 0 then None
    else if IsDigit(s[0]) then Some(DigitsValue(s[..DigitRun(s)]))
    else FirstNumber(s[1..])
  }

  lemma {:induction false} FirstNumberNone(s: string)
    ensures FirstNumber(s) == None <==> !HasDigit(s)
  {
    if |s| > 0 {
      FirstNumberNone(s[1..]);
      if HasDigit(s) && !IsDigit(s[0]) {
        var i :| 0 <= i < |s| && IsDigit(s[i]);
        assert s[1..][i - 1] == s[i];
      }
      if HasDigit(s[1..]) {
        var i :| 0 <= i < |s[1..]| && IsDigit(s[1..][i]);
        assert s[i + 1] == s[1..][i];
      }
    }
  }

  function Pow10(n: nat): (r: nat)
    ensures r >= 1
  {
    if n == 0 then 1 else 10 * Pow10(n - 1)
  }

  /** The value of the first decimal number `\d+(\.\d+)?` in s, as `float(...)` reads it. */
  function FirstDecimal(s: string): Option<real>
  {
    if |s| == 0 then None
    else if IsDigit(s[0]) then
      var k := DigitRun(s);
      var whole := DigitsValue(s[..k]) as real;
      if k + 1 < |s| && s[k] == '.' && IsDigit(s[k + 1]) then
        var f := DigitRun(s[k + 1..]);
        Some(whole + DigitsValue(s[k + 1..k + 1 + f]) as real / Pow10(f) as real)
      else Some(whole)
    else FirstDecimal(s[1..])
  }

  lemma {:induction false} FirstDecimalNonNegative(s: string)
    ensures FirstDecimal(s).Some? ==> FirstDecimal(s).value >= 0.0
  {
    if |s| > 0 && !IsDigit(s[0]) {
      FirstDecimalNonNegative(s[1..]);
    }
  }

  /** `float(s)` for a string the regex guarantees to be a decimal number; 0.0 for anything else. */
  function DecimalValue(s: string): (r: real)
    ensures r >= 0.0
  {
    FirstDecimalNonNegative(s);
    match FirstDecimal(s)
    case Some(v) => v
    case None => 0.0
  }

  function DigitChar(d: nat): char
    requires d < 10
  {
    ('0' as int + d) as char
  }

  /** `str(n)` for a natural number. */
  function NatToString(n: nat): (r: string)
    ensures |r| > 0
    ensures forall i :: 0 <= i < |r| ==> IsDigit(r[i])
  {
    if n < 10 then [DigitChar(n)] else NatToString(n / 10) + [DigitChar(n % 10)]
  }
}
