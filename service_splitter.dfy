/** The chunker of the vector-store service: whitespace-normalised text is cut into
    windows of about `chunkSize` characters, each window ending, where it can, just
    after a sentence end or at a space, and each next window starting `chunkOverlap`
    characters before the previous one ended. */
module ServiceSplitter {
  import opened Text

  /** `SimpleTextSplitter(chunk_size, chunk_overlap)`; both settings are fixed at
      construction. */
  datatype TextSplitter = TextSplitter(chunkSize: int, chunkOverlap: int)

  const DefaultSplitter := TextSplitter(500, 50)

  /** The characters `.!?` that end a sentence. */
  predicate IsSentenceEnd(c: char) { c == '.' || c == '!' || c == '?' }

  /** `re.sub(r'\s+', ' ', text.strip())`: only single spaces separate the words, none
      stands at either end, and the other characters are those of the text, in order. */
  function NormalizedText(text: string): (t: string)
    ensures |t| == 0 <==> Strip(text) == ""
    ensures forall i :: 0 <= i < |t| ==> t[i] == ' ' || !IsSpace(t[i])
    ensures SingleSpaced(t)
    ensures |t| > 0 ==> t[0] != ' ' && t[|t| - 1] != ' '
    ensures Visible(t) == Visible(text)
  {
    var s := Strip(text);
    StripShape(text);
    CollapseShape(s);
    VisibleStrip(text);
    CollapseLast(s);
    CollapseSpaces(s)
  }

  // ---------------------------------------------------------------- where a window ends

  /** The sentence search over the first `k` characters of the window at `start`: the
      position just after the last `.`, `!` or `?` among them, if there is one. */
  function SentenceBreak(t: string, start: nat, k: nat): (r: Option<nat>)
    requires start + k <= |t|
    ensures r.Some? ==> (&& start < r.value <= start + k && IsSentenceEnd(t[r.value - 1])
                         && forall j :: r.value <= j < start + k ==> !IsSentenceEnd(t[j]))
    ensures r.None? ==> forall j :: start <= j < start + k ==> !IsSentenceEnd(t[j])
    decreases k
  {
    if k == 0 then None
    else if IsSentenceEnd(t[start + k - 1]) then Some(start + k)
    else SentenceBreak(t, start, k - 1)
  }

  /** The sentence search finds the last sentence end. */
  lemma {:induction false} SentenceBreakAt(t: string, start: nat, k: nat, p: nat)
    requires start + k <= |t| && start < p <= start + k && IsSentenceEnd(t[p - 1])
    requires forall j :: p <= j < start + k ==> !IsSentenceEnd(t[j])
    ensures SentenceBreak(t, start, k) == Some(p)
    decreases k
  {
    if p < start + k {
      SentenceBreakAt(t, start, k - 1, p);
    }
  }

  /** Without a sentence end the search finds nothing. */
  lemma {:induction false} SentenceBreakNone(t: string, start: nat, k: nat)
    requires start + k <= |t|
    requires forall j :: start <= j < start + k ==> !IsSentenceEnd(t[j])
    ensures SentenceBreak(t, start, k) == None
    decreases k
  {
    if k > 0 {
      SentenceBreakNone(t, start, k - 1);
    }
  }

  /** The word-boundary search: back from `end` to the nearest space after `start`, or
      to `start` itself when there is none. */
  function WordBoundary(t: string, start: nat, end: nat): (r: nat)
    requires start <= end < |t|
    ensures start <= r <= end
    ensures r > start ==> t[r] == ' '
    ensures forall j :: r < j <= end ==> t[j] != ' '
    decreases end - start
  {
    if end > start && t[end] != ' ' then WordBoundary(t, start, end - 1) else end
  }

  /** The word-boundary search stops at the last space. */
  lemma {:induction false} WordBoundaryAt(t: string, start: nat, end: nat, p: nat)
    requires start < p <= end < |t| && t[p] == ' '
    requires forall j :: p < j <= end ==> t[j] != ' '
    ensures WordBoundary(t, start, end) == p
    decreases end
  {
    if p < end {
      WordBoundaryAt(t, start, end - 1, p);
    }
  }

  /** The end of the window at `start`: a short tail is absorbed into the last window;
      otherwise the window ends after the last sentence end among its first hundred
      characters, else at the last space before its full size, else at its full size. */
  function ChunkEnd(t: string, cs: int, start: nat): (e: nat)
    requires cs > 0 && start < |t|
    ensures start < e
    ensures e - start <= cs || (e == |t| && 2 * (e - start) < 3 * cs)
    ensures start + cs >= |t| ==> e == start + cs
    ensures start + cs < |t| && 2 * (|t| - (start + cs)) < cs ==> e == |t|
    ensures e < |t| ==> IsSentenceEnd(t[e - 1]) || t[e] == ' ' || e == start + cs
  {
    var full := start + cs;
    var e := if full < |t| && 2 * (|t| - full) < cs then |t| else full;
    if e < |t| then
      match SentenceBreak(t, start, MinInt(100, e - start))
      case Some(b) => b
      case None =>
        var w := WordBoundary(t, start, e);
        if w == start then start + cs else w
    else e
  }

  /** The window's text, `text[start:end].strip()` (Python clamps `end` to the length). */
  function WindowText(t: string, start: nat, e: nat): string
    requires start < e && start < |t|
  {
    Strip(t[start..MinInt(e, |t|)])
  }

  // ---------------------------------------------------------------- where the next window starts

  /** The next start as written: `end - chunk_overlap`, or `end` when that is not positive. */
  function NextStartAsWritten(e: int, ov: int): int
  {
    if e - ov <= 0 then e else e - ov
  }

  /** The next start with the progress guard: `end` whenever `end - chunk_overlap` would
      not move past the current start. */
  function NextStart(start: nat, e: nat, ov: int): (r: nat)
    requires start < e
    ensures r > start
  {
    if e - ov <= start then e else e - ov
  }

  /** The guard only changes the step where the step as written makes no progress. */
  lemma NextStartRefinesAsWritten(start: nat, e: nat, ov: int)
    requires start < e
    ensures NextStartAsWritten(e, ov) > start ==> NextStart(start, e, ov) == NextStartAsWritten(e, ov)
    ensures NextStart(start, e, ov) != NextStartAsWritten(e, ov) ==> NextStartAsWritten(e, ov) <= start
    ensures 0 <= ov && start + ov < e ==> NextStart(start, e, ov) == e - ov
  {
  }

  // ---------------------------------------------------------------- the chunks

  /** A window's text is kept only when it is not empty. */
  function Emit(c: string): (r: seq<string>)
    ensures |r| <= 1
    ensures forall x :: x in r <==> x == c && c != ""
  {
    if c == "" then [] else [c]
  }

  /** The chunks produced from `start` on. */
  function Chunks(t: string, cs: int, ov: int, start: nat): seq<string>
    requires cs > 0
    decreases |t| - start
  {
    if start >= |t| then []
    else
      var e := ChunkEnd(t, cs, start);
      Emit(WindowText(t, start, e)) + (if e >= |t| then [] else Chunks(t, cs, ov, NextStart(start, e, ov)))
  }

  /** One step of `Chunks`, for a window whose end is already known. */
  lemma ChunksStep(t: string, cs: int, ov: int, start: nat, e: nat)
    requires cs > 0 && start < |t| && e == ChunkEnd(t, cs, start)
    ensures e >= |t| ==> Chunks(t, cs, ov, start) == Emit(WindowText(t, start, e))
    ensures e < |t| ==> Chunks(t, cs, ov, start) == Emit(WindowText(t, start, e)) + Chunks(t, cs, ov, NextStart(start, e, ov))
  {
    assert Emit(WindowText(t, start, e)) + [] == Emit(WindowText(t, start, e));
  }

  /** The text of one window: non-empty once kept, stripped, a piece of the text, and
      shorter than one and a half chunk sizes. */
  lemma WindowShape(t: string, cs: int, start: nat, e: nat)
    requires cs > 0 && start < |t| && e == ChunkEnd(t, cs, start)
    ensures var c := WindowText(t, start, e);
      && Strip(c) == c && 2 * |c| < 3 * cs && exists a :: OccursAt(t, c, a)
  {
    var hi := MinInt(e, |t|);
    var c := WindowText(t, start, e);
    StripShape(t[start..hi]);
    StripIdempotent(t[start..hi]);
    var a :| OccursAt(t[start..hi], c, a);
    OccursInSlice(t, start, hi, c, a);
  }

  /** `split_text`, with the progress guard. */
  function SplitOf(sp: TextSplitter, text: string): seq<string>
    requires sp.chunkSize > 0
  {
    if Strip(text) == "" then [] else Chunks(NormalizedText(text), sp.chunkSize, sp.chunkOverlap, 0)
  }

  lemma OccursInSlice(t: string, lo: nat, hi: nat, c: string, a: int)
    requires lo <= hi <= |t| && OccursAt(t[lo..hi], c, a)
    ensures OccursAt(t, c, lo + a)
  {
    assert forall j :: 0 <= j < |c| ==> c[j] == t[lo..hi][a + j];
    assert t[lo + a..lo + a + |c|] == c;
  }

  /** A well-formed chunk: non-empty, without surrounding whitespace, a piece of the
      normalised text, and shorter than one and a half chunk sizes. */
  ghost predicate GoodChunk(t: string, cs: int, c: string)
  {
    && c != "" && Strip(c) == c && 2 * |c| < 3 * cs
    && exists a :: OccursAt(t, c, a)
  }

  /** Every chunk is well formed, and there are never more chunks than characters left. */
  lemma {:induction false} ChunksShape(t: string, cs: int, ov: int, start: nat)
    requires cs > 0
    ensures var r := Chunks(t, cs, ov, start);
      && (start >= |t| ==> r == [])
      && (start < |t| ==> |r| <= |t| - start)
      && forall c :: c in r ==> GoodChunk(t, cs, c)
    decreases |t| - start
  {
    if start < |t| {
      var e := ChunkEnd(t, cs, start);
      var head := Emit(WindowText(t, start, e));
      WindowShape(t, cs, start, e);
      assert forall c :: c in head ==> GoodChunk(t, cs, c);
      ChunksStep(t, cs, ov, start, e);
      if e < |t| {
        var next := NextStart(start, e, ov);
        ChunksShape(t, cs, ov, next);
        var rest := Chunks(t, cs, ov, next);
        assert Chunks(t, cs, ov, start) == head + rest;
        assert forall c :: c in head + rest ==> c in head || c in rest;
      }
    }
  }

  /** Blank input gives no chunks; other input gives chunks as `ChunksShape` describes. */
  lemma SplitShape(sp: TextSplitter, text: string)
    requires sp.chunkSize > 0
    ensures Strip(text) == "" ==> SplitOf(sp, text) == []
    ensures forall c :: c in SplitOf(sp, text) ==> GoodChunk(NormalizedText(text), sp.chunkSize, c)
  {
    if Strip(text) != "" {
      ChunksShape(NormalizedText(text), sp.chunkSize, sp.chunkOverlap, 0);
    }
  }

  // ---------------------------------------------------------------- the loops

  /** The `for ... else` sentence search. */
  method FindSentenceBreak(t: string, start: nat, k: nat) returns (r: Option<nat>)
    requires start + k <= |t|
    ensures r == SentenceBreak(t, start, k)
  {
    for i := k downto 0
      invariant SentenceBreak(t, start, k) == SentenceBreak(t, start, i)
    {
      if IsSentenceEnd(t[start + i]) {
        return Some(start + i + 1);
      }
    }
    return None;
  }

  /** The `while` loop that backs off to a space. */
  method FindWordBoundary(t: string, start: nat, end0: nat) returns (end: nat)
    requires start <= end0 < |t|
    ensures end == WordBoundary(t, start, end0)
  {
    end := end0;
    while end > start && end < |t| && t[end] != ' '
      invariant start <= end <= end0
      invariant WordBoundary(t, start, end) == WordBoundary(t, start, end0)
    {
      end := end - 1;
    }
  }

  method FindChunkEnd(t: string, cs: int, start: nat) returns (end: nat)
    requires cs > 0 && start < |t|
    ensures end == ChunkEnd(t, cs, start)
  {
    end := start + cs;
    if end < |t| && 2 * (|t| - end) < cs {
      end := |t|;
    }
    if end < |t| {
      var b := FindSentenceBreak(t, start, MinInt(100, end - start));
      if b.Some? {
        end := b.value;
      } else {
        end := FindWordBoundary(t, start, end);
        if end == start {
          end := start + cs;
        }
      }
    }
  }

  lemma AppendAssoc(a: seq<string>, b: seq<string>, c: seq<string>)
    ensures (a + b) + c == a + (b + c)
  {
  }

  /** The window loop over normalised text, with the progress guard in place of the
      `start <= 0` test. */
  method SplitNormalized(t: string, cs: int, ov: int) returns (chunks: seq<string>)
    requires cs > 0
    ensures chunks == Chunks(t, cs, ov, 0)
  {
    chunks := [];
    var start := 0;
    while start < |t|
      invariant chunks + Chunks(t, cs, ov, start) == Chunks(t, cs, ov, 0)
      decreases |t| - start
    {
      var end := FindChunkEnd(t, cs, start);
      var chunk := Strip(t[start..MinInt(end, |t|)]);
      ChunksStep(t, cs, ov, start, end);
      ghost var before := chunks;
      if chunk != "" {
        chunks := chunks + [chunk];
      }
      assert chunks == before + Emit(WindowText(t, start, end));
      if end >= |t| {
        return;
      }
      var next := end - ov;
      if next <= start {
        next := end;
      }
      assert next == NextStart(start, end, ov);
      ghost var head := Emit(WindowText(t, start, end));
      ghost var rest := Chunks(t, cs, ov, next);
      assert Chunks(t, cs, ov, start) == head + rest;
      AppendAssoc(before, head, rest);
      start := next;
    }
    assert chunks + [] == chunks;
  }

  /** `split_text`. */
  method SplitText(sp: TextSplitter, text: string) returns (chunks: seq<string>)
    requires sp.chunkSize > 0
    ensures chunks == SplitOf(sp, text)
  {
    if Strip(text) == "" {
      return [];
    }
    var t := NormalizedText(text);
    chunks := SplitNormalized(t, sp.chunkSize, sp.chunkOverlap);
  }

  // ---------------------------------------------------------------- the loop as written

  /** A normalised text of `n` characters: `a` everywhere but a `.` at 460 and a space
      at 461. */
  function StuckText(n: nat): (t: string)
    requires n >= 1161
    ensures |t| == n
    ensures forall i :: 0 <= i < |t| ==> t[i] == if i == 460 then '.' else if i == 461 then ' ' else 'a'
  {
    seq(n, i requires 0 <= i < n => if i == 460 then '.' else if i == 461 then ' ' else 'a')
  }

  /** `StuckText` is its own normalisation, so it is a text the loop really sees. */
  lemma StuckTextIsNormalized(n: nat)
    requires n >= 1161
    ensures NormalizedText(StuckText(n)) == StuckText(n)
    ensures Strip(StuckText(n)) != ""
  {
    var t := StuckText(n);
    StripOfTrimmed(t);
    CollapseOfCollapsed(t);
  }

  /** With the default settings the first window of `StuckText(n)` has no sentence end
      in its first hundred characters and ends at the space at 461; the step as written
      then starts the next window at 411. */
  lemma StuckTextFirstWindow(n: nat)
    requires n >= 1161
    ensures ChunkEnd(StuckText(n), 500, 0) == 461
    ensures NextStartAsWritten(461, 50) == 411
  {
    var t := StuckText(n);
    SentenceBreakNone(t, 0, 100);
    WordBoundaryAt(t, 0, 500, 461);
  }

  /** The window at 411 ends after the `.` at 460, before the end of the text, and the
      step as written gives 411 again: the loop as written never ends. With the guard
      the next start is 461. */
  lemma AsWrittenNeverEnds(n: nat)
    requires n >= 1161
    ensures ChunkEnd(StuckText(n), 500, 411) == 461 < n
    ensures NextStartAsWritten(ChunkEnd(StuckText(n), 500, 411), 50) == 411
    ensures NextStart(411, 461, 50) == 461
  {
    var t := StuckText(n);
    SentenceBreakAt(t, 411, 100, 461);
  }
}
