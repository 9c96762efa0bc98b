/** The chunker of the stand-alone vector-store demo: whitespace-normalised text is cut
    into fixed windows of `chunkSize` characters, each next window starting
    `chunkOverlap` characters before the previous one ended. */
module DemoSplitter {
  import opened Text
  import ServiceSplitter

  /** `end = min(start + chunk_size, len(text))` */
  function WindowEnd(n: nat, cs: int, start: nat): (e: nat)
    requires cs > 0 && start < n
    ensures start < e <= n && e - start <= cs
    ensures e < n ==> e == start + cs
  {
    MinInt(start + cs, n)
  }

  /** The start of every window from `start` on: each next one `cs - ov` further, the
      last the first that reaches the end of the text. */
  function Windows(n: nat, cs: int, ov: int, start: nat): (w: seq<nat>)
    requires cs > 0 && ov < cs
    ensures start >= n ==> w == []
    ensures start < n ==> |w| > 0 && w[0] == start
    ensures |w| > 0 ==> w[|w| - 1] + cs >= n || w[|w| - 1] + cs - ov >= n
    ensures |w| > 0 && ov >= 0 ==> w[|w| - 1] + cs >= n
    ensures forall i :: 0 <= i < |w| ==> start <= w[i] < n
    ensures forall i :: 0 <= i < |w| - 1 ==> w[i] + cs < n
    ensures forall i, j {:trigger w[i], w[j]} :: 0 <= i && j == i + 1 && j < |w| ==> w[j] == w[i] + (cs - ov)
    decreases n - start
  {
    if start >= n then []
    else if start + cs >= n then [start]
    else
      var rest := Windows(n, cs, ov, start + cs - ov);
      assert |rest| > 0 ==> ([start] + rest)[|rest|] == rest[|rest| - 1];
      [start] + rest
  }

  /** What follows window `k`: the next window, `cs - ov` further on, or the end of the
      loop. */
  lemma WindowAfter(n: nat, cs: int, ov: int, k: nat)
    requires cs > 0 && ov < cs
    requires k < |Windows(n, cs, ov, 0)|
    ensures var w := Windows(n, cs, ov, 0);
      && (k + 1 < |w| ==> w[k] + cs < n && w[k + 1] == w[k] + cs - ov)
      && (k + 1 == |w| ==> w[k] + cs >= n || w[k] + cs - ov >= n)
  {
  }

  lemma PrefixSnoc(s: seq<nat>, k: nat)
    requires k < |s|
    ensures s[..k + 1] == s[..k] + [s[k]]
  {
  }

  /** `text[start:end].strip()` */
  function WindowText(t: string, cs: int, start: nat): string
    requires cs > 0 && start < |t|
  {
    Strip(t[start..WindowEnd(|t|, cs, start)])
  }

  /** The text of one window is stripped, a piece of the text and at most a chunk size
      long. */
  lemma WindowShape(t: string, cs: int, start: nat)
    requires cs > 0 && start < |t|
    ensures var c := WindowText(t, cs, start);
      Strip(c) == c && |c| <= cs && exists a :: OccursAt(t, c, a)
  {
    var hi := WindowEnd(|t|, cs, start);
    var c := WindowText(t, cs, start);
    StripShape(t[start..hi]);
    StripIdempotent(t[start..hi]);
    var a :| OccursAt(t[start..hi], c, a);
    ServiceSplitter.OccursInSlice(t, start, hi, c, a);
  }

  /** `WindowText` as a function of the window start. */
  function WindowTextAt(t: string, cs: int): nat -> string
    requires cs > 0
  {
    (s: nat) => if s < |t| then WindowText(t, cs, s) else ""
  }

  /** The non-empty texts of the windows `ws`, in order. */
  function KeptTexts(ws: seq<nat>, text: nat -> string): (r: seq<string>)
    ensures |r| <= |ws|
  {
    if |ws| == 0 then [] else ServiceSplitter.Emit(text(ws[0])) + KeptTexts(ws[1..], text)
  }

  lemma {:induction false} KeptTextsSnoc(ws: seq<nat>, w: nat, text: nat -> string)
    ensures KeptTexts(ws + [w], text) == KeptTexts(ws, text) + ServiceSplitter.Emit(text(w))
  {
    if |ws| == 0 {
      assert [] + [w] == [w];
      assert [w][1..] == [];
      assert ServiceSplitter.Emit(text(w)) + [] == ServiceSplitter.Emit(text(w));
    } else {
      assert (ws + [w])[1..] == ws[1..] + [w];
      KeptTextsSnoc(ws[1..], w, text);
      ServiceSplitter.AppendAssoc(ServiceSplitter.Emit(text(ws[0])), KeptTexts(ws[1..], text), ServiceSplitter.Emit(text(w)));
    }
  }

  /** Every kept text is non-empty and the text of one of the windows. */
  lemma {:induction false} KeptTextsFrom(ws: seq<nat>, text: nat -> string, c: string) returns (i: nat)
    requires c in KeptTexts(ws, text)
    ensures i < |ws| && c == text(ws[i]) && c != ""
  {
    var head := ServiceSplitter.Emit(text(ws[0]));
    var rest := KeptTexts(ws[1..], text);
    assert KeptTexts(ws, text) == head + rest;
    if c in head {
      i := 0;
    } else {
      var j := KeptTextsFrom(ws[1..], text, c);
      i := j + 1;
    }
  }

  /** `split_text`: the non-empty texts of the windows of the normalised text. */
  function DemoSplitOf(sp: ServiceSplitter.TextSplitter, text: string): seq<string>
    requires sp.chunkSize > 0 && sp.chunkOverlap < sp.chunkSize
  {
    if Strip(text) == "" then []
    else
      var t := ServiceSplitter.NormalizedText(text);
      KeptTexts(Windows(|t|, sp.chunkSize, sp.chunkOverlap, 0), WindowTextAt(t, sp.chunkSize))
  }

  /** When the overlap is not negative, every position of the text from `start` on lies
      in some window. */
  lemma {:induction false} WindowsCover(n: nat, cs: int, ov: int, start: nat, p: nat) returns (i: nat)
    requires cs > 0 && 0 <= ov < cs && start <= p < n
    ensures var w := Windows(n, cs, ov, start);
      i < |w| && w[i] <= p < w[i] + cs
    decreases n - start
  {
    var w := Windows(n, cs, ov, start);
    if p < start + cs {
      i := 0;
    } else {
      var next := start + cs - ov;
      var j := WindowsCover(n, cs, ov, next, p);
      assert w[1..] == Windows(n, cs, ov, next);
      i := j + 1;
    }
  }

  /** The next window starts after the current one exactly when the overlap is smaller
      than the chunk size; otherwise the loop comes back to the same or an earlier start
      for ever. */
  lemma NextWindowAdvances(n: nat, cs: int, ov: int, start: nat)
    requires cs > 0 && start < n && start + cs < n
    ensures WindowEnd(n, cs, start) - ov > start <==> ov < cs
  {
  }

  /** The loop's `start` after `k` more rounds from `start`, each round moving it to
      `min(start + chunk_size, len(text)) - chunk_overlap`. */
  function StartAfter(n: int, cs: int, ov: int, start: int, k: nat): int
    decreases k
  {
    if k == 0 then start else StartAfter(n, cs, ov, MinInt(start + cs, n) - ov, k - 1)
  }

  /** With `chunk_overlap >= chunk_size`, once a window ends before the text does, every
      later round starts at or before it and again ends before the text: the loop
      condition stays true and the `break` is never taken, so the loop does not end. */
  lemma {:induction false} OverlapTooLargeNeverEnds(n: int, cs: int, ov: int, start: int, k: nat)
    requires cs > 0 && ov >= cs && start + cs < n
    ensures StartAfter(n, cs, ov, start, k) <= start
    ensures StartAfter(n, cs, ov, start, k) < n
    ensures MinInt(StartAfter(n, cs, ov, start, k) + cs, n) < n
    decreases k
  {
    if k > 0 {
      var next := MinInt(start + cs, n) - ov;
      assert next == start + cs - ov <= start;
      OverlapTooLargeNeverEnds(n, cs, ov, next, k - 1);
    }
  }

  /** Blank input gives no chunks; otherwise there are at most as many chunks as windows,
      and every chunk is non-empty, carries no surrounding whitespace, is at most a chunk
      size long and is the text of one window of the normalised text. */
  lemma DemoSplitShape(sp: ServiceSplitter.TextSplitter, text: string)
    requires sp.chunkSize > 0 && sp.chunkOverlap < sp.chunkSize
    ensures Strip(text) == "" ==> DemoSplitOf(sp, text) == []
    ensures var t := ServiceSplitter.NormalizedText(text);
      var ws := Windows(|t|, sp.chunkSize, sp.chunkOverlap, 0);
      && |DemoSplitOf(sp, text)| <= |ws|
      && forall c :: c in DemoSplitOf(sp, text) ==>
           (&& c != "" && Strip(c) == c && |c| <= sp.chunkSize && (exists a :: OccursAt(t, c, a))
            && exists i :: 0 <= i < |ws| && c == WindowText(t, sp.chunkSize, ws[i]))
  {
    var t := ServiceSplitter.NormalizedText(text);
    var ws := Windows(|t|, sp.chunkSize, sp.chunkOverlap, 0);
    var f := WindowTextAt(t, sp.chunkSize);
    if Strip(text) != "" {
      forall c | c in DemoSplitOf(sp, text)
        ensures && c != "" && Strip(c) == c && |c| <= sp.chunkSize && (exists a :: OccursAt(t, c, a))
                && exists i :: 0 <= i < |ws| && c == WindowText(t, sp.chunkSize, ws[i])
      {
        var i := KeptTextsFrom(ws, f, c);
        WindowShape(t, sp.chunkSize, ws[i]);
      }
    }
  }

  /** One turn of the window loop: window `k` adds its text, if any, to the chunks so far. */
  lemma KeptTextsStep(ws: seq<nat>, f: nat -> string, k: nat)
    requires k < |ws|
    ensures KeptTexts(ws[..k + 1], f) == KeptTexts(ws[..k], f) + ServiceSplitter.Emit(f(ws[k]))
  {
    PrefixSnoc(ws, k);
    KeptTextsSnoc(ws[..k], ws[k], f);
  }

  /** `end = min(start + chunk_size, len(text)); chunk = text[start:end].strip()` */
  method CutWindow(t: string, cs: int, start: nat) returns (chunk: string, end: nat)
    requires cs > 0 && start < |t|
    ensures end == WindowEnd(|t|, cs, start)
    ensures chunk == WindowTextAt(t, cs)(start)
  {
    end := MinInt(start + cs, |t|);
    chunk := Strip(t[start..end]);
  }

  /** One turn of the window loop: cut window `k`, add its text to the chunks when it
      is not empty, and say whether the loop goes on, and from where. */
  method DemoTurn(t: string, cs: int, ov: int, ghost k: nat, start: nat, chunks: seq<string>)
    returns (chunks': seq<string>, end: nat)
    requires cs > 0 && ov < cs
    requires k < |Windows(|t|, cs, ov, 0)| && Windows(|t|, cs, ov, 0)[k] == start
    requires chunks == KeptTexts(Windows(|t|, cs, ov, 0)[..k], WindowTextAt(t, cs))
    ensures chunks' == KeptTexts(Windows(|t|, cs, ov, 0)[..k + 1], WindowTextAt(t, cs))
    ensures start < end <= |t| && end - start <= cs
    ensures end >= |t| ==> k + 1 == |Windows(|t|, cs, ov, 0)|
    ensures end < |t| && k + 1 < |Windows(|t|, cs, ov, 0)| ==> Windows(|t|, cs, ov, 0)[k + 1] == end - ov
    ensures end < |t| && k + 1 == |Windows(|t|, cs, ov, 0)| ==> end - ov >= |t|
  {
    var chunk;
    chunk, end := CutWindow(t, cs, start);
    ghost var ws := Windows(|t|, cs, ov, 0);
    ghost var f := WindowTextAt(t, cs);
    KeptTextsStep(ws, f, k);
    WindowAfter(|t|, cs, ov, k);
    if chunk != "" {
      chunks' := chunks + [chunk];
    } else {
      chunks' := chunks;
      assert chunks + [] == chunks;
    }
  }

  /** The window loop over normalised text. */
  method DemoSplitNormalized(t: string, cs: int, ov: int) returns (chunks: seq<string>)
    requires cs > 0 && ov < cs
    ensures chunks == KeptTexts(Windows(|t|, cs, ov, 0), WindowTextAt(t, cs))
  {
    ghost var ws := Windows(|t|, cs, ov, 0);
    chunks := [];
    var start := 0;
    ghost var k := 0;
    while start < |t|
      invariant 0 <= k <= |ws|
      invariant start < |t| <==> k < |ws|
      invariant k < |ws| ==> ws[k] == start
      invariant chunks == KeptTexts(ws[..k], WindowTextAt(t, cs))
      decreases |t| - start
    {
      var end;
      chunks, end := DemoTurn(t, cs, ov, k, start, chunks);
      if end >= |t| {
        assert ws[..k + 1] == ws;
        return;
      }
      start := end - ov;
      k := k + 1;
    }
    assert ws[..k] == ws;
  }

  /** `split_text` */
  method DemoSplitText(sp: ServiceSplitter.TextSplitter, text: string) returns (chunks: seq<string>)
    requires sp.chunkSize > 0 && sp.chunkOverlap < sp.chunkSize
    ensures chunks == DemoSplitOf(sp, text)
  {
    if Strip(text) == "" {
      return [];
    }
    var t := ServiceSplitter.NormalizedText(text);
    chunks := DemoSplitNormalized(t, sp.chunkSize, sp.chunkOverlap);
  }
}
