/** The chunker and the batching embedder of src/lib/embeddings.ts.

    `chunkText` normalises whitespace and cuts the text into overlapping windows
    of at most `chunkSize` characters, preferring to end a window that is not the
    last one just after its last sentence terminator. As written, the loop never
    stops for a non-empty text when `overlap > 0` (see `AsWrittenNeverExits`);
    `ChunkText` below is the loop with the exit it evidently intended (leave the
    loop once a window reaches the end of the text), and the rest of the model
    uses it. */
module Embeddings {
  import opened Common

  /** An embedding vector; its numeric contents are never inspected. */
  type Vector = seq<real>

  /** The remote provider: one batch of input strings to the vectors it returns,
      or the message of the error it raised (client construction failures such
      as a missing API key included). */
  type Provider = seq<string> -> Result<seq<Vector>>

  const MaxInputChars: nat := 8000
  const BatchSize: nat := 20
  const DefaultChunkSize: nat := 1000
  const DefaultOverlap: nat := 200

  // ---------------------------------------------------------------------------
  // Whitespace normalisation: text.replace(/\s+/g, ' ').trim()
  // ---------------------------------------------------------------------------

  /** Every maximal run of whitespace becomes one space. */
  function Collapse(s: string): (r: string)
    ensures r == [] <==> s == []
    ensures r != [] ==> (r[0] == ' ' <==> IsSpace(s[0]))
    decreases |s|
  {
    if s == [] then []
    else if IsSpace(s[0]) then [' '] + Collapse(TrimStart(s[1..]))
    else [s[0]] + Collapse(s[1..])
  }

  function Normalize(text: string): string {
    Trim(Collapse(text))
  }

  /** The non-whitespace characters of a string, in order. */
  function NonSpace(s: string): string {
    if s == [] then [] else (if IsSpace(s[0]) then [] else [s[0]]) + NonSpace(s[1..])
  }

  lemma {:induction false} NonSpaceAppend(a: string, b: string)
    ensures NonSpace(a + b) == NonSpace(a) + NonSpace(b)
  {
    if a == [] {
      assert a + b == b;
    } else {
      var x := if IsSpace(a[0]) then [] else [a[0]];
      assert (a + b)[0] == a[0];
      assert (a + b)[1..] == a[1..] + b;
      NonSpaceAppend(a[1..], b);
      calc {
        NonSpace(a + b);
        x + NonSpace(a[1..] + b);
        x + (NonSpace(a[1..]) + NonSpace(b));
        (x + NonSpace(a[1..])) + NonSpace(b);
      }
    }
  }

  lemma {:induction false} NonSpaceOfSpaces(a: string)
    requires AllSpace(a)
    ensures NonSpace(a) == []
  {
    if a != [] {
      NonSpaceOfSpaces(a[1..]);
    }
  }

  /** The only whitespace is single spaces, never two in a row. */
  ghost predicate SingleSpaced(r: string) {
    && (forall i :: 0 <= i < |r| && IsSpace(r[i]) ==> r[i] == ' ')
    && (forall i :: 0 <= i < |r| - 1 ==> !(r[i] == ' ' && r[i + 1] == ' '))
  }

  /** The only whitespace left after collapsing is single spaces. */
  lemma {:induction false} CollapseSpaces(s: string)
    ensures SingleSpaced(Collapse(s))
    decreases |s|
  {
    var r := Collapse(s);
    if s != [] {
      var t := if IsSpace(s[0]) then TrimStart(s[1..]) else s[1..];
      if IsSpace(s[0]) {
        TrimStartShape(s[1..]);
      }
      CollapseSpaces(t);
      var c := Collapse(t);
      assert r == (if IsSpace(s[0]) then [' '] else [s[0]]) + c;
      assert r[0] == (if IsSpace(s[0]) then ' ' else s[0]);
      forall i | 0 <= i < |r| && IsSpace(r[i]) ensures r[i] == ' ' {
        if i > 0 { assert r[i] == c[i - 1]; }
      }
      forall i | 0 <= i < |r| - 1 ensures !(r[i] == ' ' && r[i + 1] == ' ') {
        assert r[i + 1] == c[i];
        if i > 0 { assert r[i] == c[i - 1]; }
        else if IsSpace(s[0]) { assert !IsSpace(t[0]); }
      }
    }
  }

  /** Collapsing keeps every non-whitespace character, in order. */
  lemma {:induction false} CollapseNonSpace(s: string)
    ensures NonSpace(Collapse(s)) == NonSpace(s)
    decreases |s|
  {
    if s != [] {
      var r := Collapse(s);
      if IsSpace(s[0]) {
        var t := TrimStart(s[1..]);
        TrimStartShape(s[1..]);
        CollapseNonSpace(t);
        var pre := s[..|s| - |t|];
        assert s == pre + t;
        assert AllSpace(pre) by {
          forall i | 0 <= i < |pre| ensures IsSpace(pre[i]) {
            if i > 0 { assert pre[i] == s[1..][..|s| - 1 - |t|][i - 1]; }
          }
        }
        NonSpaceOfSpaces(pre);
        NonSpaceAppend(pre, t);
        NonSpaceAppend([' '], Collapse(t));
      } else {
        CollapseNonSpace(s[1..]);
        assert s == [s[0]] + s[1..];
        NonSpaceAppend([s[0]], s[1..]);
        NonSpaceAppend([s[0]], Collapse(s[1..]));
      }
    }
  }

  /** The non-whitespace characters are gone exactly when nothing but whitespace is left. */
  lemma {:induction false} NonSpaceEmpty(s: string)
    ensures NonSpace(s) == [] <==> AllSpace(s)
    decreases |s|
  {
    if s != [] {
      NonSpaceEmpty(s[1..]);
      if AllSpace(s[1..]) && IsSpace(s[0]) {
        forall i | 0 <= i < |s| ensures IsSpace(s[i]) { if i > 0 { assert s[i] == s[1..][i - 1]; } }
      }
    }
  }

  /** The cleaned text (lines 67-72): whitespace occurs only as single spaces
      (in particular there is no newline left), it has no whitespace at either
      end, it is empty exactly when the input is whitespace-only, and it keeps
      every other character of the input in order. */
  lemma NormalizeShape(s: string)
    ensures SingleSpaced(Normalize(s))
    ensures forall i :: 0 <= i < |Normalize(s)| ==> Normalize(s)[i] != '\n'
    ensures IsTrimmed(Normalize(s))
    ensures Normalize(s) == [] <==> AllSpace(s)
    ensures NonSpace(Normalize(s)) == NonSpace(s)
  {
    var r := Collapse(s);
    CollapseSpaces(s);
    var a, b := TrimSlice(r);
    var t := Normalize(s);
    forall i | 0 <= i < |t| ensures t[i] == r[a + i] { }
    NormalizeNonSpace(s, a, b);
    NonSpaceEmpty(t);
    NonSpaceEmpty(s);
  }

  /** Cutting whitespace off both ends keeps every other character. */
  lemma NonSpaceMiddle(r: string, a: nat, b: nat)
    requires a <= b <= |r| && AllSpace(r[..a]) && AllSpace(r[b..])
    ensures NonSpace(r[a..b]) == NonSpace(r)
  {
    var t := r[a..b];
    assert r == r[..a] + t + r[b..];
    NonSpaceAppend(r[..a] + t, r[b..]);
    NonSpaceAppend(r[..a], t);
    NonSpaceOfSpaces(r[..a]);
    NonSpaceOfSpaces(r[b..]);
  }

  lemma NormalizeNonSpace(s: string, a: nat, b: nat)
    requires a <= b <= |Collapse(s)| && Normalize(s) == Collapse(s)[a..b]
    requires AllSpace(Collapse(s)[..a]) && AllSpace(Collapse(s)[b..])
    ensures NonSpace(Normalize(s)) == NonSpace(s)
  {
    CollapseNonSpace(s);
    NonSpaceMiddle(Collapse(s), a, b);
  }

  // ---------------------------------------------------------------------------
  // Windows of the cleaned text
  // ---------------------------------------------------------------------------

  /** A sentence or paragraph boundary (lines 80-82). */
  predicate IsBreak(c: char) { c == '.' || c == '\n' }

  /** The last position before `k` that holds `c`, or -1. */
  function LastIndexBefore(s: string, c: char, k: nat): (r: int)
    requires k <= |s|
    ensures -1 <= r < k
    ensures r >= 0 ==> s[r] == c
    ensures forall j :: r < j < k ==> s[j] != c
  {
    if k == 0 then -1
    else if s[k - 1] == c then k - 1
    else LastIndexBefore(s, c, k - 1)
  }

  /** `String.prototype.lastIndexOf` for one character: -1 when absent. */
  function LastIndexOf(s: string, c: char): (r: int)
    ensures -1 <= r < |s|
    ensures r >= 0 ==> s[r] == c
    ensures forall k :: r < k < |s| ==> s[k] != c
  {
    LastIndexBefore(s, c, |s|)
  }

  /** The break point of a window: the position of its last '.' or newline. */
  function BreakPoint(w: string): (bp: int)
    ensures -1 <= bp < |w|
    ensures bp >= 0 ==> IsBreak(w[bp])
    ensures forall k :: bp < k < |w| ==> !IsBreak(w[k])
  {
    Max(LastIndexOf(w, '.'), LastIndexOf(w, '\n'))
  }

  /** Scans `t[start..k]` backwards for a break that lies beyond half of `cs`:
      the window ends just after the first one found, and at `start + cs` (or the
      end of the text) when there is none. */
  function CutEnd(t: string, start: nat, cs: nat, k: nat): (e: nat)
    requires start < |t| && 0 < cs && start <= k <= Min(start + cs, |t|)
    ensures start < e <= |t| && e - start <= cs
    ensures e == |t| <==> start + cs >= |t|
    ensures e < |t| ==> 2 * (e - start) > cs
    decreases k
  {
    var end := Min(start + cs, |t|);
    if end == |t| || k <= start || 2 * (k - 1 - start) <= cs then end
    else if IsBreak(t[k - 1]) then k
    else CutEnd(t, start, cs, k - 1)
  }

  /** Exclusive end of the window that starts at `start` (lines 75-87): it never
      exceeds `cs` characters, reaches the end of the text exactly when `cs`
      characters would, and a window that stops short keeps more than half of `cs`. */
  function WindowEnd(t: string, start: nat, cs: nat): (e: nat)
    requires start < |t| && 0 < cs
    ensures start < e <= |t| && e - start <= cs
    ensures e == |t| <==> start + cs >= |t|
    ensures e < |t| ==> 2 * (e - start) > cs
  {
    CutEnd(t, start, cs, Min(start + cs, |t|))
  }

  /** The scan from `k` finds the window's break point once every break of the
      window lies before `k`. */
  lemma {:induction false} CutEndFindsBreakPoint(t: string, start: nat, cs: nat, k: nat, w: string)
    requires start < |t| && 0 < cs && start + cs < |t| && start <= k <= start + cs
    requires w == t[start..start + cs] && BreakPoint(w) < k - start
    ensures 2 * BreakPoint(w) > cs ==> CutEnd(t, start, cs, k) == start + BreakPoint(w) + 1
    ensures 2 * BreakPoint(w) <= cs ==> CutEnd(t, start, cs, k) == start + cs
    decreases k
  {
    var bp := BreakPoint(w);
    if k <= start || 2 * (k - 1 - start) <= cs {
    } else {
      assert t[k - 1] == w[k - 1 - start];
      if IsBreak(t[k - 1]) {
        assert bp == k - 1 - start;
      } else {
        assert bp != k - 1 - start;
        CutEndFindsBreakPoint(t, start, cs, k - 1, w);
      }
    }
  }

  /** Lines 80-86: a window that is not the last is cut just after its break
      point (its last '.' or newline) when that lies beyond half of `cs`, and
      keeps all `cs` characters otherwise. */
  lemma WindowEndBreakPoint(t: string, start: nat, cs: nat)
    requires start < |t| && 0 < cs && start + cs < |t|
    ensures 2 * BreakPoint(t[start..start + cs]) > cs ==>
      WindowEnd(t, start, cs) == start + BreakPoint(t[start..start + cs]) + 1
    ensures 2 * BreakPoint(t[start..start + cs]) <= cs ==> WindowEnd(t, start, cs) == start + cs
  {
    CutEndFindsBreakPoint(t, start, cs, start + cs, t[start..start + cs]);
  }

  /** The same cut, stated without `lastIndexOf`: either the window ends just
      after a break beyond half of `cs` with no break after it, or it keeps all
      `cs` characters and none of its breaks lies beyond the half. */
  lemma WindowEndCut(t: string, start: nat, cs: nat)
    requires start < |t| && 0 < cs && start + cs < |t|
    ensures
      || (&& IsBreak(t[WindowEnd(t, start, cs) - 1])
          && 2 * (WindowEnd(t, start, cs) - 1 - start) > cs
          && forall k :: WindowEnd(t, start, cs) <= k < start + cs ==> !IsBreak(t[k]))
      || (&& WindowEnd(t, start, cs) == start + cs
          && forall k :: start <= k < start + cs && IsBreak(t[k]) ==> 2 * (k - start) <= cs)
  {
    var w := t[start..start + cs];
    WindowEndBreakPoint(t, start, cs);
    assert forall k :: start <= k < start + cs ==> t[k] == w[k - start];
  }

  /** An untrimmed window `t[lo..hi]`. */
  datatype Span = Span(lo: nat, hi: nat)

  /** The windows the corrected loop visits from `start`: each next window starts
      `ov` characters before the end of the previous one, and the loop stops after
      the window that reaches the end of the text. */
  function WindowsFrom(t: string, start: nat, cs: nat, ov: nat): (ws: seq<Span>)
    requires start < |t| && 0 < cs && 2 * ov <= cs
    ensures |ws| >= 1 && ws[0].lo == start
    decreases |t| - start
  {
    var e := WindowEnd(t, start, cs);
    if e == |t| then [Span(start, e)]
    else [Span(start, e)] + WindowsFrom(t, e - ov, cs, ov)
  }

  /** Window `i` starts inside the text and ends where `WindowEnd` says for its
      start. */
  lemma {:induction false} WindowBounds(t: string, start: nat, cs: nat, ov: nat, i: nat)
    requires start < |t| && 0 < cs && 2 * ov <= cs && i < |WindowsFrom(t, start, cs, ov)|
    ensures WindowsFrom(t, start, cs, ov)[i].lo < |t|
    ensures WindowsFrom(t, start, cs, ov)[i].hi == WindowEnd(t, WindowsFrom(t, start, cs, ov)[i].lo, cs)
    decreases |t| - start
  {
    var ws := WindowsFrom(t, start, cs, ov);
    var e := WindowEnd(t, start, cs);
    if e < |t| {
      var rest := WindowsFrom(t, e - ov, cs, ov);
      assert ws == [Span(start, e)] + rest;
      if i == 0 {
      } else {
        WindowBounds(t, e - ov, cs, ov, i - 1);
        assert ws[i] == rest[i - 1];
      }
    }
  }

  /** Only the last window reaches the end of the text. */
  lemma {:induction false} WindowLast(t: string, start: nat, cs: nat, ov: nat, i: nat)
    requires start < |t| && 0 < cs && 2 * ov <= cs && i < |WindowsFrom(t, start, cs, ov)|
    ensures WindowsFrom(t, start, cs, ov)[i].hi == |t| <==> i + 1 == |WindowsFrom(t, start, cs, ov)|
    decreases |t| - start
  {
    var ws := WindowsFrom(t, start, cs, ov);
    var e := WindowEnd(t, start, cs);
    if e < |t| {
      var rest := WindowsFrom(t, e - ov, cs, ov);
      assert ws == [Span(start, e)] + rest;
      if i == 0 {
      } else {
        WindowLast(t, e - ov, cs, ov, i - 1);
        assert ws[i] == rest[i - 1];
      }
    }
  }

  /** Each next window starts `ov` characters before the end of the previous one. */
  lemma {:induction false} WindowLink(t: string, start: nat, cs: nat, ov: nat, i: nat)
    requires start < |t| && 0 < cs && 2 * ov <= cs && i < |WindowsFrom(t, start, cs, ov)|
    ensures i + 1 < |WindowsFrom(t, start, cs, ov)| ==>
      WindowsFrom(t, start, cs, ov)[i + 1].lo == WindowsFrom(t, start, cs, ov)[i].hi - ov
    decreases |t| - start
  {
    var ws := WindowsFrom(t, start, cs, ov);
    var e := WindowEnd(t, start, cs);
    if e < |t| {
      var rest := WindowsFrom(t, e - ov, cs, ov);
      assert ws == [Span(start, e)] + rest;
      if i == 0 {
        assert ws[1] == rest[0];
      } else {
        WindowLink(t, e - ov, cs, ov, i - 1);
        assert ws[i] == rest[i - 1];
        if i + 1 < |ws| {
          assert ws[i + 1] == rest[i];
        }
      }
    }
  }

  /** The three facts above about window `i`, together. */
  lemma WindowLinks(t: string, start: nat, cs: nat, ov: nat, i: nat)
    requires start < |t| && 0 < cs && 2 * ov <= cs && i < |WindowsFrom(t, start, cs, ov)|
    ensures WindowsFrom(t, start, cs, ov)[i].lo < |t|
    ensures WindowsFrom(t, start, cs, ov)[i].hi == WindowEnd(t, WindowsFrom(t, start, cs, ov)[i].lo, cs)
    ensures WindowsFrom(t, start, cs, ov)[i].hi == |t| <==> i + 1 == |WindowsFrom(t, start, cs, ov)|
    ensures i + 1 < |WindowsFrom(t, start, cs, ov)| ==>
      WindowsFrom(t, start, cs, ov)[i + 1].lo == WindowsFrom(t, start, cs, ov)[i].hi - ov
  {
    WindowBounds(t, start, cs, ov, i);
    WindowLast(t, start, cs, ov, i);
    WindowLink(t, start, cs, ov, i);
  }

  predicate InSpan(w: Span, k: nat) { w.lo <= k < w.hi }

  /** No gap: every character from `start` on lies inside some window. */
  lemma {:induction false} WindowsCover(t: string, start: nat, cs: nat, ov: nat, k: nat)
    requires start <= k < |t| && 0 < cs && 2 * ov <= cs
    ensures exists i :: 0 <= i < |WindowsFrom(t, start, cs, ov)| && InSpan(WindowsFrom(t, start, cs, ov)[i], k)
    decreases |t| - start
  {
    var ws := WindowsFrom(t, start, cs, ov);
    var e := WindowEnd(t, start, cs);
    if k < e {
      assert ws[0] == Span(start, e);
      assert InSpan(ws[0], k);
    } else {
      var rest := WindowsFrom(t, e - ov, cs, ov);
      assert ws == [Span(start, e)] + rest;
      WindowsCover(t, e - ov, cs, ov, k);
      var i :| 0 <= i < |rest| && InSpan(rest[i], k);
      assert ws[i + 1] == rest[i];
    }
  }

  // ---------------------------------------------------------------------------
  // Chunks
  // ---------------------------------------------------------------------------

  /** The text a window covers (empty for a span that does not fit the text,
      which no span of `WindowsFrom` is). */
  function Window(t: string, w: Span): string {
    if w.lo <= w.hi <= |t| then t[w.lo..w.hi] else []
  }

  /** The texts of a sequence of windows. */
  function Texts(t: string, ws: seq<Span>): (r: seq<string>)
    ensures |r| == |ws|
  {
    seq(|ws|, i requires 0 <= i < |ws| => Window(t, ws[i]))
  }

  /** Lines 89-92: a window's trimmed text is appended unless it is empty. */
  function Keep(acc: seq<string>, w: string): seq<string> {
    var c := Trim(w);
    if |c| > 0 then acc + [c] else acc
  }

  /** The chunks the first `k` window texts of `ws` give. */
  function Pieces(ws: seq<string>, k: nat): seq<string>
    requires k <= |ws|
  {
    if k == 0 then [] else Keep(Pieces(ws, k - 1), ws[k - 1])
  }

  /** What `chunkText(text, cs, ov)` returns, with the loop exit of `ChunkText`:
      the kept pieces of all windows of the cleaned text. */
  function Chunks(text: string, cs: nat, ov: nat): seq<string>
    requires 0 < cs && 2 * ov <= cs
  {
    var t := Normalize(text);
    if t == [] then []
    else
      var ws := Texts(t, WindowsFrom(t, 0, cs, ov));
      Pieces(ws, |ws|)
  }

  ghost predicate IsSliceOf(c: string, t: string) {
    exists a, b :: 0 <= a <= b <= |t| && t[a..b] == c
  }

  lemma SliceOfSlice(c: string, w: string, t: string)
    requires IsSliceOf(c, w) && IsSliceOf(w, t)
    ensures IsSliceOf(c, t)
  {
    var a, b :| 0 <= a <= b <= |w| && w[a..b] == c;
    var lo, hi :| 0 <= lo <= hi <= |t| && t[lo..hi] == w;
    assert |w| == hi - lo;
    forall i | 0 <= i < b - a ensures c[i] == t[lo + a + i] {
      assert c[i] == w[a + i];
    }
    assert t[lo + a..lo + b] == c;
  }

  /** Every window of `ws` is a slice of `t` no longer than `cs`. */
  ghost predicate WindowsOf(ws: seq<string>, t: string, cs: nat) {
    forall j :: 0 <= j < |ws| ==> |ws[j]| <= cs && IsSliceOf(ws[j], t)
  }

  /** Every kept piece is non-empty, trimmed, no longer than its window and a
      contiguous slice of the text. */
  lemma {:induction false} PiecesShape(ws: seq<string>, k: nat, t: string, cs: nat)
    requires k <= |ws| && WindowsOf(ws, t, cs)
    ensures |Pieces(ws, k)| <= k
    ensures forall i :: 0 <= i < |Pieces(ws, k)| ==>
      Pieces(ws, k)[i] != [] && IsTrimmed(Pieces(ws, k)[i])
      && |Pieces(ws, k)[i]| <= cs && IsSliceOf(Pieces(ws, k)[i], t)
  {
    if k > 0 {
      PiecesShape(ws, k - 1, t, cs);
      var w := ws[k - 1];
      var c := Trim(w);
      var a, b := TrimSlice(w);
      assert IsSliceOf(c, w);
      SliceOfSlice(c, w, t);
      var before := Pieces(ws, k - 1);
      if |c| > 0 {
        assert Pieces(ws, k) == before + [c];
      }
    }
  }

  /** Later windows only append: the chunks of the first `j` windows are a prefix
      of those of the first `k`. */
  lemma {:induction false} PiecesGrow(ws: seq<string>, j: nat, k: nat)
    requires j <= k <= |ws|
    ensures Pieces(ws, j) <= Pieces(ws, k)
    decreases k
  {
    if j < k {
      PiecesGrow(ws, j, k - 1);
      KeepGrows(Pieces(ws, k - 1), ws[k - 1]);
      PrefixTrans(Pieces(ws, j), Pieces(ws, k - 1), Pieces(ws, k));
    }
  }

  lemma PrefixTrans<T>(a: seq<T>, b: seq<T>, c: seq<T>)
    requires a <= b && b <= c
    ensures a <= c
  {
    assert a == b[..|a|] && b == c[..|b|];
    assert c[..|b|][..|a|] == c[..|a|];
  }

  /** Keeping a window's piece only appends. */
  lemma KeepGrows(acc: seq<string>, w: string)
    ensures acc <= Keep(acc, w)
  {
    var c := Trim(w);
    if |c| > 0 {
      assert Keep(acc, w) == acc + [c];
      assert (acc + [c])[..|acc|] == acc;
    }
  }

  /** The window texts of `WindowsFrom` are slices of the text of at most `cs`
      characters. */
  lemma WindowTexts(t: string, cs: nat, ov: nat)
    requires t != [] && 0 < cs && 2 * ov <= cs
    ensures WindowsOf(Texts(t, WindowsFrom(t, 0, cs, ov)), t, cs)
  {
    var ws := WindowsFrom(t, 0, cs, ov);
    var texts := Texts(t, ws);
    forall j | 0 <= j < |texts| ensures |texts[j]| <= cs && IsSliceOf(texts[j], t) {
      WindowLinks(t, 0, cs, ov, j);
      assert texts[j] == t[ws[j].lo..ws[j].hi];
    }
  }

  /** Every chunk is non-empty, equal to its own `trim()`, at most `cs` long and a
      contiguous slice of the cleaned text (lines 75-92); whitespace-only input
      gives no chunk and any other input at least one (lines 70-72). */
  lemma ChunksShape(text: string, cs: nat, ov: nat)
    requires 0 < cs && 2 * ov <= cs
    ensures AllSpace(text) <==> Chunks(text, cs, ov) == []
    ensures forall i :: 0 <= i < |Chunks(text, cs, ov)| ==>
      Chunks(text, cs, ov)[i] != [] && IsTrimmed(Chunks(text, cs, ov)[i])
      && |Chunks(text, cs, ov)[i]| <= cs && IsSliceOf(Chunks(text, cs, ov)[i], Normalize(text))
  {
    var t := Normalize(text);
    NormalizeShape(text);
    if t != [] {
      var spans := WindowsFrom(t, 0, cs, ov);
      var ws := Texts(t, spans);
      WindowTexts(t, cs, ov);
      PiecesShape(ws, |ws|, t, cs);
      WindowLinks(t, 0, cs, ov, 0);
      var first := ws[0];
      assert first == t[0..spans[0].hi];
      assert first[0] == t[0];
      TrimEmpty(first);
      assert Pieces(ws, 1) == [Trim(first)];
      PiecesGrow(ws, 1, |ws|);
    }
  }

  /** The window of lines 75-87: `text.slice(start, end)`, cut after its last
      '.' or newline when it is not the last window and that break lies beyond
      half of `chunkSize`. */
  method CutWindow(t: string, start: nat, end: nat, chunkSize: nat) returns (chunk: string)
    requires start < |t| && 0 < chunkSize && end == Min(start + chunkSize, |t|)
    ensures chunk == t[start..WindowEnd(t, start, chunkSize)]
  {
    chunk := t[start..end];
    if end < |t| {
      WindowEndBreakPoint(t, start, chunkSize);
      var lastPeriod := LastIndexOf(chunk, '.');
      var lastNewline := LastIndexOf(chunk, '\n');
      var breakPoint := Max(lastPeriod, lastNewline);
      if 2 * breakPoint > chunkSize {
        chunk := chunk[..breakPoint + 1];
      }
    }
  }

  /** Lines 89-92: `chunks.push(trimmed)` when the trimmed window is non-empty. */
  method PushChunk(chunks: seq<string>, chunk: string) returns (r: seq<string>)
    ensures r == Keep(chunks, chunk)
  {
    r := chunks;
    var trimmed := Trim(chunk);
    if |trimmed| > 0 {
      r := r + [trimmed];
    }
  }

  /** One pass of the loop body (lines 75-96) on window `k`: it appends that
      window's piece, reports whether the window reached the end of the text and
      otherwise moves `start` to where window `k + 1` begins. */
  method ChunkStep(t: string, chunkSize: nat, overlap: nat, ghost ws: seq<Span>, ghost k: nat,
                   start: nat, chunks: seq<string>)
    returns (chunks': seq<string>, next: nat, done: bool)
    requires t != [] && 0 < chunkSize && 2 * overlap <= chunkSize
    requires ws == WindowsFrom(t, 0, chunkSize, overlap) && k < |ws| && ws[k].lo == start
    requires chunks == Pieces(Texts(t, ws), k)
    ensures chunks' == Pieces(Texts(t, ws), k + 1)
    ensures done <==> k + 1 == |ws|
    ensures !done ==> ws[k + 1].lo == next
  {
    WindowLinks(t, 0, chunkSize, overlap, k);
    var end := Min(start + chunkSize, |t|);
    var chunk := CutWindow(t, start, end, chunkSize);
    chunks' := PushChunk(chunks, chunk);
    done := end == |t|;
    next := start;
    if !done {
      next := start + |chunk| - overlap;
    }
  }

  /** The loop of lines 74-97 over the cleaned, non-empty text, with one added
      exit: it is left once a window reaches the end of the text. */
  method ChunkWindows(t: string, chunkSize: nat, overlap: nat) returns (chunks: seq<string>)
    requires t != [] && 0 < chunkSize && 2 * overlap <= chunkSize
    ensures chunks == Pieces(Texts(t, WindowsFrom(t, 0, chunkSize, overlap)), |WindowsFrom(t, 0, chunkSize, overlap)|)
  {
    chunks := [];
    ghost var ws := WindowsFrom(t, 0, chunkSize, overlap);
    ghost var texts := Texts(t, ws);
    ghost var k := 0;
    var start: nat := 0;
    while true
      invariant k < |ws| && ws[k].lo == start
      invariant chunks == Pieces(texts, k)
      decreases |ws| - k
    {
      var done;
      chunks, start, done := ChunkStep(t, chunkSize, overlap, ws, k, start, chunks);
      if done {
        return;
      }
      k := k + 1;
    }
  }

  /** `chunkText(text, chunkSize, overlap)` (lines 64-100) with the corrected
      loop exit. */
  method ChunkText(text: string, chunkSize: nat, overlap: nat) returns (chunks: seq<string>)
    requires 0 < chunkSize && 2 * overlap <= chunkSize
    ensures chunks == Chunks(text, chunkSize, overlap)
  {
    var t := Normalize(text);
    if t == [] {
      return [];
    }
    chunks := ChunkWindows(t, chunkSize, overlap);
  }

  // ---------------------------------------------------------------------------
  // The loop as written (lines 74-97), one iteration at a time
  // ---------------------------------------------------------------------------

  /** `String.prototype.slice` index normalisation: negative indices count from
      the end, and everything is clamped to `[0, len]`. */
  function JsIndex(len: nat, i: int): (r: nat)
    ensures r <= len
    ensures 0 <= i <= len ==> r == i
  {
    if i < 0 then (if len + i < 0 then 0 else len + i) else if i > len then len else i
  }

  function JsSlice(s: string, start: int, end: int): (r: string)
    ensures |r| <= |s|
    ensures 0 <= start <= end <= |s| ==> r == s[start..end]
    ensures 0 <= start <= |s| ==> |r| <= |s| - start
  {
    var a, b := JsIndex(|s|, start), JsIndex(|s|, end);
    if a < b then s[a..b] else []
  }

  /** The chunk one pass of the loop as written measures (lines 75-87). */
  function AsWrittenChunk(t: string, start: int, cs: nat): (chunk: string)
    ensures |chunk| <= |t|
    ensures 0 <= start <= |t| ==> |chunk| <= |t| - start
  {
    var end := Min(start + cs, |t|);
    var window := JsSlice(t, start, end);
    if end < |t| then
      var bp := BreakPoint(window);
      if 2 * bp > cs then JsSlice(window, 0, bp + 1) else window
    else window
  }

  /** The `start` the next pass of the loop as written uses (line 95). It never
      passes the end of the text minus `ov`, because the chunk it measures never
      extends past the end of the text. */
  function AsWrittenNext(t: string, start: int, cs: nat, ov: nat): (next: int)
    ensures start < |t| ==> next <= |t| - ov
  {
    start + |AsWrittenChunk(t, start, cs)| - ov
  }

  /** One pass of the loop body: the chunk pushed (if any) and the next `start`. */
  datatype Iteration = Iteration(pushed: seq<string>, next: int)

  function AsWrittenIteration(t: string, start: int, cs: nat, ov: nat): Iteration {
    Iteration(Keep([], AsWrittenChunk(t, start, cs)), AsWrittenNext(t, start, cs, ov))
  }

  /** `start` after `n` passes of the loop as written, from 0. */
  function AsWrittenStart(t: string, cs: nat, ov: nat, n: nat): int {
    if n == 0 then 0 else AsWrittenNext(t, AsWrittenStart(t, cs, ov, n - 1), cs, ov)
  }

  /** As written the loop never exits once the text is non-empty and the overlap
      positive: neither the loop test (line 74) nor the break (line 96) ever sees
      `start >= length`. */
  lemma {:induction false} AsWrittenNeverExits(t: string, cs: nat, ov: nat, n: nat)
    requires |t| > 0 && ov > 0
    ensures AsWrittenStart(t, cs, ov, n) < |t|
  {
    if n > 0 {
      AsWrittenNeverExits(t, cs, ov, n - 1);
    }
  }

  /** Once `start` is `length - ov` (what the window that reaches the end leaves
      behind), the loop as written repeats that window forever. */
  lemma AsWrittenStalls(t: string, cs: nat, ov: nat)
    requires ov <= |t| && ov <= cs
    ensures AsWrittenIteration(t, |t| - ov, cs, ov).next == |t| - ov
    ensures AsWrittenIteration(t, |t| - ov, cs, ov).pushed == Keep([], t[|t| - ov..])
  {
    var window := JsSlice(t, |t| - ov, |t|);
    assert window == t[|t| - ov..];
  }

  /** The chunk the loop as written measures for a window that is not the last,
      in terms of the window's break point. */
  lemma AsWrittenChunkNotLast(t: string, start: nat, cs: nat)
    requires start < |t| && 0 < cs && start + cs < |t|
    ensures 2 * BreakPoint(t[start..start + cs]) > cs ==>
      AsWrittenChunk(t, start, cs) == t[start..start + BreakPoint(t[start..start + cs]) + 1]
    ensures 2 * BreakPoint(t[start..start + cs]) <= cs ==>
      AsWrittenChunk(t, start, cs) == t[start..start + cs]
  {
    if 2 * BreakPoint(t[start..start + cs]) > cs {
      AsWrittenChunkCut(t, start, cs);
    } else {
      AsWrittenChunkWhole(t, start, cs);
    }
  }

  lemma AsWrittenChunkCut(t: string, start: nat, cs: nat)
    requires start < |t| && 0 < cs && start + cs < |t|
    requires 2 * BreakPoint(t[start..start + cs]) > cs
    ensures AsWrittenChunk(t, start, cs) == t[start..start + BreakPoint(t[start..start + cs]) + 1]
  {
    var window := t[start..start + cs];
    assert JsSlice(t, start, start + cs) == window;
    var bp := BreakPoint(window);
    assert JsSlice(window, 0, bp + 1) == window[..bp + 1];
    assert window[..bp + 1] == t[start..start + bp + 1];
  }

  lemma AsWrittenChunkWhole(t: string, start: nat, cs: nat)
    requires start < |t| && 0 < cs && start + cs < |t|
    requires 2 * BreakPoint(t[start..start + cs]) <= cs
    ensures AsWrittenChunk(t, start, cs) == t[start..start + cs]
  {
    assert JsSlice(t, start, start + cs) == t[start..start + cs];
  }

  /** A window that is not the last: the loop as written cuts it where the
      corrected one does. */
  lemma AsWrittenCutAgrees(t: string, start: nat, cs: nat)
    requires start < |t| && 0 < cs && start + cs < |t|
    ensures AsWrittenChunk(t, start, cs) == t[start..WindowEnd(t, start, cs)]
  {
    AsWrittenChunkNotLast(t, start, cs);
    WindowEndBreakPoint(t, start, cs);
  }

  /** On the windows the corrected loop visits, the loop as written measures the
      same chunk and computes the same next `start`; the two differ only in the
      added exit. */
  lemma AsWrittenAgreesBeforeEnd(t: string, start: nat, cs: nat, ov: nat)
    requires start < |t| && 0 < cs
    ensures AsWrittenChunk(t, start, cs) == t[start..WindowEnd(t, start, cs)]
    ensures AsWrittenIteration(t, start, cs, ov).next == WindowEnd(t, start, cs) - ov
  {
    if start + cs < |t| {
      AsWrittenCutAgrees(t, start, cs);
    } else {
      assert JsSlice(t, start, |t|) == t[start..];
    }
  }

  // ---------------------------------------------------------------------------
  // Embeddings (lines 18-61)
  // ---------------------------------------------------------------------------

  /** `text.slice(0, 8000)`. */
  function TruncateInput(s: string): (r: string)
    ensures |r| == Min(|s|, MaxInputChars) && r == s[..|r|]
  {
    if |s| <= MaxInputChars then s else s[..MaxInputChars]
  }

  function TruncateAll(b: seq<string>): (r: seq<string>)
    ensures |r| == |b| && forall i :: 0 <= i < |b| ==> r[i] == TruncateInput(b[i])
  {
    seq(|b|, i requires 0 <= i < |b| => TruncateInput(b[i]))
  }

  function BatchError(m: string): string {
    "Failed to create embeddings: " + MessageOr(m, "Unknown error")
  }

  function OneError(m: string): string {
    "Failed to create embedding: " + MessageOr(m, "Unknown error")
  }

  /** What reading `response.data[0].embedding` of an empty list throws. */
  const MissingVector: string := "Cannot read properties of undefined (reading 'embedding')"

  /** The consecutive batches of at most `BatchSize` inputs, in input order. */
  function Batches(texts: seq<string>): seq<seq<string>>
    decreases |texts|
  {
    if texts == [] then []
    else
      var k := Min(BatchSize, |texts|);
      [texts[..k]] + Batches(texts[k..])
  }

  function Concat<T>(ss: seq<seq<T>>): seq<T> {
    if ss == [] then [] else ss[0] + Concat(ss[1..])
  }

  /** What `createEmbeddings(texts)` returns: the batch responses concatenated in
      order, or the wrapped message of the first batch error. */
  function EmbedAll(texts: seq<string>, provider: Provider): Result<seq<Vector>>
    decreases |texts|
  {
    if texts == [] then Ok([])
    else
      var k := Min(BatchSize, |texts|);
      match provider(TruncateAll(texts[..k]))
      case Err(m) => Err(BatchError(m))
      case Ok(vs) =>
        match EmbedAll(texts[k..], provider)
        case Err(m) => Err(m)
        case Ok(rest) => Ok(vs + rest)
  }

  function Prepend(vs: seq<Vector>, r: Result<seq<Vector>>): Result<seq<Vector>> {
    match r
    case Err(m) => Err(m)
    case Ok(rest) => Ok(vs + rest)
  }

  function Rest<T>(s: seq<T>, i: nat): seq<T> {
    if i <= |s| then s[i..] else []
  }

  /** The loop of lines 40-54: a batch of at most 20 truncated inputs per provider
      call, responses appended in order; a provider error ends the call with the
      wrapped message and no partial result. The pause between batches is not
      modelled. */
  method CreateEmbeddings(texts: seq<string>, provider: Provider) returns (r: Result<seq<Vector>>)
    ensures r == EmbedAll(texts, provider)
  {
    var all: seq<Vector> := [];
    var i: nat := 0;
    PrependNil(EmbedAll(texts, provider));
    while i < |texts|
      invariant EmbedAll(texts, provider) == Prepend(all, EmbedAll(Rest(texts, i), provider))
    {
      var hi := Min(i + BatchSize, |texts|);
      var batch := TruncateAll(texts[i..hi]);
      ghost var rest := Rest(texts, i);
      assert rest[..hi - i] == texts[i..hi];
      assert rest[hi - i..] == Rest(texts, i + BatchSize);
      var response := provider(batch);
      if response.Err? {
        assert EmbedAll(rest, provider) == Err(BatchError(response.msg));
        return Err(BatchError(response.msg));
      }
      PrependAppend(all, response.value, EmbedAll(Rest(texts, i + BatchSize), provider));
      all := all + response.value;
      i := i + BatchSize;
    }
    assert Rest(texts, i) == [];
    assert all + [] == all;
    r := Ok(all);
  }

  lemma PrependNil(r: Result<seq<Vector>>)
    ensures Prepend([], r) == r
  {
    if r.Ok? {
      assert [] + r.value == r.value;
    }
  }

  lemma PrependAppend(a: seq<Vector>, b: seq<Vector>, r: Result<seq<Vector>>)
    ensures Prepend(a, Prepend(b, r)) == Prepend(a + b, r)
  {
    if r.Ok? {
      assert a + (b + r.value) == (a + b) + r.value;
    }
  }

  /** `createEmbedding(text)`: one truncated input, the first vector of the reply. */
  function EmbedOne(text: string, provider: Provider): Result<Vector> {
    match provider([TruncateInput(text)])
    case Err(m) => Err(OneError(m))
    case Ok(vs) => if vs == [] then Err(OneError(MissingVector)) else Ok(vs[0])
  }

  /** The batches partition the input in order: their concatenation is the input,
      each holds 1 to 20 inputs, and all but the last hold exactly 20. */
  lemma {:induction false} BatchesPartition(texts: seq<string>)
    ensures Concat(Batches(texts)) == texts
    ensures forall i :: 0 <= i < |Batches(texts)| ==> 1 <= |Batches(texts)[i]| <= BatchSize
    ensures forall i :: 0 <= i < |Batches(texts)| - 1 ==> |Batches(texts)[i]| == BatchSize
    decreases |texts|
  {
    if texts != [] {
      var k := Min(BatchSize, |texts|);
      BatchesPartition(texts[k..]);
      var bs := Batches(texts);
      assert bs == [texts[..k]] + Batches(texts[k..]);
      assert bs[1..] == Batches(texts[k..]);
      assert texts == texts[..k] + texts[k..];
      forall i | 0 <= i < |bs| ensures 1 <= |bs[i]| <= BatchSize {
        if i > 0 { assert bs[i] == Batches(texts[k..])[i - 1]; }
      }
      forall i | 0 <= i < |bs| - 1 ensures |bs[i]| == BatchSize {
        if i > 0 { assert bs[i] == Batches(texts[k..])[i - 1]; }
        else { assert texts[k..] != []; }
      }
    }
  }

  /** A batch error anywhere fails the whole call, and the call fails only for a
      batch error (no partial result is ever returned). */
  lemma {:induction false} EmbedAllFailsIffBatchFails(texts: seq<string>, provider: Provider)
    ensures EmbedAll(texts, provider).Err? <==>
      exists i :: 0 <= i < |Batches(texts)| && provider(TruncateAll(Batches(texts)[i])).Err?
    decreases |texts|
  {
    if texts != [] {
      var k := Min(BatchSize, |texts|);
      EmbedAllFailsIffBatchFails(texts[k..], provider);
      var bs := Batches(texts);
      assert bs[0] == texts[..k];
      forall i | 0 <= i < |bs| - 1 ensures bs[i + 1] == Batches(texts[k..])[i] { }
      if provider(TruncateAll(texts[..k])).Ok? && EmbedAll(texts[k..], provider).Ok? {
        forall i | 0 <= i < |bs| ensures provider(TruncateAll(bs[i])).Ok? {
          if i > 0 { assert bs[i] == Batches(texts[k..])[i - 1]; }
        }
      }
      if EmbedAll(texts[k..], provider).Err? {
        var j :| 0 <= j < |Batches(texts[k..])| && provider(TruncateAll(Batches(texts[k..])[j])).Err?;
        assert bs[j + 1] == Batches(texts[k..])[j];
      }
    }
  }

  /** `f` of each truncated input, in input order. */
  function MapTruncated(texts: seq<string>, f: string -> Vector): (r: seq<Vector>)
    ensures |r| == |texts|
  {
    seq(|texts|, i requires 0 <= i < |texts| => f(TruncateInput(texts[i])))
  }

  /** `f` applied to each input of a batch, in order. */
  function Pointwise(f: string -> Vector, b: seq<string>): (r: seq<Vector>)
    ensures |r| == |b|
  {
    seq(|b|, i requires 0 <= i < |b| => f(b[i]))
  }

  lemma MapTruncatedSplit(texts: seq<string>, k: nat, f: string -> Vector)
    requires k <= |texts|
    ensures MapTruncated(texts, f) == Pointwise(f, TruncateAll(texts[..k])) + MapTruncated(texts[k..], f)
  {
    var b := TruncateAll(texts[..k]);
    var r := Pointwise(f, b) + MapTruncated(texts[k..], f);
    forall j | 0 <= j < |texts| ensures r[j] == MapTruncated(texts, f)[j] {
      if j < k {
        assert b[j] == TruncateInput(texts[j]);
      } else {
        assert texts[k..][j - k] == texts[j];
      }
    }
  }

  /** With a provider that answers each input separately, in place (`f` per input),
      the result is `f` of each truncated input, in input order. */
  lemma {:induction false} EmbedAllPointwise(texts: seq<string>, provider: Provider, f: string -> Vector)
    requires forall b :: provider(b) == Ok(Pointwise(f, b))
    ensures EmbedAll(texts, provider) == Ok(MapTruncated(texts, f))
    decreases |texts|
  {
    if texts != [] {
      var k := Min(BatchSize, |texts|);
      EmbedAllPointwise(texts[k..], provider, f);
      MapTruncatedSplit(texts, k, f);
    }
  }

  /** Output length equals input length when the provider returns exactly one
      vector per input of every batch. */
  lemma {:induction false} EmbedAllCount(texts: seq<string>, provider: Provider)
    requires forall b :: provider(b).Ok? && |provider(b).value| == |b|
    ensures EmbedAll(texts, provider).Ok? && |EmbedAll(texts, provider).value| == |texts|
    decreases |texts|
  {
    if texts != [] {
      var k := Min(BatchSize, |texts|);
      EmbedAllCount(texts[k..], provider);
    }
  }

  /** The count is never checked: a provider that answers every batch with no
      vectors at all makes the call succeed with an empty list, whatever the input. */
  lemma {:induction false} EmbedAllUnchecked(texts: seq<string>, provider: Provider)
    requires forall b :: provider(b) == Ok([])
    ensures EmbedAll(texts, provider) == Ok([])
    decreases |texts|
  {
    if texts != [] {
      var k := Min(BatchSize, |texts|);
      EmbedAllUnchecked(texts[k..], provider);
      var none: seq<Vector> := [];
      assert none + none == none;
    }
  }

  /** `createEmbedding` and a one-element `createEmbeddings` send the same batch;
      when the former succeeds, the latter's first vector is its result. */
  lemma EmbedOneAgreesWithBatch(text: string, provider: Provider)
    ensures EmbedOne(text, provider).Ok? ==>
      && EmbedAll([text], provider).Ok? && |EmbedAll([text], provider).value| > 0
      && EmbedAll([text], provider).value[0] == EmbedOne(text, provider).value
  {
    assert TruncateAll([text][..1]) == [TruncateInput(text)];
    assert [text][1..] == [];
    var reply := provider([TruncateInput(text)]);
    if reply.Ok? && reply.value != [] {
      assert EmbedAll([text], provider) == Ok(reply.value + []);
      assert reply.value + [] == reply.value;
    }
  }
}
