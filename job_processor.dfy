/** The asynchronous job worker (pkg/service/job_processor.go): sentence and
    chunk splitting, chunked translation with progress, and job processing. */
module JobProcessor {
  import opened Wrappers
  import opened Text
  import Decimal
  import opened JobQueue
  import Translator

  /** `NewJobProcessor`'s chunk size: 10 KiB. */
  const DefaultChunkSize: int := 10 * 1024

  // ---------------------------------------------------------------------
  // Sentences
  // ---------------------------------------------------------------------

  predicate IsTerminator(c: char) { c == '.' || c == '!' || c == '?' }

  predicate IsBreak(c: char) { c == ' ' || c == '\n' || c == '\t' }

  /** A sentence ends after position `k`: a terminator followed by a space,
      newline or tab. */
  predicate CutAfter(text: string, k: int)
    requires 0 <= k < |text|
  {
    IsTerminator(text[k]) && k + 1 < |text| && IsBreak(text[k + 1])
  }

  /** The scan of `splitBySentences` from position `k`, with the sentences
      found so far and the text gathered since the last cut. */
  function ScanSentences(text: string, k: nat, sentences: seq<string>, current: string): seq<string>
    requires k <= |text|
    decreases |text| - k
  {
    if k == |text| then
      if TrimSpace(current) != "" then sentences + [TrimSpace(current)] else sentences
    else
      var cur := current + [text[k]];
      if CutAfter(text, k) then ScanSentences(text, k + 1, sentences + [TrimSpace(cur)], "")
      else ScanSentences(text, k + 1, sentences, cur)
  }

  /** The sentences of a text, as `splitBySentences` returns them: each is
      non-empty and trimmed, and each but the last ends in '.', '!' or '?'. */
  function Sentences(text: string): (r: seq<string>)
    ensures SentenceList(r)
  {
    ScanSentencesShape(text, 0, [], "");
    ScanSentences(text, 0, [], "")
  }

  /** `splitBySentences`. */
  method SplitBySentences(text: string) returns (sentences: seq<string>)
    ensures sentences == Sentences(text)
  {
    sentences := [];
    var current := "";
    var i := 0;
    while i < |text|
      invariant 0 <= i <= |text|
      invariant ScanSentences(text, i, sentences, current) == Sentences(text)
    {
      current := current + [text[i]];
      if IsTerminator(text[i]) && i + 1 < |text| {
        var next := text[i + 1];
        if next == ' ' || next == '\n' || next == '\t' {
          sentences := sentences + [TrimSpace(current)];
          current := "";
        }
      }
      i := i + 1;
    }
    if TrimSpace(current) != "" {
      sentences := sentences + [TrimSpace(current)];
    }
  }

  /** A sentence is non-empty and has no white space at either end. */
  predicate Trimmed(s: string) {
    s != [] && !IsSpace(s[0]) && !IsSpace(s[|s| - 1])
  }

  predicate EndsSentence(s: string) {
    s != [] && IsTerminator(s[|s| - 1])
  }

  /** Non-empty trimmed sentences, each but the last ending in a terminator. */
  predicate SentenceList(r: seq<string>) {
    && (forall i :: 0 <= i < |r| ==> Trimmed(r[i]))
    && (forall i :: 0 <= i < |r| - 1 ==> EndsSentence(r[i]))
  }

  /** Sentences closed at a cut: trimmed and ending in a terminator. */
  predicate AllCut(r: seq<string>) {
    forall i :: 0 <= i < |r| ==> Trimmed(r[i]) && EndsSentence(r[i])
  }

  lemma AppendCut(r: seq<string>, t: string)
    requires AllCut(r) && Trimmed(t) && EndsSentence(t)
    ensures AllCut(r + [t])
  {
    assert forall i :: 0 <= i < |r| ==> (r + [t])[i] == r[i];
  }

  lemma AppendLast(r: seq<string>, t: string)
    requires AllCut(r) && Trimmed(t)
    ensures SentenceList(r + [t])
  {
    assert forall i :: 0 <= i < |r| ==> (r + [t])[i] == r[i];
  }

  /** The text gathered up to a cut trims to a sentence. */
  lemma CutPiece(cur: string)
    requires cur != [] && IsTerminator(cur[|cur| - 1])
    ensures Trimmed(TrimSpace(cur)) && EndsSentence(TrimSpace(cur))
  {
    TrimSpaceKeepsLast(cur);
    TrimSpaceProperties(cur);
  }

  lemma {:induction false} ScanSentencesShape(text: string, k: nat, sentences: seq<string>, current: string)
    requires k <= |text|
    requires AllCut(sentences)
    ensures SentenceList(ScanSentences(text, k, sentences, current))
    decreases |text| - k
  {
    if k == |text| {
      TrimSpaceProperties(current);
      if TrimSpace(current) != "" {
        AppendLast(sentences, TrimSpace(current));
      }
    } else {
      var cur := current + [text[k]];
      if CutAfter(text, k) {
        CutPiece(cur);
        AppendCut(sentences, TrimSpace(cur));
        ScanSentencesShape(text, k + 1, sentences + [TrimSpace(cur)], "");
      } else {
        ScanSentencesShape(text, k + 1, sentences, cur);
      }
    }
  }

  // ---------------------------------------------------------------------
  // Chunks
  // ---------------------------------------------------------------------

  /** The chunks closed so far and the chunk being filled. */
  datatype Packing = Packing(chunks: seq<string>, current: string)

  /** Close the current chunk if it has content. */
  function Flush(p: Packing): Packing {
    if p.current != "" then Packing(p.chunks + [p.current], "") else p
  }

  /** One sentence of an over-long paragraph: close the chunk if the sentence
      and a space would overflow it, then append with a space. */
  function AddSentence(p: Packing, sentence: string, max: int): (r: Packing)
    ensures r.chunks == p.chunks || r.chunks == p.chunks + [p.current]
  {
    var q := if Utf8Len(p.current) + Utf8Len(sentence) + 1 > max && p.current != "" then Flush(p) else p;
    Packing(q.chunks, if q.current != "" then q.current + " " + sentence else sentence)
  }

  function PackSentences(p: Packing, sentences: seq<string>, max: int): (r: Packing)
    ensures p.chunks <= r.chunks
    decreases |sentences|
  {
    if sentences == [] then p else PackSentences(AddSentence(p, sentences[0], max), sentences[1..], max)
  }

  /** One paragraph: close the chunk if the paragraph and a blank line would
      overflow it; an over-long paragraph closes the chunk and is packed
      sentence by sentence, any other is appended after a blank line. */
  function AddParagraph(p: Packing, para: string, max: int): (r: Packing)
    ensures p.chunks <= r.chunks
  {
    var q := if Utf8Len(p.current) + Utf8Len(para) + 2 > max && p.current != "" then Flush(p) else p;
    if Utf8Len(para) > max then PackSentences(Flush(q), Sentences(para), max)
    else Packing(q.chunks, if q.current != "" then q.current + "\n\n" + para else para)
  }

  function PackParagraphs(p: Packing, paras: seq<string>, max: int): (r: Packing)
    ensures p.chunks <= r.chunks
    decreases |paras|
  {
    if paras == [] then p else PackParagraphs(AddParagraph(p, paras[0], max), paras[1..], max)
  }

  /** The chunks `splitIntoChunks` returns.  Each is at most `max` bytes,
      except a chunk that is one sentence of an over-long paragraph; when the
      text is split at all, no chunk is empty. */
  function Chunks(text: string, max: int): (r: seq<string>)
    ensures Utf8Len(text) > max ==> forall i :: 0 <= i < |r| ==> r[i] != ""
    ensures forall i :: 0 <= i < |r| ==> ChunkFits(r[i], Split(text, "\n\n"), max)
  {
    if Utf8Len(text) <= max then [text]
    else
      var start, paras := Packing([], ""), Split(text, "\n\n");
      PackParagraphsOk(start, paras, paras, max);
      FlushOk(PackParagraphs(start, paras, max), paras, max);
      Flush(PackParagraphs(start, paras, max)).chunks
  }

  /** `splitIntoChunks`. */
  method SplitIntoChunks(text: string, max: int) returns (chunks: seq<string>)
    ensures chunks == Chunks(text, max)
  {
    if Utf8Len(text) <= max {
      return [text];
    }
    chunks := [];
    var current := "";
    var paragraphs := Split(text, "\n\n");
    var i := 0;
    while i < |paragraphs|
      invariant 0 <= i <= |paragraphs|
      invariant PackParagraphs(Packing(chunks, current), paragraphs[i..], max)
        == PackParagraphs(Packing([], ""), paragraphs, max)
    {
      ghost var pre := Packing(chunks, current);
      chunks, current := PackParagraph(chunks, current, paragraphs[i], max);
      PackParagraphsStep(pre, Packing(chunks, current), paragraphs, i, max, PackParagraphs(Packing([], ""), paragraphs, max));
      i := i + 1;
    }
    if current != "" {
      chunks := chunks + [current];
    }
  }

  /** One paragraph of the outer loop of `splitIntoChunks`. */
  method PackParagraph(chunks0: seq<string>, current0: string, para: string, max: int)
    returns (chunks: seq<string>, current: string)
    ensures Packing(chunks, current) == AddParagraph(Packing(chunks0, current0), para, max)
  {
    chunks, current := chunks0, current0;
    if Utf8Len(current) + Utf8Len(para) + 2 > max && current != "" {
      chunks := chunks + [current];
      current := "";
    }
    if Utf8Len(para) > max {
      if current != "" {
        chunks := chunks + [current];
        current := "";
      }
      var sentences := SplitBySentences(para);
      chunks, current := PackLongParagraph(chunks, current, sentences, max);
    } else {
      if current != "" {
        current := current + "\n\n";
      }
      current := current + para;
    }
  }

  /** One sentence of the inner loop of `splitIntoChunks`. */
  method PackSentence(chunks0: seq<string>, current0: string, sentence: string, max: int)
    returns (chunks: seq<string>, current: string)
    ensures Packing(chunks, current) == AddSentence(Packing(chunks0, current0), sentence, max)
  {
    chunks, current := chunks0, current0;
    if Utf8Len(current) + Utf8Len(sentence) + 1 > max && current != "" {
      chunks := chunks + [current];
      current := "";
    }
    if current != "" {
      current := current + " ";
    }
    current := current + sentence;
  }

  /** The inner loop of `splitIntoChunks`: the sentences of an over-long
      paragraph packed one by one into the chunks. */
  method PackLongParagraph(chunks0: seq<string>, current0: string, sentences: seq<string>, max: int)
    returns (chunks: seq<string>, current: string)
    ensures Packing(chunks, current) == PackSentences(Packing(chunks0, current0), sentences, max)
  {
    chunks, current := chunks0, current0;
    var j := 0;
    while j < |sentences|
      invariant 0 <= j <= |sentences|
      invariant PackSentences(Packing(chunks, current), sentences[j..], max)
        == PackSentences(Packing(chunks0, current0), sentences, max)
    {
      var sentence := sentences[j];
      ghost var pre := Packing(chunks, current);
      chunks, current := PackSentence(chunks, current, sentence, max);
      PackSentencesStep(pre, Packing(chunks, current), sentences, j, max, PackSentences(Packing(chunks0, current0), sentences, max));
      j := j + 1;
    }
  }

  lemma PackSentencesStep(pre: Packing, post: Packing, ss: seq<string>, j: nat, max: int, target: Packing)
    requires j < |ss| && post == AddSentence(pre, ss[j], max)
    requires PackSentences(pre, ss[j..], max) == target
    ensures PackSentences(post, ss[j + 1..], max) == target
  {
    assert ss[j..][1..] == ss[j + 1..];
  }

  lemma PackParagraphsStep(pre: Packing, post: Packing, ps: seq<string>, i: nat, max: int, target: Packing)
    requires i < |ps| && post == AddParagraph(pre, ps[i], max)
    requires PackParagraphs(pre, ps[i..], max) == target
    ensures PackParagraphs(post, ps[i + 1..], max) == target
  {
    assert ps[i..][1..] == ps[i + 1..];
  }

  // ---------------------------------------------------------------------
  // Properties of the chunks
  // ---------------------------------------------------------------------

  /** A chunk within the budget, or a single sentence of an over-long paragraph. */
  predicate ChunkFits(c: string, paras: seq<string>, max: int) {
    Utf8Len(c) <= max || exists q :: q in paras && Utf8Len(q) > max && c in Sentences(q)
  }

  /** Closed chunks are non-empty and fit; so does a non-empty current chunk. */
  predicate PackingOk(p: Packing, paras: seq<string>, max: int) {
    && (forall i :: 0 <= i < |p.chunks| ==> p.chunks[i] != "" && ChunkFits(p.chunks[i], paras, max))
    && (p.current == "" || ChunkFits(p.current, paras, max))
  }

  lemma FlushOk(p: Packing, paras: seq<string>, max: int)
    requires PackingOk(p, paras, max)
    ensures PackingOk(Flush(p), paras, max) && Flush(p).current == ""
  {
    if p.current != "" {
      assert forall i :: 0 <= i < |p.chunks| ==> Flush(p).chunks[i] == p.chunks[i];
    }
  }

  lemma AddSentenceOk(p: Packing, sentence: string, para: string, paras: seq<string>, max: int)
    requires PackingOk(p, paras, max)
    requires para in paras && Utf8Len(para) > max && sentence in Sentences(para)
    ensures PackingOk(AddSentence(p, sentence, max), paras, max)
  {
    var q := if Utf8Len(p.current) + Utf8Len(sentence) + 1 > max && p.current != "" then Flush(p) else p;
    FlushOk(p, paras, max);
    assert PackingOk(q, paras, max);
    if q.current != "" {
      Utf8LenConcat(q.current + " ", sentence);
      Utf8LenConcat(q.current, " ");
      assert Utf8Len(" ") == 1;
    } else {
      assert ChunkFits(sentence, paras, max);
    }
  }

  lemma {:induction false} PackSentencesOk(p: Packing, sentences: seq<string>, para: string, paras: seq<string>, max: int)
    requires PackingOk(p, paras, max)
    requires para in paras && Utf8Len(para) > max
    requires forall k :: 0 <= k < |sentences| ==> sentences[k] in Sentences(para)
    ensures PackingOk(PackSentences(p, sentences, max), paras, max)
    decreases |sentences|
  {
    if sentences != [] {
      AddSentenceOk(p, sentences[0], para, paras, max);
      PackSentencesOk(AddSentence(p, sentences[0], max), sentences[1..], para, paras, max);
    }
  }

  lemma AddParagraphOk(p: Packing, para: string, paras: seq<string>, max: int)
    requires PackingOk(p, paras, max) && para in paras
    ensures PackingOk(AddParagraph(p, para, max), paras, max)
  {
    var q := if Utf8Len(p.current) + Utf8Len(para) + 2 > max && p.current != "" then Flush(p) else p;
    FlushOk(p, paras, max);
    assert PackingOk(q, paras, max);
    if Utf8Len(para) > max {
      FlushOk(q, paras, max);
      var ss := Sentences(para);
      PackSentencesOk(Flush(q), ss, para, paras, max);
    } else if q.current != "" {
      Utf8LenConcat(q.current + "\n\n", para);
      Utf8LenConcat(q.current, "\n\n");
      assert Utf8Len("\n\n") == 2;
    }
  }

  lemma {:induction false} PackParagraphsOk(p: Packing, ps: seq<string>, paras: seq<string>, max: int)
    requires PackingOk(p, paras, max)
    requires forall k :: 0 <= k < |ps| ==> ps[k] in paras
    ensures PackingOk(PackParagraphs(p, ps, max), paras, max)
    decreases |ps|
  {
    if ps != [] {
      AddParagraphOk(p, ps[0], paras, max);
      PackParagraphsOk(AddParagraph(p, ps[0], max), ps[1..], paras, max);
    }
  }

  /** Merging two neighbours around the separator keeps the joined text. */
  lemma JoinMerge(xs: seq<string>, a: string, b: string, sep: string)
    ensures Join(xs + [a + sep + b], sep) == Join(xs + [a, b], sep)
  {
    if xs == [] {
      assert [a, b][1..] == [b];
    } else {
      JoinAppend(xs, a + sep + b, sep);
      JoinAppend(xs, a, sep);
      assert xs + [a, b] == (xs + [a]) + [b];
      JoinAppend(xs + [a], b, sep);
    }
  }

  /** Lists with the same join keep the same join after a common tail. */
  lemma JoinSameTail(a: seq<string>, b: seq<string>, rest: seq<string>, sep: string)
    requires a != [] && b != [] && Join(a, sep) == Join(b, sep)
    ensures Join(a + rest, sep) == Join(b + rest, sep)
  {
    if rest != [] {
      JoinConcat(a, rest, sep);
      JoinConcat(b, rest, sep);
    } else {
      assert a + rest == a && b + rest == b;
    }
  }

  lemma AddParagraphJoin(p: Packing, para: string, max: int)
    requires para != "" && Utf8Len(para) <= max
    ensures Flush(AddParagraph(p, para, max)).chunks != []
    ensures Join(Flush(AddParagraph(p, para, max)).chunks, "\n\n") == Join(Flush(p).chunks + [para], "\n\n")
  {
    var q := if Utf8Len(p.current) + Utf8Len(para) + 2 > max && p.current != "" then Flush(p) else p;
    if q.current != "" {
      JoinMerge(p.chunks, p.current, para, "\n\n");
      assert p.chunks + [p.current] + [para] == p.chunks + [p.current, para];
    }
  }

  lemma {:induction false} PackParagraphsJoin(p: Packing, ps: seq<string>, max: int)
    requires forall k :: 0 <= k < |ps| ==> ps[k] != "" && Utf8Len(ps[k]) <= max
    ensures Join(Flush(PackParagraphs(p, ps, max)).chunks, "\n\n") == Join(Flush(p).chunks + ps, "\n\n")
    decreases |ps|
  {
    if ps != [] {
      var p1 := AddParagraph(p, ps[0], max);
      var done := Flush(p1).chunks;
      var before := Flush(p).chunks + [ps[0]];
      calc {
        Join(Flush(PackParagraphs(p, ps, max)).chunks, "\n\n");
        { assert PackParagraphs(p, ps, max) == PackParagraphs(p1, ps[1..], max); }
        Join(Flush(PackParagraphs(p1, ps[1..], max)).chunks, "\n\n");
        { PackParagraphsJoin(p1, ps[1..], max); }
        Join(done + ps[1..], "\n\n");
        { AddParagraphJoin(p, ps[0], max);
          JoinSameTail(done, before, ps[1..], "\n\n"); }
        Join(before + ps[1..], "\n\n");
        { assert before + ps[1..] == Flush(p).chunks + ps; }
        Join(Flush(p).chunks + ps, "\n\n");
      }
    } else {
      assert Flush(p).chunks + ps == Flush(p).chunks;
    }
  }

  /** When every paragraph is non-empty and fits, the chunks joined with
      blank lines give the text back. */
  lemma ChunksRejoin(text: string, max: int)
    requires forall k :: 0 <= k < |Split(text, "\n\n")| ==>
      Split(text, "\n\n")[k] != "" && Utf8Len(Split(text, "\n\n")[k]) <= max
    ensures Join(Chunks(text, max), "\n\n") == text
  {
    if Utf8Len(text) > max {
      var paras := Split(text, "\n\n");
      PackParagraphsJoin(Packing([], ""), paras, max);
      assert [] + paras == paras;
      SplitJoin(text, "\n\n");
    }
  }

  lemma AddSentenceJoin(p: Packing, sentence: string, max: int)
    requires sentence != ""
    ensures Flush(AddSentence(p, sentence, max)).chunks != []
    ensures Join(Flush(AddSentence(p, sentence, max)).chunks, " ") == Join(Flush(p).chunks + [sentence], " ")
  {
    var q := if Utf8Len(p.current) + Utf8Len(sentence) + 1 > max && p.current != "" then Flush(p) else p;
    if q.current != "" {
      JoinMerge(p.chunks, p.current, sentence, " ");
      assert p.chunks + [p.current] + [sentence] == p.chunks + [p.current, sentence];
    }
  }

  lemma {:induction false} PackSentencesJoin(p: Packing, ss: seq<string>, max: int)
    requires forall k :: 0 <= k < |ss| ==> ss[k] != ""
    ensures Join(Flush(PackSentences(p, ss, max)).chunks, " ") == Join(Flush(p).chunks + ss, " ")
    decreases |ss|
  {
    if ss != [] {
      var p1 := AddSentence(p, ss[0], max);
      var done := Flush(p1).chunks;
      var before := Flush(p).chunks + [ss[0]];
      calc {
        Join(Flush(PackSentences(p, ss, max)).chunks, " ");
        { assert PackSentences(p, ss, max) == PackSentences(p1, ss[1..], max); }
        Join(Flush(PackSentences(p1, ss[1..], max)).chunks, " ");
        { PackSentencesJoin(p1, ss[1..], max); }
        Join(done + ss[1..], " ");
        { AddSentenceJoin(p, ss[0], max);
          JoinSameTail(done, before, ss[1..], " "); }
        Join(before + ss[1..], " ");
        { assert before + ss[1..] == Flush(p).chunks + ss; }
        Join(Flush(p).chunks + ss, " ");
      }
    } else {
      assert Flush(p).chunks + ss == Flush(p).chunks;
    }
  }

  /** Packing sentences after closed chunks leaves those chunks alone. */
  lemma {:induction false} PackSentencesShift(cs: seq<string>, cur: string, ss: seq<string>, max: int)
    ensures PackSentences(Packing(cs, cur), ss, max)
      == (var r := PackSentences(Packing([], cur), ss, max); Packing(cs + r.chunks, r.current))
    decreases |ss|
  {
    if ss != [] {
      var b := AddSentence(Packing([], cur), ss[0], max);
      var r := PackSentences(b, ss[1..], max);
      var r2 := PackSentences(Packing([], b.current), ss[1..], max);
      calc {
        PackSentences(Packing(cs, cur), ss, max);
        PackSentences(AddSentence(Packing(cs, cur), ss[0], max), ss[1..], max);
        { AddSentenceShift(cs, cur, ss[0], max); }
        PackSentences(Packing(cs + b.chunks, b.current), ss[1..], max);
        { PackSentencesShift(cs + b.chunks, b.current, ss[1..], max); }
        Packing(cs + b.chunks + r2.chunks, r2.current);
        { assert cs + b.chunks + r2.chunks == cs + (b.chunks + r2.chunks);
          PackSentencesShift(b.chunks, b.current, ss[1..], max); }
        Packing(cs + r.chunks, r.current);
      }
    }
  }

  lemma AddSentenceShift(cs: seq<string>, cur: string, sentence: string, max: int)
    ensures AddSentence(Packing(cs, cur), sentence, max)
      == (var b := AddSentence(Packing([], cur), sentence, max); Packing(cs + b.chunks, b.current))
  {
  }

  /** An over-long paragraph closes the chunk being filled; its sentences
      are then packed afresh and, rejoined with single spaces, give back its
      sentences. */
  lemma LongParagraphRepacked(p: Packing, para: string, max: int)
    requires Utf8Len(para) > max
    ensures AddParagraph(p, para, max)
      == (var r := PackSentences(Packing([], ""), Sentences(para), max); Packing(Flush(p).chunks + r.chunks, r.current))
    ensures Join(Flush(PackSentences(Packing([], ""), Sentences(para), max)).chunks, " ") == Join(Sentences(para), " ")
  {
    var ss := Sentences(para);
    PackSentencesShift(Flush(p).chunks, "", ss, max);
    PackSentencesJoin(Packing([], ""), ss, max);
    assert [] + ss == ss;
  }

  // ---------------------------------------------------------------------
  // Chunked translation
  // ---------------------------------------------------------------------

  /** The progress reported before translating chunk `i` (from 0) of `n`:
      `10 + int32(float64(i+1)/float64(total)*80)`, taken here as the
      integer quotient. */
  function ChunkProgress(i: nat, n: nat): int
    requires i < n
  {
    10 + (i + 1) * 80 / n
  }

  function ChunkMessage(i: nat, n: nat): string {
    "Translating chunk " + Decimal.FormatInt(i + 1) + "/" + Decimal.FormatInt(n) + "..."
  }

  /** The progress updates for the first `count` of `n` chunks. */
  function ProgressOps(n: nat, count: nat): (ops: seq<JobOp>)
    requires count <= n
    ensures |ops| == count
    ensures forall i :: 0 <= i < count ==> ops[i].UpdateProgressOp?
  {
    if count == 0 then []
    else ProgressOps(n, count - 1) + [UpdateProgressOp(ChunkProgress(count - 1, n), ChunkMessage(count - 1, n))]
  }

  /** The `i`-th update reports chunk `i + 1` of `n` with its progress. */
  lemma {:induction false} ProgressOpsAt(n: nat, count: nat)
    requires count <= n
    ensures forall i :: 0 <= i < count ==>
      ProgressOps(n, count)[i] == UpdateProgressOp(ChunkProgress(i, n), ChunkMessage(i, n))
  {
    if count > 0 {
      ProgressOpsAt(n, count - 1);
      var ops := ProgressOps(n, count);
      assert forall i :: 0 <= i < count - 1 ==> ops[i] == ProgressOps(n, count - 1)[i];
    }
  }

  lemma MulMonotone(x: int, y: int, n: nat)
    ensures x <= y ==> x * n <= y * n
  {
    assert y * n - x * n == (y - x) * n;
  }

  lemma DivMonotone(a: nat, b: nat, n: nat)
    requires a <= b && n > 0
    ensures a / n <= b / n
  {
    var qa, qb := a / n, b / n;
    assert qa * n + a % n == a;
    assert qb * n + b % n == b;
    MulMonotone(qb + 1, qa, n);
    assert (qb + 1) * n == qb * n + n;
  }

  lemma ChunkProgressAt(i: nat, j: nat, n: nat)
    requires i <= j < n
    ensures 10 <= ChunkProgress(i, n) <= ChunkProgress(j, n) <= 90
  {
    DivMonotone((i + 1) * 80, (j + 1) * 80, n);
    DivMonotone((j + 1) * 80, n * 80, n);
    assert n * 80 / n == 80;
  }

  /** Chunk progress runs from above 10 up to 90, never goes down, and the
      last chunk reports 90. */
  lemma ChunkProgressBounds(n: nat)
    ensures forall i :: 0 <= i < n ==> 10 <= ChunkProgress(i, n) <= 90
    ensures forall i, j :: 0 <= i <= j < n ==> ChunkProgress(i, n) <= ChunkProgress(j, n)
    ensures n > 0 ==> ChunkProgress(n - 1, n) == 90
  {
    forall i | 0 <= i < n
      ensures 10 <= ChunkProgress(i, n) <= 90
    {
      ChunkProgressAt(i, i, n);
    }
    forall i, j | 0 <= i <= j < n
      ensures ChunkProgress(i, n) <= ChunkProgress(j, n)
    {
      ChunkProgressAt(i, j, n);
    }
    if n > 0 {
      assert n * 80 / n == 80;
    }
  }

  /** The progress a chunked translation reports stays between 10 and 90
      and never goes down. */
  lemma ProgressOpsRise(n: nat, count: nat)
    requires count <= n
    ensures forall i, j :: 0 <= i <= j < count ==>
      10 <= ProgressOps(n, count)[i].percent <= ProgressOps(n, count)[j].percent <= 90
  {
    ProgressOpsAt(n, count);
    forall i, j | 0 <= i <= j < count
      ensures 10 <= ProgressOps(n, count)[i].percent <= ProgressOps(n, count)[j].percent <= 90
    {
      ChunkProgressAt(i, j, n);
    }
  }

  /** The translations of the chunks in order, or the position and message
      of the first chunk the engine refuses. */
  function ChunkTranslations(chunks: seq<string>, engine: Translator.Engine, src: string, tgt: string)
    : (r: Result<seq<string>, (nat, string)>)
    ensures r.Ok? ==>
      && |r.value| == |chunks|
      && forall i :: 0 <= i < |chunks| ==> engine(chunks[i], src, tgt) == Ok(r.value[i])
    ensures r.Err? ==>
      && r.error.0 < |chunks|
      && engine(chunks[r.error.0], src, tgt) == Err(r.error.1)
      && forall i :: 0 <= i < r.error.0 ==> engine(chunks[i], src, tgt).Ok?
    decreases |chunks|
  {
    if chunks == [] then Ok([])
    else match engine(chunks[0], src, tgt)
      case Err(m) => Err((0, m))
      case Ok(t) =>
        match ChunkTranslations(chunks[1..], engine, src, tgt)
        case Ok(ts) => Ok([t] + ts)
        case Err(e) => Err((e.0 + 1, e.1))
  }

  /** `ts` are the translations of the first `|ts|` chunks. */
  predicate TranslatedPrefix(chunks: seq<string>, engine: Translator.Engine, src: string, tgt: string, ts: seq<string>) {
    |ts| <= |chunks| && forall j :: 0 <= j < |ts| ==> engine(chunks[j], src, tgt) == Ok(ts[j])
  }

  /** A failure after `ts` were translated stops the run at that chunk. */
  lemma FirstFailure(chunks: seq<string>, engine: Translator.Engine, src: string, tgt: string, ts: seq<string>)
    requires TranslatedPrefix(chunks, engine, src, tgt, ts) && |ts| < |chunks|
    requires engine(chunks[|ts|], src, tgt).Err?
    ensures TranslateChunks(chunks, Some(engine), src, tgt)
      == ChunkedRun(Err("chunk " + Decimal.FormatInt(|ts| + 1) + " translation failed: " + engine(chunks[|ts|], src, tgt).error), |ts| + 1)
  {
    var r := ChunkTranslations(chunks, engine, src, tgt);
    assert r.Err?;
    assert r.error.0 == |ts|;
  }

  /** With every chunk translated (or no translator), the run gives their
      concatenation. */
  lemma AllTranslated(chunks: seq<string>, tr: Option<Translator.Engine>, src: string, tgt: string, ts: seq<string>)
    requires tr.Some? ==> TranslatedPrefix(chunks, tr.value, src, tgt, ts) && |ts| == |chunks|
    requires tr.None? ==> ts == []
    ensures TranslateChunks(chunks, tr, src, tgt) == ChunkedRun(Ok(Join(ts, "")), |chunks|)
  {
    if tr.Some? {
      var r := ChunkTranslations(chunks, tr.value, src, tgt);
      assert r.Ok?;
      assert r.value == ts;
    }
  }

  /** What `translateChunked` returns, and how many chunks it started. */
  datatype ChunkedRun = ChunkedRun(result: Result<string, string>, started: nat)

  /** The outcome of `translateChunked` once the chunk translations are
      known: the concatenation, or the first refused chunk by its number
      from 1. */
  function ChunkedRunOf(ct: Result<seq<string>, (nat, string)>, n: nat): ChunkedRun {
    match ct
    case Ok(ts) => ChunkedRun(Ok(Join(ts, "")), n)
    case Err(e) => ChunkedRun(Err("chunk " + Decimal.FormatInt(e.0 + 1) + " translation failed: " + e.1), e.0 + 1)
  }

  function TranslateChunks(chunks: seq<string>, tr: Option<Translator.Engine>, src: string, tgt: string): (c: ChunkedRun)
    ensures c.started <= |chunks|
    ensures c.result.Ok? ==> c.started == |chunks|
  {
    if tr.None? then ChunkedRun(Ok(""), |chunks|)
    else ChunkedRunOf(ChunkTranslations(chunks, tr.value, src, tgt), |chunks|)
  }

  /** `translateChunked`: report progress before each chunk, translate the
      chunks in order and concatenate them, stop at the first failure.  A
      missing translator (`None`) translates nothing and gives "". */
  method TranslateChunked(job: TranslationJob, text: string, src: string, tgt: string,
                          tr: Option<Translator.Engine>, chunkSize: int) returns (r: Result<string, string>)
    modifies job
    ensures var chunks := Chunks(text, chunkSize);
      var c := TranslateChunks(chunks, tr, src, tgt);
      r == c.result && job.State() == Run(old(job.State()), ProgressOps(|chunks|, c.started))
  {
    var chunks := SplitIntoChunks(text, chunkSize);
    r := TranslateEachChunk(job, chunks, src, tgt, tr);
  }

  /** The loop of `translateChunked` over the chunks already split. */
  method TranslateEachChunk(job: TranslationJob, chunks: seq<string>, src: string, tgt: string,
                            tr: Option<Translator.Engine>) returns (r: Result<string, string>)
    modifies job
    ensures var c := TranslateChunks(chunks, tr, src, tgt);
      r == c.result && job.State() == Run(old(job.State()), ProgressOps(|chunks|, c.started))
  {
    var total := |chunks|;
    ghost var s0 := job.State();
    var translated: seq<string> := [];
    var i := 0;
    while i < total
      invariant 0 <= i <= total
      invariant job.State() == Run(s0, ProgressOps(total, i))
      invariant tr.Some? ==> |translated| == i && TranslatedPrefix(chunks, tr.value, src, tgt, translated)
      invariant tr.None? ==> translated == []
    {
      var progress := ChunkProgress(i, total);
      var message := ChunkMessage(i, total);
      job.UpdateProgress(progress, message);
      ProgressStep(s0, total, i);
      if tr.Some? {
        var res := tr.value(chunks[i], src, tgt);
        if res.Err? {
          FirstFailure(chunks, tr.value, src, tgt, translated);
          r := Err("chunk " + Decimal.FormatInt(i + 1) + " translation failed: " + res.error);
          return;
        }
        translated := translated + [res.value];
      }
      i := i + 1;
    }
    AllTranslated(chunks, tr, src, tgt, translated);
    r := Ok(Join(translated, ""));
  }

  /** One progress report more. */
  lemma ProgressStep(s0: JobState, total: nat, i: nat)
    requires i < total
    ensures Run(s0, ProgressOps(total, i + 1)) == WithProgress(Run(s0, ProgressOps(total, i)), ChunkProgress(i, total), ChunkMessage(i, total))
  {
    RunConcat(s0, ProgressOps(total, i), [UpdateProgressOp(ChunkProgress(i, total), ChunkMessage(i, total))]);
  }

  // ---------------------------------------------------------------------
  // Job processing
  // ---------------------------------------------------------------------

  /** One backend call; with no translator the text stays "". */
  function Call(tr: Option<Translator.Engine>, text: string, src: string, tgt: string): Result<string, string> {
    if tr.None? then Ok("") else tr.value(text, src, tgt)
  }

  /** The closing calls of a successful job. */
  function Finish(title: string, markdown: string, startNow: int, endNow: int): seq<JobOp> {
    [UpdateProgressOp(100, "Translation completed"), SetResultOp(title, markdown, 0, endNow - startNow, endNow)]
  }

  function TitleOps(title: string, tr: Option<Translator.Engine>, src: string, tgt: string,
                    startNow: int, endNow: int): seq<JobOp>
  {
    var t := Call(tr, title, src, tgt);
    [UpdateProgressOp(10, "Translating title...")]
    + if t.Err? then [SetErrorOp("title translation failed: " + t.error, endNow)]
      else Finish(t.value, "", startNow, endNow)
  }

  /** The calls for a non-empty markdown body, once the title is done. */
  function MarkdownOps(markdown: string, title: string, tr: Option<Translator.Engine>, src: string, tgt: string,
                       chunkSize: int, startNow: int, endNow: int): seq<JobOp>
  {
    [UpdateProgressOp(10, "Translating content...")]
    + if Utf8Len(markdown) > chunkSize then ChunkedOps(markdown, title, tr, src, tgt, chunkSize, startNow, endNow)
      else MarkdownClose(Call(tr, markdown, src, tgt), title, startNow, endNow)
  }

  /** The calls for a markdown body translated chunk by chunk. */
  function ChunkedOps(markdown: string, title: string, tr: Option<Translator.Engine>, src: string, tgt: string,
                      chunkSize: int, startNow: int, endNow: int): seq<JobOp>
  {
    var chunks := Chunks(markdown, chunkSize);
    var c := TranslateChunks(chunks, tr, src, tgt);
    ProgressOps(|chunks|, c.started) + MarkdownClose(c.result, title, startNow, endNow)
  }

  /** The closing calls once the markdown body is translated or refused. */
  function MarkdownClose(m: Result<string, string>, title: string, startNow: int, endNow: int): seq<JobOp> {
    if m.Err? then [SetErrorOp("markdown translation failed: " + m.error, endNow)]
    else Finish(title, m.value, startNow, endNow)
  }

  function DocOps(document: Option<Document>, tr: Option<Translator.Engine>, src: string, tgt: string,
                  chunkSize: int, startNow: int, endNow: int): seq<JobOp>
  {
    if document.None? then [SetErrorOp("document is required for PRIMITIVE_DOC_TRANSLATE", endNow)]
    else
      var d := document.value;
      var titleOps := if d.title != "" then [UpdateProgressOp(5, "Translating title...")] else [];
      var t := if d.title != "" then Call(tr, d.title, src, tgt) else Ok("");
      if t.Err? then titleOps + [SetErrorOp("title translation failed: " + t.error, endNow)]
      else if d.markdown == "" then titleOps + Finish(t.value, "", startNow, endNow)
      else titleOps + MarkdownOps(d.markdown, t.value, tr, src, tgt, chunkSize, startNow, endNow)
  }

  /** The setter calls `ProcessJob` makes on a job, in order.  `startNow` is
      the clock when processing starts, `endNow` when it ends. */
  function ProcessOps(job: TranslationJob, tr: Option<Translator.Engine>, chunkSize: int,
                      startNow: int, endNow: int): (ops: seq<JobOp>)
  {
    var src := Translator.ToBackendCode(job.sourceLang);
    var tgt := Translator.ToBackendCode(job.targetLang);
    [UpdateStatusOp(Processing, "Starting translation...", startNow)]
    + match job.primitive
      case PrimitiveTitle => TitleOps(job.title, tr, src, tgt, startNow, endNow)
      case PrimitiveDocTranslate => DocOps(job.document, tr, src, tgt, chunkSize, startNow, endNow)
      case PrimitiveOther(_) => [SetResultOp("", "", 0, endNow - startNow, endNow)]
  }

  lemma RunPair(s: JobState, a: JobOp, b: JobOp)
    ensures Run(s, [a, b]) == Apply(Apply(s, a), b)
  {
    assert [a, b][0] == a && [a, b][1..] == [b];
    assert Run(s, [a, b]) == Run(Apply(s, a), [b]);
    assert [b][0] == b && [b][1..] == [];
    assert Run(Apply(s, a), [b]) == Run(Apply(Apply(s, a), b), []);
  }

  lemma RunSnoc(s: JobState, ops: seq<JobOp>, op: JobOp)
    ensures Run(s, ops + [op]) == Apply(Run(s, ops), op)
  {
    RunConcat(s, ops, [op]);
  }

  /** `ProcessJob`: mark the job processing, translate what its primitive
      asks for, and record either the error or the result. */
  method ProcessJob(job: TranslationJob, tr: Option<Translator.Engine>, chunkSize: int, startNow: int, endNow: int)
    modifies job
    ensures job.State() == Run(old(job.State()), ProcessOps(job, tr, chunkSize, startNow, endNow))
  {
    ghost var s0 := job.State();
    ghost var head := [UpdateStatusOp(Processing, "Starting translation...", startNow)];
    job.UpdateStatus(Processing, "Starting translation...", startNow);
    RunSnoc(s0, [], UpdateStatusOp(Processing, "Starting translation...", startNow));

    var src := Translator.ToBackendCode(job.sourceLang);
    var tgt := Translator.ToBackendCode(job.targetLang);

    match job.primitive {
      case PrimitiveTitle =>
        ProcessTitle(job, tr, src, tgt, startNow, endNow);
        RunConcat(s0, head, TitleOps(job.title, tr, src, tgt, startNow, endNow));
      case PrimitiveDocTranslate =>
        ProcessDocument(job, tr, src, tgt, chunkSize, startNow, endNow);
        RunConcat(s0, head, DocOps(job.document, tr, src, tgt, chunkSize, startNow, endNow));
      case PrimitiveOther(_) =>
        job.SetResult("", "", 0, endNow - startNow, endNow);
        RunSnoc(s0, head, SetResultOp("", "", 0, endNow - startNow, endNow));
    }
  }

  /** The PRIMITIVE_TITLE branch of `ProcessJob`, up to and including
      recording the outcome. */
  method ProcessTitle(job: TranslationJob, tr: Option<Translator.Engine>, src: string, tgt: string,
                      startNow: int, endNow: int)
    modifies job
    ensures job.State() == Run(old(job.State()), TitleOps(job.title, tr, src, tgt, startNow, endNow))
  {
    ghost var s0 := job.State();
    ghost var head := [UpdateProgressOp(10, "Translating title...")];
    job.UpdateProgress(10, "Translating title...");
    RunSnoc(s0, [], UpdateProgressOp(10, "Translating title..."));
    ghost var s1 := job.State();
    var translatedTitle := "";
    if tr.Some? {
      var r := tr.value(job.title, src, tgt);
      if r.Err? {
        job.SetError("title translation failed: " + r.error, endNow);
        RunSnoc(s0, head, SetErrorOp("title translation failed: " + r.error, endNow));
        return;
      }
      translatedTitle := r.value;
    }
    job.UpdateProgress(100, "Translation completed");
    job.SetResult(translatedTitle, "", 0, endNow - startNow, endNow);
    RunPair(s1, UpdateProgressOp(100, "Translation completed"), SetResultOp(translatedTitle, "", 0, endNow - startNow, endNow));
    RunConcat(s0, head, Finish(translatedTitle, "", startNow, endNow));
  }

  /** The PRIMITIVE_DOC_TRANSLATE branch of `ProcessJob`, up to and including
      recording the outcome. */
  method ProcessDocument(job: TranslationJob, tr: Option<Translator.Engine>, src: string, tgt: string,
                         chunkSize: int, startNow: int, endNow: int)
    modifies job
    ensures job.State() == Run(old(job.State()), DocOps(job.document, tr, src, tgt, chunkSize, startNow, endNow))
  {
    ghost var s0 := job.State();
    if job.document.None? {
      job.SetError("document is required for PRIMITIVE_DOC_TRANSLATE", endNow);
      RunSnoc(s0, [], SetErrorOp("document is required for PRIMITIVE_DOC_TRANSLATE", endNow));
      return;
    }
    var doc := job.document.value;
    var translatedTitle := "";
    ghost var ops: seq<JobOp> := [];
    if doc.title != "" {
      job.UpdateProgress(5, "Translating title...");
      RunSnoc(s0, [], UpdateProgressOp(5, "Translating title..."));
      ops := [UpdateProgressOp(5, "Translating title...")];
      if tr.Some? {
        var r := tr.value(doc.title, src, tgt);
        if r.Err? {
          job.SetError("title translation failed: " + r.error, endNow);
          RunSnoc(s0, ops, SetErrorOp("title translation failed: " + r.error, endNow));
          return;
        }
        translatedTitle := r.value;
      }
    }
    ghost var s1 := job.State();
    assert s1 == Run(s0, ops);
    var markdown := doc.markdown;
    if markdown != "" {
      TranslateMarkdown(job, markdown, translatedTitle, tr, src, tgt, chunkSize, startNow, endNow);
      RunConcat(s0, ops, MarkdownOps(markdown, translatedTitle, tr, src, tgt, chunkSize, startNow, endNow));
    } else {
      job.UpdateProgress(100, "Translation completed");
      job.SetResult(translatedTitle, "", 0, endNow - startNow, endNow);
      RunPair(s1, UpdateProgressOp(100, "Translation completed"), SetResultOp(translatedTitle, "", 0, endNow - startNow, endNow));
      RunConcat(s0, ops, Finish(translatedTitle, "", startNow, endNow));
    }
  }

  /** The markdown part of the PRIMITIVE_DOC_TRANSLATE branch: chunked when
      longer than the chunk size, in one call otherwise. */
  method TranslateMarkdown(job: TranslationJob, markdown: string, translatedTitle: string,
                           tr: Option<Translator.Engine>, src: string, tgt: string,
                           chunkSize: int, startNow: int, endNow: int)
    modifies job
    ensures job.State() == Run(old(job.State()), MarkdownOps(markdown, translatedTitle, tr, src, tgt, chunkSize, startNow, endNow))
  {
    ghost var s0 := job.State();
    job.UpdateProgress(10, "Translating content...");
    ghost var s1 := job.State();
    ghost var head := [UpdateProgressOp(10, "Translating content...")];
    assert s1 == Run(s0, head);
    if Utf8Len(markdown) > chunkSize {
      TranslateInChunks(job, markdown, translatedTitle, tr, src, tgt, chunkSize, startNow, endNow);
      RunConcat(s0, head, ChunkedOps(markdown, translatedTitle, tr, src, tgt, chunkSize, startNow, endNow));
      return;
    }
    var translatedMarkdown := "";
    if tr.Some? {
      var r := tr.value(markdown, src, tgt);
      if r.Err? {
        job.SetError("markdown translation failed: " + r.error, endNow);
        RunSnoc(s0, head, SetErrorOp("markdown translation failed: " + r.error, endNow));
        return;
      }
      translatedMarkdown := r.value;
    }
    job.UpdateProgress(100, "Translation completed");
    job.SetResult(translatedTitle, translatedMarkdown, 0, endNow - startNow, endNow);
    RunPair(s1, UpdateProgressOp(100, "Translation completed"), SetResultOp(translatedTitle, translatedMarkdown, 0, endNow - startNow, endNow));
    RunConcat(s0, head, Finish(translatedTitle, translatedMarkdown, startNow, endNow));
  }

  /** The chunked arm of `TranslateMarkdown`, up to and including recording
      the outcome. */
  method TranslateInChunks(job: TranslationJob, markdown: string, translatedTitle: string,
                           tr: Option<Translator.Engine>, src: string, tgt: string,
                           chunkSize: int, startNow: int, endNow: int)
    modifies job
    ensures job.State() == Run(old(job.State()), ChunkedOps(markdown, translatedTitle, tr, src, tgt, chunkSize, startNow, endNow))
  {
    ghost var s0 := job.State();
    ghost var chunks := Chunks(markdown, chunkSize);
    ghost var c := TranslateChunks(chunks, tr, src, tgt);
    ghost var progress := ProgressOps(|chunks|, c.started);
    var r := TranslateChunked(job, markdown, src, tgt, tr, chunkSize);
    if r.Err? {
      job.SetError("markdown translation failed: " + r.error, endNow);
      RunSnoc(s0, progress, SetErrorOp("markdown translation failed: " + r.error, endNow));
      return;
    }
    ghost var s1 := job.State();
    job.UpdateProgress(100, "Translation completed");
    job.SetResult(translatedTitle, r.value, 0, endNow - startNow, endNow);
    RunPair(s1, UpdateProgressOp(100, "Translation completed"), SetResultOp(translatedTitle, r.value, 0, endNow - startNow, endNow));
    RunConcat(s0, progress, Finish(translatedTitle, r.value, startNow, endNow));
  }

  // ---------------------------------------------------------------------
  // Properties of job processing
  // ---------------------------------------------------------------------

  /** A call that finishes a job: `SetError`, or `SetResult` with no token
      count and the elapsed time as inference time. */
  predicate Closing(op: JobOp, startNow: int, endNow: int) {
    || (op.SetErrorOp? && op.now == endNow)
    || (op.SetResultOp? && op.tokens == 0 && op.inferenceTime == endNow - startNow && op.now == endNow)
  }

  /** Progress updates followed by one closing call. */
  predicate ProgressThenClose(ops: seq<JobOp>, startNow: int, endNow: int) {
    && ops != []
    && (forall i :: 0 <= i < |ops| - 1 ==> ops[i].UpdateProgressOp?)
    && Closing(ops[|ops| - 1], startNow, endNow)
  }

  lemma ProgressPrefix(p: seq<JobOp>, t: seq<JobOp>, startNow: int, endNow: int)
    requires forall i :: 0 <= i < |p| ==> p[i].UpdateProgressOp?
    requires ProgressThenClose(t, startNow, endNow)
    ensures ProgressThenClose(p + t, startNow, endNow)
  {
    assert (p + t)[|p + t| - 1] == t[|t| - 1];
    assert forall i :: 0 <= i < |p + t| - 1 ==> (p + t)[i] == if i < |p| then p[i] else t[i - |p|];
  }

  lemma FinishShape(title: string, markdown: string, startNow: int, endNow: int)
    ensures ProgressThenClose(Finish(title, markdown, startNow, endNow), startNow, endNow)
  {
  }

  lemma MarkdownCloseShape(m: Result<string, string>, title: string, startNow: int, endNow: int)
    ensures ProgressThenClose(MarkdownClose(m, title, startNow, endNow), startNow, endNow)
  {
  }

  lemma MarkdownOpsShape(markdown: string, title: string, tr: Option<Translator.Engine>, src: string, tgt: string,
                         chunkSize: int, startNow: int, endNow: int)
    ensures ProgressThenClose(MarkdownOps(markdown, title, tr, src, tgt, chunkSize, startNow, endNow), startNow, endNow)
  {
    var head := [UpdateProgressOp(10, "Translating content...")];
    if Utf8Len(markdown) > chunkSize {
      var chunks := Chunks(markdown, chunkSize);
      var c := TranslateChunks(chunks, tr, src, tgt);
      var tail := MarkdownClose(c.result, title, startNow, endNow);
      MarkdownCloseShape(c.result, title, startNow, endNow);
      ProgressPrefix(ProgressOps(|chunks|, c.started), tail, startNow, endNow);
      ProgressPrefix(head, ProgressOps(|chunks|, c.started) + tail, startNow, endNow);
    } else {
      var m := Call(tr, markdown, src, tgt);
      MarkdownCloseShape(m, title, startNow, endNow);
      ProgressPrefix(head, MarkdownClose(m, title, startNow, endNow), startNow, endNow);
    }
  }

  lemma BodyShape(job: TranslationJob, tr: Option<Translator.Engine>, chunkSize: int, src: string, tgt: string,
                  startNow: int, endNow: int)
    ensures ProgressThenClose(
      match job.primitive
      case PrimitiveTitle => TitleOps(job.title, tr, src, tgt, startNow, endNow)
      case PrimitiveDocTranslate => DocOps(job.document, tr, src, tgt, chunkSize, startNow, endNow)
      case PrimitiveOther(_) => [SetResultOp("", "", 0, endNow - startNow, endNow)], startNow, endNow)
  {
    match job.primitive
    case PrimitiveTitle =>
      var t := Call(tr, job.title, src, tgt);
      var tail := if t.Err? then [SetErrorOp("title translation failed: " + t.error, endNow)]
        else Finish(t.value, "", startNow, endNow);
      ProgressPrefix([UpdateProgressOp(10, "Translating title...")], tail, startNow, endNow);
    case PrimitiveDocTranslate =>
      if job.document.Some? {
        var d := job.document.value;
        var titleOps := if d.title != "" then [UpdateProgressOp(5, "Translating title...")] else [];
        var t := if d.title != "" then Call(tr, d.title, src, tgt) else Ok("");
        if t.Err? {
          ProgressPrefix(titleOps, [SetErrorOp("title translation failed: " + t.error, endNow)], startNow, endNow);
        } else if d.markdown == "" {
          ProgressPrefix(titleOps, Finish(t.value, "", startNow, endNow), startNow, endNow);
        } else {
          MarkdownOpsShape(d.markdown, t.value, tr, src, tgt, chunkSize, startNow, endNow);
          ProgressPrefix(titleOps, MarkdownOps(d.markdown, t.value, tr, src, tgt, chunkSize, startNow, endNow), startNow, endNow);
        }
      }
    case PrimitiveOther(_) =>
  }

  /** `ProcessJob` first marks the job processing, then only reports
      progress, and finishes it exactly once, with its last call. */
  lemma ProcessOpsShape(job: TranslationJob, tr: Option<Translator.Engine>, chunkSize: int, startNow: int, endNow: int)
    ensures var ops := ProcessOps(job, tr, chunkSize, startNow, endNow);
      && |ops| >= 2
      && ops[0] == UpdateStatusOp(Processing, "Starting translation...", startNow)
      && (forall i :: 1 <= i < |ops| - 1 ==> ops[i].UpdateProgressOp?)
      && Closing(ops[|ops| - 1], startNow, endNow)
  {
    var src := Translator.ToBackendCode(job.sourceLang);
    var tgt := Translator.ToBackendCode(job.targetLang);
    BodyShape(job, tr, chunkSize, src, tgt, startNow, endNow);
    var ops := ProcessOps(job, tr, chunkSize, startNow, endNow);
    var body := ops[1..];
    assert ProgressThenClose(body, startNow, endNow);
    assert forall i :: 1 <= i < |ops| - 1 ==> ops[i] == body[i - 1];
  }

  /** The state after a run is decided by its last call for the status, the
      error and the translations. */
  lemma RunLast(s: JobState, ops: seq<JobOp>)
    requires ops != [] && (ops[|ops| - 1].SetErrorOp? || ops[|ops| - 1].SetResultOp?)
    ensures var f := Run(s, ops); var last := ops[|ops| - 1];
      && (last.SetErrorOp? ==> f.status == Failed && f.error == last.err && f.completedAt == Some(last.now))
      && (last.SetResultOp? ==>
            && f.status == Completed && f.translatedTitle == last.title
            && f.translatedMarkdown == last.markdown && f.tokensUsed == last.tokens
            && f.inferenceTime == last.inferenceTime && f.completedAt == Some(last.now)
            && f.progressPercent == 100)
  {
    var n := |ops| - 1;
    assert ops == ops[..n] + [ops[n]];
    RunSnoc(s, ops[..n], ops[n]);
  }

  /** A processed job ends completed or failed, stamped with the end time;
      it keeps an earlier start time or gets the processing start time; a
      completed job reports 100 percent, no tokens and the elapsed time. */
  lemma ProcessJobFinishes(s: JobState, job: TranslationJob, tr: Option<Translator.Engine>, chunkSize: int,
                           startNow: int, endNow: int)
    ensures var f := Run(s, ProcessOps(job, tr, chunkSize, startNow, endNow));
      && f.status.IsTerminal()
      && f.completedAt == Some(endNow)
      && f.startedAt == (if s.startedAt.Some? then s.startedAt else Some(startNow))
      && (f.status == Completed ==> f.progressPercent == 100 && f.tokensUsed == 0 && f.inferenceTime == endNow - startNow)
      && WellFormed(f)
  {
    var ops := ProcessOps(job, tr, chunkSize, startNow, endNow);
    ProcessOpsShape(job, tr, chunkSize, startNow, endNow);
    RunLast(s, ops);
    StartedAtSetOnce(s, ops);
  }

  /** The call that closes a non-empty markdown body. */
  function MarkdownClosing(markdown: string, title: string, tr: Option<Translator.Engine>, src: string, tgt: string,
                           chunkSize: int, startNow: int, endNow: int): JobOp
  {
    var m := if Utf8Len(markdown) > chunkSize then TranslateChunks(Chunks(markdown, chunkSize), tr, src, tgt).result
      else Call(tr, markdown, src, tgt);
    if m.Err? then SetErrorOp("markdown translation failed: " + m.error, endNow)
    else SetResultOp(title, m.value, 0, endNow - startNow, endNow)
  }

  /** The call that closes a processed job. */
  function ClosingOp(job: TranslationJob, tr: Option<Translator.Engine>, chunkSize: int, startNow: int, endNow: int): JobOp
  {
    var src := Translator.ToBackendCode(job.sourceLang);
    var tgt := Translator.ToBackendCode(job.targetLang);
    match job.primitive
    case PrimitiveTitle =>
      var t := Call(tr, job.title, src, tgt);
      if t.Err? then SetErrorOp("title translation failed: " + t.error, endNow)
      else SetResultOp(t.value, "", 0, endNow - startNow, endNow)
    case PrimitiveDocTranslate =>
      if job.document.None? then SetErrorOp("document is required for PRIMITIVE_DOC_TRANSLATE", endNow)
      else
        var d := job.document.value;
        var t := if d.title != "" then Call(tr, d.title, src, tgt) else Ok("");
        if t.Err? then SetErrorOp("title translation failed: " + t.error, endNow)
        else if d.markdown == "" then SetResultOp(t.value, "", 0, endNow - startNow, endNow)
        else MarkdownClosing(d.markdown, t.value, tr, src, tgt, chunkSize, startNow, endNow)
    case PrimitiveOther(_) => SetResultOp("", "", 0, endNow - startNow, endNow)
  }

  lemma LastOfConcat(a: seq<JobOp>, b: seq<JobOp>)
    requires b != []
    ensures a + b != [] && (a + b)[|a + b| - 1] == b[|b| - 1]
  {
  }

  lemma MarkdownCloseLast(m: Result<string, string>, title: string, startNow: int, endNow: int)
    ensures var c := MarkdownClose(m, title, startNow, endNow);
      && c != []
      && c[|c| - 1] == if m.Err? then SetErrorOp("markdown translation failed: " + m.error, endNow)
                       else SetResultOp(title, m.value, 0, endNow - startNow, endNow)
  {
  }

  lemma MarkdownOpsLast(markdown: string, title: string, tr: Option<Translator.Engine>, src: string, tgt: string,
                        chunkSize: int, startNow: int, endNow: int)
    ensures var ops := MarkdownOps(markdown, title, tr, src, tgt, chunkSize, startNow, endNow);
      ops != [] && ops[|ops| - 1] == MarkdownClosing(markdown, title, tr, src, tgt, chunkSize, startNow, endNow)
  {
    var head := [UpdateProgressOp(10, "Translating content...")];
    if Utf8Len(markdown) > chunkSize {
      var chunks := Chunks(markdown, chunkSize);
      var c := TranslateChunks(chunks, tr, src, tgt);
      var close := MarkdownClose(c.result, title, startNow, endNow);
      MarkdownCloseLast(c.result, title, startNow, endNow);
      LastOfConcat(ProgressOps(|chunks|, c.started), close);
      LastOfConcat(head, ProgressOps(|chunks|, c.started) + close);
    } else {
      var m := Call(tr, markdown, src, tgt);
      MarkdownCloseLast(m, title, startNow, endNow);
      LastOfConcat(head, MarkdownClose(m, title, startNow, endNow));
    }
  }

  lemma TitleOpsLast(title: string, tr: Option<Translator.Engine>, src: string, tgt: string, startNow: int, endNow: int)
    ensures var ops := TitleOps(title, tr, src, tgt, startNow, endNow);
      var t := Call(tr, title, src, tgt);
      && ops != []
      && ops[|ops| - 1] == if t.Err? then SetErrorOp("title translation failed: " + t.error, endNow)
                           else SetResultOp(t.value, "", 0, endNow - startNow, endNow)
  {
    var t := Call(tr, title, src, tgt);
    var tail := if t.Err? then [SetErrorOp("title translation failed: " + t.error, endNow)]
      else Finish(t.value, "", startNow, endNow);
    LastOfConcat([UpdateProgressOp(10, "Translating title...")], tail);
  }

  lemma DocOpsLast(d: Document, tr: Option<Translator.Engine>, src: string, tgt: string,
                   chunkSize: int, startNow: int, endNow: int)
    ensures var ops := DocOps(Some(d), tr, src, tgt, chunkSize, startNow, endNow);
      var t := if d.title != "" then Call(tr, d.title, src, tgt) else Ok("");
      && ops != []
      && ops[|ops| - 1] ==
           if t.Err? then SetErrorOp("title translation failed: " + t.error, endNow)
           else if d.markdown == "" then SetResultOp(t.value, "", 0, endNow - startNow, endNow)
           else MarkdownClosing(d.markdown, t.value, tr, src, tgt, chunkSize, startNow, endNow)
  {
    var titleOps := if d.title != "" then [UpdateProgressOp(5, "Translating title...")] else [];
    var t := if d.title != "" then Call(tr, d.title, src, tgt) else Ok("");
    if t.Err? {
      LastOfConcat(titleOps, [SetErrorOp("title translation failed: " + t.error, endNow)]);
    } else if d.markdown == "" {
      LastOfConcat(titleOps, Finish(t.value, "", startNow, endNow));
    } else {
      MarkdownOpsLast(d.markdown, t.value, tr, src, tgt, chunkSize, startNow, endNow);
      LastOfConcat(titleOps, MarkdownOps(d.markdown, t.value, tr, src, tgt, chunkSize, startNow, endNow));
    }
  }

  /** The last call `ProcessJob` makes is `ClosingOp`. */
  lemma ProcessOpsLast(job: TranslationJob, tr: Option<Translator.Engine>, chunkSize: int, startNow: int, endNow: int)
    ensures var ops := ProcessOps(job, tr, chunkSize, startNow, endNow);
      ops != [] && ops[|ops| - 1] == ClosingOp(job, tr, chunkSize, startNow, endNow)
  {
    var src := Translator.ToBackendCode(job.sourceLang);
    var tgt := Translator.ToBackendCode(job.targetLang);
    var head := [UpdateStatusOp(Processing, "Starting translation...", startNow)];
    match job.primitive
    case PrimitiveTitle =>
      TitleOpsLast(job.title, tr, src, tgt, startNow, endNow);
      LastOfConcat(head, TitleOps(job.title, tr, src, tgt, startNow, endNow));
    case PrimitiveDocTranslate =>
      if job.document.Some? {
        DocOpsLast(job.document.value, tr, src, tgt, chunkSize, startNow, endNow);
      }
      LastOfConcat(head, DocOps(job.document, tr, src, tgt, chunkSize, startNow, endNow));
    case PrimitiveOther(_) =>
  }

  /** What a processed job holds, call by call: an unknown primitive
      completes with nothing translated; without a translator only a
      document request without a document fails; a title request fails
      exactly when the backend refuses the title, with that error wrapped. */
  lemma ProcessJobResults(s: JobState, job: TranslationJob, tr: Option<Translator.Engine>, chunkSize: int,
                          startNow: int, endNow: int)
    ensures var f := Run(s, ProcessOps(job, tr, chunkSize, startNow, endNow));
      && (job.primitive.PrimitiveOther? ==>
            f.status == Completed && f.translatedTitle == "" && f.translatedMarkdown == "")
      && (tr.None? ==>
            && (f.status == Failed <==> job.primitive.PrimitiveDocTranslate? && job.document.None?)
            && (f.status == Completed ==> f.translatedTitle == "" && f.translatedMarkdown == ""))
      && (job.primitive.PrimitiveDocTranslate? && job.document.None? ==>
            f.status == Failed && f.error == "document is required for PRIMITIVE_DOC_TRANSLATE")
  {
    ProcessOpsLast(job, tr, chunkSize, startNow, endNow);
    ClosingOpWithoutTranslator(job, chunkSize, startNow, endNow);
    RunLast(s, ProcessOps(job, tr, chunkSize, startNow, endNow));
  }

  /** Without a translator every job completes with nothing translated,
      except a document request without a document. */
  lemma ClosingOpWithoutTranslator(job: TranslationJob, chunkSize: int, startNow: int, endNow: int)
    ensures ClosingOp(job, None, chunkSize, startNow, endNow)
      == if job.primitive.PrimitiveDocTranslate? && job.document.None?
         then SetErrorOp("document is required for PRIMITIVE_DOC_TRANSLATE", endNow)
         else SetResultOp("", "", 0, endNow - startNow, endNow)
  {
    if job.primitive.PrimitiveDocTranslate? && job.document.Some? {
      var d := job.document.value;
      if d.markdown != "" && Utf8Len(d.markdown) > chunkSize {
        var src := Translator.ToBackendCode(job.sourceLang);
        var tgt := Translator.ToBackendCode(job.targetLang);
        assert TranslateChunks(Chunks(d.markdown, chunkSize), None, src, tgt).result == Ok("");
      }
    }
  }

  /** A title request with a translator fails exactly when the backend
      refuses the title, with the backend's error wrapped; otherwise the
      job holds the backend's translation. */
  lemma ProcessTitleJob(s: JobState, job: TranslationJob, engine: Translator.Engine, chunkSize: int,
                        startNow: int, endNow: int)
    requires job.primitive.PrimitiveTitle?
    ensures var f := Run(s, ProcessOps(job, Some(engine), chunkSize, startNow, endNow));
      var t := engine(job.title, Translator.ToBackendCode(job.sourceLang), Translator.ToBackendCode(job.targetLang));
      && (f.status == Failed <==> t.Err?)
      && (t.Err? ==> f.error == "title translation failed: " + t.error)
      && (t.Ok? ==> f.translatedTitle == t.value && f.translatedMarkdown == "")
  {
    ProcessOpsLast(job, Some(engine), chunkSize, startNow, endNow);
    RunLast(s, ProcessOps(job, Some(engine), chunkSize, startNow, endNow));
  }

  /** A document request with a short body (at most the chunk size) and a
      translator: it completes exactly when the backend accepts the title
      (if any) and the body (if any), holding those translations; otherwise
      the first refusal is recorded, wrapped. */
  lemma ProcessShortDocumentJob(s: JobState, job: TranslationJob, engine: Translator.Engine, chunkSize: int,
                                startNow: int, endNow: int)
    requires job.primitive.PrimitiveDocTranslate? && job.document.Some?
    requires Utf8Len(job.document.value.markdown) <= chunkSize
    ensures var f := Run(s, ProcessOps(job, Some(engine), chunkSize, startNow, endNow));
      var d := job.document.value;
      var src := Translator.ToBackendCode(job.sourceLang);
      var tgt := Translator.ToBackendCode(job.targetLang);
      var t := if d.title != "" then engine(d.title, src, tgt) else Ok("");
      var m := if d.markdown != "" then engine(d.markdown, src, tgt) else Ok("");
      && (f.status == Completed <==> t.Ok? && m.Ok?)
      && (t.Err? ==> f.error == "title translation failed: " + t.error)
      && (t.Ok? && m.Err? ==> f.error == "markdown translation failed: " + m.error)
      && (f.status == Completed ==> f.translatedTitle == t.value && f.translatedMarkdown == m.value)
  {
    ProcessOpsLast(job, Some(engine), chunkSize, startNow, endNow);
    RunLast(s, ProcessOps(job, Some(engine), chunkSize, startNow, endNow));
  }

  /** A document request whose body is longer than the chunk size, with a
      translator: it completes exactly when the backend accepts the title
      (if any) and every chunk; the body is then the chunk translations
      concatenated in order, and otherwise the first refused chunk is
      reported by its number from 1. */
  lemma ProcessLongDocumentJob(s: JobState, job: TranslationJob, engine: Translator.Engine, chunkSize: int,
                               startNow: int, endNow: int)
    requires job.primitive.PrimitiveDocTranslate? && job.document.Some?
    requires job.document.value.markdown != "" && Utf8Len(job.document.value.markdown) > chunkSize
    ensures var f := Run(s, ProcessOps(job, Some(engine), chunkSize, startNow, endNow));
      var d := job.document.value;
      var src := Translator.ToBackendCode(job.sourceLang);
      var tgt := Translator.ToBackendCode(job.targetLang);
      var t := if d.title != "" then engine(d.title, src, tgt) else Ok("");
      var ct := ChunkTranslations(Chunks(d.markdown, chunkSize), engine, src, tgt);
      && (f.status == Completed <==> t.Ok? && ct.Ok?)
      && (t.Err? ==> f.error == "title translation failed: " + t.error)
      && (t.Ok? && ct.Err? ==>
            f.error == "markdown translation failed: chunk " + Decimal.FormatInt(ct.error.0 + 1)
                       + " translation failed: " + ct.error.1)
      && (f.status == Completed ==> f.translatedTitle == t.value && f.translatedMarkdown == Join(ct.value, ""))
  {
    var src := Translator.ToBackendCode(job.sourceLang);
    var tgt := Translator.ToBackendCode(job.targetLang);
    var chunks := Chunks(job.document.value.markdown, chunkSize);
    var ct := ChunkTranslations(chunks, engine, src, tgt);
    assert TranslateChunks(chunks, Some(engine), src, tgt) == ChunkedRunOf(ct, |chunks|);
    ChunkedFailureMessage(ct, |chunks|);
    ProcessOpsLast(job, Some(engine), chunkSize, startNow, endNow);
    RunLast(s, ProcessOps(job, Some(engine), chunkSize, startNow, endNow));
  }

  /** The message of a refused chunk once `ProcessJob` has wrapped it. */
  lemma ChunkedFailureMessage(ct: Result<seq<string>, (nat, string)>, n: nat)
    ensures ct.Err? ==> ChunkedRunOf(ct, n).result.Err?
    ensures ct.Err? ==>
      "markdown translation failed: " + ChunkedRunOf(ct, n).result.error
        == "markdown translation failed: chunk " + Decimal.FormatInt(ct.error.0 + 1) + " translation failed: " + ct.error.1
    ensures ct.Ok? ==> ChunkedRunOf(ct, n).result == Ok(Join(ct.value, ""))
  {
  }
}
