/**
 * The retrieval-augmented answering pipeline of AgroShakti's RAG service (`Rag.py`):
 * sentence chunking with a two-sentence overlap, de-duplication of scanned
 * numbers, query expansion, reranking, answer extraction and the shape of the
 * final answer. The sentence splitter, the GPT-2 token counter, the vector
 * store, the cross-encoder, the question-answering model, the number regexes
 * and the synthesis step are inputs to the model.
 */
module Rag {
  import opened Wrappers
  import opened Strings

  const ChunkSize: nat := 400
  const MinChunk: nat := 80
  const TopK: nat := 20
  const RerankTop: nat := 6

  function Min(a: nat, b: nat): nat {
    if a <= b then a else b
  }

  /** Python's `s[:n]`. */
  function Take<T>(s: seq<T>, n: nat): (r: seq<T>)
    ensures |r| == Min(|s|, n) && r == s[..|r|]
  {
    if |s| <= n then s else s[..n]
  }

  // ---- chunk_text ----

  /** `sum(token_len(x) for x in buf)`. */
  function SumTokens(buf: seq<string>, tokens: string -> nat): nat {
    if buf == [] then 0 else SumTokens(buf[..|buf| - 1], tokens) + tokens(buf[|buf| - 1])
  }

  lemma {:induction false} SumTokensConcat(a: seq<string>, b: seq<string>, tokens: string -> nat)
    ensures SumTokens(a + b, tokens) == SumTokens(a, tokens) + SumTokens(b, tokens)
  {
    if b == [] {
      assert a + b == a;
    } else {
      assert (a + b)[..|a + b| - 1] == a + b[..|b| - 1];
      SumTokensConcat(a, b[..|b| - 1], tokens);
    }
  }

  /** A run of consecutive sentences counts no more tokens than the whole sequence. */
  lemma SliceSumBound(s: seq<string>, lo: nat, hi: nat, tokens: string -> nat)
    requires lo <= hi <= |s|
    ensures SumTokens(s[lo..hi], tokens) <= SumTokens(s, tokens)
  {
    assert s == s[..lo] + s[lo..hi] + s[hi..];
    SumTokensConcat(s[..lo] + s[lo..hi], s[hi..], tokens);
    SumTokensConcat(s[..lo], s[lo..hi], tokens);
  }

  lemma SuffixSumBound(s: seq<string>, lo: nat, tokens: string -> nat)
    requires lo <= |s|
    ensures SumTokens(s[lo..], tokens) <= SumTokens(s, tokens)
  {
    SliceSumBound(s, lo, |s|, tokens);
    assert s[lo..|s|] == s[lo..];
  }

  /** The stripped sentences that are not blank, in input order: what the loop of `chunk_text` buffers. */
  function Kept(sents: seq<string>): (r: seq<string>)
    ensures |r| <= |sents|
  {
    if sents == [] then []
    else
      var s := PyStrip(sents[|sents| - 1]);
      Kept(sents[..|sents| - 1]) + (if s == [] then [] else [s])
  }

  /** No kept sentence is empty or starts or ends with whitespace. */
  lemma {:induction false} KeptStripped(sents: seq<string>)
    ensures forall i :: 0 <= i < |Kept(sents)| ==> Clean(Kept(sents)[i])
  {
    if sents != [] {
      KeptStripped(sents[..|sents| - 1]);
    }
  }

  predicate Clean(s: string) {
    s != [] && !IsPySpace(s[0]) && !IsPySpace(s[|s| - 1])
  }

  /** Keeping distributes over concatenation, so the kept sentences are in input order. */
  lemma {:induction false} KeptConcat(a: seq<string>, b: seq<string>)
    ensures Kept(a + b) == Kept(a) + Kept(b)
  {
    if b == [] {
      assert a + b == a;
    } else {
      assert (a + b)[..|a + b| - 1] == a + b[..|b| - 1];
      KeptConcat(a, b[..|b| - 1]);
    }
  }

  /** A single sentence is kept, stripped, exactly when it is not blank. */
  lemma KeptSingle(s: string)
    ensures Kept([s]) == if PyStrip(s) == [] then [] else [PyStrip(s)]
  {
    assert [s][..0] == [];
  }

  lemma KeptStep(sents: seq<string>, i: nat)
    requires i < |sents|
    ensures Kept(sents[..i + 1]) == Kept(sents[..i]) + (if PyStrip(sents[i]) == [] then [] else [PyStrip(sents[i])])
  {
    assert sents[..i + 1][..i] == sents[..i];
  }

  /** Python's `buf[-2:]`. */
  function LastTwo(buf: seq<string>): (r: seq<string>)
    ensures |r| == Min(|buf|, 2) && r == buf[|buf| - |r|..]
  {
    if |buf| <= 2 then buf else buf[|buf| - 2..]
  }

  /** The positions `lo..hi` of the kept sentences a chunk joins. */
  datatype Span = Span(lo: nat, hi: nat)

  /** A chunk is the space-join of a non-empty run of kept sentences with at least `MIN_CHUNK` tokens. */
  predicate Emitted(kept: seq<string>, span: Span, chunk: string, tokens: string -> nat) {
    span.lo < span.hi <= |kept| &&
    chunk == Join(" ", kept[span.lo..span.hi]) &&
    SumTokens(kept[span.lo..span.hi], tokens) >= MinChunk
  }

  lemma EmittedGrow(kept: seq<string>, s: string, span: Span, chunk: string, tokens: string -> nat)
    requires Emitted(kept, span, chunk, tokens)
    ensures Emitted(kept + [s], span, chunk, tokens)
  {
    assert (kept + [s])[span.lo..span.hi] == kept[span.lo..span.hi];
  }

  lemma SliceGrow<T>(s: seq<T>, x: T, lo: nat)
    requires lo <= |s|
    ensures (s + [x])[lo..] == s[lo..] + [x]
  {
  }

  lemma PrefixWhole<T>(s: seq<T>)
    ensures s[..|s|] == s
  {
  }

  /** The chunks so far: each is emitted from its span, and the spans advance with an overlap of at most two. */
  predicate Emissions(kept: seq<string>, chunks: seq<string>, spans: seq<Span>, tokens: string -> nat) {
    |spans| == |chunks| &&
    (forall j :: 0 <= j < |chunks| ==> Emitted(kept, spans[j], chunks[j], tokens)) &&
    (forall j :: 0 < j < |chunks| ==> spans[j - 1].hi < spans[j].hi && spans[j - 1].hi <= spans[j].lo + 2)
  }

  lemma EmissionsGrow(kept: seq<string>, s: string, chunks: seq<string>, spans: seq<Span>, tokens: string -> nat)
    requires Emissions(kept, chunks, spans, tokens)
    ensures Emissions(kept + [s], chunks, spans, tokens)
  {
    forall j | 0 <= j < |chunks|
      ensures Emitted(kept + [s], spans[j], chunks[j], tokens)
    {
      EmittedGrow(kept, s, spans[j], chunks[j], tokens);
    }
  }

  /** Emitting the buffer `kept[lo..]` keeps the chunks well formed when it ends after the previous chunk. */
  lemma EmissionsEmit(kept: seq<string>, lo: nat, chunks: seq<string>, spans: seq<Span>, tokens: string -> nat)
    requires Emissions(kept, chunks, spans, tokens)
    requires lo < |kept| && SumTokens(kept[lo..], tokens) >= MinChunk
    requires chunks != [] ==> spans[|chunks| - 1].hi < |kept| && spans[|chunks| - 1].hi <= lo + 2
    ensures Emissions(kept, chunks + [Join(" ", kept[lo..])], spans + [Span(lo, |kept|)], tokens)
  {
    var c, p := chunks + [Join(" ", kept[lo..])], spans + [Span(lo, |kept|)];
    assert kept[lo..|kept|] == kept[lo..];
    assert Emitted(kept, p[|chunks|], c[|chunks|], tokens);
    forall j | 0 <= j < |c|
      ensures Emitted(kept, p[j], c[j], tokens)
    {
      if j < |chunks| {
        assert p[j] == spans[j] && c[j] == chunks[j];
      }
    }
    forall j | 0 < j < |c|
      ensures p[j - 1].hi < p[j].hi && p[j - 1].hi <= p[j].lo + 2
    {
      if j < |chunks| {
        assert p[j - 1] == spans[j - 1] && p[j] == spans[j];
      }
    }
  }

  /**
   * The state `chunk_text` carries between sentences, given the kept
   * sentences so far: the buffer is the kept sentences from `lo` on,
   * `bufTok` counts its tokens, the last chunk ended before the buffer's
   * newest sentence and at most two sentences after `lo`, and while the
   * kept sentences fit in `CHUNK_SIZE` nothing has been flushed.
   */
  predicate Buffered(kept: seq<string>, lo: nat, buf: seq<string>, bufTok: nat, chunks: seq<string>, spans: seq<Span>, tokens: string -> nat) {
    lo <= |kept| && buf == kept[lo..] &&
    bufTok == SumTokens(buf, tokens) &&
    Emissions(kept, chunks, spans, tokens) &&
    (chunks != [] ==> spans[|chunks| - 1].hi < |kept| && spans[|chunks| - 1].hi <= lo + 2) &&
    (SumTokens(kept, tokens) <= ChunkSize ==> chunks == [] && lo == 0)
  }

  /**
   * One non-blank sentence `s` of `st` tokens: when it does not fit, the
   * buffer is emitted if it has at least `MIN_CHUNK` tokens and cut to its
   * last two sentences either way; then `s` is appended.
   */
  method Absorb(s: string, st: nat, buf: seq<string>, bufTok: nat, chunks: seq<string>, tokens: string -> nat,
                ghost kept: seq<string>, ghost lo: nat, ghost spans: seq<Span>)
    returns (buf': seq<string>, bufTok': nat, chunks': seq<string>, ghost lo': nat, ghost spans': seq<Span>)
    requires Buffered(kept, lo, buf, bufTok, chunks, spans, tokens) && st == tokens(s)
    ensures Buffered(kept + [s], lo', buf', bufTok', chunks', spans', tokens)
    ensures bufTok + st > ChunkSize ==>
      buf' == LastTwo(buf) + [s] && chunks' == (if bufTok >= MinChunk then chunks + [Join(" ", buf)] else chunks)
    ensures bufTok + st <= ChunkSize ==> buf' == buf + [s] && chunks' == chunks
  {
    buf', bufTok', chunks', lo', spans' := buf, bufTok, chunks, lo, spans;
    if bufTok + st > ChunkSize {
      if bufTok >= MinChunk {
        chunks' := chunks + [Join(" ", buf)];
        spans' := spans + [Span(lo, |kept|)];
      }
      lo' := if |buf| <= 2 then lo else |kept| - 2;
      buf' := LastTwo(buf);
      bufTok' := SumTokens(buf', tokens);
      FlushKeeps(kept, lo, buf, bufTok, chunks, spans, tokens, s);
    } else {
      AppendKeeps(kept, lo, buf, bufTok, chunks, spans, tokens, s);
    }
    buf' := buf' + [s];
    bufTok' := bufTok' + st;
  }

  /** The flushing branch of the loop body keeps the buffer state, now over one more kept sentence. */
  lemma FlushKeeps(kept: seq<string>, lo: nat, buf: seq<string>, bufTok: nat, chunks: seq<string>, spans: seq<Span>,
                   tokens: string -> nat, s: string)
    requires Buffered(kept, lo, buf, bufTok, chunks, spans, tokens) && bufTok + tokens(s) > ChunkSize
    ensures var emit := bufTok >= MinChunk;
      var c := if emit then chunks + [Join(" ", buf)] else chunks;
      var p := if emit then spans + [Span(lo, |kept|)] else spans;
      var lo' := if |buf| <= 2 then lo else |kept| - 2;
      Buffered(kept + [s], lo', LastTwo(buf) + [s], SumTokens(LastTwo(buf), tokens) + tokens(s), c, p, tokens)
  {
    var lo' := if |buf| <= 2 then lo else |kept| - 2;
    LastTwoSuffix(kept, lo);
    SuffixSumBound(kept, lo, tokens);
    if bufTok >= MinChunk {
      EmissionsEmit(kept, lo, chunks, spans, tokens);
      Refill(kept, lo', LastTwo(buf), chunks + [Join(" ", buf)], spans + [Span(lo, |kept|)], tokens, s);
    } else {
      Refill(kept, lo', LastTwo(buf), chunks, spans, tokens, s);
    }
  }

  lemma LastTwoSuffix(kept: seq<string>, lo: nat)
    requires lo <= |kept|
    ensures LastTwo(kept[lo..]) == kept[if |kept| - lo <= 2 then lo else |kept| - 2..]
  {
  }

  /** Appending a sentence that overflows the buffer, to the buffer `kept[lo..]` left after a flush. */
  lemma Refill(kept: seq<string>, lo: nat, buf: seq<string>, chunks: seq<string>, spans: seq<Span>,
               tokens: string -> nat, s: string)
    requires lo <= |kept| && buf == kept[lo..]
    requires Emissions(kept, chunks, spans, tokens)
    requires chunks != [] ==> spans[|chunks| - 1].hi <= |kept| && spans[|chunks| - 1].hi <= lo + 2
    requires SumTokens(kept, tokens) + tokens(s) > ChunkSize
    ensures Buffered(kept + [s], lo, buf + [s], SumTokens(buf, tokens) + tokens(s), chunks, spans, tokens)
  {
    EmissionsGrow(kept, s, chunks, spans, tokens);
    SliceGrow(kept, s, lo);
    SumTokensConcat(buf, [s], tokens);
    SumTokensConcat(kept, [s], tokens);
  }

  /** The appending branch of the loop body keeps the buffer state, now over one more kept sentence. */
  lemma AppendKeeps(kept: seq<string>, lo: nat, buf: seq<string>, bufTok: nat, chunks: seq<string>, spans: seq<Span>,
                    tokens: string -> nat, s: string)
    requires Buffered(kept, lo, buf, bufTok, chunks, spans, tokens)
    ensures Buffered(kept + [s], lo, buf + [s], bufTok + tokens(s), chunks, spans, tokens)
  {
    EmissionsGrow(kept, s, chunks, spans, tokens);
    SliceGrow(kept, s, lo);
    SumTokensConcat(buf, [s], tokens);
    SumTokensConcat(kept, [s], tokens);
  }

  /**
   * `chunk_text` over the sentences the tokenizer produced, with `tokens`
   * for `token_len`. `spans` names, for each chunk, the kept sentences it
   * joins: every chunk is a run of kept sentences with at least `MIN_CHUNK`
   * tokens, the runs advance, and a run starts at most two sentences before
   * the previous one ended. A text of at most `CHUNK_SIZE` tokens is one chunk,
   * and a text below `MIN_CHUNK` tokens gives none.
   */
  method ChunkText(sents: seq<string>, tokens: string -> nat) returns (chunks: seq<string>, ghost spans: seq<Span>)
    ensures Emissions(Kept(sents), chunks, spans, tokens)
    ensures SumTokens(Kept(sents), tokens) < MinChunk ==> chunks == []
    ensures MinChunk <= SumTokens(Kept(sents), tokens) <= ChunkSize ==> chunks == [Join(" ", Kept(sents))]
  {
    chunks, spans := [], [];
    var buf: seq<string> := [];
    var bufTok: nat := 0;
    ghost var kept: seq<string> := [];
    ghost var lo: nat := 0;
    var i := 0;
    while i < |sents|
      invariant 0 <= i <= |sents|
      invariant kept == Kept(sents[..i])
      invariant Buffered(kept, lo, buf, bufTok, chunks, spans, tokens)
    {
      KeptStep(sents, i);
      var s := PyStrip(sents[i]);
      if s != [] {
        buf, bufTok, chunks, lo, spans := Absorb(s, tokens(s), buf, bufTok, chunks, tokens, kept, lo, spans);
        kept := kept + [s];
      }
      i := i + 1;
    }
    PrefixWhole(sents);
    FinalEmission(kept, lo, buf, bufTok, chunks, spans, tokens);
    if bufTok >= MinChunk && buf != [] {
      chunks := chunks + [Join(" ", buf)];
      spans := spans + [Span(lo, |kept|)];
    }
  }

  /** The closing `if` of `chunk_text` emits a last buffer of at least `MIN_CHUNK` tokens. */
  lemma FinalEmission(kept: seq<string>, lo: nat, buf: seq<string>, bufTok: nat, chunks: seq<string>, spans: seq<Span>, tokens: string -> nat)
    requires Buffered(kept, lo, buf, bufTok, chunks, spans, tokens)
    ensures var emit := bufTok >= MinChunk && buf != [];
      var c := if emit then chunks + [Join(" ", buf)] else chunks;
      var p := if emit then spans + [Span(lo, |kept|)] else spans;
      Emissions(kept, c, p, tokens) &&
      (SumTokens(kept, tokens) < MinChunk ==> c == []) &&
      (MinChunk <= SumTokens(kept, tokens) <= ChunkSize ==> c == [Join(" ", kept)])
  {
    var emit := bufTok >= MinChunk && buf != [];
    var c := if emit then chunks + [Join(" ", buf)] else chunks;
    var p := if emit then spans + [Span(lo, |kept|)] else spans;
    if emit {
      EmissionsEmit(kept, lo, chunks, spans, tokens);
    }
    if c != [] {
      SliceSumBound(kept, p[0].lo, p[0].hi, tokens);
    }
  }

  // ---- the de-duplication of scan_numbers_with_evidence ----

  /** One scanned number: the matched text, its label (`kind`) and the sentence it came from. */
  datatype Number = Number(raw: string, kind: string, evidence: string)

  function Raws(items: seq<Number>): (r: seq<string>)
    ensures |r| == |items| && forall i :: 0 <= i < |items| ==> r[i] == items[i].raw
  {
    seq(|items|, i requires 0 <= i < |items| => items[i].raw)
  }

  lemma RawsGrow(items: seq<Number>, x: Number)
    ensures Raws(items + [x]) == Raws(items) + [x.raw]
  {
  }

  /**
   * `unique` lists the first occurrences of the `raw` values among the first
   * `i` items of `found`: `picks` are their positions, increasing, no earlier
   * item has the same `raw`, the `raw` values are distinct and every `raw`
   * seen so far is among them.
   */
  predicate Deduped(found: seq<Number>, i: nat, unique: seq<Number>, picks: seq<nat>) {
    i <= |found| && |picks| == |unique| &&
    (forall k :: 0 <= k < |unique| ==> picks[k] < i && unique[k] == found[picks[k]]) &&
    (forall k :: 0 < k < |unique| ==> picks[k - 1] < picks[k]) &&
    (forall k, m :: 0 <= k < |unique| && 0 <= m < picks[k] ==> found[m].raw != unique[k].raw) &&
    (forall k, m :: 0 <= k < m < |unique| ==> unique[k].raw != unique[m].raw) &&
    (forall j :: 0 <= j < i ==> found[j].raw in Raws(unique))
  }

  lemma DedupKeep(found: seq<Number>, i: nat, unique: seq<Number>, picks: seq<nat>)
    requires Deduped(found, i, unique, picks) && i < |found| && found[i].raw !in Raws(unique)
    ensures Deduped(found, i + 1, unique + [found[i]], picks + [i])
  {
    RawsGrow(unique, found[i]);
    var u, p := unique + [found[i]], picks + [i];
    forall k, m | 0 <= k < |u| && 0 <= m < p[k]
      ensures found[m].raw != u[k].raw
    {
      if k == |unique| {
        assert found[m].raw in Raws(unique);
      }
    }
    forall k, m | 0 <= k < m < |u|
      ensures u[k].raw != u[m].raw
    {
      if m == |unique| {
        assert Raws(unique)[k] == u[k].raw;
      }
    }
  }

  lemma DedupSkip(found: seq<Number>, i: nat, unique: seq<Number>, picks: seq<nat>)
    requires Deduped(found, i, unique, picks) && i < |found| && found[i].raw in Raws(unique)
    ensures Deduped(found, i + 1, unique, picks)
  {
  }

  /**
   * The `unique`/`seen` loop: `picks` are the positions in `found` of the
   * items kept. They are the first occurrences of their `raw`, in order, the
   * kept `raw` values are distinct, and every `raw` of `found` is kept.
   */
  method Dedup(found: seq<Number>) returns (unique: seq<Number>, ghost picks: seq<nat>)
    ensures Deduped(found, |found|, unique, picks)
  {
    unique, picks := [], [];
    var seen: set<string> := {};
    var i := 0;
    while i < |found|
      invariant 0 <= i <= |found|
      invariant forall r :: r in seen <==> r in Raws(unique)
      invariant Deduped(found, i, unique, picks)
    {
      var item := found[i];
      if item.raw !in seen {
        DedupKeep(found, i, unique, picks);
        RawsGrow(unique, item);
        unique := unique + [item];
        picks := picks + [i];
        seen := seen + {item.raw};
      } else {
        DedupSkip(found, i, unique, picks);
      }
      i := i + 1;
    }
  }

  // ---- expand_query ----

  /** Python's `<` on strings: code points compared left to right, a proper prefix first. */
  predicate Less(a: string, b: string) {
    if a == [] then b != []
    else b != [] && (a[0] < b[0] || (a[0] == b[0] && Less(a[1..], b[1..])))
  }

  lemma {:induction false} LessIrreflexive(a: string)
    ensures !Less(a, a)
  {
    if a != [] {
      LessIrreflexive(a[1..]);
    }
  }

  lemma {:induction false} LessAsymmetric(a: string, b: string)
    requires Less(a, b)
    ensures !Less(b, a)
  {
    if a != [] && a[0] == b[0] {
      LessAsymmetric(a[1..], b[1..]);
    }
  }

  lemma {:induction false} LessTransitive(a: string, b: string, c: string)
    requires Less(a, b) && Less(b, c)
    ensures Less(a, c)
  {
    if a != [] && a[0] == b[0] && b[0] == c[0] {
      LessTransitive(a[1..], b[1..], c[1..]);
    }
  }

  lemma {:induction false} LessTotal(a: string, b: string)
    requires a != b
    ensures Less(a, b) || Less(b, a)
  {
    if a != [] && b != [] && a[0] == b[0] {
      assert a == [a[0]] + a[1..] && b == [b[0]] + b[1..];
      LessTotal(a[1..], b[1..]);
    }
  }

  predicate StrictlySorted(s: seq<string>) {
    forall i, j :: 0 <= i < j < |s| ==> Less(s[i], s[j])
  }

  /** Adds `x` to a strictly sorted list of distinct strings. */
  function Insert(x: string, s: seq<string>): (r: seq<string>)
    requires StrictlySorted(s)
    ensures StrictlySorted(r)
    ensures forall y :: y in r <==> y in s || y == x
  {
    if s == [] then [x]
    else if x == s[0] then s
    else if Less(x, s[0]) then
      assert forall j :: 0 < j < |s| ==> Less(x, s[j]) by {
        forall j | 0 < j < |s| ensures Less(x, s[j]) {
          LessTransitive(x, s[0], s[j]);
        }
      }
      [x] + s
    else
      LessTotal(x, s[0]);
      var t := Insert(x, s[1..]);
      assert forall y :: y in t ==> Less(s[0], y);
      [s[0]] + t
  }

  /** `sorted(set(xs))`. */
  function SortedSet(xs: seq<string>): (r: seq<string>)
    ensures StrictlySorted(r)
    ensures forall y :: y in r <==> y in xs
  {
    if xs == [] then [] else Insert(xs[|xs| - 1], SortedSet(xs[..|xs| - 1]))
  }

  /** Only one strictly sorted list holds a given set of strings, so `SortedSet` is `sorted(set(xs))`. */
  lemma SomeElement<T>(s: seq<T>) returns (x: T)
    requires s != []
    ensures x in s
  {
    x := s[0];
  }

  /** Two strictly sorted lists with the same elements start alike. */
  lemma SortedHeads(a: seq<string>, b: seq<string>)
    requires StrictlySorted(a) && StrictlySorted(b) && a != [] && b != []
    requires forall y :: y in a <==> y in b
    ensures a[0] == b[0]
  {
    if a[0] != b[0] {
      assert a[0] in a && b[0] in b;
      var k :| 0 <= k < |b| && b[k] == a[0];
      var m :| 0 <= m < |a| && a[m] == b[0];
      LessAsymmetric(a[0], b[0]);
    }
  }

  lemma {:induction false} StrictlySortedUnique(a: seq<string>, b: seq<string>)
    requires StrictlySorted(a) && StrictlySorted(b)
    requires forall y :: y in a <==> y in b
    ensures a == b
  {
    if a != [] {
      assert a[0] in a && a[0] in b;
      assert b != [];
      SortedHeads(a, b);
      forall y
        ensures y in a[1..] <==> y in b[1..]
      {
        if y in a[1..] {
          var m :| 0 <= m < |a| - 1 && a[1..][m] == y;
          assert a[m + 1] == y;
          LessIrreflexive(a[0]);
          assert y in b;
          var k :| 0 <= k < |b| && b[k] == y;
          assert k != 0;
          assert b[1..][k - 1] == y;
        }
        if y in b[1..] {
          var m :| 0 <= m < |b| - 1 && b[1..][m] == y;
          assert b[m + 1] == y;
          LessIrreflexive(b[0]);
          assert y in a;
          var k :| 0 <= k < |a| && a[k] == y;
          assert k != 0;
          assert a[1..][k - 1] == y;
        }
      }
      StrictlySortedUnique(a[1..], b[1..]);
      assert a == [a[0]] + a[1..] && b == [b[0]] + b[1..];
    } else if b != [] {
      var y := SomeElement(b);
    }
  }

  /** The flags of `classify_query` that `expand_query` reads. */
  datatype QueryClass = QueryClass(mentionsRainfed: bool, asksCrops: bool, asksYield: bool, asksApple: bool)

  const RainfedTerms: seq<string> := ["rainfed", "rain-fed", "rain fed"]
  const CropTerms: seq<string> := ["rabi", "winter", "wheat", "mustard", "barley", "pea", "lentil"]
  const YieldTerms: seq<string> := ["yield", "increase", "q/ha", "t/ha", "%"]
  const AppleTerms: seq<string> := ["apple", "temperature", "rainfall", "chill"]
  const Region: string := "Uttarakhand"

  /** The `extras` list, in the order it is built. */
  function Extras(query: string, cls: QueryClass): seq<string> {
    (if cls.mentionsRainfed then RainfedTerms else []) +
    (if cls.asksCrops then CropTerms else []) +
    (if cls.asksYield then YieldTerms else []) +
    (if cls.asksApple then AppleTerms else []) +
    (if Contains(Lower(query), "uttarakhand") then [] else [Region])
  }

  /** `expand_query(query, cls)`: the query, a space, and the distinct extras in sorted order. */
  function ExpandQuery(query: string, cls: QueryClass): (r: string)
    ensures StartsWith(r, query + " ")
  {
    var terms := SortedSet(Extras(query, cls));
    assert (query + " " + Join(" ", terms))[..|query + " "|] == query + " ";
    query + " " + Join(" ", terms)
  }

  /** Whatever strictly sorted listing of the extras one takes, the expansion appends exactly it. */
  lemma ExpandQueryTerms(query: string, cls: QueryClass, terms: seq<string>)
    requires StrictlySorted(terms)
    requires forall y :: y in terms <==> y in Extras(query, cls)
    ensures ExpandQuery(query, cls) == query + " " + Join(" ", terms)
  {
    StrictlySortedUnique(SortedSet(Extras(query, cls)), terms);
  }

  /** The region name is added exactly when the lower-cased query does not mention it. */
  lemma RegionAdded(query: string, cls: QueryClass)
    ensures Region in SortedSet(Extras(query, cls)) <==> !Contains(Lower(query), "uttarakhand")
  {
    assert Region !in RainfedTerms + CropTerms + YieldTerms + AppleTerms by {
      assert forall t :: t in RainfedTerms + CropTerms + YieldTerms + AppleTerms ==> t[0] != 'U';
    }
  }

  /** With no flag set and the region already mentioned, the expansion is the query and a space. */
  lemma ExpandQueryBare(query: string, cls: QueryClass)
    requires !cls.mentionsRainfed && !cls.asksCrops && !cls.asksYield && !cls.asksApple
    requires Contains(Lower(query), "uttarakhand")
    ensures ExpandQuery(query, cls) == query + " "
  {
    assert Extras(query, cls) == [];
  }

  // ---- sorting by a key, as `list.sort(key=..., reverse=True)` ----

  /** A sort key, compared lexicographically as Python compares tuples. */
  datatype Rank = Rank(first: int, second: real, third: real)

  predicate AtLeast(a: Rank, b: Rank) {
    a.first > b.first || (a.first == b.first && (a.second > b.second || (a.second == b.second && a.third >= b.third)))
  }

  predicate SortedDesc<T>(s: seq<T>, key: T -> Rank) {
    forall i, j :: 0 <= i < j < |s| ==> AtLeast(key(s[i]), key(s[j]))
  }

  lemma AtLeastTransitive(a: Rank, b: Rank, c: Rank)
    requires AtLeast(a, b) && AtLeast(b, c)
    ensures AtLeast(a, c)
  {
  }

  lemma InsertFront<T>(x: T, s: seq<T>, key: T -> Rank)
    requires SortedDesc(s, key) && (s == [] || AtLeast(key(x), key(s[0])))
    ensures SortedDesc([x] + s, key)
  {
    forall j | 0 < j < |[x] + s|
      ensures AtLeast(key(([x] + s)[0]), key(([x] + s)[j]))
    {
      if j > 1 {
        AtLeastTransitive(key(x), key(s[0]), key(s[j - 1]));
      }
    }
  }

  lemma InsertBehind<T(!new)>(x: T, s: seq<T>, t: seq<T>, key: T -> Rank)
    requires s != [] && SortedDesc(s, key) && !AtLeast(key(x), key(s[0]))
    requires SortedDesc(t, key) && forall y :: y in t ==> y in s[1..] || y == x
    ensures SortedDesc([s[0]] + t, key)
  {
    forall j | 0 <= j < |t|
      ensures AtLeast(key(s[0]), key(t[j]))
    {
      if t[j] != x {
        assert t[j] in s[1..];
        var k :| 0 <= k < |s| - 1 && s[1..][k] == t[j];
        assert s[k + 1] == t[j];
      }
    }
    var r := [s[0]] + t;
    forall i, j | 0 <= i < j < |r|
      ensures AtLeast(key(r[i]), key(r[j]))
    {
      if i > 0 {
        assert r[i] == t[i - 1] && r[j] == t[j - 1];
      } else {
        assert r[j] == t[j - 1];
      }
    }
  }

  /** Places `x`, which came first in the input, before the first element it ranks at least as high as. */
  function InsertDesc<T(==,!new)>(x: T, s: seq<T>, key: T -> Rank): (r: seq<T>)
    requires SortedDesc(s, key)
    ensures SortedDesc(r, key)
    ensures multiset(r) == multiset(s) + multiset{x}
    ensures forall y :: y in r <==> y in s || y == x
  {
    if s == [] || AtLeast(key(x), key(s[0])) then
      InsertFront(x, s, key);
      [x] + s
    else
      assert s == [s[0]] + s[1..];
      var t := InsertDesc(x, s[1..], key);
      InsertBehind(x, s, t, key);
      [s[0]] + t
  }

  /** A stable sort in descending order of `key`. */
  function SortDesc<T(==,!new)>(xs: seq<T>, key: T -> Rank): (r: seq<T>)
    ensures SortedDesc(r, key)
    ensures multiset(r) == multiset(xs) && |r| == |xs|
  {
    if xs == [] then []
    else
      assert xs == [xs[0]] + xs[1..];
      InsertDesc(xs[0], SortDesc(xs[1..], key), key)
  }

  /** When every key is the same, the sort leaves the input order alone. */
  lemma {:induction false} SortDescUniform<T(!new)>(xs: seq<T>, key: T -> Rank)
    requires forall i :: 0 <= i < |xs| ==> key(xs[i]) == key(xs[0])
    ensures SortDesc(xs, key) == xs
  {
    if xs != [] {
      if |xs| > 1 {
        SortDescUniform(xs[1..], key);
      }
      assert xs == [xs[0]] + xs[1..];
    }
  }

  lemma TakeSplit<T>(s: seq<T>, n: nat)
    ensures multiset(s) == multiset(Take(s, n)) + multiset(s[|Take(s, n)|..])
  {
    assert s == Take(s, n) + s[|Take(s, n)|..];
  }

  // ---- retrieve_and_rerank ----

  /** A retrieved document: its `page_content` and what `safe_source` makes of its metadata. */
  datatype Doc = Doc(content: string, source: string)

  datatype Scored = Scored(doc: Doc, score: real)

  function ScoreRank(x: Scored): Rank {
    Rank(0, x.score, 0.0)
  }

  /** The reranker's score of every candidate, paired with it. */
  function Scores(query: string, docs: seq<Doc>, predict: (string, string) -> real): (r: seq<Scored>)
    ensures |r| == |docs|
    ensures forall i :: 0 <= i < |docs| ==> r[i] == Scored(docs[i], predict(query, docs[i].content))
  {
    seq(|docs|, i requires 0 <= i < |docs| => Scored(docs[i], predict(query, docs[i].content)))
  }

  /**
   * The part of `retrieve_and_rerank` after the search: `reranker` is the
   * cross-encoder's score of a (query, passage) pair, `None` when it failed
   * to load.
   */
  function Rerank(query: string, candidates: seq<Doc>, reranker: Option<(string, string) -> real>): (r: seq<Scored>)
    ensures |r| == Min(|candidates|, RerankTop)
    ensures reranker.None? ==> forall i :: 0 <= i < |r| ==> r[i] == Scored(candidates[i], 1.0)
    ensures reranker.Some? ==> SortedDesc(r, ScoreRank) && multiset(r) <= multiset(Scores(query, candidates, reranker.value))
  {
    if candidates == [] then []
    else if reranker.None? then
      var top := Take(candidates, RerankTop);
      seq(|top|, i requires 0 <= i < |top| => Scored(top[i], 1.0))
    else
      var sorted := SortDesc(Scores(query, candidates, reranker.value), ScoreRank);
      TakeSplit(sorted, RerankTop);
      Take(sorted, RerankTop)
  }

  /** Of a list sorted highest first, an element that `s[:n]` leaves out ranks no higher than any it keeps. */
  lemma TakeKeepsBest<T>(s: seq<T>, n: nat, key: T -> Rank, x: T)
    requires SortedDesc(s, key)
    requires multiset(Take(s, n))[x] < multiset(s)[x]
    ensures forall i :: 0 <= i < |Take(s, n)| ==> AtLeast(key(Take(s, n)[i]), key(x))
  {
    var t := Take(s, n);
    TakeSplit(s, n);
    var rest := s[|t|..];
    assert x in multiset(rest);
    var k :| 0 <= k < |rest| && rest[k] == x;
    assert s[|t| + k] == x;
    forall i | 0 <= i < |t|
      ensures AtLeast(key(t[i]), key(x))
    {
      assert t[i] == s[i];
    }
  }

  /** A scored candidate the reranker leaves out scores no higher than any it keeps. */
  lemma RerankKeepsBest(query: string, candidates: seq<Doc>, predict: (string, string) -> real, x: Scored)
    requires multiset(Rerank(query, candidates, Some(predict)))[x] < multiset(Scores(query, candidates, predict))[x]
    ensures forall i :: 0 <= i < |Rerank(query, candidates, Some(predict))| ==> Rerank(query, candidates, Some(predict))[i].score >= x.score
  {
    var r := Rerank(query, candidates, Some(predict));
    var sorted := SortDesc(Scores(query, candidates, predict), ScoreRank);
    assert candidates != [];
    assert r == Take(sorted, RerankTop);
    TakeKeepsBest(sorted, RerankTop, ScoreRank, x);
    forall i | 0 <= i < |r|
      ensures r[i].score >= x.score
    {
      assert AtLeast(ScoreRank(r[i]), ScoreRank(x));
    }
  }

  /**
   * `retrieve_and_rerank`: `search` is the vector store's similarity search,
   * `None` when it raised. The expanded query is searched first and the
   * plain query only when that raised; a second failure escapes.
   */
  function RetrieveAndRerank(query: string, cls: QueryClass, search: string -> Option<seq<Doc>>,
                             reranker: Option<(string, string) -> real>): (r: Option<seq<Scored>>)
    ensures r.None? <==> search(ExpandQuery(query, cls)).None? && search(query).None?
    ensures search(ExpandQuery(query, cls)).Some? ==> r == Some(Rerank(query, search(ExpandQuery(query, cls)).value, reranker))
    ensures r.Some? ==> |r.value| <= RerankTop
  {
    match search(ExpandQuery(query, cls))
    case Some(candidates) => Some(Rerank(query, candidates, reranker))
    case None =>
      match search(query)
      case Some(candidates) => Some(Rerank(query, candidates, reranker))
      case None => None
  }

  // ---- extract_from_candidates ----

  /** What the question-answering pipeline returned, with a missing answer as "" and a missing score as 0. */
  datatype QaReply = QaReply(answer: string, score: real)

  datatype Extraction = Extraction(answer: string, score: real, context: string, source: string, numbers: seq<Number>)

  /** An extraction with the `rerank_score` of its candidate. */
  datatype Ranked = Ranked(ex: Extraction, rerankScore: real)

  const MinQaScore: real := 0.05

  /**
   * `qa_extract_with_context`: `reply` is the pipeline's answer, `None` when
   * it raised, and `numbers` the scan of the passage.
   */
  function QaExtract(doc: Doc, reply: Option<QaReply>, numbers: seq<Number>): (r: Option<Extraction>)
    ensures r.Some? <==> reply.Some? && PyStrip(reply.value.answer) != [] && (reply.value.score > MinQaScore || numbers != [])
    ensures r.Some? ==> r.value.answer == PyStrip(reply.value.answer) && r.value.context == doc.content && r.value.source == doc.source
  {
    if reply.None? then None
    else
      var ans := PyStrip(reply.value.answer);
      if ans != [] && (reply.value.score > MinQaScore || numbers != []) then
        Some(Extraction(ans, reply.value.score, doc.content, doc.source, numbers))
      else None
  }

  /** The `(1 if answer else 0, score, rerank_score)` key. */
  function RankOf(x: Ranked): Rank {
    Rank(if x.ex.answer != [] then 1 else 0, x.ex.score, x.rerankScore)
  }

  /** What the loop appends for one candidate: its extraction with the candidate's score, if any. */
  function Extracted(query: string, c: Scored, qa: (string, string) -> Option<QaReply>, scan: string -> seq<Number>): seq<Ranked> {
    var ex := QaExtract(c.doc, qa(query, c.doc.content), scan(c.doc.content));
    if ex.Some? then [Ranked(ex.value, c.score)] else []
  }

  /** The extractions the loop appends, in candidate order. */
  function Extractions(query: string, candidates: seq<Scored>, qa: (string, string) -> Option<QaReply>,
                       scan: string -> seq<Number>): (r: seq<Ranked>)
    ensures |r| <= |candidates|
    ensures forall i :: 0 <= i < |r| ==> Clean(r[i].ex.answer)
  {
    if candidates == [] then []
    else Extractions(query, candidates[..|candidates| - 1], qa, scan) + Extracted(query, candidates[|candidates| - 1], qa, scan)
  }

  lemma ExtractionsStep(query: string, candidates: seq<Scored>, qa: (string, string) -> Option<QaReply>,
                        scan: string -> seq<Number>, i: nat)
    requires i < |candidates|
    ensures Extractions(query, candidates[..i + 1], qa, scan) ==
      Extractions(query, candidates[..i], qa, scan) + Extracted(query, candidates[i], qa, scan)
  {
    assert candidates[..i + 1][..i] == candidates[..i];
  }

  /** Reordering keeps every element's stripped answer. */
  lemma AnsweredReordered(xs: seq<Ranked>, ys: seq<Ranked>)
    requires multiset(xs) == multiset(ys)
    requires forall i :: 0 <= i < |xs| ==> Clean(xs[i].ex.answer)
    ensures forall i :: 0 <= i < |ys| ==> Clean(ys[i].ex.answer)
  {
    forall i | 0 <= i < |ys|
      ensures Clean(ys[i].ex.answer)
    {
      assert ys[i] in multiset(xs);
    }
  }

  /**
   * `extract_from_candidates`: `qa` is the question-answering pipeline and
   * `scan` the number scan of a passage. The result holds the extractions
   * of the candidates, each with a non-blank stripped answer, sorted by the
   * key, highest first, ties keeping candidate order as Python's stable sort does.
   */
  method ExtractFromCandidates(query: string, candidates: seq<Scored>, qa: (string, string) -> Option<QaReply>,
                               scan: string -> seq<Number>) returns (out: seq<Ranked>)
    ensures out == SortDesc(Extractions(query, candidates, qa, scan), RankOf)
    ensures SortedDesc(out, RankOf)
    ensures multiset(out) == multiset(Extractions(query, candidates, qa, scan))
    ensures |out| == |Extractions(query, candidates, qa, scan)|
    ensures forall i :: 0 <= i < |out| ==> Clean(out[i].ex.answer)
  {
    out := [];
    var i := 0;
    while i < |candidates|
      invariant 0 <= i <= |candidates|
      invariant out == Extractions(query, candidates[..i], qa, scan)
    {
      ExtractionsStep(query, candidates, qa, scan, i);
      var c := candidates[i];
      var ex := QaExtract(c.doc, qa(query, c.doc.content), scan(c.doc.content));
      if ex.Some? {
        out := out + [Ranked(ex.value, c.score)];
      }
      i := i + 1;
    }
    PrefixWhole(candidates);
    ghost var appended := out;
    out := SortDesc(out, RankOf);
    AnsweredReordered(appended, out);
  }

  // ---- generate_answer ----

  const NoDocuments: string := "No relevant documents found."
  const MaxSources: nat := 6
  const SnippetLength: nat := 200

  datatype SourceRef = SourceRef(source: string, hasSpan: bool, snippet: string)

  /** The returned dict; `extracted` is absent when nothing was retrieved. */
  datatype Answer = Answer(query: string, answer: string, sources: seq<SourceRef>, extracted: Option<seq<Ranked>>)

  /** One entry of `sources`: the answer span, or the start of the passage when there is none. */
  function SourceOf(x: Ranked): SourceRef {
    SourceRef(x.ex.source, x.ex.answer != [], PyStrip(if x.ex.answer != [] then x.ex.answer else Take(x.ex.context, SnippetLength)))
  }

  lemma PyStripNoop(s: string)
    requires s == [] || (!IsPySpace(s[0]) && !IsPySpace(s[|s| - 1]))
    ensures PyStrip(s) == s
  {
  }

  /**
   * What `generate_answer` returns for the reranked `candidates`: with none,
   * the fixed message and no sources; otherwise the six best extractions
   * (fewer when there are fewer), sorted by the key and drawn from all
   * extractions, so that every extraction left out ranks no higher than any
   * kept; the answer `synthesize` writes from all extractions in sorted
   * order; and one source per kept extraction whose snippet is its answer span.
   */
  ghost predicate Answers(query: string, candidates: seq<Scored>, qa: (string, string) -> Option<QaReply>,
                          scan: string -> seq<Number>, synthesize: seq<Ranked> -> string, a: Answer) {
    if candidates == [] then a == Answer(query, NoDocuments, [], None)
    else
      var all := Extractions(query, candidates, qa, scan);
      var sorted := SortDesc(all, RankOf);
      a.query == query && a.extracted == Some(Take(sorted, MaxSources)) &&
      a.answer == synthesize(sorted) &&
      |a.extracted.value| == Min(|all|, MaxSources) &&
      SortedDesc(a.extracted.value, RankOf) &&
      multiset(a.extracted.value) <= multiset(all) &&
      (forall x :: multiset(a.extracted.value)[x] < multiset(all)[x] ==>
         forall i :: 0 <= i < |a.extracted.value| ==> AtLeast(RankOf(a.extracted.value[i]), RankOf(x))) &&
      |a.sources| == |a.extracted.value| &&
      forall i :: 0 <= i < |a.sources| ==>
        a.sources[i] == SourceRef(a.extracted.value[i].ex.source, true, a.extracted.value[i].ex.answer)
  }

  /** The first six of the sorted extractions are sorted, drawn from all of them, and the best of them. */
  lemma TopKept(sorted: seq<Ranked>, all: seq<Ranked>)
    requires SortedDesc(sorted, RankOf) && multiset(sorted) == multiset(all) && |sorted| == |all|
    ensures var top := Take(sorted, MaxSources);
      |top| == Min(|all|, MaxSources) && SortedDesc(top, RankOf) && multiset(top) <= multiset(all) &&
      forall x :: multiset(top)[x] < multiset(all)[x] ==> forall i :: 0 <= i < |top| ==> AtLeast(RankOf(top[i]), RankOf(x))
  {
    var top := Take(sorted, MaxSources);
    TakeSplit(sorted, MaxSources);
    forall x | multiset(top)[x] < multiset(all)[x]
      ensures forall i :: 0 <= i < |top| ==> AtLeast(RankOf(top[i]), RankOf(x))
    {
      TakeKeepsBest(sorted, MaxSources, RankOf, x);
    }
  }

  /** The `sources` list of `generate_answer`: one entry per extraction, each with its answer span as snippet. */
  method SourcesOf(top: seq<Ranked>) returns (sources: seq<SourceRef>)
    requires forall i :: 0 <= i < |top| ==> Clean(top[i].ex.answer)
    ensures |sources| == |top|
    ensures forall k :: 0 <= k < |top| ==> sources[k] == SourceRef(top[k].ex.source, true, top[k].ex.answer)
  {
    sources := [];
    var i := 0;
    while i < |top|
      invariant 0 <= i <= |top| && |sources| == i
      invariant forall k :: 0 <= k < i ==> sources[k] == SourceRef(top[k].ex.source, true, top[k].ex.answer)
    {
      PyStripNoop(top[i].ex.answer);
      sources := sources + [SourceOf(top[i])];
      i := i + 1;
    }
  }

  /** `generate_answer` from the reranked candidates on. */
  method Respond(query: string, candidates: seq<Scored>, qa: (string, string) -> Option<QaReply>,
                 scan: string -> seq<Number>, synthesize: seq<Ranked> -> string) returns (a: Answer)
    ensures Answers(query, candidates, qa, scan, synthesize, a)
  {
    if candidates == [] {
      return Answer(query, NoDocuments, [], None);
    }
    var extracted := ExtractFromCandidates(query, candidates, qa, scan);
    var top := Take(extracted, MaxSources);
    TopKept(extracted, Extractions(query, candidates, qa, scan));
    var sources := SourcesOf(top);
    var final := synthesize(extracted);
    return Answer(query, final, sources, Some(top));
  }

  /**
   * `generate_answer`: `synthesize` stands for `synthesize_answer` on the
   * sorted extractions. `None` is the search failure that escapes.
   */
  method GenerateAnswer(query: string, cls: QueryClass, search: string -> Option<seq<Doc>>,
                        reranker: Option<(string, string) -> real>, qa: (string, string) -> Option<QaReply>,
                        scan: string -> seq<Number>, synthesize: seq<Ranked> -> string) returns (a: Option<Answer>)
    ensures a.None? <==> RetrieveAndRerank(query, cls, search, reranker).None?
    ensures a.Some? ==> Answers(query, RetrieveAndRerank(query, cls, search, reranker).value, qa, scan, synthesize, a.value)
  {
    var candidates := RetrieveAndRerank(query, cls, search, reranker);
    if candidates.None? {
      return None;
    }
    var answer := Respond(query, candidates.value, qa, scan, synthesize);
    return Some(answer);
  }
}
