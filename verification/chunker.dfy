/**
 * The chunker of the embedding service: a decision's text is split into
 * sections, each section into sentences, and the sentences are packed into
 * indexed chunks under a token budget, with a sentence-level overlap between
 * consecutive chunks and a word-level hard split for oversized sentences.
 *
 * The tokeniser is a parameter `tok` (the number of tokens of a string); the
 * two regular-expression passes `_preprocess_text` and `_split_into_sections`
 * use are parameters too (`preprocess`, and `split(p, text)` for pattern `p`
 * of the three heading patterns).
 */
module Chunker {
  import opened Common
  import opened PyStr

  type Tokens = string -> nat

  datatype ChunkKind = Regular | SplitSentence

  /** A chunk: its text, token count, running index, section number and type. */
  datatype TextChunk = TextChunk(text: string, tokenCount: nat, chunkIndex: nat, section: nat, kind: ChunkKind)

  /** The chunking settings (`chunk_size`, `chunk_overlap`, `max_chunks_per_document`). */
  datatype ChunkConfig = ChunkConfig(chunkSize: int, chunkOverlap: int, maxChunks: int)

  /** Total tokens of a list of sentences, summed one by one. */
  function TokenSum(tok: Tokens, ss: seq<string>): nat
  {
    if ss == [] then 0 else TokenSum(tok, ss[..|ss| - 1]) + tok(ss[|ss| - 1])
  }

  lemma {:induction false} TokenSumAppend(tok: Tokens, a: seq<string>, b: seq<string>)
    ensures TokenSum(tok, a + b) == TokenSum(tok, a) + TokenSum(tok, b)
    decreases |b|
  {
    if b == [] {
      assert a + b == a;
    } else {
      assert (a + b)[..|a + b| - 1] == a + b[..|b| - 1];
      TokenSumAppend(tok, a, b[..|b| - 1]);
    }
  }

  // ---------------------------------------------------------------------
  // _get_overlap_sentences

  /** The last `k` elements of `ss`. */
  function Suffix(ss: seq<string>, k: nat): seq<string>
    requires k <= |ss|
  {
    ss[|ss| - k..]
  }

  /** How many sentences `_get_overlap_sentences` keeps: taken from the end while the total stays within `target`. */
  function OverlapLen(tok: Tokens, ss: seq<string>, target: int): (m: nat)
    ensures m <= |ss|
    decreases |ss|
  {
    if ss == [] || tok(ss[|ss| - 1]) > target then 0
    else OverlapLen(tok, ss[..|ss| - 1], target - tok(ss[|ss| - 1])) + 1
  }

  /** The sentences `_get_overlap_sentences` returns. */
  function Overlap(tok: Tokens, ss: seq<string>, target: int): seq<string>
  {
    Suffix(ss, OverlapLen(tok, ss, target))
  }

  lemma SuffixSum(tok: Tokens, ss: seq<string>, k: nat)
    requires 1 <= k <= |ss|
    ensures TokenSum(tok, Suffix(ss, k)) == TokenSum(tok, Suffix(ss[..|ss| - 1], k - 1)) + tok(ss[|ss| - 1])
  {
    var sk := Suffix(ss, k);
    assert sk[..|sk| - 1] == Suffix(ss[..|ss| - 1], k - 1);
  }

  /**
   * The overlap is a suffix of the sentences whose token total is within the
   * target, and it is the longest such suffix: every longer suffix exceeds it.
   */
  lemma {:induction false} OverlapIsLongestSuffix(tok: Tokens, ss: seq<string>, target: int)
    ensures OverlapLen(tok, ss, target) == 0 || TokenSum(tok, Suffix(ss, OverlapLen(tok, ss, target))) <= target
    ensures forall k :: OverlapLen(tok, ss, target) < k <= |ss| ==> TokenSum(tok, Suffix(ss, k)) > target
    decreases |ss|
  {
    if ss != [] {
      var n := |ss|;
      var init := ss[..n - 1];
      var t := tok(ss[n - 1]);
      forall k | 1 <= k <= n
        ensures TokenSum(tok, Suffix(ss, k)) == TokenSum(tok, Suffix(init, k - 1)) + t
      {
        SuffixSum(tok, ss, k);
      }
      if t <= target {
        OverlapIsLongestSuffix(tok, init, target - t);
      }
    }
  }

  /** `_get_overlap_sentences`: walks the sentences backwards, prepending while the budget allows. */
  method GetOverlapSentences(tok: Tokens, sentences: seq<string>, targetTokens: int) returns (overlap: seq<string>)
    ensures overlap == Overlap(tok, sentences, targetTokens)
  {
    overlap := [];
    var tokens := 0;
    var i := |sentences|;
    assert sentences[..i] == sentences;
    while i > 0
      invariant 0 <= i <= |sentences|
      invariant overlap == sentences[i..]
      invariant tokens == TokenSum(tok, overlap)
      invariant OverlapLen(tok, sentences, targetTokens) == OverlapLen(tok, sentences[..i], targetTokens - tokens) + |overlap|
    {
      var sentence := sentences[i - 1];
      var sentenceTokens := tok(sentence);
      OverlapLenLast(tok, sentences, i, targetTokens - tokens);
      if tokens + sentenceTokens <= targetTokens {
        assert TokenSum(tok, [sentence] + overlap) == sentenceTokens + tokens by {
          TokenSumAppend(tok, [sentence], overlap);
          assert [sentence][..0] == [];
        }
        assert sentences[i - 1..] == [sentence] + overlap;
        overlap := [sentence] + overlap;
        tokens := tokens + sentenceTokens;
        i := i - 1;
      } else {
        break;
      }
    }
  }

  /** One step of the backward walk: the last of the first `i` sentences is kept exactly when it fits. */
  lemma OverlapLenLast(tok: Tokens, ss: seq<string>, i: nat, target: int)
    requires 0 < i <= |ss|
    ensures OverlapLen(tok, ss[..i], target)
            == if tok(ss[i - 1]) > target then 0 else OverlapLen(tok, ss[..i - 1], target - tok(ss[i - 1])) + 1
  {
    assert ss[..i][..i - 1] == ss[..i - 1];
  }

  // ---------------------------------------------------------------------
  // _split_long_text

  /**
   * The word groups `_split_long_text` builds from `words`, given the groups
   * already closed (`done`), the open group `cur` and its token total.
   */
  function Groups(tok: Tokens, limit: int, words: seq<string>, done: seq<seq<string>>, cur: seq<string>, curTok: int)
    : seq<seq<string>>
    decreases |words|
  {
    if words == [] then (if cur == [] then done else done + [cur])
    else
      var w := words[0];
      var wt := tok(w);
      if curTok + wt > limit then
        Groups(tok, limit, words[1..], if cur == [] then done else done + [cur], [w], wt)
      else
        Groups(tok, limit, words[1..], done, cur + [w], curTok + wt)
  }

  /** The groups of words of `text` for a chunk size: each closes before it would exceed `chunkSize - 50`. */
  function LongTextGroups(tok: Tokens, chunkSize: int, text: string): seq<seq<string>>
  {
    Groups(tok, chunkSize - 50, Words(text), [], [], 0)
  }

  /** Each group of words joined by single spaces. */
  function JoinEach(gs: seq<seq<string>>): (r: seq<string>)
    ensures |r| == |gs|
  {
    if gs == [] then [] else JoinEach(gs[..|gs| - 1]) + [JoinSpace(gs[|gs| - 1])]
  }

  lemma JoinEachSnoc(gs: seq<seq<string>>, g: seq<string>)
    ensures JoinEach(gs + [g]) == JoinEach(gs) + [JoinSpace(g)]
  {
    assert (gs + [g])[..|gs|] == gs;
  }

  lemma {:induction false} JoinEachAt(gs: seq<seq<string>>, k: nat)
    requires k < |gs|
    ensures JoinEach(gs)[k] == JoinSpace(gs[k])
    decreases |gs|
  {
    if k < |gs| - 1 {
      JoinEachAt(gs[..|gs| - 1], k);
    }
  }

  /** The pieces of an oversized sentence. */
  function SplitLongTextSpec(tok: Tokens, chunkSize: int, text: string): seq<string>
  {
    JoinEach(LongTextGroups(tok, chunkSize, text))
  }

  /** `_split_long_text`: packs the words of `text` into space-joined pieces. */
  method SplitLongText(tok: Tokens, chunkSize: int, text: string) returns (chunks: seq<string>)
    ensures chunks == SplitLongTextSpec(tok, chunkSize, text)
  {
    var words := Words(text);
    chunks := [];
    var current: seq<string> := [];
    var currentTokens := 0;
    ghost var done: seq<seq<string>> := [];
    var i := 0;
    while i < |words|
      invariant 0 <= i <= |words|
      invariant chunks == JoinEach(done)
      invariant Groups(tok, chunkSize - 50, words[i..], done, current, currentTokens)
             == LongTextGroups(tok, chunkSize, text)
    {
      var word := words[i];
      var wordTokens := tok(word);
      assert words[i..][0] == word && words[i..][1..] == words[i + 1..];
      if currentTokens + wordTokens > chunkSize - 50 {
        if current != [] {
          JoinEachSnoc(done, current);
          chunks := chunks + [JoinSpace(current)];
          done := done + [current];
        }
        current := [word];
        currentTokens := wordTokens;
      } else {
        current := current + [word];
        currentTokens := currentTokens + wordTokens;
      }
      i := i + 1;
    }
    if current != [] {
      JoinEachSnoc(done, current);
      chunks := chunks + [JoinSpace(current)];
      done := done + [current];
    }
  }

  /** The groups hold exactly the words, in order. */
  lemma {:induction false} GroupsFlatten(tok: Tokens, limit: int, words: seq<string>, done: seq<seq<string>>,
                                         cur: seq<string>, curTok: int)
    ensures Flatten(Groups(tok, limit, words, done, cur, curTok)) == Flatten(done) + cur + words
    decreases |words|
  {
    if words == [] {
      if cur != [] {
        FlattenAppend(done, [cur]);
        assert Flatten([cur]) == Flatten([cur][..0]) + cur;
      }
    } else {
      var w := words[0];
      var wt := tok(w);
      assert words == [w] + words[1..];
      if curTok + wt > limit {
        var d := if cur == [] then done else done + [cur];
        GroupsFlatten(tok, limit, words[1..], d, [w], wt);
        if cur != [] {
          FlattenAppend(done, [cur]);
          assert Flatten([cur]) == Flatten([cur][..0]) + cur;
        }
      } else {
        GroupsFlatten(tok, limit, words[1..], done, cur + [w], curTok + wt);
      }
    }
  }

  /** A group is admissible when it is non-empty, made of words, and within the limit unless it is one word. */
  predicate Admissible(tok: Tokens, limit: int, g: seq<string>)
  {
    g != [] && AreWords(g) && (TokenSum(tok, g) <= limit || |g| == 1)
  }

  predicate AllAdmissible(tok: Tokens, limit: int, gs: seq<seq<string>>)
  {
    forall k :: 0 <= k < |gs| ==> Admissible(tok, limit, gs[k])
  }

  lemma {:induction false} AreWordsAppend(a: seq<string>, b: seq<string>)
    requires AreWords(a) && AreWords(b)
    ensures AreWords(a + b)
    decreases |a|
  {
    if a != [] {
      assert (a + b)[1..] == a[1..] + b;
      AreWordsAppend(a[1..], b);
    } else {
      assert a + b == b;
    }
  }

  lemma AreWordsHead(ws: seq<string>)
    requires AreWords(ws) && ws != []
    ensures AreWords([ws[0]]) && AreWords(ws[1..])
  {
    assert [ws[0]][1..] == [];
  }

  /** Every group is non-empty, made of words, and within `limit` tokens unless it is a single word. */
  lemma {:induction false} GroupsAdmissible(tok: Tokens, limit: int, words: seq<string>, done: seq<seq<string>>,
                                            cur: seq<string>, curTok: int)
    requires AreWords(words) && AreWords(cur)
    requires AllAdmissible(tok, limit, done)
    requires curTok == TokenSum(tok, cur)
    requires TokenSum(tok, cur) <= limit || |cur| <= 1
    ensures AllAdmissible(tok, limit, Groups(tok, limit, words, done, cur, curTok))
    decreases |words|
  {
    if words == [] {
    } else {
      var w := words[0];
      var wt := tok(w);
      AreWordsHead(words);
      TokenSumAppend(tok, cur, [w]);
      assert TokenSum(tok, [w]) == wt by { assert [w][..0] == []; }
      if curTok + wt > limit {
        var d := if cur == [] then done else done + [cur];
        GroupsAdmissible(tok, limit, words[1..], d, [w], wt);
      } else {
        AreWordsAppend(cur, [w]);
        GroupsAdmissible(tok, limit, words[1..], done, cur + [w], curTok + wt);
      }
    }
  }

  /** The words of each piece. */
  function WordsEach(ps: seq<string>): (r: seq<seq<string>>)
    ensures |r| == |ps|
  {
    if ps == [] then [] else WordsEach(ps[..|ps| - 1]) + [Words(ps[|ps| - 1])]
  }

  lemma {:induction false} WordsEachJoinEach(gs: seq<seq<string>>)
    requires forall k :: 0 <= k < |gs| ==> AreWords(gs[k])
    ensures WordsEach(JoinEach(gs)) == gs
    decreases |gs|
  {
    if gs != [] {
      var n := |gs|;
      var init := gs[..n - 1];
      JoinEachSnoc(init, gs[n - 1]);
      assert gs == init + [gs[n - 1]];
      var js := JoinEach(gs);
      assert js[..n - 1] == JoinEach(init);
      assert js[n - 1] == JoinSpace(gs[n - 1]);
      WordsEachJoinEach(init);
      WordsJoinSpace(gs[n - 1]);
    }
  }

  lemma GroupsRoundTrip(tok: Tokens, limit: int, words: seq<string>)
    requires AreWords(words)
    ensures Flatten(WordsEach(JoinEach(Groups(tok, limit, words, [], [], 0)))) == words
  {
    var gs := Groups(tok, limit, words, [], [], 0);
    GroupsAdmissible(tok, limit, words, [], [], 0);
    GroupsFlatten(tok, limit, words, [], [], 0);
    assert Flatten<string>([]) == [];
    WordsEachJoinEach(gs);
  }

  lemma GroupsPieces(tok: Tokens, limit: int, words: seq<string>, k: nat)
    requires AreWords(words)
    requires k < |Groups(tok, limit, words, [], [], 0)|
    ensures var gs := Groups(tok, limit, words, [], [], 0);
      Words(JoinEach(gs)[k]) == gs[k] && Admissible(tok, limit, gs[k])
  {
    var gs := Groups(tok, limit, words, [], [], 0);
    GroupsAdmissible(tok, limit, words, [], [], 0);
    JoinEachAt(gs, k);
    WordsJoinSpace(gs[k]);
  }

  /**
   * `_split_long_text` keeps every word in order: splitting its pieces again
   * gives back `text.split()`; each piece is non-empty and within
   * `chunk_size - 50` tokens unless it is a single word.
   */
  lemma SplitLongTextKeepsWords(tok: Tokens, chunkSize: int, text: string)
    ensures Flatten(WordsEach(SplitLongTextSpec(tok, chunkSize, text))) == Words(text)
    ensures forall k :: 0 <= k < |SplitLongTextSpec(tok, chunkSize, text)| ==>
              var ws := Words(SplitLongTextSpec(tok, chunkSize, text)[k]);
              ws != [] && (TokenSum(tok, ws) <= chunkSize - 50 || |ws| == 1)
  {
    WordsAreWords(text);
    GroupsRoundTrip(tok, chunkSize - 50, Words(text));
    forall k | 0 <= k < |SplitLongTextSpec(tok, chunkSize, text)|
      ensures var ws := Words(SplitLongTextSpec(tok, chunkSize, text)[k]);
              ws != [] && (TokenSum(tok, ws) <= chunkSize - 50 || |ws| == 1)
    {
      GroupsPieces(tok, chunkSize - 50, Words(text), k);
    }
  }

  // ---------------------------------------------------------------------
  // _split_sentences

  predicate IsTerminal(c: char) { c == '.' || c == '!' || c == '?' }

  /** The end of the whitespace run that starts at `i`. */
  function RunEnd(s: string, i: nat): (j: nat)
    requires i <= |s|
    ensures i <= j <= |s|
    ensures j == |s| || !IsSpace(s[j])
    ensures i < |s| && IsSpace(s[i]) ==> j > i
    decreases |s| - i
  {
    if i < |s| && IsSpace(s[i]) then RunEnd(s, i + 1) else i
  }

  /** A sentence break `(?<=[.!?])\s+(?=[A-Z])` starts at `i`. */
  predicate BreakAt(s: string, i: nat)
    requires i <= |s|
  {
    0 < i < |s| && IsTerminal(s[i - 1]) && IsSpace(s[i]) && RunEnd(s, i) < |s| && IsAsciiUpper(s[RunEnd(s, i)])
  }

  /** `re.split` at every sentence break, scanning from `i` with the current piece starting at `start`. */
  function RawSentences(s: string, i: nat, start: nat): (r: seq<string>)
    requires start <= i <= |s|
    ensures r != []
    decreases |s| - i
  {
    if i == |s| then [s[start..]]
    else if BreakAt(s, i) then [s[start..i]] + RawSentences(s, RunEnd(s, i), RunEnd(s, i))
    else RawSentences(s, i + 1, start)
  }

  /** The pieces stripped, the blank ones dropped. */
  function StripNonEmpty(ps: seq<string>): seq<string>
  {
    if ps == [] then []
    else StripNonEmpty(ps[..|ps| - 1]) + (if Strip(ps[|ps| - 1]) == [] then [] else [Strip(ps[|ps| - 1])])
  }

  /** `_split_sentences` */
  function SplitSentences(text: string): seq<string>
  {
    StripNonEmpty(RawSentences(text, 0, 0))
  }

  /** A sentence as `_split_sentences` returns it: non-empty, with no surrounding whitespace. */
  predicate IsSentence(x: string) { x != [] && Strip(x) == x }

  lemma StrippedIsSentence(x: string)
    requires Strip(x) != []
    ensures IsSentence(Strip(x))
  {
    StripIdempotent(x);
  }

  lemma {:induction false} StripNonEmptyStripped(ps: seq<string>)
    ensures All(StripNonEmpty(ps), IsSentence)
    decreases |ps|
  {
    if ps != [] {
      var n := |ps|;
      StripNonEmptyStripped(ps[..n - 1]);
      var last := if Strip(ps[n - 1]) == [] then [] else [Strip(ps[n - 1])];
      if Strip(ps[n - 1]) != [] {
        StrippedIsSentence(ps[n - 1]);
      }
      assert All(last, IsSentence);
      AllAppend(StripNonEmpty(ps[..n - 1]), last, IsSentence);
    }
  }

  /** Every sentence `_split_sentences` returns is non-empty and has no surrounding whitespace. */
  lemma SentencesStripped(text: string)
    ensures forall k :: 0 <= k < |SplitSentences(text)| ==> IsSentence(SplitSentences(text)[k])
  {
    StripNonEmptyStripped(RawSentences(text, 0, 0));
  }

  // ---------------------------------------------------------------------
  // _chunk_section

  /** The loop state of `_chunk_section`: emitted chunks, the open chunk's sentences and its token count. */
  datatype Acc = Acc(chunks: seq<TextChunk>, cur: seq<string>, curTok: nat)

  /** Emits the open chunk as a "regular" chunk, if there is one. */
  function Flush(acc: Acc, start: nat, section: nat): seq<TextChunk>
  {
    if acc.cur == [] then acc.chunks
    else acc.chunks + [TextChunk(JoinSpace(acc.cur), acc.curTok, start + |acc.chunks|, section, Regular)]
  }

  lemma FlushEmits(acc: Acc, start: nat, section: nat)
    requires acc.cur != []
    ensures Flush(acc, start, section)
         == acc.chunks + [TextChunk(JoinSpace(acc.cur), acc.curTok, start + |acc.chunks|, section, Regular)]
  {
  }

  /** The pieces of a hard-split sentence as "split_sentence" chunks numbered from `base`. */
  function SplitChunks(tok: Tokens, subs: seq<string>, base: nat, section: nat): (r: seq<TextChunk>)
    ensures |r| == |subs|
  {
    if subs == [] then []
    else
      var n := |subs|;
      SplitChunks(tok, subs[..n - 1], base, section)
        + [TextChunk(subs[n - 1], tok(subs[n - 1]), base + n - 1, section, SplitSentence)]
  }

  /** `_split_long_text` as a function value, the hard-split step of the sentence loop. */
  function LongSplit(tok: Tokens, chunkSize: int): string -> seq<string>
  {
    s => SplitLongTextSpec(tok, chunkSize, s)
  }

  /** One iteration of the sentence loop. */
  function SectionStep(cfg: ChunkConfig, tok: Tokens, hard: string -> seq<string>, start: nat, section: nat, acc: Acc, s: string): Acc
  {
    var st := tok(s);
    if st > cfg.chunkSize then
      var flushed := Flush(acc, start, section);
      Acc(flushed + SplitChunks(tok, hard(s), start + |flushed|, section),
          [], if acc.cur == [] then acc.curTok else 0)
    else if acc.curTok + st > cfg.chunkSize then
      var seeded := Overlap(tok, acc.cur, cfg.chunkOverlap) + [s];
      Acc(Flush(acc, start, section), seeded, TokenSum(tok, seeded))
    else
      Acc(acc.chunks, acc.cur + [s], acc.curTok + st)
  }

  function SectionFrom(cfg: ChunkConfig, tok: Tokens, hard: string -> seq<string>, start: nat, section: nat, sentences: seq<string>, acc: Acc): Acc
    decreases |sentences|
  {
    if sentences == [] then acc
    else SectionFrom(cfg, tok, hard, start, section, sentences[1..], SectionStep(cfg, tok, hard, start, section, acc, sentences[0]))
  }

  /** The chunks `_chunk_section` returns for one section. */
  function ChunkSectionSpec(cfg: ChunkConfig, tok: Tokens, text: string, start: nat, section: nat): seq<TextChunk>
  {
    SentencesChunks(cfg, tok, LongSplit(tok, cfg.chunkSize), SplitSentences(text), start, section)
  }

  /** The chunks the sentence loop of `_chunk_section` emits for the given sentences. */
  function SentencesChunks(cfg: ChunkConfig, tok: Tokens, hard: string -> seq<string>, sentences: seq<string>, start: nat, section: nat): seq<TextChunk>
  {
    Flush(SectionFrom(cfg, tok, hard, start, section, sentences, Acc([], [], 0)), start, section)
  }

  /** The inner loop of `_chunk_section` that emits the pieces of a hard-split sentence. */
  method AppendSplitChunks(tok: Tokens, chunks: seq<TextChunk>, subChunks: seq<string>, startIndex: nat, sectionNumber: nat)
    returns (out: seq<TextChunk>)
    ensures out == chunks + SplitChunks(tok, subChunks, startIndex + |chunks|, sectionNumber)
  {
    out := chunks;
    var j := 0;
    while j < |subChunks|
      invariant 0 <= j <= |subChunks|
      invariant out == chunks + SplitChunks(tok, subChunks[..j], startIndex + |chunks|, sectionNumber)
    {
      var sub := subChunks[j];
      assert subChunks[..j + 1][..j] == subChunks[..j];
      out := out + [TextChunk(sub, tok(sub), startIndex + |out|, sectionNumber, SplitSentence)];
      j := j + 1;
    }
    assert subChunks[..j] == subChunks;
  }

  /** The branches of one sentence step, each stated on its own. */
  lemma StepHardSplit(cfg: ChunkConfig, tok: Tokens, hard: string -> seq<string>, start: nat, section: nat, acc: Acc, s: string)
    requires tok(s) > cfg.chunkSize
    ensures SectionStep(cfg, tok, hard, start, section, acc, s)
         == Acc(Flush(acc, start, section)
                  + SplitChunks(tok, hard(s), start + |Flush(acc, start, section)|, section),
                [], if acc.cur == [] then acc.curTok else 0)
  {
  }

  lemma StepSeed(cfg: ChunkConfig, tok: Tokens, hard: string -> seq<string>, start: nat, section: nat, acc: Acc, s: string)
    requires tok(s) <= cfg.chunkSize < acc.curTok + tok(s)
    ensures SectionStep(cfg, tok, hard, start, section, acc, s)
         == Acc(Flush(acc, start, section), Overlap(tok, acc.cur, cfg.chunkOverlap) + [s],
                TokenSum(tok, Overlap(tok, acc.cur, cfg.chunkOverlap) + [s]))
  {
  }

  lemma StepExtend(cfg: ChunkConfig, tok: Tokens, hard: string -> seq<string>, start: nat, section: nat, acc: Acc, s: string)
    requires acc.curTok + tok(s) <= cfg.chunkSize
    ensures SectionStep(cfg, tok, hard, start, section, acc, s) == Acc(acc.chunks, acc.cur + [s], acc.curTok + tok(s))
  {
  }

  lemma SectionFromCons(cfg: ChunkConfig, tok: Tokens, hard: string -> seq<string>, start: nat, section: nat, sentences: seq<string>, i: nat, acc: Acc)
    requires i < |sentences|
    ensures SectionFrom(cfg, tok, hard, start, section, sentences[i..], acc)
         == SectionFrom(cfg, tok, hard, start, section, sentences[i + 1..], SectionStep(cfg, tok, hard, start, section, acc, sentences[i]))
  {
    assert sentences[i..][0] == sentences[i] && sentences[i..][1..] == sentences[i + 1..];
  }

  /** The body of the sentence loop of `_chunk_section`, for one sentence. */
  method AddSentence(cfg: ChunkConfig, tok: Tokens, startIndex: nat, sectionNumber: nat,
                     chunks: seq<TextChunk>, currentChunk: seq<string>, currentTokens: nat, sentence: string)
    returns (chunks': seq<TextChunk>, currentChunk': seq<string>, currentTokens': nat)
    ensures Acc(chunks', currentChunk', currentTokens')
         == SectionStep(cfg, tok, LongSplit(tok, cfg.chunkSize), startIndex, sectionNumber, Acc(chunks, currentChunk, currentTokens), sentence)
  {
    var sentenceTokens := tok(sentence);
    if sentenceTokens > cfg.chunkSize {
      chunks', currentChunk', currentTokens' :=
        AddLongSentence(cfg, tok, startIndex, sectionNumber, chunks, currentChunk, currentTokens, sentence);
    } else if currentTokens + sentenceTokens > cfg.chunkSize {
      chunks', currentChunk', currentTokens' :=
        AddOverflowingSentence(cfg, tok, startIndex, sectionNumber, chunks, currentChunk, currentTokens, sentence);
    } else {
      StepExtend(cfg, tok, LongSplit(tok, cfg.chunkSize), startIndex, sectionNumber, Acc(chunks, currentChunk, currentTokens), sentence);
      chunks', currentChunk', currentTokens' := chunks, currentChunk + [sentence], currentTokens + sentenceTokens;
    }
  }

  /** A sentence longer than a chunk: flush the current chunk, then append the sentence's own pieces. */
  method AddLongSentence(cfg: ChunkConfig, tok: Tokens, startIndex: nat, sectionNumber: nat,
                         chunks: seq<TextChunk>, currentChunk: seq<string>, currentTokens: nat, sentence: string)
    returns (chunks': seq<TextChunk>, currentChunk': seq<string>, currentTokens': nat)
    requires tok(sentence) > cfg.chunkSize
    ensures Acc(chunks', currentChunk', currentTokens')
         == SectionStep(cfg, tok, LongSplit(tok, cfg.chunkSize), startIndex, sectionNumber, Acc(chunks, currentChunk, currentTokens), sentence)
  {
    ghost var acc := Acc(chunks, currentChunk, currentTokens);
    StepHardSplit(cfg, tok, LongSplit(tok, cfg.chunkSize), startIndex, sectionNumber, acc, sentence);
    chunks', currentChunk', currentTokens' := chunks, currentChunk, currentTokens;
    if currentChunk' != [] {
      FlushEmits(acc, startIndex, sectionNumber);
      chunks' := chunks' + [TextChunk(JoinSpace(currentChunk'), currentTokens', startIndex + |chunks'|,
                                      sectionNumber, Regular)];
      currentChunk' := [];
      currentTokens' := 0;
    }
    var subChunks := SplitLongText(tok, cfg.chunkSize, sentence);
    assert subChunks == LongSplit(tok, cfg.chunkSize)(sentence);
    chunks' := AppendSplitChunks(tok, chunks', subChunks, startIndex, sectionNumber);
  }

  /** A sentence that does not fit beside the current chunk: flush it, and start the next from its overlap. */
  method AddOverflowingSentence(cfg: ChunkConfig, tok: Tokens, startIndex: nat, sectionNumber: nat,
                                chunks: seq<TextChunk>, currentChunk: seq<string>, currentTokens: nat, sentence: string)
    returns (chunks': seq<TextChunk>, currentChunk': seq<string>, currentTokens': nat)
    requires tok(sentence) <= cfg.chunkSize && currentTokens + tok(sentence) > cfg.chunkSize
    ensures Acc(chunks', currentChunk', currentTokens')
         == SectionStep(cfg, tok, LongSplit(tok, cfg.chunkSize), startIndex, sectionNumber, Acc(chunks, currentChunk, currentTokens), sentence)
  {
    ghost var acc := Acc(chunks, currentChunk, currentTokens);
    StepSeed(cfg, tok, LongSplit(tok, cfg.chunkSize), startIndex, sectionNumber, acc, sentence);
    chunks' := chunks;
    if currentChunk != [] {
      FlushEmits(acc, startIndex, sectionNumber);
      chunks' := chunks' + [TextChunk(JoinSpace(currentChunk), currentTokens, startIndex + |chunks'|,
                                      sectionNumber, Regular)];
    }
    var overlapSentences := GetOverlapSentences(tok, currentChunk, cfg.chunkOverlap);
    currentChunk' := overlapSentences + [sentence];
    currentTokens' := TokenSum(tok, currentChunk');
  }

  /** `_chunk_section`: splits the section into sentences, then runs the sentence loop. */
  method ChunkSection(cfg: ChunkConfig, tok: Tokens, text: string, startIndex: nat, sectionNumber: nat)
    returns (chunks: seq<TextChunk>)
    ensures chunks == ChunkSectionSpec(cfg, tok, text, startIndex, sectionNumber)
  {
    var sentences := SplitSentences(text);
    chunks := ChunkSentences(cfg, tok, sentences, startIndex, sectionNumber);
  }

  /** The sentence loop of `_chunk_section` and its final flush. */
  method ChunkSentences(cfg: ChunkConfig, tok: Tokens, sentences: seq<string>, startIndex: nat, sectionNumber: nat)
    returns (chunks: seq<TextChunk>)
    ensures chunks == SentencesChunks(cfg, tok, LongSplit(tok, cfg.chunkSize), sentences, startIndex, sectionNumber)
  {
    chunks := [];
    var currentChunk: seq<string> := [];
    var currentTokens: nat := 0;
    ghost var spec := SectionFrom(cfg, tok, LongSplit(tok, cfg.chunkSize), startIndex, sectionNumber, sentences, Acc([], [], 0));
    var i := 0;
    while i < |sentences|
      invariant 0 <= i <= |sentences|
      invariant SectionFrom(cfg, tok, LongSplit(tok, cfg.chunkSize), startIndex, sectionNumber, sentences[i..], Acc(chunks, currentChunk, currentTokens)) == spec
    {
      SectionFromCons(cfg, tok, LongSplit(tok, cfg.chunkSize), startIndex, sectionNumber, sentences, i, Acc(chunks, currentChunk, currentTokens));
      chunks, currentChunk, currentTokens :=
        AddSentence(cfg, tok, startIndex, sectionNumber, chunks, currentChunk, currentTokens, sentences[i]);
      i := i + 1;
    }
    ghost var last := Acc(chunks, currentChunk, currentTokens);
    assert last == spec by {
      assert sentences[i..] == [];
    }
    if currentChunk != [] {
      FlushEmits(last, startIndex, sectionNumber);
      chunks := chunks + [TextChunk(JoinSpace(currentChunk), currentTokens, startIndex + |chunks|,
                                    sectionNumber, Regular)];
    }
    assert chunks == Flush(last, startIndex, sectionNumber);
  }

  // Properties of one section's chunks.

  /** The loop invariant of `_chunk_section` that the bounds below rest on. */
  predicate AccGood(cfg: ChunkConfig, tok: Tokens, start: nat, section: nat, acc: Acc)
  {
    && acc.curTok == TokenSum(tok, acc.cur)
    && (acc.cur == [] || acc.curTok <= cfg.chunkSize + Max(cfg.chunkOverlap, 0))
    && ChunksGood(cfg, start, section, acc.chunks)
  }

  /** Chunks are numbered from `start` without gaps, carry the section, and regular ones respect the bound. */
  predicate ChunksGood(cfg: ChunkConfig, start: nat, section: nat, cs: seq<TextChunk>)
  {
    forall k :: 0 <= k < |cs| ==>
      && cs[k].chunkIndex == start + k
      && cs[k].section == section
      && (cs[k].kind == Regular ==> cs[k].tokenCount <= cfg.chunkSize + Max(cfg.chunkOverlap, 0))
  }

  lemma FlushGood(cfg: ChunkConfig, tok: Tokens, start: nat, section: nat, acc: Acc)
    requires AccGood(cfg, tok, start, section, acc)
    ensures ChunksGood(cfg, start, section, Flush(acc, start, section))
  {
  }

  lemma {:induction false} SplitChunksGood(cfg: ChunkConfig, tok: Tokens, start: nat, section: nat,
                                           pre: seq<TextChunk>, subs: seq<string>)
    requires ChunksGood(cfg, start, section, pre)
    ensures ChunksGood(cfg, start, section, pre + SplitChunks(tok, subs, start + |pre|, section))
    decreases |subs|
  {
    if subs != [] {
      var n := |subs|;
      SplitChunksGood(cfg, tok, start, section, pre, subs[..n - 1]);
      assert pre + SplitChunks(tok, subs, start + |pre|, section)
          == (pre + SplitChunks(tok, subs[..n - 1], start + |pre|, section))
             + [TextChunk(subs[n - 1], tok(subs[n - 1]), start + |pre| + n - 1, section, SplitSentence)];
    }
  }

  /**
   * A seeded chunk is an overlap suffix of the previous sentences plus one
   * sentence of at most `chunk_size` tokens, so it holds at most
   * `chunk_size + max(chunk_overlap, 0)` tokens.
   */
  lemma SeededBound(cfg: ChunkConfig, tok: Tokens, cur: seq<string>, s: string)
    requires tok(s) <= cfg.chunkSize
    ensures var seeded := Overlap(tok, cur, cfg.chunkOverlap) + [s];
      seeded[..|seeded| - 1] == cur[|cur| - (|seeded| - 1)..]
      && TokenSum(tok, seeded) <= cfg.chunkSize + Max(cfg.chunkOverlap, 0)
  {
    var ov := Overlap(tok, cur, cfg.chunkOverlap);
    OverlapIsLongestSuffix(tok, cur, cfg.chunkOverlap);
    TokenSumAppend(tok, ov, [s]);
    assert TokenSum(tok, [s]) == tok(s) by { assert [s][..0] == []; }
    assert (ov + [s])[..|ov + [s]| - 1] == ov;
  }

  lemma StepGood(cfg: ChunkConfig, tok: Tokens, hard: string -> seq<string>, start: nat, section: nat, acc: Acc, s: string)
    requires AccGood(cfg, tok, start, section, acc)
    ensures AccGood(cfg, tok, start, section, SectionStep(cfg, tok, hard, start, section, acc, s))
  {
    var st := tok(s);
    FlushGood(cfg, tok, start, section, acc);
    if st > cfg.chunkSize {
      SplitChunksGood(cfg, tok, start, section, Flush(acc, start, section), hard(s));
    } else if acc.curTok + st > cfg.chunkSize {
      SeededBound(cfg, tok, acc.cur, s);
    } else {
      TokenSumAppend(tok, acc.cur, [s]);
      assert TokenSum(tok, [s]) == st by { assert [s][..0] == []; }
    }
  }

  lemma {:induction false} SectionFromGood(cfg: ChunkConfig, tok: Tokens, hard: string -> seq<string>, start: nat, section: nat,
                                           sentences: seq<string>, acc: Acc)
    requires AccGood(cfg, tok, start, section, acc)
    ensures AccGood(cfg, tok, start, section, SectionFrom(cfg, tok, hard, start, section, sentences, acc))
    decreases |sentences|
  {
    if sentences != [] {
      StepGood(cfg, tok, hard, start, section, acc, sentences[0]);
      SectionFromGood(cfg, tok, hard, start, section, sentences[1..], SectionStep(cfg, tok, hard, start, section, acc, sentences[0]));
    }
  }

  /**
   * The chunks of one section are numbered `start, start + 1, ...`, carry the
   * section number, and every "regular" chunk holds at most
   * `chunk_size + max(chunk_overlap, 0)` tokens.
   */
  lemma ChunkSectionGood(cfg: ChunkConfig, tok: Tokens, text: string, start: nat, section: nat)
    ensures ChunksGood(cfg, start, section, ChunkSectionSpec(cfg, tok, text, start, section))
  {
    SectionFromGood(cfg, tok, LongSplit(tok, cfg.chunkSize), start, section, SplitSentences(text), Acc([], [], 0));
    FlushGood(cfg, tok, start, section, SectionFrom(cfg, tok, LongSplit(tok, cfg.chunkSize), start, section, SplitSentences(text), Acc([], [], 0)));
  }

  // ---------------------------------------------------------------------
  // _split_into_sections and chunk_document

  /** Sections whose stripped text is longer than 100 characters. */
  function LongSections(parts: seq<string>): (r: seq<string>)
    ensures forall k :: 0 <= k < |r| ==> |Strip(r[k])| > 100 && r[k] in parts
  {
    if parts == [] then []
    else
      var n := |parts|;
      LongSections(parts[..n - 1]) + (if |Strip(parts[n - 1])| > 100 then [parts[n - 1]] else [])
  }

  /** `_split_into_sections`, trying heading patterns `p`, `p + 1`, ... of the three. */
  function SectionsFrom(split: (nat, string) -> seq<string>, text: string, p: nat): (r: seq<string>)
    decreases 3 - p
  {
    if p >= 3 then [text]
    else
      var parts := split(p, text);
      if |parts| > 1 && LongSections(parts) != [] then LongSections(parts)
      else SectionsFrom(split, text, p + 1)
  }

  function SplitIntoSections(split: (nat, string) -> seq<string>, text: string): seq<string>
  {
    SectionsFrom(split, text, 0)
  }

  /**
   * `_split_into_sections` never returns an empty list: either the whole
   * text, or the sections of the first pattern that splits the text, each
   * longer than 100 characters once stripped (shorter ones are dropped).
   */
  lemma {:induction false} SectionsShape(split: (nat, string) -> seq<string>, text: string, p: nat)
    ensures var r := SectionsFrom(split, text, p);
      r != []
      && (r == [text]
          || exists q :: p <= q < 3 && |split(q, text)| > 1
               && r == LongSections(split(q, text))
               && forall k :: 0 <= k < |r| ==> |Strip(r[k])| > 100 && r[k] in split(q, text))
    decreases 3 - p
  {
    if p < 3 {
      var parts := split(p, text);
      if !(|parts| > 1 && LongSections(parts) != []) {
        SectionsShape(split, text, p + 1);
      }
    }
  }

  /** A section chunker: the chunks of a section's text, numbered from a start index, for a section number. */
  type SectionChunker = (string, nat, nat) -> seq<TextChunk>

  /** `_chunk_section` as a function value. */
  function SectionChunks(cfg: ChunkConfig, tok: Tokens): SectionChunker
  {
    (t: string, start: nat, section: nat) => ChunkSectionSpec(cfg, tok, t, start, section)
  }

  /** The chunks of sections `idx..` appended to `chunks`, stopping once the total reaches `maxChunks`. */
  function SectionsChunks(maxChunks: int, sec: SectionChunker, sections: seq<string>, idx: nat, chunks: seq<TextChunk>)
    : seq<TextChunk>
    decreases |sections| - idx
  {
    if idx >= |sections| then chunks
    else
      var all := chunks + sec(sections[idx], |chunks|, idx);
      if |all| >= maxChunks then all else SectionsChunks(maxChunks, sec, sections, idx + 1, all)
  }

  /** The sections `chunk_document` chunks. */
  function DocumentSections(pre: string -> string, split: (nat, string) -> seq<string>, text: string,
                            preserveSections: bool): seq<string>
  {
    var t := pre(text);
    if preserveSections then SplitIntoSections(split, t) else [t]
  }

  /** The chunks `chunk_document` returns. */
  function ChunkDocumentSpec(cfg: ChunkConfig, tok: Tokens, pre: string -> string,
                             split: (nat, string) -> seq<string>, text: string, preserveSections: bool)
    : seq<TextChunk>
  {
    if IsBlank(text) then []
    else SectionsChunks(cfg.maxChunks, SectionChunks(cfg, tok), DocumentSections(pre, split, text, preserveSections), 0, [])
  }

  /** `chunk_document` */
  method ChunkDocument(cfg: ChunkConfig, tok: Tokens, pre: string -> string, split: (nat, string) -> seq<string>,
                       text: string, preserveSections: bool)
    returns (chunks: seq<TextChunk>)
    ensures chunks == ChunkDocumentSpec(cfg, tok, pre, split, text, preserveSections)
    ensures IsBlank(text) ==> chunks == []
  {
    if IsBlank(text) {
      return [];
    }
    var sections := DocumentSections(pre, split, text, preserveSections);
    chunks := [];
    var chunkIndex := 0;
    var sectionIdx := 0;
    while sectionIdx < |sections|
      invariant 0 <= sectionIdx <= |sections|
      invariant chunkIndex == |chunks|
      invariant SectionsChunks(cfg.maxChunks, SectionChunks(cfg, tok), sections, sectionIdx, chunks)
             == ChunkDocumentSpec(cfg, tok, pre, split, text, preserveSections)
    {
      var sectionChunks := ChunkSection(cfg, tok, sections[sectionIdx], chunkIndex, sectionIdx);
      assert sectionChunks == SectionChunks(cfg, tok)(sections[sectionIdx], chunkIndex, sectionIdx);
      chunks := chunks + sectionChunks;
      chunkIndex := chunkIndex + |sectionChunks|;
      if chunkIndex >= cfg.maxChunks {
        break;
      }
      sectionIdx := sectionIdx + 1;
    }
  }

  /** The chunks of the first `n` sections with no `max_chunks` cut. */
  function Uncapped(sec: SectionChunker, sections: seq<string>, n: nat): seq<TextChunk>
    requires n <= |sections|
  {
    if n == 0 then []
    else
      var before := Uncapped(sec, sections, n - 1);
      before + sec(sections[n - 1], |before|, n - 1)
  }

  lemma {:induction false} SectionsChunksStops(maxChunks: int, sec: SectionChunker, sections: seq<string>, idx: nat)
    returns (n: nat)
    requires idx <= |sections|
    requires idx == 0 || |Uncapped(sec, sections, idx)| < maxChunks
    ensures idx <= n <= |sections|
    ensures SectionsChunks(maxChunks, sec, sections, idx, Uncapped(sec, sections, idx)) == Uncapped(sec, sections, n)
    ensures forall m :: idx < m < n ==> |Uncapped(sec, sections, m)| < maxChunks
    ensures n < |sections| ==> n > idx && |Uncapped(sec, sections, n)| >= maxChunks
    decreases |sections| - idx
  {
    if idx == |sections| {
      n := idx;
    } else {
      var all := Uncapped(sec, sections, idx + 1);
      SectionsChunksStep(maxChunks, sec, sections, idx);
      if |all| >= maxChunks {
        n := idx + 1;
      } else {
        n := SectionsChunksStops(maxChunks, sec, sections, idx + 1);
        forall m | idx < m < n ensures |Uncapped(sec, sections, m)| < maxChunks
        {
        }
      }
    }
  }

  /** One section further: the chunks so far are those of the first `idx` sections. */
  lemma SectionsChunksStep(maxChunks: int, sec: SectionChunker, sections: seq<string>, idx: nat)
    requires idx < |sections|
    ensures var all := Uncapped(sec, sections, idx + 1);
            SectionsChunks(maxChunks, sec, sections, idx, Uncapped(sec, sections, idx))
            == if |all| >= maxChunks then all else SectionsChunks(maxChunks, sec, sections, idx + 1, all)
  {
    var before := Uncapped(sec, sections, idx);
    assert Uncapped(sec, sections, idx + 1) == before + sec(sections[idx], |before|, idx);
  }

  /**
   * `chunk_document` processes whole sections in order and stops right after
   * the first one that brings the total to at least `max_chunks`, so the
   * total can exceed `max_chunks` by up to that section's chunks. Blank text
   * gives no chunks.
   */
  lemma DocumentStopsAfterLimit(cfg: ChunkConfig, tok: Tokens, pre: string -> string,
                                split: (nat, string) -> seq<string>, text: string, preserveSections: bool)
    returns (n: nat)
    requires !IsBlank(text)
    ensures var sections := DocumentSections(pre, split, text, preserveSections);
      && n <= |sections|
      && ChunkDocumentSpec(cfg, tok, pre, split, text, preserveSections) == Uncapped(SectionChunks(cfg, tok), sections, n)
      && (forall m :: 0 < m < n ==> |Uncapped(SectionChunks(cfg, tok), sections, m)| < cfg.maxChunks)
      && (n < |sections| ==> |Uncapped(SectionChunks(cfg, tok), sections, n)| >= cfg.maxChunks)
  {
    var sections := DocumentSections(pre, split, text, preserveSections);
    n := SectionsChunksStops(cfg.maxChunks, SectionChunks(cfg, tok), sections, 0);
  }

  /** A section chunker that numbers a section's chunks from the start index it is given. */
  ghost predicate NumbersFromStart(sec: SectionChunker)
  {
    forall t: string, start: nat, section: nat, k: int :: 0 <= k < |sec(t, start, section)| ==> sec(t, start, section)[k].chunkIndex == start + k
  }

  lemma {:induction false} UncappedIndexed(sec: SectionChunker, sections: seq<string>, n: nat)
    requires n <= |sections|
    requires NumbersFromStart(sec)
    ensures forall k :: 0 <= k < |Uncapped(sec, sections, n)| ==> Uncapped(sec, sections, n)[k].chunkIndex == k
  {
    if n > 0 {
      var before: seq<TextChunk> := Uncapped(sec, sections, n - 1);
      UncappedIndexed(sec, sections, n - 1);
      var last: seq<TextChunk> := sec(sections[n - 1], |before|, n - 1);
      assert Uncapped(sec, sections, n) == before + last;
      forall k | 0 <= k < |before + last| ensures (before + last)[k].chunkIndex == k {
        if k >= |before| {
          assert (before + last)[k] == last[k - |before|];
        }
      }
    }
  }

  lemma SectionChunksNumbered(cfg: ChunkConfig, tok: Tokens)
    ensures NumbersFromStart(SectionChunks(cfg, tok))
  {
    var sec := SectionChunks(cfg, tok);
    forall t: string, start: nat, section: nat, k: int | 0 <= k < |sec(t, start, section)|
      ensures sec(t, start, section)[k].chunkIndex == start + k
    {
      ChunkSectionGood(cfg, tok, t, start, section);
      assert sec(t, start, section) == ChunkSectionSpec(cfg, tok, t, start, section);
    }
  }

  /** `chunk_index` runs 0, 1, 2, ... across all sections with no gaps. */
  lemma DocumentIndicesContiguous(cfg: ChunkConfig, tok: Tokens, pre: string -> string,
                                  split: (nat, string) -> seq<string>, text: string, preserveSections: bool)
    ensures var r := ChunkDocumentSpec(cfg, tok, pre, split, text, preserveSections);
      forall k :: 0 <= k < |r| ==> r[k].chunkIndex == k
  {
    if !IsBlank(text) {
      var n := DocumentStopsAfterLimit(cfg, tok, pre, split, text, preserveSections);
      SectionChunksNumbered(cfg, tok);
      UncappedIndexed(SectionChunks(cfg, tok), DocumentSections(pre, split, text, preserveSections), n);
    }
  }
}
