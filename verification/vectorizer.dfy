/**
 * The embedding half of the embedding service: `generate_embedding` with
 * its in-process cache keyed by the SHA-256 hex digest of the text, and
 * `generate_embeddings_batch`, which sends consecutive sub-batches of the
 * non-blank inputs upstream and maps the replies back to one slot per input.
 *
 * The embedding API is a function of the call's sequence number and its
 * inputs; `None` stands for a call that raises. The service records every
 * upstream call it makes in `requests`.
 */
module Vectorizer {
  import opened Common
  import opened PyStr
  import Sha256

  type Vector = seq<real>

  /** The reply of upstream call number `n` for the given inputs, or `None` when the call raises. */
  type EmbeddingApi = (nat, seq<string>) -> Option<seq<Vector>>

  const EmptyTextError: string := "Cannot generate embedding for empty text"

  /** `_get_cache_key`: the SHA-256 hex digest of the text's UTF-8 bytes. */
  function CacheKey(text: string): (k: string)
    ensures |k| == 64 && forall i :: 0 <= i < |k| ==> Sha256.IsLowerHex(k[i])
  {
    Sha256.HexDigest(text)
  }

  // ---------------------------------------------------------------------
  // Batch specification

  /** One empty vector per input. */
  function Blanks(n: nat): (r: seq<Vector>)
    ensures |r| == n && forall j :: 0 <= j < n ==> r[j] == []
  {
    seq(n, _ => [])
  }

  /** The positions `j` of `valid_batch`: those whose text is neither empty nor whitespace, in order. */
  function NonBlankIdx(batch: seq<string>): (r: seq<nat>)
    ensures |r| <= |batch| && forall k :: 0 <= k < |r| ==> r[k] < |batch|
  {
    if batch == [] then []
    else
      var n := |batch|;
      NonBlankIdx(batch[..n - 1]) + (if IsBlank(batch[n - 1]) then [] else [n - 1])
  }

  /** Every listed position holds a non-blank text. */
  lemma {:induction false} NonBlankIdxSound(batch: seq<string>)
    ensures forall k :: 0 <= k < |NonBlankIdx(batch)| ==> !IsBlank(batch[NonBlankIdx(batch)[k]])
  {
    if batch != [] {
      var n := |batch|;
      var p := batch[..n - 1];
      NonBlankIdxSound(p);
      var r0 := NonBlankIdx(p);
      var r := NonBlankIdx(batch);
      assert r == r0 + (if IsBlank(batch[n - 1]) then [] else [n - 1]);
      forall k | 0 <= k < |r| ensures !IsBlank(batch[r[k]]) {
        if k < |r0| {
          assert r[k] == r0[k] && batch[r0[k]] == p[r0[k]];
          assert !IsBlank(p[r0[k]]);
        } else {
          assert !IsBlank(batch[n - 1]);
          assert r[k] == n - 1;
        }
      }
    }
  }

  /** The positions are listed in increasing order. */
  lemma {:induction false} NonBlankIdxIncreasing(batch: seq<string>)
    ensures forall k, l :: 0 <= k < l < |NonBlankIdx(batch)| ==> NonBlankIdx(batch)[k] < NonBlankIdx(batch)[l]
  {
    if batch != [] {
      var n := |batch|;
      NonBlankIdxIncreasing(batch[..n - 1]);
      var r0 := NonBlankIdx(batch[..n - 1]);
      var r := NonBlankIdx(batch);
      assert r == r0 + (if IsBlank(batch[n - 1]) then [] else [n - 1]);
      forall k, l | 0 <= k < l < |r| ensures r[k] < r[l] {
        if l < |r0| {
          assert r[k] == r0[k] && r[l] == r0[l];
        } else {
          assert r[l] == n - 1 && r[k] == r0[k];
        }
      }
    }
  }

  /** Every position holding a non-blank text is listed. */
  lemma {:induction false} NonBlankIdxComplete(batch: seq<string>)
    ensures forall j :: 0 <= j < |batch| && !IsBlank(batch[j]) ==> j in NonBlankIdx(batch)
  {
    if batch != [] {
      var n := |batch|;
      var p := batch[..n - 1];
      NonBlankIdxComplete(p);
      var r0 := NonBlankIdx(p);
      var r := NonBlankIdx(batch);
      forall j | 0 <= j < n && !IsBlank(batch[j]) ensures j in r {
        if j < n - 1 {
          assert p[j] == batch[j];
          var m :| 0 <= m < |r0| && r0[m] == j;
          assert r[m] == j;
        } else {
          assert r[|r| - 1] == j;
        }
      }
    }
  }

  /** The texts at the given positions. */
  function Pick(batch: seq<string>, idx: seq<nat>): (r: seq<string>)
    requires forall k :: 0 <= k < |idx| ==> idx[k] < |batch|
    ensures |r| == |idx| && forall k :: 0 <= k < |idx| ==> r[k] == batch[idx[k]]
  {
    seq(|idx|, k requires 0 <= k < |idx| => batch[idx[k]])
  }

  /** `batch_embeddings` after the first `k` assignments `batch_embeddings[idx[m]] = vs[m]`. */
  function Scatter(slots: seq<Vector>, idx: seq<nat>, vs: seq<Vector>, k: nat): (r: seq<Vector>)
    requires k <= |idx| && k <= |vs|
    requires forall m :: 0 <= m < |idx| ==> idx[m] < |slots|
    ensures |r| == |slots|
  {
    if k == 0 then slots else Scatter(slots, idx, vs, k - 1)[idx[k - 1] := vs[k - 1]]
  }

  /** With distinct positions, slot `idx[m]` holds `vs[m]` and every other slot is untouched. */
  lemma {:induction false} ScatterAt(slots: seq<Vector>, idx: seq<nat>, vs: seq<Vector>, k: nat, p: nat)
    requires k <= |idx| && k <= |vs|
    requires forall m :: 0 <= m < |idx| ==> idx[m] < |slots|
    requires forall m, l :: 0 <= m < l < |idx| ==> idx[m] < idx[l]
    requires p < |slots|
    ensures forall m :: 0 <= m < k && idx[m] == p ==> Scatter(slots, idx, vs, k)[p] == vs[m]
    ensures (forall m :: 0 <= m < k ==> idx[m] != p) ==> Scatter(slots, idx, vs, k)[p] == slots[p]
    decreases k
  {
    if k > 0 {
      ScatterAt(slots, idx, vs, k - 1, p);
    }
  }

  /** The slots of one sub-batch, given the positions sent upstream and the reply. */
  function BatchSlots(batch: seq<string>, idx: seq<nat>, reply: Option<seq<Vector>>): (r: seq<Vector>)
    requires forall m :: 0 <= m < |idx| ==> idx[m] < |batch|
    ensures |r| == |batch|
  {
    if reply.None? || |reply.value| < |idx| then Blanks(|batch|)
    else Scatter(Blanks(|batch|), idx, reply.value, |idx|)
  }

  /** What the batch loop produces from position `i` on: the slots, and the inputs of each upstream call. */
  datatype BatchOut = BatchOut(embeddings: seq<Vector>, sent: seq<seq<string>>)

  /** The slice of the texts that starts at `i` and holds at most `bs` of them. */
  function SubBatch(texts: seq<string>, bs: nat, i: nat): (b: seq<string>)
    requires i <= |texts|
    ensures |b| <= bs
  {
    texts[i..Min(i + bs, |texts|)]
  }

  /** One pass of the batch loop: the slots of the sub-batch, and the upstream call made for it, if any. */
  function SubBatchOut(api: EmbeddingApi, call: nat, batch: seq<string>): BatchOut
  {
    var idx := NonBlankIdx(batch);
    if idx == [] then BatchOut(Blanks(|batch|), [])
    else
      var valid := Pick(batch, idx);
      BatchOut(BatchSlots(batch, idx, api(call, valid)), [valid])
  }

  /** One pass of the batch loop, as a function of the next call number and the sub-batch. */
  type BatchStep = (nat, seq<string>) -> BatchOut

  function EmbedStep(api: EmbeddingApi): BatchStep
  {
    (call: nat, batch: seq<string>) => SubBatchOut(api, call, batch)
  }

  /** The batch loop from position `i`, the next upstream call being number `call`. */
  function BatchesFrom(step: BatchStep, call: nat, texts: seq<string>, bs: nat, i: nat): BatchOut
    requires bs > 0
    decreases |texts| - i
  {
    if i >= |texts| then BatchOut([], [])
    else
      var here := step(call, SubBatch(texts, bs, i));
      var rest := BatchesFrom(step, call + |here.sent|, texts, bs, i + bs);
      BatchOut(here.embeddings + rest.embeddings, here.sent + rest.sent)
  }

  /** One pass of the loop followed by the rest of it: appending the pass's slots and calls to
      what came before leaves the whole unchanged, for the next position `i2` and call number `c2`. */
  lemma BatchesStep(step: BatchStep, c: nat, texts: seq<string>, bs: nat, i: nat, c2: nat, i2: nat,
                    done: BatchOut, whole: BatchOut)
    requires bs > 0 && i < |texts|
    requires done.embeddings + BatchesFrom(step, c, texts, bs, i).embeddings == whole.embeddings
    requires done.sent + BatchesFrom(step, c, texts, bs, i).sent == whole.sent
    requires c2 == c + |step(c, SubBatch(texts, bs, i)).sent| && i2 == i + bs
    ensures var here := step(c, SubBatch(texts, bs, i));
      && (done.embeddings + here.embeddings) + BatchesFrom(step, c2, texts, bs, i2).embeddings == whole.embeddings
      && (done.sent + here.sent) + BatchesFrom(step, c2, texts, bs, i2).sent == whole.sent
  {
    var here := step(c, SubBatch(texts, bs, i));
    var rest := BatchesFrom(step, c2, texts, bs, i2);
    assert BatchesFrom(step, c, texts, bs, i).embeddings == here.embeddings + rest.embeddings;
    assert BatchesFrom(step, c, texts, bs, i).sent == here.sent + rest.sent;
  }

  /** Result of `generate_embeddings_batch`: `range()` raises for a zero step and is empty for a negative one. */
  function BatchSpec(api: EmbeddingApi, call: nat, texts: seq<string>, bs: int): Result<BatchOut>
  {
    if bs == 0 then Err("range() arg 3 must not be zero")
    else if bs < 0 then Ok(BatchOut([], []))
    else Ok(BatchesFrom(EmbedStep(api), call, texts, bs, 0))
  }

  // ---------------------------------------------------------------------
  // Properties of the batch loop

  /** In a sub-batch, a blank input gets `[]`; a failed or short reply gives `[]` everywhere; otherwise
      the `m`-th non-blank input gets the `m`-th vector of the reply. */
  lemma BatchSlotsShape(batch: seq<string>, reply: Option<seq<Vector>>)
    ensures var idx := NonBlankIdx(batch);
      var r := BatchSlots(batch, idx, reply);
      && (forall j :: 0 <= j < |batch| && IsBlank(batch[j]) ==> r[j] == [])
      && (reply.None? || |reply.value| < |idx| ==> forall j :: 0 <= j < |batch| ==> r[j] == [])
      && (reply.Some? && |reply.value| >= |idx| ==> forall m :: 0 <= m < |idx| ==> r[idx[m]] == reply.value[m])
  {
    var idx := NonBlankIdx(batch);
    NonBlankIdxIncreasing(batch);
    if reply.Some? && |reply.value| >= |idx| {
      forall p | 0 <= p < |batch|
        ensures (forall m :: 0 <= m < |idx| && idx[m] == p ==> BatchSlots(batch, idx, reply)[p] == reply.value[m])
        ensures (forall m :: 0 <= m < |idx| ==> idx[m] != p) ==> BatchSlots(batch, idx, reply)[p] == []
      {
        ScatterAt(Blanks(|batch|), idx, reply.value, |idx|, p);
      }
    }
  }

  predicate NotBlank(t: string) { !IsBlank(t) }

  /** `valid_batch` holds the non-blank texts of the batch, in order. */
  lemma {:induction false} PickNonBlank(batch: seq<string>)
    ensures Pick(batch, NonBlankIdx(batch)) == Filter(batch, NotBlank)
  {
    if batch != [] {
      var n := |batch|;
      var p := batch[..n - 1];
      PickNonBlank(p);
      var r0 := NonBlankIdx(p);
      var tail: seq<nat> := if IsBlank(batch[n - 1]) then [] else [n - 1];
      assert NonBlankIdx(batch) == r0 + tail;
      assert Pick(batch, r0 + tail) == Pick(p, r0) + (if IsBlank(batch[n - 1]) then [] else [batch[n - 1]]);
    }
  }

  /** A sub-batch yields one slot per input, `[]` for each blank one, and makes one upstream call,
      carrying the non-blank inputs in order, unless every input is blank. */
  lemma SubBatchShape(api: EmbeddingApi, call: nat, batch: seq<string>)
    ensures var out := SubBatchOut(api, call, batch);
      && |out.embeddings| == |batch|
      && (forall j :: 0 <= j < |batch| && IsBlank(batch[j]) ==> out.embeddings[j] == [])
      && (out.sent == [] <==> forall j :: 0 <= j < |batch| ==> IsBlank(batch[j]))
      && |out.sent| <= 1
      && (out.sent != [] ==> out.sent == [Filter(batch, NotBlank)] && 1 <= |out.sent[0]| <= |batch|)
  {
    var idx := NonBlankIdx(batch);
    NonBlankIdxSound(batch);
    NonBlankIdxComplete(batch);
    PickNonBlank(batch);
    BatchSlotsShape(batch, api(call, Pick(batch, idx)));
    if idx != [] {
      assert !IsBlank(batch[idx[0]]);
    }
  }

  /** What every pass of the loop guarantees: one slot per input, `[]` for each blank input, and
      at most one upstream call, of between one and all of the inputs, none of them blank, made
      exactly when some input is not blank. */
  ghost predicate WellShaped(step: BatchStep, blank: string -> bool)
  {
    forall call: nat, batch: seq<string> :: StepShaped(batch, step(call, batch), blank)
  }

  predicate StepShaped(batch: seq<string>, out: BatchOut, blank: string -> bool)
  {
    && |out.embeddings| == |batch|
    && (forall j :: 0 <= j < |batch| && blank(batch[j]) ==> out.embeddings[j] == [])
    && (out.sent == [] <==> forall j :: 0 <= j < |batch| ==> blank(batch[j]))
    && (forall k :: 0 <= k < |out.sent| ==> ValidRequest(out.sent[k], |batch|, blank))
  }

  /** An upstream call of at least one and at most `limit` inputs, none of them blank. */
  predicate ValidRequest(req: seq<string>, limit: nat, blank: string -> bool)
  {
    1 <= |req| <= limit && forall t :: t in req ==> !blank(t)
  }

  lemma EmbedStepWellShaped(api: EmbeddingApi)
    ensures WellShaped(EmbedStep(api), IsBlank)
  {
    forall call: nat, batch: seq<string> ensures StepShaped(batch, EmbedStep(api)(call, batch), IsBlank) {
      SubBatchShape(api, call, batch);
      var out := SubBatchOut(api, call, batch);
      if out.sent != [] {
        forall t | t in out.sent[0] ensures !IsBlank(t) {
          assert NotBlank(t);
        }
      }
    }
  }

  /** One slot per input from `i` on, `[]` for every empty or whitespace-only input wherever it sits. */
  lemma {:induction false} BlankSlotsFrom(step: BatchStep, blank: string -> bool, call: nat, texts: seq<string>, bs: nat, i: nat)
    requires bs > 0 && i <= |texts| && WellShaped(step, blank)
    ensures |BatchesFrom(step, call, texts, bs, i).embeddings| == |texts| - i
    ensures forall j :: i <= j < |texts| && blank(texts[j]) ==> BatchesFrom(step, call, texts, bs, i).embeddings[j - i] == []
    decreases |texts| - i
  {
    if i < |texts| {
      var batch := SubBatch(texts, bs, i);
      var here := step(call, batch);
      assert StepShaped(batch, here, blank);
      var rest := BatchesFrom(step, call + |here.sent|, texts, bs, i + bs);
      if i + bs <= |texts| {
        BlankSlotsFrom(step, blank, call + |here.sent|, texts, bs, i + bs);
      }
      assert |rest.embeddings| == |texts| - i - |batch|;
      forall j | i <= j < |texts| && blank(texts[j])
        ensures (here.embeddings + rest.embeddings)[j - i] == []
      {
        if j - i < |batch| {
          assert batch[j - i] == texts[j];
        } else {
          assert |batch| == bs;
          assert (here.embeddings + rest.embeddings)[j - i] == rest.embeddings[j - (i + bs)];
        }
      }
    }
  }

  /** Every upstream call from `i` on carries between one and `batch_size` inputs, none of them blank. */
  lemma {:induction false} SentFrom(step: BatchStep, blank: string -> bool, call: nat, texts: seq<string>, bs: nat, i: nat)
    requires bs > 0 && i <= |texts| && WellShaped(step, blank)
    ensures forall k :: 0 <= k < |BatchesFrom(step, call, texts, bs, i).sent| ==>
      ValidRequest(BatchesFrom(step, call, texts, bs, i).sent[k], bs, blank)
    decreases |texts| - i
  {
    if i < |texts| {
      var batch := SubBatch(texts, bs, i);
      var here := step(call, batch);
      assert StepShaped(batch, here, blank);
      if i + bs <= |texts| {
        SentFrom(step, blank, call + |here.sent|, texts, bs, i + bs);
      }
      var rest := BatchesFrom(step, call + |here.sent|, texts, bs, i + bs);
      var sent := here.sent + rest.sent;
      assert BatchesFrom(step, call, texts, bs, i).sent == sent;
      forall k | 0 <= k < |sent| ensures ValidRequest(sent[k], bs, blank) {
        if k < |here.sent| {
          assert sent[k] == here.sent[k] && ValidRequest(here.sent[k], |batch|, blank);
        } else {
          assert sent[k] == rest.sent[k - |here.sent|];
        }
      }
    }
  }

  /** No upstream call is made from `i` on when all the inputs there are blank. */
  lemma {:induction false} NoneSentFrom(step: BatchStep, blank: string -> bool, call: nat, texts: seq<string>, bs: nat, i: nat)
    requires bs > 0 && i <= |texts| && WellShaped(step, blank)
    requires forall j :: i <= j < |texts| ==> blank(texts[j])
    ensures BatchesFrom(step, call, texts, bs, i).sent == []
    decreases |texts| - i
  {
    if i < |texts| {
      var batch := SubBatch(texts, bs, i);
      var here := step(call, batch);
      forall j | 0 <= j < |batch| ensures blank(batch[j]) {
        assert batch[j] == texts[i + j];
      }
      assert StepShaped(batch, here, blank);
      if i + bs <= |texts| {
        NoneSentFrom(step, blank, call + |here.sent|, texts, bs, i + bs);
      }
    }
  }

  /** `generate_embeddings_batch` returns one slot per input and `[]` for every empty or
      whitespace-only input. */
  lemma BlankInputsGetEmpty(api: EmbeddingApi, call: nat, texts: seq<string>, bs: int)
    requires bs > 0
    ensures var out := BatchSpec(api, call, texts, bs);
      && out.Ok? && |out.value.embeddings| == |texts|
      && forall j :: 0 <= j < |texts| && IsBlank(texts[j]) ==> out.value.embeddings[j] == []
  {
    EmbedStepWellShaped(api);
    BlankSlotsFrom(EmbedStep(api), IsBlank, call, texts, bs, 0);
  }

  /** Each upstream call of `generate_embeddings_batch` carries between one and `batch_size` texts,
      none of them blank; with only blank inputs it makes no call at all. */
  lemma RequestsNonBlank(api: EmbeddingApi, call: nat, texts: seq<string>, bs: int)
    requires bs > 0
    ensures var sent := BatchSpec(api, call, texts, bs).value.sent;
      && (forall k :: 0 <= k < |sent| ==> 1 <= |sent[k]| <= bs && forall t :: t in sent[k] ==> !IsBlank(t))
      && ((forall j :: 0 <= j < |texts| ==> IsBlank(texts[j])) ==> sent == [])
  {
    EmbedStepWellShaped(api);
    var sent := BatchSpec(api, call, texts, bs).value.sent;
    SentFrom(EmbedStep(api), IsBlank, call, texts, bs, 0);
    forall k | 0 <= k < |sent| ensures 1 <= |sent[k]| <= bs && forall t :: t in sent[k] ==> !IsBlank(t) {
      assert ValidRequest(sent[k], bs, IsBlank);
    }
    if forall j :: 0 <= j < |texts| ==> IsBlank(texts[j]) {
      NoneSentFrom(EmbedStep(api), IsBlank, call, texts, bs, 0);
    }
  }

  /** Every pass of the loop yields one slot per input. */
  ghost predicate SlotPerInput(step: BatchStep)
  {
    forall call: nat, batch: seq<string> :: |step(call, batch).embeddings| == |batch|
  }

  /** `t` is a sub-batch start of a loop that starts at `i`. */
  predicate OnGrid(i: nat, t: nat, bs: nat)
    decreases t - i
  {
    i == t || (bs > 0 && i + bs <= t && OnGrid(i + bs, t, bs))
  }

  /** The start of sub-batch `q` is on the grid. */
  lemma {:induction false} GridPoint(i: nat, q: nat, bs: nat)
    requires bs > 0
    ensures OnGrid(i, i + q * bs, bs)
    decreases q
  {
    if q > 0 {
      assert (i + bs) + (q - 1) * bs == i + q * bs;
      GridPoint(i + bs, q - 1, bs);
    }
  }

  /** The passes of the batch loop from position `i` up to, not including, position `t`. */
  function BatchesBefore(step: BatchStep, call: nat, texts: seq<string>, bs: nat, i: nat, t: nat): BatchOut
    requires bs > 0
    decreases t - i
  {
    if t <= i || |texts| <= i then BatchOut([], [])
    else
      var here := step(call, SubBatch(texts, bs, i));
      var rest := BatchesBefore(step, call + |here.sent|, texts, bs, i + bs, t);
      BatchOut(here.embeddings + rest.embeddings, here.sent + rest.sent)
  }

  /** How many upstream calls the sub-batches from position `i` up to position `t` make. */
  function CallsBefore(step: BatchStep, call: nat, texts: seq<string>, bs: nat, i: nat, t: nat): nat
    requires bs > 0
  {
    |BatchesBefore(step, call, texts, bs, i, t).sent|
  }

  /** The loop from `i` is its passes before the sub-batch start `t` followed by the loop from `t`. */
  lemma {:induction false} BatchesSplit(step: BatchStep, call: nat, texts: seq<string>, bs: nat, i: nat, t: nat)
    requires bs > 0 && OnGrid(i, t, bs) && t <= |texts|
    ensures var pre := BatchesBefore(step, call, texts, bs, i, t);
      var post := BatchesFrom(step, call + |pre.sent|, texts, bs, t);
      var whole := BatchesFrom(step, call, texts, bs, i);
      whole.embeddings == pre.embeddings + post.embeddings && whole.sent == pre.sent + post.sent
    decreases t - i
  {
    var pre := BatchesBefore(step, call, texts, bs, i, t);
    if t > i {
      var here := step(call, SubBatch(texts, bs, i));
      var c2 := call + |here.sent|;
      var pre2 := BatchesBefore(step, c2, texts, bs, i + bs, t);
      var post := BatchesFrom(step, c2 + |pre2.sent|, texts, bs, t);
      var rest := BatchesFrom(step, c2, texts, bs, i + bs);
      var whole := BatchesFrom(step, call, texts, bs, i);
      assert whole.embeddings == here.embeddings + rest.embeddings && whole.sent == here.sent + rest.sent;
      assert pre.embeddings == here.embeddings + pre2.embeddings && pre.sent == here.sent + pre2.sent;
      BatchesSplit(step, c2, texts, bs, i + bs, t);
      assert call + |pre.sent| == c2 + |pre2.sent|;
      AppendAssoc(here.embeddings, pre2.embeddings, post.embeddings);
      AppendAssoc(here.sent, pre2.sent, post.sent);
    } else {
      assert pre == BatchOut([], []);
      AppendEmpty(BatchesFrom(step, call, texts, bs, i).embeddings);
      AppendEmpty(BatchesFrom(step, call, texts, bs, i).sent);
    }
  }

  lemma AppendAssoc<T>(a: seq<T>, b: seq<T>, c: seq<T>)
    ensures a + (b + c) == (a + b) + c
  {
  }

  lemma AppendEmpty<T>(a: seq<T>)
    ensures [] + a == a
  {
  }

  /** With one slot per input, the passes before the sub-batch start `t` yield `t - i` slots. */
  lemma {:induction false} BeforeLength(step: BatchStep, call: nat, texts: seq<string>, bs: nat, i: nat, t: nat)
    requires bs > 0 && SlotPerInput(step) && OnGrid(i, t, bs) && t <= |texts|
    ensures |BatchesBefore(step, call, texts, bs, i, t).embeddings| == t - i
    decreases t - i
  {
    if t > i {
      var batch := SubBatch(texts, bs, i);
      var here := step(call, batch);
      assert |batch| == bs;
      BeforeLength(step, call + |here.sent|, texts, bs, i + bs, t);
    }
  }

  /**
   * The whole loop around the sub-batch at `t`, when the passes before it
   * yield `t` slots: those passes, which make `CallsBefore` calls, then its
   * own pass, then the rest of the loop.
   */
  lemma WholeAround(step: BatchStep, call: nat, texts: seq<string>, bs: nat, t: nat)
    requires bs > 0 && OnGrid(0, t, bs) && t < |texts|
    requires |BatchesBefore(step, call, texts, bs, 0, t).embeddings| == t
    ensures var pre := BatchesBefore(step, call, texts, bs, 0, t);
      var here := step(call + |pre.sent|, SubBatch(texts, bs, t));
      var post := BatchesFrom(step, call + |pre.sent| + |here.sent|, texts, bs, t + bs);
      var out := BatchesFrom(step, call, texts, bs, 0);
      && |pre.embeddings| == t
      && out.embeddings == pre.embeddings + (here.embeddings + post.embeddings)
      && out.sent == pre.sent + (here.sent + post.sent)
  {
    BatchesSplit(step, call, texts, bs, 0, t);
  }

  /** `whole` holds `slots` from position `t` on. */
  predicate SlotsAt(whole: seq<Vector>, t: nat, slots: seq<Vector>)
  {
    t + |slots| <= |whole| && forall j :: t <= j < t + |slots| ==> whole[j] == slots[j - t]
  }

  /** From position `t` on, the slot at the `m`-th listed position holds the `m`-th vector of the reply. */
  predicate RepliesAt(whole: seq<Vector>, t: nat, idx: seq<nat>, reply: seq<Vector>)
  {
    |idx| <= |reply| && forall m :: 0 <= m < |idx| ==> t + idx[m] < |whole| && whole[t + idx[m]] == reply[m]
  }

  /** The `n` slots from position `t` on are empty. */
  predicate EmptyAt(whole: seq<Vector>, t: nat, n: nat)
  {
    forall j :: t <= j < t + n ==> j < |whole| && whole[j] == []
  }

  /**
   * The pass over the sub-batch at `t` sits in the whole loop at its own
   * positions: its slots from position `t` on, and its call, if any, right
   * after the `CallsBefore` calls of the passes before it.
   */
  lemma PassInPlace(step: BatchStep, call: nat, texts: seq<string>, bs: nat, t: nat)
    requires bs > 0 && OnGrid(0, t, bs) && t < |texts|
    requires |BatchesBefore(step, call, texts, bs, 0, t).embeddings| == t
    ensures var out := BatchesFrom(step, call, texts, bs, 0);
      var k := CallsBefore(step, call, texts, bs, 0, t);
      var here := step(call + k, SubBatch(texts, bs, t));
      && SlotsAt(out.embeddings, t, here.embeddings)
      && (here.sent != [] ==> k < |out.sent| && out.sent[k] == here.sent[0])
  {
    var pre := BatchesBefore(step, call, texts, bs, 0, t);
    var here := step(call + |pre.sent|, SubBatch(texts, bs, t));
    var post := BatchesFrom(step, call + |pre.sent| + |here.sent|, texts, bs, t + bs);
    var out := BatchesFrom(step, call, texts, bs, 0);
    WholeAround(step, call, texts, bs, t);
    forall j | t <= j < t + |here.embeddings| ensures out.embeddings[j] == here.embeddings[j - t] {
      assert out.embeddings[j] == (pre.embeddings + (here.embeddings + post.embeddings))[j];
    }
    if here.sent != [] {
      assert out.sent[|pre.sent|] == (pre.sent + (here.sent + post.sent))[|pre.sent|];
    }
  }

  /** `PassInPlace` for the embedding loop. */
  lemma EmbedPassInPlace(api: EmbeddingApi, call: nat, texts: seq<string>, bs: nat, t: nat)
    requires bs > 0 && OnGrid(0, t, bs) && t < |texts|
    ensures var out := BatchesFrom(EmbedStep(api), call, texts, bs, 0);
      var k := CallsBefore(EmbedStep(api), call, texts, bs, 0, t);
      var here := EmbedStep(api)(call + k, SubBatch(texts, bs, t));
      && SlotsAt(out.embeddings, t, here.embeddings)
      && (here.sent != [] ==> k < |out.sent| && out.sent[k] == here.sent[0])
  {
    EmbedBeforeLength(api, call, texts, bs, t);
    PassInPlace(EmbedStep(api), call, texts, bs, t);
  }

  /** `BeforeLength` for the embedding loop, which yields one slot per input. */
  lemma EmbedBeforeLength(api: EmbeddingApi, call: nat, texts: seq<string>, bs: nat, t: nat)
    requires bs > 0 && OnGrid(0, t, bs) && t <= |texts|
    ensures |BatchesBefore(EmbedStep(api), call, texts, bs, 0, t).embeddings| == t
  {
    EmbedSlotPerInput(api);
    BeforeLength(EmbedStep(api), call, texts, bs, 0, t);
  }

  /** A pass of the embedding loop is `SubBatchOut`. */
  lemma EmbedStepIs(api: EmbeddingApi, c: nat, batch: seq<string>)
    ensures EmbedStep(api)(c, batch) == SubBatchOut(api, c, batch)
  {
  }

  /** Each pass of the embedding loop yields one slot per input. */
  lemma EmbedSlotPerInput(api: EmbeddingApi)
    ensures SlotPerInput(EmbedStep(api))
  {
    forall call: nat, batch: seq<string> ensures |EmbedStep(api)(call, batch).embeddings| == |batch| {
      SubBatchShape(api, call, batch);
    }
  }

  /** The slots of one pass of the loop over `batch`, found in `whole` from position `t` on. */
  lemma PlacedSlots(whole: seq<Vector>, t: nat, step: BatchStep, api: EmbeddingApi, c: nat, batch: seq<string>)
    requires step(c, batch) == SubBatchOut(api, c, batch)
    requires SlotsAt(whole, t, step(c, batch).embeddings)
    ensures var idx := NonBlankIdx(batch);
      var reply := api(c, Pick(batch, idx));
      && (reply.Some? && |reply.value| >= |idx| ==> RepliesAt(whole, t, idx, reply.value))
      && (reply.None? || |reply.value| < |idx| ==> EmptyAt(whole, t, |batch|))
  {
    var idx := NonBlankIdx(batch);
    var reply := api(c, Pick(batch, idx));
    var slots := SubBatchOut(api, c, batch).embeddings;
    assert slots == if idx == [] then Blanks(|batch|) else BatchSlots(batch, idx, reply);
    BatchSlotsShape(batch, reply);
    if reply.Some? && |reply.value| >= |idx| {
      forall m | 0 <= m < |idx| ensures t + idx[m] < |whole| && whole[t + idx[m]] == reply.value[m] {
        assert whole[t + idx[m]] == slots[t + idx[m] - t];
      }
    } else {
      forall j | t <= j < t + |batch| ensures j < |whole| && whole[j] == [] {
        assert whole[j] == slots[j - t];
      }
    }
  }

  /**
   * `batch_embeddings[original_idx] = ...` over the whole input: for the
   * sub-batch starting at `t`, when the reply to its call has a vector for
   * each text sent, the input at its `m`-th non-blank position gets the
   * `m`-th vector of that reply.
   */
  lemma ReplyInPlace(api: EmbeddingApi, call: nat, texts: seq<string>, bs: int, t: nat)
    requires bs > 0 && OnGrid(0, t, bs) && t < |texts|
    ensures var out := BatchSpec(api, call, texts, bs).value;
      var batch := SubBatch(texts, bs, t);
      var idx := NonBlankIdx(batch);
      var reply := api(call + CallsBefore(EmbedStep(api), call, texts, bs, 0, t), Pick(batch, idx));
      reply.Some? && |reply.value| >= |idx| ==> RepliesAt(out.embeddings, t, idx, reply.value)
  {
    var batch := SubBatch(texts, bs, t);
    var c := call + CallsBefore(EmbedStep(api), call, texts, bs, 0, t);
    var out := BatchesFrom(EmbedStep(api), call, texts, bs, 0).embeddings;
    EmbedPassInPlace(api, call, texts, bs, t);
    EmbedStepIs(api, c, batch);
    PlacedSlots(out, t, EmbedStep(api), api, c, batch);
  }

  /**
   * A failed or short reply to the call of the sub-batch starting at `t`
   * leaves every slot of that sub-batch empty in the whole result.
   */
  lemma FailedReplyInPlace(api: EmbeddingApi, call: nat, texts: seq<string>, bs: int, t: nat)
    requires bs > 0 && OnGrid(0, t, bs) && t < |texts|
    ensures var out := BatchSpec(api, call, texts, bs).value;
      var batch := SubBatch(texts, bs, t);
      var idx := NonBlankIdx(batch);
      var reply := api(call + CallsBefore(EmbedStep(api), call, texts, bs, 0, t), Pick(batch, idx));
      reply.None? || |reply.value| < |idx| ==> EmptyAt(out.embeddings, t, |batch|)
  {
    var batch := SubBatch(texts, bs, t);
    var c := call + CallsBefore(EmbedStep(api), call, texts, bs, 0, t);
    var out := BatchesFrom(EmbedStep(api), call, texts, bs, 0).embeddings;
    EmbedPassInPlace(api, call, texts, bs, t);
    EmbedStepIs(api, c, batch);
    assert BatchSpec(api, call, texts, bs).value.embeddings == out;
    PlacedSlots(out, t, EmbedStep(api), api, c, batch);
  }

  /**
   * The call that `generate_embeddings_batch` makes for the sub-batch
   * starting at `t`, when it has a non-blank text, carries that sub-batch's
   * non-blank texts and comes after the calls of the sub-batches before it.
   */
  lemma CallOfSubBatch(api: EmbeddingApi, call: nat, texts: seq<string>, bs: int, t: nat)
    requires bs > 0 && OnGrid(0, t, bs) && t < |texts|
    ensures var out := BatchSpec(api, call, texts, bs).value;
      var batch := SubBatch(texts, bs, t);
      var k := CallsBefore(EmbedStep(api), call, texts, bs, 0, t);
      NonBlankIdx(batch) != [] ==> k < |out.sent| && out.sent[k] == Filter(batch, NotBlank)
  {
    var batch := SubBatch(texts, bs, t);
    var c := call + CallsBefore(EmbedStep(api), call, texts, bs, 0, t);
    EmbedPassInPlace(api, call, texts, bs, t);
    EmbedStepIs(api, c, batch);
    if NonBlankIdx(batch) != [] {
      PickNonBlank(batch);
    }
  }

  /** Sub-batch `q` starts at `q * batch_size`, a start that `ReplyInPlace` applies to. */
  lemma SubBatchStart(q: nat, bs: int)
    requires bs > 0
    ensures OnGrid(0, q * bs, bs)
  {
    GridPoint(0, q, bs);
  }

  /** `batch_embeddings[original_idx] = response.data[idx].embedding` for each sent input, over `n` blank slots. */
  method ScatterReply(n: nat, idx: seq<nat>, vs: seq<Vector>) returns (slots: seq<Vector>)
    requires |idx| <= |vs|
    requires forall m :: 0 <= m < |idx| ==> idx[m] < n
    ensures slots == Scatter(Blanks(n), idx, vs, |idx|)
  {
    slots := Blanks(n);
    var k := 0;
    while k < |idx|
      invariant 0 <= k <= |idx|
      invariant slots == Scatter(Blanks(n), idx, vs, k)
    {
      slots := slots[idx[k] := vs[k]];
      k := k + 1;
    }
  }

  // ---------------------------------------------------------------------
  // The service

  class EmbeddingService {
    /** `_cache`: cache key to vector. */
    var cache: map<string, Vector>
    /** The inputs of every upstream call made so far, in order. */
    var requests: seq<seq<string>>
    const api: EmbeddingApi
    /** `_get_cache_key`, held as a value so that the methods' contracts name it without unfolding the hash. */
    const cacheKey: string -> string

    constructor(api: EmbeddingApi)
      ensures cache == map[] && requests == [] && this.api == api && cacheKey == CacheKey
    {
      cache := map[];
      requests := [];
      this.api := api;
      cacheKey := CacheKey;
    }

    /** `generate_embedding` */
    method GenerateEmbedding(text: string, useCache: bool) returns (r: Result<Vector>)
      modifies this
      ensures IsBlank(text) ==> r == Err(EmptyTextError) && cache == old(cache) && requests == old(requests)
      ensures !IsBlank(text) && useCache && cacheKey(text) in old(cache) ==>
                r == Ok(old(cache)[cacheKey(text)]) && cache == old(cache) && requests == old(requests)
      ensures !IsBlank(text) && !(useCache && cacheKey(text) in old(cache)) ==>
                && requests == old(requests) + [[text]]
                && var reply := api(|old(requests)|, [text]);
                   if reply.None? || reply.value == [] then r.Err? && cache == old(cache)
                   else r == Ok(reply.value[0])
                        && cache == (if useCache then old(cache)[cacheKey(text) := reply.value[0]] else old(cache))
    {
      if IsBlank(text) {
        return Err(EmptyTextError);
      }
      var key := cacheKey(text);
      if useCache && key in cache {
        return Ok(cache[key]);
      }
      var reply := api(|requests|, [text]);
      requests := requests + [[text]];
      if reply.None? {
        return Err("embedding request failed");
      }
      if reply.value == [] {
        return Err("list index out of range");
      }
      var embedding := reply.value[0];
      if useCache {
        cache := cache[key := embedding];
      }
      return Ok(embedding);
    }

    /** The body of the batch loop for one sub-batch: the slots it appends and the call it makes. */
    method EmbedSubBatch(batch: seq<string>) returns (slots: seq<Vector>)
      modifies this
      ensures var out := SubBatchOut(api, |old(requests)|, batch);
        slots == out.embeddings && requests == old(requests) + out.sent
      ensures cache == old(cache)
    {
      var idx := NonBlankIdx(batch);
      if idx == [] {
        return Blanks(|batch|);
      }
      var valid := Pick(batch, idx);
      var reply := api(|requests|, valid);
      requests := requests + [valid];
      if reply.None? || |reply.value| < |idx| {
        return Blanks(|batch|);
      }
      slots := ScatterReply(|batch|, idx, reply.value);
    }

    /** `generate_embeddings_batch` */
    method GenerateEmbeddingsBatch(texts: seq<string>, batchSize: int) returns (r: Result<seq<Vector>>)
      modifies this
      ensures var spec := BatchSpec(api, |old(requests)|, texts, batchSize);
        && (spec.Err? ==> r == Err(spec.msg) && requests == old(requests))
        && (spec.Ok? ==> r == Ok(spec.value.embeddings) && requests == old(requests) + spec.value.sent)
      ensures cache == old(cache)
    {
      if batchSize == 0 {
        return Err("range() arg 3 must not be zero");
      }
      if batchSize < 0 {
        return Ok([]);
      }
      ghost var spec := BatchesFrom(EmbedStep(api), |requests|, texts, batchSize, 0);
      var embeddings: seq<Vector> := [];
      var i: nat := 0;
      while i < |texts|
        invariant cache == old(cache)
        invariant embeddings + BatchesFrom(EmbedStep(api), |requests|, texts, batchSize, i).embeddings == spec.embeddings
        invariant requests + BatchesFrom(EmbedStep(api), |requests|, texts, batchSize, i).sent == old(requests) + spec.sent
        decreases |texts| - i
      {
        ghost var before := requests;
        ghost var done := embeddings;
        ghost var i0 := i;
        ghost var here := SubBatchOut(api, |requests|, SubBatch(texts, batchSize, i));
        assert EmbedStep(api)(|requests|, SubBatch(texts, batchSize, i)) == here;
        var slots := EmbedSubBatch(texts[i..Min(i + batchSize, |texts|)]);
        embeddings := embeddings + slots;
        i := i + batchSize;
        BatchesStep(EmbedStep(api), |before|, texts, batchSize, i0, |requests|, i,
                    BatchOut(done, before), BatchOut(spec.embeddings, old(requests) + spec.sent));
      }
      assert BatchesFrom(EmbedStep(api), |requests|, texts, batchSize, i) == BatchOut([], []);
      assert embeddings == spec.embeddings && requests == old(requests) + spec.sent;
      assert BatchSpec(api, |old(requests)|, texts, batchSize) == Ok(spec);
      return Ok(embeddings);
    }
  }
}
