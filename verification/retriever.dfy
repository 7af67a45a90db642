/**
 * The database client's retrieval side: the vector-search request, the
 * de-duplicating loop that turns the search rows into precedent matches,
 * the cascade of `delete_decision`, the page range of `list_decisions` and
 * the per-ward statistics.
 *
 * The search RPC itself (pgvector's nearest-neighbour query) is a given
 * function from the request parameters to rows; the decision lookup is the
 * `decisions` table as a map from id to record.
 */
module Retriever {
  import opened Common
  import opened PyStr
  import opened Planning

  // ---------------------------------------------------------------------
  // The search request

  /** A value of the RPC's parameter dictionary. */
  datatype Param = Embedding(v: seq<real>) | Number(x: real) | Count(n: int) | Names(ns: seq<string>) | Day(d: int) | Text(s: string)

  type Params = map<string, Param>

  /** The keys `search_similar` may send. */
  const SearchKeys: set<string> := {
    "query_embedding", "match_threshold", "match_count", "filter_wards", "filter_date_from",
    "filter_date_to", "filter_development_types", "filter_conservation_areas", "filter_outcome"}

  function DevelopmentValues(ts: seq<DevelopmentType>): (r: seq<string>)
    ensures |r| == |ts| && forall i :: 0 <= i < |ts| ==> r[i] == ts[i].Value()
  {
    seq(|ts|, i requires 0 <= i < |ts| => ts[i].Value())
  }

  function AreaValues(cs: seq<ConservationAreaStatus>): (r: seq<string>)
    ensures |r| == |cs| && forall i :: 0 <= i < |cs| ==> r[i] == cs[i].Value()
  {
    seq(|cs|, i requires 0 <= i < |cs| => cs[i].Value())
  }

  /** The filter parameters, each added only when its filter is set. */
  function FilterParams(p: Params, f: SearchFilters): Params
  {
    var p1 := if IsSet(f.wards) then p["filter_wards" := Names(f.wards.value)] else p;
    var p2 := if f.dateFrom.Some? then p1["filter_date_from" := Day(f.dateFrom.value)] else p1;
    var p3 := if f.dateTo.Some? then p2["filter_date_to" := Day(f.dateTo.value)] else p2;
    var p4 := if IsSet(f.developmentTypes) then p3["filter_development_types" := Names(DevelopmentValues(f.developmentTypes.value))] else p3;
    if IsSet(f.conservationAreas) then p4["filter_conservation_areas" := Names(AreaValues(f.conservationAreas.value))] else p4
  }

  /** The parameters of the `search_planning_decisions` call. */
  function SearchParams(embedding: seq<real>, filters: Option<SearchFilters>, limit: int,
                        threshold: real, includeRefused: bool): Params
  {
    var base := map["query_embedding" := Embedding(embedding), "match_threshold" := Number(threshold),
                     "match_count" := Count(limit * 2)];
    var filtered := if filters.Some? then FilterParams(base, filters.value) else base;
    if includeRefused then filtered else filtered["filter_outcome" := Text(Granted.Value())]
  }

  /**
   * The request over-fetches twice the limit at the caller's threshold, sends
   * only known keys, and, unless refused decisions are wanted, puts the
   * outcome filter `Granted` into the query itself.
   */
  lemma SearchParamsBase(embedding: seq<real>, filters: Option<SearchFilters>, limit: int,
                         threshold: real, includeRefused: bool)
    ensures var p := SearchParams(embedding, filters, limit, threshold, includeRefused);
      && p.Keys <= SearchKeys
      && "query_embedding" in p && p["query_embedding"] == Embedding(embedding)
      && "match_threshold" in p && p["match_threshold"] == Number(threshold)
      && "match_count" in p && p["match_count"] == Count(2 * limit)
      && ("filter_outcome" in p <==> !includeRefused)
      && (!includeRefused ==> p["filter_outcome"] == Text("Granted"))
  {
  }

  /** Each filter parameter is present exactly when its filter is set, and carries that filter's values. */
  lemma FilterParamsSpec(p: Params, f: SearchFilters)
    requires "filter_wards" !in p && "filter_date_from" !in p && "filter_date_to" !in p
    requires "filter_development_types" !in p && "filter_conservation_areas" !in p
    ensures var q := FilterParams(p, f);
      && q.Keys == p.Keys
         + (if IsSet(f.wards) then {"filter_wards"} else {})
         + (if f.dateFrom.Some? then {"filter_date_from"} else {})
         + (if f.dateTo.Some? then {"filter_date_to"} else {})
         + (if IsSet(f.developmentTypes) then {"filter_development_types"} else {})
         + (if IsSet(f.conservationAreas) then {"filter_conservation_areas"} else {})
      && (forall k :: k in p ==> q[k] == p[k])
      && (IsSet(f.wards) ==> q["filter_wards"] == Names(f.wards.value))
      && (f.dateFrom.Some? ==> q["filter_date_from"] == Day(f.dateFrom.value))
      && (f.dateTo.Some? ==> q["filter_date_to"] == Day(f.dateTo.value))
      && (IsSet(f.developmentTypes) ==> q["filter_development_types"] == Names(DevelopmentValues(f.developmentTypes.value)))
      && (IsSet(f.conservationAreas) ==> q["filter_conservation_areas"] == Names(AreaValues(f.conservationAreas.value)))
  {
  }

  /** With no filters set, only the three base parameters and the outcome default are sent. */
  lemma NoFiltersAddNothing(embedding: seq<real>, limit: int, threshold: real, includeRefused: bool)
    ensures SearchParams(embedding, Some(NoFilters), limit, threshold, includeRefused).Keys
         == {"query_embedding", "match_threshold", "match_count"} + (if includeRefused then {} else {"filter_outcome"})
  {
  }

  // ---------------------------------------------------------------------
  // De-duplicating the search rows

  /** A row of the search RPC's result. */
  datatype Row = Row(decisionId: int, chunkId: int, similarity: real, chunkText: string)

  /** The decision ids of some rows. */
  function Ids(rows: seq<Row>): set<int>
  {
    if rows == [] then {} else Ids(rows[..|rows| - 1]) + {rows[|rows| - 1].decisionId}
  }

  /** Row `n` is the first row of its decision. */
  predicate FirstOfDecision(rows: seq<Row>, n: nat)
    requires n < |rows|
  {
    rows[n].decisionId !in Ids(rows[..n])
  }

  /**
   * The rows that would become matches with no limit: the first row of each
   * decision whose record exists, as indices in row order.
   */
  function Candidates(rows: seq<Row>, lookup: map<int, PlanningDecision>): (r: seq<nat>)
    ensures forall k :: 0 <= k < |r| ==> r[k] < |rows| && rows[r[k]].decisionId in lookup
  {
    if rows == [] then []
    else
      var n := |rows| - 1;
      var before := Candidates(rows[..n], lookup);
      assert forall k :: 0 <= k < |before| ==> rows[before[k]] == rows[..n][before[k]];
      before + (if FirstOfDecision(rows, n) && rows[n].decisionId in lookup then [n] else [])
  }

  /** `limit` as a count: a limit of zero or less admits nothing. */
  function Cap(limit: int): nat { if limit < 0 then 0 else limit }

  /** The rows the loop turns into matches: the first `limit` candidates. */
  function Picked(rows: seq<Row>, lookup: map<int, PlanningDecision>, limit: int): (r: seq<nat>)
    ensures forall k :: 0 <= k < |r| ==> r[k] < |rows| && rows[r[k]].decisionId in lookup
  {
    Take(Candidates(rows, lookup), Cap(limit))
  }

  predicate Resolvable(rows: seq<Row>, lookup: map<int, PlanningDecision>, idx: seq<nat>)
  {
    forall k :: 0 <= k < |idx| ==> idx[k] < |rows| && rows[idx[k]].decisionId in lookup
  }

  /** The match built from a row and its decision record. */
  function ToMatch(row: Row, decision: PlanningDecision, policies: string -> seq<string>): PrecedentMatch
  {
    PrecedentMatch(decision, row.similarity, Take(row.chunkText, 500), row.chunkId, policies(row.chunkText))
  }

  function Render(rows: seq<Row>, lookup: map<int, PlanningDecision>, policies: string -> seq<string>, idx: seq<nat>): (r: seq<PrecedentMatch>)
    requires Resolvable(rows, lookup, idx)
    ensures |r| == |idx|
  {
    seq(|idx|, k requires 0 <= k < |idx| => ToMatch(rows[idx[k]], lookup[rows[idx[k]].decisionId], policies))
  }

  predicate ScoresValid(rows: seq<Row>, idx: seq<nat>)
  {
    forall k :: 0 <= k < |idx| ==> idx[k] < |rows| && ValidSimilarity(rows[idx[k]].similarity)
  }

  const InvalidSimilarity := "1 validation error for PrecedentMatch: similarity_score"

  /**
   * What `search_similar` returns for given RPC rows: the matches of the
   * picked rows, or the validation error raised when one of them carries a
   * similarity outside [0, 1].
   */
  function SearchSpec(rows: seq<Row>, lookup: map<int, PlanningDecision>, limit: int,
                      policies: string -> seq<string>): Result<seq<PrecedentMatch>>
  {
    var picked := Picked(rows, lookup, limit);
    if ScoresValid(rows, picked) then Ok(Render(rows, lookup, policies, picked)) else Err(InvalidSimilarity)
  }

  lemma IdsPrefix(rows: seq<Row>, i: nat)
    requires i < |rows|
    ensures Ids(rows[..i + 1]) == Ids(rows[..i]) + {rows[i].decisionId}
  {
    assert rows[..i + 1][..i] == rows[..i];
  }

  lemma CandidatesPrefix(rows: seq<Row>, lookup: map<int, PlanningDecision>, i: nat)
    requires i < |rows|
    ensures Candidates(rows[..i + 1], lookup)
         == Candidates(rows[..i], lookup) + (if FirstOfDecision(rows, i) && rows[i].decisionId in lookup then [i] else [])
  {
    var p := rows[..i + 1];
    assert p[..i] == rows[..i];
    assert p[i] == rows[i];
  }

  /** The candidates of a prefix of the rows begin the candidates of all the rows. */
  lemma {:induction false} CandidatesGrow(rows: seq<Row>, lookup: map<int, PlanningDecision>, i: nat)
    requires i <= |rows|
    ensures |Candidates(rows[..i], lookup)| <= |Candidates(rows, lookup)|
    ensures Candidates(rows, lookup)[..|Candidates(rows[..i], lookup)|] == Candidates(rows[..i], lookup)
    decreases |rows| - i
  {
    if i == |rows| {
      assert rows[..i] == rows;
    } else {
      CandidatesGrow(rows, lookup, i + 1);
      CandidatesPrefix(rows, lookup, i);
      var c := Candidates(rows[..i], lookup);
      var c1 := Candidates(rows[..i + 1], lookup);
      assert c1[..|c|] == c;
      assert Candidates(rows, lookup)[..|c1|] == c1;
      assert Candidates(rows, lookup)[..|c|] == c1[..|c|];
    }
  }

  /** Once the cap is reached the later rows change nothing. */
  lemma PickedAtCap(rows: seq<Row>, lookup: map<int, PlanningDecision>, limit: int, i: nat)
    requires i <= |rows| && |Candidates(rows[..i], lookup)| == Cap(limit)
    ensures Picked(rows, lookup, limit) == Candidates(rows[..i], lookup)
  {
    CandidatesGrow(rows, lookup, i);
  }

  /** Before the cap is reached every candidate so far is picked, and so is the next one. */
  lemma PickedBelowCap(rows: seq<Row>, lookup: map<int, PlanningDecision>, limit: int, i: nat)
    requires i < |rows| && |Candidates(rows[..i], lookup)| < Cap(limit)
    requires FirstOfDecision(rows, i) && rows[i].decisionId in lookup
    ensures |Picked(rows, lookup, limit)| > |Candidates(rows[..i], lookup)|
    ensures Picked(rows, lookup, limit)[..|Candidates(rows[..i], lookup)| + 1] == Candidates(rows[..i], lookup) + [i]
    ensures Picked(rows, lookup, limit)[|Candidates(rows[..i], lookup)|] == i
  {
    CandidatesGrow(rows, lookup, i + 1);
    CandidatesPrefix(rows, lookup, i);
  }

  /** Appending a resolvable row with a valid score extends the matches by that row's match. */
  lemma RenderSnoc(rows: seq<Row>, lookup: map<int, PlanningDecision>, policies: string -> seq<string>, taken: seq<nat>, i: nat)
    requires i < |rows| && rows[i].decisionId in lookup && ValidSimilarity(rows[i].similarity)
    requires Resolvable(rows, lookup, taken) && ScoresValid(rows, taken)
    ensures Resolvable(rows, lookup, taken + [i]) && ScoresValid(rows, taken + [i])
    ensures Render(rows, lookup, policies, taken + [i])
         == Render(rows, lookup, policies, taken) + [ToMatch(rows[i], lookup[rows[i].decisionId], policies)]
  {
  }

  /** `search_similar`'s loop over the RPC rows. */
  method DedupMatches(rows: seq<Row>, lookup: map<int, PlanningDecision>, limit: int,
                      policies: string -> seq<string>) returns (r: Result<seq<PrecedentMatch>>)
    ensures r == SearchSpec(rows, lookup, limit, policies)
  {
    if rows == [] {
      return Ok([]);
    }
    var matches: seq<PrecedentMatch> := [];
    var seen: set<int> := {};
    ghost var taken: seq<nat> := [];
    var i := 0;
    while i < |rows|
      invariant i <= |rows|
      invariant seen == Ids(rows[..i])
      invariant taken == Candidates(rows[..i], lookup)
      invariant |taken| <= Cap(limit)
      invariant ScoresValid(rows, taken)
      invariant Resolvable(rows, lookup, taken) && matches == Render(rows, lookup, policies, taken)
    {
      var row := rows[i];
      IdsPrefix(rows, i);
      CandidatesPrefix(rows, lookup, i);
      if row.decisionId in seen {
        i := i + 1;
        continue;
      }
      seen := seen + {row.decisionId};
      if |matches| >= limit {
        PickedAtCap(rows, lookup, limit, i);
        return Ok(matches);
      }
      if row.decisionId !in lookup {
        i := i + 1;
        continue;
      }
      PickedBelowCap(rows, lookup, limit, i);
      if !ValidSimilarity(row.similarity) {
        ghost var picked := Picked(rows, lookup, limit);
        assert !ValidSimilarity(rows[picked[|taken|]].similarity);
        return Err(InvalidSimilarity);
      }
      RenderSnoc(rows, lookup, policies, taken, i);
      matches := matches + [ToMatch(row, lookup[row.decisionId], policies)];
      taken := taken + [i];
      i := i + 1;
    }
    assert rows[..i] == rows;
    assert Picked(rows, lookup, limit) == taken;
    r := Ok(matches);
  }

  // ---------------------------------------------------------------------
  // What the search returns

  predicate Increasing(s: seq<nat>) { forall k, l :: 0 <= k < l < |s| ==> s[k] < s[l] }

  lemma FirstOfDecisionPrefix(rows: seq<Row>, n: nat, j: nat)
    requires j < n <= |rows|
    ensures FirstOfDecision(rows[..n], j) == FirstOfDecision(rows, j)
  {
    assert rows[..n][..j] == rows[..j];
  }

  /** The candidates are in row order, and each is the first row of its decision. */
  lemma {:induction false} CandidatesOrdered(rows: seq<Row>, lookup: map<int, PlanningDecision>)
    ensures Increasing(Candidates(rows, lookup))
    ensures forall k :: 0 <= k < |Candidates(rows, lookup)| ==> FirstOfDecision(rows, Candidates(rows, lookup)[k])
    decreases |rows|
  {
    if rows != [] {
      var n := |rows| - 1;
      CandidatesOrdered(rows[..n], lookup);
      var before := Candidates(rows[..n], lookup);
      forall k | 0 <= k < |before| ensures FirstOfDecision(rows, before[k]) {
        FirstOfDecisionPrefix(rows, n, before[k]);
      }
    }
  }

  /** A decision id seen before position `m` is among the ids of the rows before `m`, and conversely. */
  lemma {:induction false} IdsMember(rows: seq<Row>, m: nat, x: int)
    requires m <= |rows|
    ensures x in Ids(rows[..m]) <==> exists j :: 0 <= j < m && rows[j].decisionId == x
    decreases m
  {
    if m > 0 {
      IdsMember(rows, m - 1, x);
      assert rows[..m][..m - 1] == rows[..m - 1];
    }
  }

  /** No two candidates belong to the same decision. */
  lemma CandidatesDistinct(rows: seq<Row>, lookup: map<int, PlanningDecision>)
    ensures var c := Candidates(rows, lookup);
      forall k, l :: 0 <= k < l < |c| ==> rows[c[k]].decisionId != rows[c[l]].decisionId
  {
    var c := Candidates(rows, lookup);
    CandidatesOrdered(rows, lookup);
    forall k, l | 0 <= k < l < |c| ensures rows[c[k]].decisionId != rows[c[l]].decisionId {
      IdsMember(rows, c[l], rows[c[k]].decisionId);
    }
  }

  /** Every decision of the rows whose record exists has a candidate. */
  lemma {:induction false} CandidatesComplete(rows: seq<Row>, lookup: map<int, PlanningDecision>, j: nat)
    requires j < |rows| && rows[j].decisionId in lookup
    ensures exists k :: 0 <= k < |Candidates(rows, lookup)| && rows[Candidates(rows, lookup)[k]].decisionId == rows[j].decisionId
    decreases j
  {
    if FirstOfDecision(rows, j) {
      CandidatesGrow(rows, lookup, j + 1);
      CandidatesPrefix(rows, lookup, j);
      var c := Candidates(rows[..j], lookup);
      assert Candidates(rows, lookup)[|c|] == j;
    } else {
      IdsMember(rows, j, rows[j].decisionId);
      var j' :| 0 <= j' < j && rows[j'].decisionId == rows[j].decisionId;
      CandidatesComplete(rows, lookup, j');
    }
  }

  lemma PickedPrefix(rows: seq<Row>, lookup: map<int, PlanningDecision>, limit: int)
    ensures |Picked(rows, lookup, limit)| <= Cap(limit)
    ensures |Picked(rows, lookup, limit)| <= |Candidates(rows, lookup)|
    ensures forall k :: 0 <= k < |Picked(rows, lookup, limit)| ==> Picked(rows, lookup, limit)[k] == Candidates(rows, lookup)[k]
    ensures |Picked(rows, lookup, limit)| < Cap(limit) ==> Picked(rows, lookup, limit) == Candidates(rows, lookup)
  {
  }

  /**
   * The picked rows: at most `limit`, in row order with no re-sorting, one
   * per decision and that decision's first row.
   */
  lemma PickedOrdered(rows: seq<Row>, lookup: map<int, PlanningDecision>, limit: int)
    ensures var p := Picked(rows, lookup, limit);
      && |p| <= Cap(limit)
      && Increasing(p)
      && (forall k :: 0 <= k < |p| ==> FirstOfDecision(rows, p[k]))
      && (forall k, l :: 0 <= k < l < |p| ==> rows[p[k]].decisionId != rows[p[l]].decisionId)
  {
    CandidatesOrdered(rows, lookup);
    CandidatesDistinct(rows, lookup);
    PickedPrefix(rows, lookup, limit);
  }

  /** When fewer than `limit` rows are picked, every decision of the rows whose record exists is among them. */
  lemma PickedComplete(rows: seq<Row>, lookup: map<int, PlanningDecision>, limit: int)
    ensures var p := Picked(rows, lookup, limit);
      |p| < Cap(limit) ==>
        forall j :: 0 <= j < |rows| && rows[j].decisionId in lookup ==>
          exists k :: 0 <= k < |p| && rows[p[k]].decisionId == rows[j].decisionId
  {
    PickedPrefix(rows, lookup, limit);
    var p := Picked(rows, lookup, limit);
    if |p| < Cap(limit) {
      forall j | 0 <= j < |rows| && rows[j].decisionId in lookup
        ensures exists k :: 0 <= k < |p| && rows[p[k]].decisionId == rows[j].decisionId
      {
        CandidatesComplete(rows, lookup, j);
      }
    }
  }

  /**
   * A successful search returns at most `limit` matches, one per picked row
   * in that order, each carrying its row's similarity unchanged, the first
   * 500 characters of its chunk and its chunk id; it fails exactly when a
   * picked row's similarity lies outside [0, 1]. No rows give no matches.
   */
  lemma SearchSpecMatches(rows: seq<Row>, lookup: map<int, PlanningDecision>, limit: int, policies: string -> seq<string>)
    ensures var p := Picked(rows, lookup, limit);
      var r := SearchSpec(rows, lookup, limit, policies);
      && (r.Err? <==> exists k :: 0 <= k < |p| && !ValidSimilarity(rows[p[k]].similarity))
      && (r.Ok? ==> |r.value| == |p| <= Cap(limit))
      && (r.Ok? ==> forall k :: 0 <= k < |p| ==>
            && r.value[k].decision == lookup[rows[p[k]].decisionId]
            && r.value[k].similarityScore == rows[p[k]].similarity
            && ValidSimilarity(r.value[k].similarityScore)
            && r.value[k].relevantExcerpt == Take(rows[p[k]].chunkText, 500)
            && |r.value[k].relevantExcerpt| <= 500
            && r.value[k].matchedChunkId == rows[p[k]].chunkId)
      && (rows == [] ==> r == Ok([]))
  {
    PickedPrefix(rows, lookup, limit);
  }

  /** When every record carries its own id, no two matches share a decision. */
  lemma SearchMatchesDistinct(rows: seq<Row>, lookup: map<int, PlanningDecision>, limit: int, policies: string -> seq<string>)
    requires forall x :: x in lookup ==> lookup[x].id == x
    ensures var r := SearchSpec(rows, lookup, limit, policies);
      r.Ok? ==> forall k, l :: 0 <= k < l < |r.value| ==> r.value[k].decision.id != r.value[l].decision.id
  {
    PickedOrdered(rows, lookup, limit);
  }

  /** The search sends nothing for the outcome, property-type, listed-building or postcode filters. */
  lemma SearchIgnoresOtherFilters(embedding: seq<real>, f: SearchFilters, g: SearchFilters, limit: int,
                                  threshold: real, includeRefused: bool)
    requires f.wards == g.wards && f.dateFrom == g.dateFrom && f.dateTo == g.dateTo
    requires f.developmentTypes == g.developmentTypes && f.conservationAreas == g.conservationAreas
    ensures SearchParams(embedding, Some(f), limit, threshold, includeRefused)
         == SearchParams(embedding, Some(g), limit, threshold, includeRefused)
  {
  }

  // ---------------------------------------------------------------------
  // The tables behind the client

  /** A stored chunk row. */
  datatype StoredChunk = StoredChunk(id: int, decisionId: int, chunkIndex: int, text: string)

  /** A statement sent to the database. */
  datatype Statement = DeleteChunksOf(decisionId: int) | DeleteDecisionRow(id: int)

  /** The chunks that do not belong to decision `id`, in order. */
  function ChunksNotOf(chunks: seq<StoredChunk>, id: int): (r: seq<StoredChunk>)
    ensures |r| <= |chunks|
  {
    if chunks == [] then []
    else ChunksNotOf(chunks[..|chunks| - 1], id) + (if chunks[|chunks| - 1].decisionId == id then [] else [chunks[|chunks| - 1]])
  }

  /** Exactly the chunks of other decisions survive. */
  lemma {:induction false} ChunksNotOfSpec(chunks: seq<StoredChunk>, id: int)
    ensures forall c :: c in ChunksNotOf(chunks, id) <==> c in chunks && c.decisionId != id
    decreases |chunks|
  {
    if chunks != [] {
      ChunksNotOfSpec(chunks[..|chunks| - 1], id);
      assert chunks == chunks[..|chunks| - 1] + [chunks[|chunks| - 1]];
    }
  }

  /**
   * `SupabaseDB`: the `planning_decisions` and `document_chunks` tables the
   * client reads and writes, and the statements it has sent.
   */
  class SupabaseDB {
    var decisions: map<int, PlanningDecision>
    var chunks: seq<StoredChunk>
    var sent: seq<Statement>

    constructor(decisions0: map<int, PlanningDecision>, chunks0: seq<StoredChunk>)
      ensures decisions == decisions0 && chunks == chunks0 && sent == []
    {
      decisions := decisions0;
      chunks := chunks0;
      sent := [];
    }

    /** `delete_decision`: the decision's chunks go first, then the decision row; true iff a row was deleted. */
    method DeleteDecision(id: int) returns (deleted: bool)
      modifies this
      ensures sent == old(sent) + [DeleteChunksOf(id), DeleteDecisionRow(id)]
      ensures chunks == ChunksNotOf(old(chunks), id)
      ensures decisions == old(decisions) - {id}
      ensures deleted <==> id in old(decisions)
    {
      chunks := ChunksNotOf(chunks, id);
      sent := sent + [DeleteChunksOf(id)];
      deleted := id in decisions;
      decisions := decisions - {id};
      sent := sent + [DeleteDecisionRow(id)];
    }

    /** `search_similar` over the rows the search RPC returns for the request it builds. */
    method SearchSimilar(embedding: seq<real>, filters: Option<SearchFilters>, limit: int, threshold: real,
                         includeRefused: bool, rpc: Params -> seq<Row>, policies: string -> seq<string>)
      returns (r: Result<seq<PrecedentMatch>>)
      ensures r == SearchSpec(rpc(SearchParams(embedding, filters, limit, threshold, includeRefused)), decisions, limit, policies)
    {
      var params := SearchParams(embedding, filters, limit, threshold, includeRefused);
      var rows := rpc(params);
      r := DedupMatches(rows, decisions, limit, policies);
    }
  }

  /** After deleting a decision no chunk refers to it, and every chunk of another decision is kept. */
  lemma DeleteLeavesNoOrphans(chunks: seq<StoredChunk>, id: int)
    ensures forall c :: c in ChunksNotOf(chunks, id) ==> c.decisionId != id
    ensures forall c :: c in chunks && c.decisionId != id ==> c in ChunksNotOf(chunks, id)
  {
    ChunksNotOfSpec(chunks, id);
  }

  // ---------------------------------------------------------------------
  // Listing decisions

  /** A condition of the listing query. */
  datatype Condition =
    | InList(column: string, values: seq<string>)
    | Equals(column: string, value: string)
    | IsTrue(column: string)
    | OnOrAfter(column: string, day: int)
    | OnOrBefore(column: string, day: int)

  /** A condition when its filter is set, else nothing. */
  function When(set_: bool, c: Condition): seq<Condition>
  {
    if set_ then [c] else []
  }

  function WardCondition(f: SearchFilters): seq<Condition>
  {
    When(IsSet(f.wards), InList("ward", if f.wards.Some? then f.wards.value else []))
  }

  function OutcomeCondition(f: SearchFilters): seq<Condition>
  {
    When(f.outcome.Some?, Equals("outcome", if f.outcome.Some? then f.outcome.value.Value() else ""))
  }

  function TypeCondition(f: SearchFilters): seq<Condition>
  {
    When(IsSet(f.developmentTypes),
         InList("development_type", if f.developmentTypes.Some? then DevelopmentValues(f.developmentTypes.value) else []))
  }

  function AreaCondition(f: SearchFilters): seq<Condition>
  {
    When(IsSet(f.conservationAreas),
         InList("conservation_area", if f.conservationAreas.Some? then AreaValues(f.conservationAreas.value) else []))
  }

  function DateConditions(f: SearchFilters): seq<Condition>
  {
    When(f.listedBuildingOnly, IsTrue("listed_building"))
    + When(f.dateFrom.Some?, OnOrAfter("decision_date", if f.dateFrom.Some? then f.dateFrom.value else 0))
    + When(f.dateTo.Some?, OnOrBefore("decision_date", if f.dateTo.Some? then f.dateTo.value else 0))
  }

  /** The conditions `list_decisions` puts on the query, each only when its filter is set. */
  function ListConditions(filters: Option<SearchFilters>): seq<Condition>
  {
    match filters
    case None => []
    case Some(f) => WardCondition(f) + OutcomeCondition(f) + TypeCondition(f) + AreaCondition(f) + DateConditions(f)
  }

  /** Without filters the listing query has no condition. */
  lemma ListWithoutFilters()
    ensures ListConditions(None) == []
  {
  }

  /** The ward and outcome conditions are present exactly when their filters are set. */
  lemma ListWardOutcome(f: SearchFilters)
    ensures var cs := ListConditions(Some(f));
      && ((exists v :: InList("ward", v) in cs) <==> IsSet(f.wards))
      && ((exists v :: Equals("outcome", v) in cs) <==> f.outcome.Some?)
  {
    ListWard(f);
    ListOutcome(f);
  }

  lemma ListWard(f: SearchFilters)
    ensures (exists v :: InList("ward", v) in ListConditions(Some(f))) <==> IsSet(f.wards)
  {
    var w, o, t, a, d := WardCondition(f), OutcomeCondition(f), TypeCondition(f), AreaCondition(f), DateConditions(f);
    var rest := o + t + a + d;
    assert ListConditions(Some(f)) == w + rest by {
      ConcatAssoc(w, o, t, a, d);
    }
    assert NoColumn(rest, "ward") by {
      assert NoColumn(o, "ward") && NoColumn(t, "ward") && NoColumn(a, "ward") && NoColumn(d, "ward");
      NoColumnConcat(o, t, "ward");
      NoColumnConcat(o + t, a, "ward");
      NoColumnConcat(o + t + a, d, "ward");
    }
    if IsSet(f.wards) { assert InList("ward", f.wards.value) in w; }
  }

  /** No condition in the list tests the column. */
  predicate NoColumn(cs: seq<Condition>, column: string)
  {
    forall c :: c in cs ==> c.column != column
  }

  lemma NoColumnConcat(a: seq<Condition>, b: seq<Condition>, column: string)
    requires NoColumn(a, column) && NoColumn(b, column)
    ensures NoColumn(a + b, column)
  {
  }

  lemma ConcatAssoc<T>(a: seq<T>, b: seq<T>, c: seq<T>, d: seq<T>, e: seq<T>)
    ensures a + b + c + d + e == a + (b + c + d + e)
  {
  }

  lemma ListOutcome(f: SearchFilters)
    ensures (exists v :: Equals("outcome", v) in ListConditions(Some(f))) <==> f.outcome.Some?
  {
    var rest := TypeCondition(f) + AreaCondition(f) + DateConditions(f);
    assert ListConditions(Some(f)) == WardCondition(f) + OutcomeCondition(f) + rest;
    assert forall c :: c in rest ==> !c.Equals?;
    if f.outcome.Some? { assert Equals("outcome", f.outcome.value.Value()) in OutcomeCondition(f); }
  }

  /** The development-type and conservation-area conditions are present exactly when their filters are set. */
  lemma ListTypesAreas(f: SearchFilters)
    ensures var cs := ListConditions(Some(f));
      && ((exists v :: InList("development_type", v) in cs) <==> IsSet(f.developmentTypes))
      && ((exists v :: InList("conservation_area", v) in cs) <==> IsSet(f.conservationAreas))
  {
    var cs := ListConditions(Some(f));
    assert cs == WardCondition(f) + OutcomeCondition(f) + TypeCondition(f) + AreaCondition(f) + DateConditions(f);
    if IsSet(f.developmentTypes) {
      assert InList("development_type", DevelopmentValues(f.developmentTypes.value)) in cs;
    }
    if IsSet(f.conservationAreas) {
      assert InList("conservation_area", AreaValues(f.conservationAreas.value)) in cs;
    }
  }

  /** The listed-building and date conditions are present exactly when their filters are set. */
  lemma ListListedDates(f: SearchFilters)
    ensures var cs := ListConditions(Some(f));
      && (IsTrue("listed_building") in cs <==> f.listedBuildingOnly)
      && (forall d :: OnOrAfter("decision_date", d) in cs <==> f.dateFrom == Some(d))
      && (forall d :: OnOrBefore("decision_date", d) in cs <==> f.dateTo == Some(d))
  {
    var pre := WardCondition(f) + OutcomeCondition(f) + TypeCondition(f) + AreaCondition(f);
    assert forall c :: c in pre ==> c.InList? || c.Equals?;
    assert ListConditions(Some(f)) == pre + DateConditions(f);
    DateConditionsShape(f);
  }

  /** The date conditions hold the listed-building test and each date bound exactly when set. */
  lemma DateConditionsShape(f: SearchFilters)
    ensures var cs := DateConditions(f);
      && (IsTrue("listed_building") in cs <==> f.listedBuildingOnly)
      && (forall d :: OnOrAfter("decision_date", d) in cs <==> f.dateFrom == Some(d))
      && (forall d :: OnOrBefore("decision_date", d) in cs <==> f.dateTo == Some(d))
  {
    var a := When(f.listedBuildingOnly, IsTrue("listed_building"));
    var b := When(f.dateFrom.Some?, OnOrAfter("decision_date", if f.dateFrom.Some? then f.dateFrom.value else 0));
    var c := When(f.dateTo.Some?, OnOrBefore("decision_date", if f.dateTo.Some? then f.dateTo.value else 0));
    assert DateConditions(f) == a + b + c;
    assert forall x :: x in a + b + c <==> x in a || x in b || x in c;
  }

  /** The inclusive row range requested for a page (pages count from 1). */
  datatype RowRange = RowRange(first: int, last: int)

  function PageRange(page: int, pageSize: int): RowRange
  {
    var offset := (page - 1) * pageSize;
    RowRange(offset, offset + pageSize - 1)
  }

  /** Consecutive pages ask for adjacent ranges of `page_size` rows each, the first page starting at row 0. */
  lemma PagesAdjacent(page: int, pageSize: int)
    ensures PageRange(page, pageSize).last - PageRange(page, pageSize).first + 1 == pageSize
    ensures PageRange(page + 1, pageSize).first == PageRange(page, pageSize).last + 1
    ensures PageRange(1, pageSize).first == 0
  {
  }

  /** With a positive page size every row lies on exactly one page, page `row / page_size + 1`. */
  lemma RowOnOnePage(row: nat, pageSize: int, page: int)
    requires pageSize >= 1
    ensures PageRange(page, pageSize).first <= row <= PageRange(page, pageSize).last <==> page == row / pageSize + 1
  {
    var q := row / pageSize;
    assert q * pageSize <= row < (q + 1) * pageSize;
    if page <= q {
      assert (page - 1) * pageSize + pageSize - 1 < q * pageSize by {
        assert (page - 1) * pageSize <= (q - 1) * pageSize;
      }
    } else if page > q + 1 {
      assert (page - 1) * pageSize >= (q + 1) * pageSize;
    }
  }
}
