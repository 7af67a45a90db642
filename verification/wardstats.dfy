/**
 * `get_ward_stats`: the statistics of one ward computed from the decision
 * rows the ward query returns — the case count, the approval rate, the five
 * most frequent development types and the conservation areas.
 */
module WardStats {
  import opened Common
  import opened Planning

  /** The columns of a decision row the statistics read; the database may hold any text in them. */
  datatype WardRow = WardRow(outcome: Option<string>, developmentType: Option<string>, conservationArea: Option<string>)

  /** `WardInfo`; the conservation areas come from a set, so their order is not modelled. */
  datatype WardInfo = WardInfo(
    name: string,
    caseCount: nat,
    approvalRate: real,
    commonDevelopmentTypes: seq<DevelopmentType>,
    conservationAreas: set<string>)

  // ---------------------------------------------------------------------
  // Counting

  /** The counting state: the type keys in insertion order, their counts, and the areas seen. */
  datatype Tally = Tally(order: seq<string>, counts: map<string, nat>, areas: set<string>)

  const EmptyTally := Tally([], map[], {})

  /** One more row of type `k`; a new key joins the end of the insertion order. */
  function CountType(t: Tally, k: string): Tally
  {
    if k in t.counts then t.(counts := t.counts[k := t.counts[k] + 1])
    else t.(order := t.order + [k], counts := t.counts[k := 1])
  }

  /** The loop body for one row. */
  function TallyStep(t: Tally, d: WardRow): Tally
  {
    var t1 := if Truthy(d.developmentType) then CountType(t, d.developmentType.value) else t;
    if Truthy(d.conservationArea) && d.conservationArea.value != "None"
    then t1.(areas := t1.areas + {d.conservationArea.value})
    else t1
  }

  /** The state after the loop over `rows`. */
  function TallyOf(rows: seq<WardRow>): Tally
  {
    if rows == [] then EmptyTally else TallyStep(TallyOf(rows[..|rows| - 1]), rows[|rows| - 1])
  }

  /** The number of rows whose development type is `k`. */
  function TypeCount(rows: seq<WardRow>, k: string): nat
  {
    if rows == [] then 0
    else TypeCount(rows[..|rows| - 1], k) + (if rows[|rows| - 1].developmentType == Some(k) then 1 else 0)
  }

  /** The number of granted rows. */
  function GrantedCount(rows: seq<WardRow>): (n: nat)
    ensures n <= |rows|
  {
    if rows == [] then 0
    else GrantedCount(rows[..|rows| - 1]) + (if rows[|rows| - 1].outcome == Some(Granted.Value()) then 1 else 0)
  }

  predicate Distinct(s: seq<string>)
  {
    forall i, j :: 0 <= i < j < |s| ==> s[i] != s[j]
  }

  /** The insertion order lists each counted type once, and only counted types. */
  lemma {:induction false} TallyKeys(rows: seq<WardRow>)
    ensures forall k :: k in TallyOf(rows).order <==> k in TallyOf(rows).counts
    ensures Distinct(TallyOf(rows).order)
    decreases |rows|
  {
    if rows != [] {
      TallyKeys(rows[..|rows| - 1]);
    }
  }

  /** Every non-empty type is counted exactly as often as it occurs. */
  lemma {:induction false} TallyCounts(rows: seq<WardRow>)
    ensures forall k :: k in TallyOf(rows).counts <==> k != "" && TypeCount(rows, k) > 0
    ensures forall k :: k in TallyOf(rows).counts ==> TallyOf(rows).counts[k] == TypeCount(rows, k)
    decreases |rows|
  {
    if rows != [] {
      TallyCounts(rows[..|rows| - 1]);
    }
  }

  /** The areas are exactly the non-empty area names other than "None" that some row carries. */
  lemma {:induction false} TallyAreas(rows: seq<WardRow>)
    ensures forall x :: x in TallyOf(rows).areas <==>
      x != "" && x != "None" && exists i :: 0 <= i < |rows| && rows[i].conservationArea == Some(x)
    decreases |rows|
  {
    if rows != [] {
      var init := rows[..|rows| - 1];
      TallyAreas(init);
      forall x | x != "" && x != "None" && (exists i :: 0 <= i < |rows| && rows[i].conservationArea == Some(x))
        ensures x in TallyOf(rows).areas
      {
        var i :| 0 <= i < |rows| && rows[i].conservationArea == Some(x);
        if i < |init| {
          assert init[i] == rows[i];
        }
      }
      forall x | x in TallyOf(rows).areas
        ensures exists i :: 0 <= i < |rows| && rows[i].conservationArea == Some(x)
      {
        if x in TallyOf(init).areas {
          var i :| 0 <= i < |init| && init[i].conservationArea == Some(x);
          assert rows[i] == init[i];
        } else {
          assert rows[|rows| - 1].conservationArea == Some(x);
        }
      }
    }
  }

  /** The counting loop of `get_ward_stats`. */
  method TallyRows(rows: seq<WardRow>) returns (order: seq<string>, counts: map<string, nat>, areas: set<string>)
    ensures Tally(order, counts, areas) == TallyOf(rows)
  {
    order, counts, areas := [], map[], {};
    var i := 0;
    while i < |rows|
      invariant 0 <= i <= |rows|
      invariant Tally(order, counts, areas) == TallyOf(rows[..i])
    {
      var d := rows[i];
      assert rows[..i + 1][..i] == rows[..i];
      if d.developmentType.Some? && d.developmentType.value != "" {
        var dt := d.developmentType.value;
        if dt in counts {
          counts := counts[dt := counts[dt] + 1];
        } else {
          order := order + [dt];
          counts := counts[dt := 1];
        }
      }
      if d.conservationArea.Some? && d.conservationArea.value != "" && d.conservationArea.value != "None" {
        areas := areas + {d.conservationArea.value};
      }
      i := i + 1;
    }
    assert rows[..i] == rows;
  }

  // ---------------------------------------------------------------------
  // Sorting by frequency, most frequent first, stable

  function Freq(counts: map<string, nat>, k: string): nat
  {
    if k in counts then counts[k] else 0
  }

  /** Inserts `x` after every element at least as frequent as it. */
  function InsertByCount(s: seq<string>, x: string, counts: map<string, nat>): seq<string>
  {
    if s == [] || Freq(counts, s[|s| - 1]) >= Freq(counts, x) then s + [x]
    else InsertByCount(s[..|s| - 1], x, counts) + [s[|s| - 1]]
  }

  /** `sorted(ks, key=count, reverse=True)` */
  function SortByCount(ks: seq<string>, counts: map<string, nat>): (r: seq<string>)
  {
    if ks == [] then [] else InsertByCount(SortByCount(ks[..|ks| - 1], counts), ks[|ks| - 1], counts)
  }

  predicate NonIncreasing(s: seq<string>, counts: map<string, nat>)
  {
    forall i, j :: 0 <= i < j < |s| ==> Freq(counts, s[i]) >= Freq(counts, s[j])
  }

  /** The elements of `s` with frequency `v`, in order. */
  function WithFreq(s: seq<string>, counts: map<string, nat>, v: nat): seq<string>
  {
    if s == [] then []
    else WithFreq(s[..|s| - 1], counts, v) + (if Freq(counts, s[|s| - 1]) == v then [s[|s| - 1]] else [])
  }

  lemma {:induction false} InsertPermutes(s: seq<string>, x: string, counts: map<string, nat>)
    ensures multiset(InsertByCount(s, x, counts)) == multiset(s) + multiset{x}
    decreases |s|
  {
    if !(s == [] || Freq(counts, s[|s| - 1]) >= Freq(counts, x)) {
      InsertPermutes(s[..|s| - 1], x, counts);
      assert s == s[..|s| - 1] + [s[|s| - 1]];
    }
  }

  lemma {:induction false} InsertKeepsOrder(s: seq<string>, x: string, counts: map<string, nat>)
    requires NonIncreasing(s, counts)
    ensures NonIncreasing(InsertByCount(s, x, counts), counts)
    ensures |InsertByCount(s, x, counts)| == |s| + 1
    ensures forall i :: 0 <= i < |InsertByCount(s, x, counts)| ==> InsertByCount(s, x, counts)[i] == x || InsertByCount(s, x, counts)[i] in s
    decreases |s|
  {
    if !(s == [] || Freq(counts, s[|s| - 1]) >= Freq(counts, x)) {
      var init := s[..|s| - 1];
      InsertKeepsOrder(init, x, counts);
      var r := InsertByCount(init, x, counts);
      forall i | 0 <= i < |r| ensures Freq(counts, r[i]) >= Freq(counts, s[|s| - 1])
      {
        if r[i] != x {
          var j :| 0 <= j < |init| && init[j] == r[i];
        }
      }
    }
  }

  /** Inserting keeps the order among equally frequent elements and puts `x` last among them. */
  lemma {:induction false} InsertStable(s: seq<string>, x: string, counts: map<string, nat>, v: nat)
    ensures WithFreq(InsertByCount(s, x, counts), counts, v)
         == WithFreq(s, counts, v) + (if Freq(counts, x) == v then [x] else [])
    decreases |s|
  {
    if s == [] || Freq(counts, s[|s| - 1]) >= Freq(counts, x) {
      WithFreqSnoc(s, x, counts, v);
    } else {
      var init, l := s[..|s| - 1], s[|s| - 1];
      InsertStable(init, x, counts, v);
      WithFreqSnoc(InsertByCount(init, x, counts), l, counts, v);
    }
  }

  lemma WithFreqSnoc(s: seq<string>, x: string, counts: map<string, nat>, v: nat)
    ensures WithFreq(s + [x], counts, v) == WithFreq(s, counts, v) + (if Freq(counts, x) == v then [x] else [])
  {
    assert (s + [x])[..|s + [x]| - 1] == s;
  }

  /** The sort returns a permutation of its input. */
  lemma {:induction false} SortPermutes(ks: seq<string>, counts: map<string, nat>)
    ensures multiset(SortByCount(ks, counts)) == multiset(ks)
    decreases |ks|
  {
    if ks != [] {
      SortPermutes(ks[..|ks| - 1], counts);
      InsertPermutes(SortByCount(ks[..|ks| - 1], counts), ks[|ks| - 1], counts);
      assert ks == ks[..|ks| - 1] + [ks[|ks| - 1]];
    }
  }

  /** The sort puts more frequent elements first. */
  lemma {:induction false} SortOrders(ks: seq<string>, counts: map<string, nat>)
    ensures NonIncreasing(SortByCount(ks, counts), counts)
    ensures |SortByCount(ks, counts)| == |ks|
    decreases |ks|
  {
    if ks != [] {
      SortOrders(ks[..|ks| - 1], counts);
      InsertKeepsOrder(SortByCount(ks[..|ks| - 1], counts), ks[|ks| - 1], counts);
    }
  }

  /** The sort is stable: equally frequent elements keep their input order. */
  lemma {:induction false} SortStable(ks: seq<string>, counts: map<string, nat>, v: nat)
    ensures WithFreq(SortByCount(ks, counts), counts, v) == WithFreq(ks, counts, v)
    decreases |ks|
  {
    if ks != [] {
      SortStable(ks[..|ks| - 1], counts, v);
      InsertStable(SortByCount(ks[..|ks| - 1], counts), ks[|ks| - 1], counts, v);
    }
  }

  /** The five most frequent types, ties in first-seen order. */
  function CommonTypes(t: Tally): seq<string>
  {
    Take(SortByCount(t.order, t.counts), 5)
  }

  /** At most five types are kept, each a counted type, and no counted type left out is more frequent than one kept. */
  lemma CommonTypesMostFrequent(t: Tally)
    ensures |CommonTypes(t)| == Min(5, |t.order|)
    ensures forall c :: c in CommonTypes(t) ==> c in t.order
    ensures forall c, k :: c in CommonTypes(t) && k in t.order && k !in CommonTypes(t) ==>
      Freq(t.counts, k) <= Freq(t.counts, c)
  {
    var r := SortByCount(t.order, t.counts);
    SortOrders(t.order, t.counts);
    SortPermutes(t.order, t.counts);
    var c5 := CommonTypes(t);
    assert c5 == r[..|c5|];
    forall c | c in c5 ensures c in t.order
    {
      assert c in multiset(r);
    }
    forall c, k | c in c5 && k in t.order && k !in c5
      ensures Freq(t.counts, k) <= Freq(t.counts, c)
    {
      assert k in multiset(r);
      var i :| 0 <= i < |c5| && c5[i] == c;
      var j :| 0 <= j < |r| && r[j] == k;
    }
  }

  // ---------------------------------------------------------------------
  // The statistics

  /** Converts every name with `parse`, failing on the first it rejects. */
  function ParseAll<T>(ss: seq<string>, parse: string -> Option<T>): (r: Option<seq<T>>)
    ensures r.Some? ==> |r.value| == |ss| && forall i :: 0 <= i < |ss| ==> parse(ss[i]) == Some(r.value[i])
  {
    if ss == [] then Some([])
    else
      match ParseAll(ss[..|ss| - 1], parse)
      case None => None
      case Some(init) =>
        match parse(ss[|ss| - 1])
        case None => None
        case Some(last) => Some(init + [last])
  }

  /** The conversion fails exactly when some name is rejected. */
  lemma {:induction false} ParseAllFails<T>(ss: seq<string>, parse: string -> Option<T>)
    ensures ParseAll(ss, parse).None? <==> exists i :: 0 <= i < |ss| && parse(ss[i]).None?
    decreases |ss|
  {
    if ss != [] {
      var init := ss[..|ss| - 1];
      ParseAllFails(init, parse);
      if ParseAll(init, parse).None? {
        var i :| 0 <= i < |init| && parse(init[i]).None?;
        assert ss[i] == init[i];
      } else if parse(ss[|ss| - 1]).Some? {
        forall i | 0 <= i < |ss| ensures parse(ss[i]).Some?
        {
          if i < |init| {
            assert ss[i] == init[i];
          }
        }
      }
    }
  }

  /** Pydantic converts each type name to a `DevelopmentType`, failing on any unknown name. */
  function ParseTypes(ss: seq<string>): (r: Option<seq<DevelopmentType>>)
    ensures r.Some? ==> |r.value| == |ss| && forall i :: 0 <= i < |ss| ==> r.value[i].Value() == ss[i]
  {
    ParseAll(ss, DevelopmentTypeFromValue)
  }

  const InvalidWardInfo := "validation error for WardInfo"

  /** What `get_ward_stats` returns for the rows of the ward. */
  function WardStatsSpec(ward: string, rows: seq<WardRow>): Result<Option<WardInfo>>
  {
    if rows == [] then Ok(None)
    else
      var t := TallyOf(rows);
      match ParseTypes(CommonTypes(t))
      case None => Err(InvalidWardInfo)
      case Some(types) =>
        Ok(Some(WardInfo(ward, |rows|, GrantedCount(rows) as real / |rows| as real, types, t.areas)))
  }

  /** `get_ward_stats` over the rows of the ward. */
  method GetWardStats(ward: string, rows: seq<WardRow>) returns (r: Result<Option<WardInfo>>)
    ensures r == WardStatsSpec(ward, rows)
  {
    if |rows| == 0 {
      return Ok(None);
    }
    var order, counts, areas := TallyRows(rows);
    var common := Take(SortByCount(order, counts), 5);
    var types := ParseTypes(common);
    if types.None? {
      return Err(InvalidWardInfo);
    }
    r := Ok(Some(WardInfo(ward, |rows|, GrantedCount(rows) as real / |rows| as real, types.value, areas)));
  }

  /** A ward without rows has no statistics, and only such a ward. */
  lemma WardStatsNone(ward: string, rows: seq<WardRow>)
    ensures WardStatsSpec(ward, rows) == Ok(None) <==> rows == []
  {
  }

  /** The statistics fail exactly when one of the kept type names is not a development type. */
  lemma WardStatsFails(ward: string, rows: seq<WardRow>)
    requires rows != []
    ensures WardStatsSpec(ward, rows).Err? <==>
      exists c :: c in CommonTypes(TallyOf(rows)) && DevelopmentTypeFromValue(c).None?
  {
    var cs := CommonTypes(TallyOf(rows));
    ParseAllFails(cs, DevelopmentTypeFromValue);
    if ParseTypes(cs).None? {
      var i :| 0 <= i < |cs| && DevelopmentTypeFromValue(cs[i]).None?;
      assert cs[i] in cs;
    }
  }

  /** The statistics carry the ward, its row count and the approval rate, which lies in [0, 1]. */
  lemma WardStatsInfo(ward: string, rows: seq<WardRow>, w: WardInfo)
    requires WardStatsSpec(ward, rows) == Ok(Some(w))
    ensures w.name == ward && w.caseCount == |rows|
    ensures w.approvalRate == GrantedCount(rows) as real / |rows| as real
    ensures 0.0 <= w.approvalRate <= 1.0
  {
    assert w.name == ward && w.caseCount == |rows|;
    assert w.approvalRate == GrantedCount(rows) as real / |rows| as real;
    RateBounds(GrantedCount(rows), |rows|);
  }

  /** The statistics keep at most five development types, those the sort ranks first, and never the area "None". */
  lemma WardStatsTypesAreas(ward: string, rows: seq<WardRow>, w: WardInfo)
    requires WardStatsSpec(ward, rows) == Ok(Some(w))
    ensures |w.commonDevelopmentTypes| == |CommonTypes(TallyOf(rows))| <= 5
    ensures forall i :: 0 <= i < |w.commonDevelopmentTypes| ==>
      w.commonDevelopmentTypes[i].Value() == CommonTypes(TallyOf(rows))[i]
    ensures "None" !in w.conservationAreas && "" !in w.conservationAreas
  {
    var t := TallyOf(rows);
    assert w.commonDevelopmentTypes == ParseTypes(CommonTypes(t)).value;
    assert w.conservationAreas == t.areas;
    TallyAreas(rows);
    CommonTypesMostFrequent(t);
  }

  lemma RateBounds(g: nat, n: nat)
    requires g <= n && n > 0
    ensures 0.0 <= g as real / n as real <= 1.0
  {
    assert g as real / n as real * n as real == g as real;
  }
}
