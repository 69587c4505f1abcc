/**
 * The enrichment step: the raster codes sampled at the CEO points are converted to
 * WorldCover labels, joined back onto the CEO rows by ObjectId (inner join, in the order of
 * the CEO rows), both labels are harmonized, and the rows where either harmonized label is
 * empty are dropped. The raster service itself is abstract: its answer is a map from
 * ObjectId to the sampled code.
 */
module Enrichment {
  import opened Wrappers
  import opened Taxonomy
  import opened Sequences

  /** One CEO sample point. */
  datatype CeoRow = CeoRow(objectId: int, lat: real, lon: real, landCover: string)

  /** One row of the joined table with its derived columns. */
  datatype Record = Record(
    row: CeoRow,
    median: int,
    wcClassification: string,
    harmonizedCeo: string,
    harmonizedWc: string)

  datatype EnrichError =
    | EmptyColumn        // a vectorized conversion was applied to a column of length zero
    | UnknownCode        // a sampled code has no WorldCover label

  /** All sampled codes are WorldCover codes; otherwise the code-to-label conversion raises. */
  predicate AllCodesKnown(raster: map<int, int>)
  {
    forall id | id in raster :: raster[id] in WcCodes
  }

  /** The joined row for a CEO row and its sampled code, with both harmonized labels. */
  function MakeRecord(r: CeoRow, code: int): (rec: Record)
    requires code in WcCodes
    ensures rec.row == r && rec.median == code
    ensures rec.harmonizedWc in HarmonizedClasses && rec.harmonizedWc != ""
    ensures rec.harmonizedCeo == "" <==> r.landCover !in CeoToHarmonized
  {
    var wcLabel := WcToStr(code).value;
    WcCodeAlwaysHarmonizes(code);
    EmptyMeansMiss(CeoToHarmonized, r.landCover);
    Record(r, code, wcLabel, ConvertToHarmonized(CeoToHarmonized, r.landCover),
           ConvertToHarmonized(WcToHarmonized, wcLabel))
  }

  /** The inner join on ObjectId: a CEO row is kept exactly when the raster answered for its id. */
  function Join(df: seq<CeoRow>, raster: map<int, int>): (js: seq<Record>)
    requires AllCodesKnown(raster)
    ensures |js| <= |df|
    ensures forall k | 0 <= k < |js| ::
      js[k].row in df && js[k].row.objectId in raster && js[k] == MakeRecord(js[k].row, raster[js[k].row.objectId])
    ensures forall r | r in df && r.objectId in raster :: MakeRecord(r, raster[r.objectId]) in js
    ensures js == [] <==> forall r | r in df :: r.objectId !in raster
  {
    if df == [] then []
    else
      var rest := Join(df[1..], raster);
      if df[0].objectId in raster then [MakeRecord(df[0], raster[df[0].objectId])] + rest else rest
  }

  /** The row predicate of the final filter. */
  predicate IsClassified(rec: Record)
  {
    rec.harmonizedCeo != "" && rec.harmonizedWc != ""
  }

  /** The final filter, keeping the order of the joined rows. */
  function DropUnclassified(js: seq<Record>): (out: seq<Record>)
    ensures |out| <= |js|
    ensures forall k | 0 <= k < |out| :: out[k] in js && IsClassified(out[k])
    ensures forall rec | rec in js && IsClassified(rec) :: rec in out
    ensures forall rec :: multiset(out)[rec] == if IsClassified(rec) then multiset(js)[rec] else 0
  {
    if js == [] then []
    else
      var rest := DropUnclassified(js[1..]);
      assert js == [js[0]] + js[1..];
      if IsClassified(js[0]) then [js[0]] + rest else rest
  }

  /**
   * The whole enrichment. Every vectorized conversion on a zero-length column raises, so an
   * empty CEO table, an empty raster answer and an empty join are errors, as is a sampled
   * code outside the WorldCover table.
   */
  function Enrich(df: seq<CeoRow>, raster: map<int, int>): (r: Result<seq<Record>, EnrichError>)
    ensures r.Err? <==> df == [] || |raster| == 0 || !AllCodesKnown(raster) || Join(df, raster) == []
  {
    if df == [] || |raster| == 0 then Err(EmptyColumn)
    else if !AllCodesKnown(raster) then Err(UnknownCode)
    else
      var js := Join(df, raster);
      if js == [] then Err(EmptyColumn) else Ok(DropUnclassified(js))
  }

  /** Every enriched row comes from a CEO row the raster answered for, and both its labels are shared classes. */
  lemma EnrichSound(df: seq<CeoRow>, raster: map<int, int>, k: int)
    requires Enrich(df, raster).Ok?
    requires 0 <= k < |Enrich(df, raster).value|
    ensures var rec := Enrich(df, raster).value[k];
      && rec.row in df && rec.row.objectId in raster
      && rec.median == raster[rec.row.objectId]
      && rec.wcClassification == WcIdClassification[rec.median]
      && rec.harmonizedCeo == CeoToHarmonized[rec.row.landCover]
      && rec.harmonizedWc == WcToHarmonized[rec.wcClassification]
      && rec.harmonizedCeo in HarmonizedClasses && rec.harmonizedWc in HarmonizedClasses
  {
    var rec := Enrich(df, raster).value[k];
    TablesMapIntoSharedClasses();
    assert rec in Join(df, raster);
  }

  /** No CEO row that the raster answered for and whose label has a shared class is dropped. */
  lemma EnrichComplete(df: seq<CeoRow>, raster: map<int, int>, r: CeoRow)
    requires Enrich(df, raster).Ok?
    requires r in df && r.objectId in raster && r.landCover in CeoToHarmonized
    ensures MakeRecord(r, raster[r.objectId]) in Enrich(df, raster).value
  {
    var js := Join(df, raster);
    assert Enrich(df, raster).value == DropUnclassified(js);
    var rec := MakeRecord(r, raster[r.objectId]);
    assert rec in js;
    assert IsClassified(rec);
  }

  /** The rows of the joined table, projected back onto the CEO rows. */
  function Rows(rs: seq<Record>): (ps: seq<CeoRow>)
    ensures |ps| == |rs| && forall k | 0 <= k < |rs| :: ps[k] == rs[k].row
  {
    if rs == [] then [] else [rs[0].row] + Rows(rs[1..])
  }

  /** A CEO row appears in the join as often as in the CEO table when its id was answered, and not at all otherwise. */
  lemma {:induction false} JoinCounts(df: seq<CeoRow>, raster: map<int, int>, r: CeoRow)
    requires AllCodesKnown(raster)
    ensures multiset(Rows(Join(df, raster)))[r] == if r.objectId in raster then multiset(df)[r] else 0
  {
    if df != [] {
      JoinCounts(df[1..], raster, r);
      assert df == [df[0]] + df[1..];
      var rest := Join(df[1..], raster);
      if df[0].objectId in raster {
        assert Rows(Join(df, raster)) == [df[0]] + Rows(rest);
      } else {
        assert Join(df, raster) == rest;
      }
    }
  }

  lemma {:induction false} JoinKeepsOrder(df: seq<CeoRow>, raster: map<int, int>)
    requires AllCodesKnown(raster)
    ensures IsSubsequence(Rows(Join(df, raster)), df)
  {
    if df != [] {
      JoinKeepsOrder(df[1..], raster);
      var rest := Rows(Join(df[1..], raster));
      if df[0].objectId in raster {
        assert Rows(Join(df, raster)) == [df[0]] + rest;
        assert ([df[0]] + rest)[1..] == rest;
      } else {
        assert Rows(Join(df, raster)) == rest;
        SubsequenceSkip(rest, df);
      }
    }
  }

  lemma {:induction false} DropKeepsOrder(js: seq<Record>)
    ensures IsSubsequence(Rows(DropUnclassified(js)), Rows(js))
  {
    if js != [] {
      DropKeepsOrder(js[1..]);
      var rest := Rows(DropUnclassified(js[1..]));
      assert Rows(js)[1..] == Rows(js[1..]);
      if IsClassified(js[0]) {
        assert Rows(DropUnclassified(js)) == [js[0].row] + rest;
        assert ([js[0].row] + rest)[1..] == rest;
      } else {
        SubsequenceSkip(rest, Rows(js));
      }
    }
  }

  /** The enriched rows are the CEO rows they came from, in the CEO table's order. */
  lemma EnrichKeepsOrder(df: seq<CeoRow>, raster: map<int, int>)
    requires Enrich(df, raster).Ok?
    ensures IsSubsequence(Rows(Enrich(df, raster).value), df)
  {
    JoinKeepsOrder(df, raster);
    DropKeepsOrder(Join(df, raster));
    SubsequenceTransitive(Rows(Enrich(df, raster).value), Rows(Join(df, raster)), df);
  }
}
