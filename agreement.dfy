/**
 * The agreement summary over the enriched rows: the overall agreement rate, and the most
 * agreed class and most confused pair of a column-normalized confusion matrix indexed by
 * the shared classes (CEO rows, WorldCover columns). The matrix itself is computed by a
 * library and is an input here.
 */
module Agreement {
  import opened Wrappers
  import opened PyOrder
  import opened Taxonomy
  import opened Enrichment

  predicate Agrees(rec: Record)
  {
    rec.harmonizedCeo == rec.harmonizedWc
  }

  /** The number of rows whose two harmonized labels are equal. */
  function AgreedCount(rs: seq<Record>): (n: nat)
    ensures n <= |rs|
    ensures n == |rs| <==> forall k | 0 <= k < |rs| :: Agrees(rs[k])
    ensures n == 0 <==> forall k | 0 <= k < |rs| :: !Agrees(rs[k])
  {
    if rs == [] then 0
    else
      var rest := AgreedCount(rs[1..]);
      assert forall k | 1 <= k < |rs| :: rs[k] == rs[1..][k - 1];
      (if Agrees(rs[0]) then 1 else 0) + rest
  }

  lemma {:induction false} AgreedCountAppend(xs: seq<Record>, ys: seq<Record>)
    ensures AgreedCount(xs + ys) == AgreedCount(xs) + AgreedCount(ys)
  {
    if xs == [] {
      assert xs + ys == ys;
    } else {
      assert (xs + ys)[1..] == xs[1..] + ys;
      AgreedCountAppend(xs[1..], ys);
    }
  }

  lemma RatioBounds(n: real, d: real)
    requires 0.0 <= n <= d && d > 0.0
    ensures 0.0 <= n / d <= 1.0
    ensures n / d == 1.0 <==> n == d
    ensures n / d == 0.0 <==> n == 0.0
  {
  }

  /**
   * The share of rows whose harmonized labels agree. The division is not guarded, so an
   * empty table raises; that outcome is None.
   */
  function GetAccuracy(rs: seq<Record>): (r: Option<real>)
    ensures r.None? <==> rs == []
    ensures r.Some? ==> 0.0 <= r.value <= 1.0
    ensures r.Some? ==> (r.value == 1.0 <==> forall k | 0 <= k < |rs| :: Agrees(rs[k]))
    ensures r.Some? ==> (r.value == 0.0 <==> forall k | 0 <= k < |rs| :: !Agrees(rs[k]))
    ensures r.Some? ==> r.value == AgreedCount(rs) as real / |rs| as real
  {
    if rs == [] then None
    else
      var n := AgreedCount(rs) as real;
      var d := |rs| as real;
      RatioBounds(n, d);
      Some(n / d)
  }

  // ---------------------------------------------------------------- confusion summary

  /** The normalized confusion matrix is 9 by 9, one row and one column per shared class. */
  predicate IsClassMatrix(cf: seq<seq<real>>)
  {
    |cf| == |HarmonizedClasses| && forall i | 0 <= i < |cf| :: |cf[i]| == |HarmonizedClasses|
  }

  /** The confusion list's entry for cell (i, j). */
  function Cell(cf: seq<seq<real>>, i: nat, j: nat): (real, (string, string))
    requires IsClassMatrix(cf) && i < |HarmonizedClasses| && j < |HarmonizedClasses|
  {
    (cf[i][j], (HarmonizedClasses[i], HarmonizedClasses[j]))
  }

  /** Row i's off-diagonal entries in columns below n, in column order. */
  function RowEntries(cf: seq<seq<real>>, i: nat, n: nat): (es: seq<(real, (string, string))>)
    requires IsClassMatrix(cf) && i < |HarmonizedClasses| && n <= |HarmonizedClasses|
    ensures |es| == if i < n then n - 1 else n
  {
    if n == 0 then []
    else RowEntries(cf, i, n - 1) + (if n - 1 == i then [] else [Cell(cf, i, n - 1)])
  }

  /** The off-diagonal entries of the rows below m, row by row. */
  function ConfusionEntries(cf: seq<seq<real>>, m: nat): (es: seq<(real, (string, string))>)
    requires IsClassMatrix(cf) && m <= |HarmonizedClasses|
    ensures |es| == m * (|HarmonizedClasses| - 1)
  {
    if m == 0 then [] else ConfusionEntries(cf, m - 1) + RowEntries(cf, m - 1, |HarmonizedClasses|)
  }

  lemma {:induction false} RowEntriesMembers(cf: seq<seq<real>>, i: nat, n: nat, e: (real, (string, string)))
    requires IsClassMatrix(cf) && i < |HarmonizedClasses| && n <= |HarmonizedClasses|
    ensures e in RowEntries(cf, i, n) <==> exists j | 0 <= j < n :: j != i && e == Cell(cf, i, j)
  {
    if n > 0 {
      RowEntriesMembers(cf, i, n - 1, e);
      var last := if n - 1 == i then [] else [Cell(cf, i, n - 1)];
      assert RowEntries(cf, i, n) == RowEntries(cf, i, n - 1) + last;
      if e in last {
        assert n - 1 != i && e == Cell(cf, i, n - 1);
      } else if exists j | 0 <= j < n :: j != i && e == Cell(cf, i, j) {
        var j :| 0 <= j < n && j != i && e == Cell(cf, i, j);
        assert j < n - 1;
      }
    }
  }

  /** The confusion list holds exactly the off-diagonal cells. */
  lemma {:induction false} ConfusionEntriesMembers(cf: seq<seq<real>>, m: nat, e: (real, (string, string)))
    requires IsClassMatrix(cf) && m <= |HarmonizedClasses|
    ensures e in ConfusionEntries(cf, m) <==>
      exists i, j | 0 <= i < m && 0 <= j < |HarmonizedClasses| :: i != j && e == Cell(cf, i, j)
  {
    if m > 0 {
      ConfusionEntriesMembers(cf, m - 1, e);
      RowEntriesMembers(cf, m - 1, |HarmonizedClasses|, e);
    }
  }

  /**
   * Diagonal cell k is the greatest (value, class) pair: no diagonal value is larger, and
   * among equal values its class name is the greatest.
   */
  ghost predicate MostAgreedAt(cf: seq<seq<real>>, k: nat)
    requires IsClassMatrix(cf)
  {
    && k < |HarmonizedClasses|
    && forall i | 0 <= i < |HarmonizedClasses| ::
         cf[i][i] <= cf[k][k] && (cf[i][i] == cf[k][k] ==> !StrLess(HarmonizedClasses[k], HarmonizedClasses[i]))
  }

  /**
   * Off-diagonal cell (i, j) is the greatest (value, (row class, column class)) entry: no
   * off-diagonal value is larger, and among equal values its pair of names is the greatest.
   */
  ghost predicate MostConfusedAt(cf: seq<seq<real>>, i: nat, j: nat)
    requires IsClassMatrix(cf)
  {
    && i < |HarmonizedClasses| && j < |HarmonizedClasses| && i != j
    && forall a, b | 0 <= a < |HarmonizedClasses| && 0 <= b < |HarmonizedClasses| && a != b :: ConfusedAtLeast(cf, i, j, a, b)
  }

  /** Cell (i, j) is not below cell (a, b) in the order of (value, (row class, column class)). */
  ghost predicate ConfusedAtLeast(cf: seq<seq<real>>, i: nat, j: nat, a: nat, b: nat)
    requires IsClassMatrix(cf) && i < |HarmonizedClasses| && j < |HarmonizedClasses| && a < |HarmonizedClasses| && b < |HarmonizedClasses|
  {
    cf[a][b] <= cf[i][j]
    && (cf[a][b] == cf[i][j] ==>
          !StrLess(HarmonizedClasses[i], HarmonizedClasses[a]) && (HarmonizedClasses[i] == HarmonizedClasses[a] ==> !StrLess(HarmonizedClasses[j], HarmonizedClasses[b])))
  }

  /** The text shown for the most confused pair. */
  function ConfusedString(ceo: string, wc: string): (s: string)
    ensures |s| == |ceo| + 5 + |wc|
    ensures s[..|ceo|] == ceo && s[|ceo|..|ceo| + 5] == " for " && s[|ceo| + 5..] == wc
  {
    ceo + " for " + wc
  }

  /** No shared class name begins with another one. */
  lemma ClassNamesPrefixFree(i: nat, k: nat)
    requires i < |HarmonizedClasses| && k < |HarmonizedClasses|
    requires |HarmonizedClasses[i]| <= |HarmonizedClasses[k]|
    requires HarmonizedClasses[k][..|HarmonizedClasses[i]|] == HarmonizedClasses[i]
    ensures i == k
  {
    // The names already differ in their first two letters.
    var a, c := HarmonizedClasses[i], HarmonizedClasses[k];
    assert a[0] == c[..|a|][0] && a[1] == c[..|a|][1];
    assert c[0] == a[0] && c[1] == a[1];
  }

  /** The text shown for the most confused pair names that pair and no other. */
  lemma ConfusedStringIdentifiesPair(i: nat, j: nat, k: nat, l: nat)
    requires i < |HarmonizedClasses| && j < |HarmonizedClasses| && k < |HarmonizedClasses| && l < |HarmonizedClasses|
    requires ConfusedString(HarmonizedClasses[i], HarmonizedClasses[j]) == ConfusedString(HarmonizedClasses[k], HarmonizedClasses[l])
    ensures i == k && j == l
  {
    var s := ConfusedString(HarmonizedClasses[i], HarmonizedClasses[j]);
    var a, c := HarmonizedClasses[i], HarmonizedClasses[k];
    if |a| <= |c| {
      assert c[..|a|] == s[..|a|] == a;
      ClassNamesPrefixFree(i, k);
    } else {
      assert a[..|c|] == s[..|c|] == c;
      ClassNamesPrefixFree(k, i);
    }
    assert HarmonizedClasses[j] == s[|a| + 5..] == HarmonizedClasses[l];
    ClassesDistinct(j, l);
  }

  /** The (diagonal value, class) pairs, in class order. */
  function AgreementEntries(cf: seq<seq<real>>): (es: seq<(real, string)>)
    requires IsClassMatrix(cf)
    ensures |es| == |HarmonizedClasses|
    ensures forall i | 0 <= i < |es| :: es[i].0 == cf[i][i] && es[i].1 == HarmonizedClasses[i]
  {
    seq(|HarmonizedClasses|, i requires 0 <= i < |HarmonizedClasses| => (cf[i][i], HarmonizedClasses[i]))
  }

  /** The loop that builds the list of (diagonal value, class) pairs. */
  method AgreementList(cf: seq<seq<real>>) returns (agreement: seq<(real, string)>)
    requires IsClassMatrix(cf)
    ensures agreement == AgreementEntries(cf)
  {
    agreement := [];
    for i := 0 to |HarmonizedClasses|
      invariant |agreement| == i
      invariant forall k | 0 <= k < i :: agreement[k] == (cf[k][k], HarmonizedClasses[k])
    {
      agreement := agreement + [(cf[i][i], HarmonizedClasses[i])];
    }
  }

  /** The list of off-diagonal (value, (row class, column class)) entries, row by row. */
  method ConfusionList(cf: seq<seq<real>>) returns (confusion: seq<(real, (string, string))>)
    requires IsClassMatrix(cf)
    ensures confusion == ConfusionEntries(cf, |HarmonizedClasses|)
  {
    confusion := [];
    for i := 0 to |HarmonizedClasses|
      invariant confusion == ConfusionEntries(cf, i)
    {
      for j := 0 to |HarmonizedClasses|
        invariant confusion == ConfusionEntries(cf, i) + RowEntries(cf, i, j)
      {
        if j == i {
          continue;
        }
        confusion := confusion + [Cell(cf, i, j)];
      }
    }
  }

  /** The most confused tuple as shown: the value and `"<ceo> for <wc>"`. */
  function ConfusedTuple(e: (real, (string, string))): (r: (real, string))
    ensures r.0 == e.0 && |r.1| == |e.1.0| + 5 + |e.1.1|
    ensures r.1[..|e.1.0|] == e.1.0 && r.1[|e.1.0|..|e.1.0| + 5] == " for " && r.1[|e.1.0| + 5..] == e.1.1
  {
    (e.0, ConfusedString(e.1.0, e.1.1))
  }

  /**
   * The agreed and confused tuples: builds the list of diagonal entries and the list of
   * off-diagonal entries and takes Python's `max` of each.
   */
  method GenerateConfusionMatrix(cf: seq<seq<real>>) returns (agreed: (real, string), confused: (real, string))
    requires IsClassMatrix(cf)
    ensures agreed == Greatest(AgreementEntries(cf), PairLess)
    ensures confused == ConfusedTuple(Greatest(ConfusionEntries(cf, |HarmonizedClasses|), NestedLess))
  {
    var agreement := AgreementList(cf);
    var confusion := ConfusionList(cf);
    agreed := Max(agreement, PairLess);
    var top := Max(confusion, NestedLess);
    var (percent, (ceo, wc)) := top;
    confused := (percent, ConfusedString(ceo, wc));
  }

  /** `max` of the agreement list is the most agreed diagonal cell. */
  lemma AgreedIsMostAgreed(cf: seq<seq<real>>)
    requires IsClassMatrix(cf)
    ensures exists k | 0 <= k < |HarmonizedClasses| ::
      MostAgreedAt(cf, k) && Greatest(AgreementEntries(cf), PairLess) == (cf[k][k], HarmonizedClasses[k])
  {
    var es := AgreementEntries(cf);
    var top := Greatest(es, PairLess);
    PairLessStrictOrder();
    GreatestIsMaximal(es, PairLess);
    var k :| 0 <= k < |es| && es[k] == top;
    forall i | 0 <= i < |HarmonizedClasses|
      ensures cf[i][i] <= cf[k][k] && (cf[i][i] == cf[k][k] ==> !StrLess(HarmonizedClasses[k], HarmonizedClasses[i]))
    {
      assert es[i] in es;
    }
    assert MostAgreedAt(cf, k);
  }

  /** `max` of the confusion list is the most confused off-diagonal cell. */
  lemma ConfusedIsMostConfused(cf: seq<seq<real>>)
    requires IsClassMatrix(cf)
    ensures exists i, j | 0 <= i < |HarmonizedClasses| && 0 <= j < |HarmonizedClasses| ::
      MostConfusedAt(cf, i, j) && Greatest(ConfusionEntries(cf, |HarmonizedClasses|), NestedLess) == Cell(cf, i, j)
  {
    var es := ConfusionEntries(cf, |HarmonizedClasses|);
    var top := Greatest(es, NestedLess);
    NestedLessStrictOrder();
    GreatestIsMaximal(es, NestedLess);
    ConfusionEntriesMembers(cf, |HarmonizedClasses|, top);
    var i, j :| 0 <= i < |HarmonizedClasses| && 0 <= j < |HarmonizedClasses| && i != j && top == Cell(cf, i, j);
    forall a: nat, b: nat | a < |HarmonizedClasses| && b < |HarmonizedClasses| && a != b
      ensures ConfusedAtLeast(cf, i, j, a, b)
    {
      ConfusionEntriesMembers(cf, |HarmonizedClasses|, Cell(cf, a, b));
      assert !NestedLess(top, Cell(cf, a, b));
    }
    assert MostConfusedAt(cf, i, j);
  }

  lemma ClassesDistinct(i: nat, j: nat)
    requires i < |HarmonizedClasses| && j < |HarmonizedClasses| && HarmonizedClasses[i] == HarmonizedClasses[j]
    ensures i == j
  {
  }

  /** The tie-break on class names leaves exactly one most agreed class. */
  lemma MostAgreedIsUnique(cf: seq<seq<real>>, k1: nat, k2: nat)
    requires IsClassMatrix(cf) && MostAgreedAt(cf, k1) && MostAgreedAt(cf, k2)
    ensures k1 == k2
  {
    if HarmonizedClasses[k1] != HarmonizedClasses[k2] {
      StrLessTotal(HarmonizedClasses[k1], HarmonizedClasses[k2]);
    }
    ClassesDistinct(k1, k2);
  }

  /** The tie-break on pairs of class names leaves exactly one most confused pair. */
  lemma MostConfusedIsUnique(cf: seq<seq<real>>, i1: nat, j1: nat, i2: nat, j2: nat)
    requires IsClassMatrix(cf) && MostConfusedAt(cf, i1, j1) && MostConfusedAt(cf, i2, j2)
    ensures i1 == i2 && j1 == j2
  {
    assert ConfusedAtLeast(cf, i1, j1, i2, j2) && ConfusedAtLeast(cf, i2, j2, i1, j1);
    if HarmonizedClasses[i1] != HarmonizedClasses[i2] {
      StrLessTotal(HarmonizedClasses[i1], HarmonizedClasses[i2]);
    }
    ClassesDistinct(i1, i2);
    if HarmonizedClasses[j1] != HarmonizedClasses[j2] {
      StrLessTotal(HarmonizedClasses[j1], HarmonizedClasses[j2]);
    }
    ClassesDistinct(j1, j2);
  }

  function ZeroMatrix(): (cf: seq<seq<real>>)
    ensures IsClassMatrix(cf)
  {
    seq(|HarmonizedClasses|, _ => seq(|HarmonizedClasses|, _ => 0.0))
  }

  /**
   * With no agreement and no confusion at all, the name tie-break reports "Wetland" as the
   * most agreed class and "Wetland for Water Bodies" as the most confused pair.
   */
  lemma ZeroMatrixSummary()
    ensures MostAgreedAt(ZeroMatrix(), 7) && HarmonizedClasses[7] == "Wetland"
    ensures MostConfusedAt(ZeroMatrix(), 7, 6) && HarmonizedClasses[6] == "Water Bodies"
  {
    var cf := ZeroMatrix();
    forall i: nat | i < |HarmonizedClasses|
      ensures !StrLess(HarmonizedClasses[7], HarmonizedClasses[i])
    {
      WetlandIsGreatest(i);
    }
    forall a: nat, b: nat | a < |HarmonizedClasses| && b < |HarmonizedClasses| && a != b
      ensures ConfusedAtLeast(cf, 7, 6, a, b)
    {
      WetlandIsGreatest(a);
      if a == 7 {
        WaterBodiesIsNextGreatest(b);
      }
    }
  }

  /** "Wetland" is the greatest shared class name. */
  lemma WetlandIsGreatest(i: nat)
    requires i < |HarmonizedClasses|
    ensures !StrLess("Wetland", HarmonizedClasses[i])
  {
    if i == 6 {
      assert StrLess("Wetland", "Water Bodies") == StrLess("etland", "ater Bodies");
    }
  }

  /** "Water Bodies" is greater than every shared class name except "Wetland". */
  lemma WaterBodiesIsNextGreatest(i: nat)
    requires i < |HarmonizedClasses| && i != 7
    ensures !StrLess("Water Bodies", HarmonizedClasses[i])
  {
    StrLessIrreflexive("Water Bodies");
  }

  /** The normalized matrix of the rows (Trees, Trees), (Trees, Shrubland), (Grassland, Grassland). */
  function ScenarioMatrix(): (cf: seq<seq<real>>)
    ensures IsClassMatrix(cf)
  {
    seq(|HarmonizedClasses|, i => seq(|HarmonizedClasses|, j => if (i, j) in {(0, 0), (4, 4), (4, 1)} then 1.0 else 0.0))
  }

  function ScenarioRecord(ceo: string, wc: string): Record
  {
    Record(CeoRow(0, 0.0, 0.0, ""), 0, "", ceo, wc)
  }

  function ScenarioRows(): seq<Record>
  {
    [ScenarioRecord("Trees", "Trees"), ScenarioRecord("Trees", "Shrubland"), ScenarioRecord("Grassland", "Grassland")]
  }

  lemma ScenarioAccuracy()
    ensures GetAccuracy(ScenarioRows()) == Some(2.0 / 3.0)
  {
    var rows := ScenarioRows();
    assert rows[1..][1..][1..] == [];
    assert AgreedCount(rows[1..][1..]) == 1;
    assert AgreedCount(rows[1..]) == 1;
    assert AgreedCount(rows) == 2;
  }

  lemma ScenarioMostAgreed()
    ensures MostAgreedAt(ScenarioMatrix(), 4)
  {
    assert !StrLess("Trees", "Grassland");
  }

  lemma ScenarioMostConfused()
    ensures MostConfusedAt(ScenarioMatrix(), 4, 1)
  {
    var cf := ScenarioMatrix();
    forall a: nat, b: nat | a < |HarmonizedClasses| && b < |HarmonizedClasses| && a != b
      ensures ConfusedAtLeast(cf, 4, 1, a, b)
    {
      if (a, b) != (4, 1) {
        assert cf[a][b] == 0.0;
      }
    }
  }

  lemma ScenarioAgreed()
    ensures Greatest(AgreementEntries(ScenarioMatrix()), PairLess) == (1.0, "Trees")
  {
    var cf := ScenarioMatrix();
    AgreedIsMostAgreed(cf);
    var k :| 0 <= k < |HarmonizedClasses| && MostAgreedAt(cf, k) && Greatest(AgreementEntries(cf), PairLess) == (cf[k][k], HarmonizedClasses[k]);
    ScenarioMostAgreed();
    MostAgreedIsUnique(cf, k, 4);
  }

  lemma ScenarioConfused()
    ensures ConfusedTuple(Greatest(ConfusionEntries(ScenarioMatrix(), |HarmonizedClasses|), NestedLess)) == (1.0, "Trees for Shrubland")
  {
    var cf := ScenarioMatrix();
    ConfusedIsMostConfused(cf);
    var i, j :| 0 <= i < |HarmonizedClasses| && 0 <= j < |HarmonizedClasses| &&
      MostConfusedAt(cf, i, j) && Greatest(ConfusionEntries(cf, |HarmonizedClasses|), NestedLess) == Cell(cf, i, j);
    ScenarioMostConfused();
    MostConfusedIsUnique(cf, i, j, 4, 1);
    assert ConfusedString("Trees", "Shrubland") == "Trees for Shrubland";
  }

  /** Two of the three rows agree; Trees wins the tie with Grassland; Trees for Shrubland is the confusion. */
  method ScenarioSummary() returns (accuracy: Option<real>, agreed: (real, string), confused: (real, string))
    ensures accuracy == Some(2.0 / 3.0)
    ensures agreed == (1.0, "Trees")
    ensures confused == (1.0, "Trees for Shrubland")
  {
    ScenarioAccuracy();
    accuracy := GetAccuracy(ScenarioRows());
    agreed, confused := GenerateConfusionMatrix(ScenarioMatrix());
    ScenarioAgreed();
    ScenarioConfused();
  }
}
