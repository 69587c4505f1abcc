/**
 * The plot-photo matcher: a search box around a plot's centre, the photo observations inside
 * it, the nearest of them, and that observation's secure photo URLs. The great-circle
 * distance and the conversion of 50 metres into degree offsets are floating-point
 * trigonometry and are parameters here.
 */
module Photos {
  import opened Wrappers
  import opened Sequences

  /** Inclusive bounds: south-west corner `sw` and north-east corner `ne`, each (lat, lon). */
  predicate InBoundingBox(ne: (real, real), sw: (real, real), lat: real, lon: real): (r: bool)
    ensures r ==> sw.0 <= ne.0 && sw.1 <= ne.1
  {
    sw.0 <= lat <= ne.0 && sw.1 <= lon <= ne.1
  }

  datatype Box = Box(ne: (real, real), sw: (real, real))

  /** The box reaching `latConst` degrees north and south and `lonConst` degrees east and west of the centre. */
  function SearchBox(lat: real, lon: real, latConst: real, lonConst: real): (b: Box)
    ensures forall pLat: real, pLon: real :: InBoundingBox(b.ne, b.sw, pLat, pLon) <==>
      Abs(pLat - lat) <= latConst && Abs(pLon - lon) <= lonConst
  {
    Box((lat + latConst, lon + lonConst), (lat - latConst, lon - lonConst))
  }

  function Abs(x: real): real
  {
    if x < 0.0 then -x else x
  }

  /** The box is symmetric about its centre, and holds the centre when the offsets are not negative. */
  lemma SearchBoxSymmetric(lat: real, lon: real, latConst: real, lonConst: real, pLat: real, pLon: real)
    ensures var b := SearchBox(lat, lon, latConst, lonConst);
      InBoundingBox(b.ne, b.sw, pLat, pLon) <==> InBoundingBox(b.ne, b.sw, 2.0 * lat - pLat, 2.0 * lon - pLon)
    ensures var b := SearchBox(lat, lon, latConst, lonConst);
      InBoundingBox(b.ne, b.sw, lat, lon) <==> 0.0 <= latConst && 0.0 <= lonConst
  {
  }

  /** One row of the PSU table. */
  datatype PlotRow = PlotRow(plotId: int, centerLat: real, centerLon: real)

  /** The first PSU row with the given plot id; indexing the empty selection raises, which is None. */
  function FindPlot(psu: seq<PlotRow>, plotId: int): (r: Option<PlotRow>)
    ensures r.None? <==> forall k | 0 <= k < |psu| :: psu[k].plotId != plotId
    ensures r.Some? ==> exists k | 0 <= k < |psu| ::
      psu[k] == r.value && r.value.plotId == plotId && forall j | 0 <= j < k :: psu[j].plotId != plotId
  {
    if psu == [] then None
    else if psu[0].plotId == plotId then Some(psu[0])
    else
      var r := FindPlot(psu[1..], plotId);
      assert forall k | 1 <= k < |psu| :: psu[k] == psu[1..][k - 1];
      r
  }

  /**
   * One photo observation: its coordinates and the text of its other columns, looked up by
   * column name; a missing value (NaN) or a column the row lacks is None.
   */
  datatype Observation = Observation(lat: real, lon: real, cells: map<string, Option<string>>)

  function Cell(o: Observation, column: string): Option<string>
  {
    if column in o.cells then o.cells[column] else None
  }

  /** Python's `sub in s` on strings. */
  predicate Contains(s: string, sub: string): (r: bool)
    ensures sub == [] ==> r
    ensures r ==> |sub| <= |s|
    decreases |s|
  {
    if |sub| > |s| then false
    else if s[..|sub|] == sub then true
    else s != [] && Contains(s[1..], sub)
  }

  /** `sub` occurs in `s` starting at index i. */
  predicate OccursAt(s: string, sub: string, i: int)
  {
    0 <= i && i + |sub| <= |s| && s[i..i + |sub|] == sub
  }

  lemma {:induction false} ContainsAt(s: string, sub: string)
    ensures Contains(s, sub) <==> exists i :: OccursAt(s, sub, i)
    decreases |s|
  {
    if |sub| <= |s| && s[..|sub|] == sub {
      assert OccursAt(s, sub, 0);
    } else if |sub| <= |s| {
      assert s != [];
      ContainsAt(s[1..], sub);
      forall i | OccursAt(s, sub, i)
        ensures OccursAt(s[1..], sub, i - 1)
      {
        assert s[1..][i - 1..i - 1 + |sub|] == s[i..i + |sub|];
      }
      forall i | OccursAt(s[1..], sub, i)
        ensures OccursAt(s, sub, i + 1)
      {
        assert s[1..][i..i + |sub|] == s[i + 1..i + 1 + |sub|];
      }
    }
  }

  /** The columns whose name contains "Url", in column order. */
  function PhotoColumns(columns: seq<string>): (cols: seq<string>)
    ensures forall c | c in cols :: c in columns && Contains(c, "Url")
    ensures forall c | c in columns && Contains(c, "Url") :: c in cols
    ensures IsSubsequence(cols, columns)
  {
    if columns == [] then []
    else
      var rest := PhotoColumns(columns[1..]);
      if Contains(columns[0], "Url") then
        assert ([columns[0]] + rest)[1..] == rest;
        [columns[0]] + rest
      else
        SubsequenceSkip(rest, columns);
        rest
  }

  /** A usable photo value: present and containing "https". */
  predicate IsSecureUrl(v: Option<string>)
  {
    v.Some? && Contains(v.value, "https")
  }

  /** The (url, column) pairs of `o` over `cols` whose value is a secure URL, in column order. */
  function SecureUrls(o: Observation, cols: seq<string>): (urls: seq<(string, string)>)
    ensures |urls| <= |cols|
    ensures forall k | 0 <= k < |urls| :: urls[k].1 in cols && Cell(o, urls[k].1) == Some(urls[k].0) && Contains(urls[k].0, "https")
    ensures forall c | c in cols && IsSecureUrl(Cell(o, c)) :: (Cell(o, c).value, c) in urls
  {
    if cols == [] then []
    else
      var rest := SecureUrls(o, cols[1..]);
      if IsSecureUrl(Cell(o, cols[0])) then [(Cell(o, cols[0]).value, cols[0])] + rest else rest
  }

  function Columns(urls: seq<(string, string)>): (cs: seq<string>)
    ensures |cs| == |urls| && forall k | 0 <= k < |urls| :: cs[k] == urls[k].1
  {
    if urls == [] then [] else [urls[0].1] + Columns(urls[1..])
  }

  /** The URLs come in the order of the photo columns. */
  lemma {:induction false} SecureUrlsKeepOrder(o: Observation, cols: seq<string>)
    ensures IsSubsequence(Columns(SecureUrls(o, cols)), cols)
  {
    if cols != [] {
      SecureUrlsKeepOrder(o, cols[1..]);
      var rest := Columns(SecureUrls(o, cols[1..]));
      if IsSecureUrl(Cell(o, cols[0])) {
        assert Columns(SecureUrls(o, cols)) == [cols[0]] + rest;
        assert ([cols[0]] + rest)[1..] == rest;
      } else {
        SubsequenceSkip(rest, cols);
      }
    }
  }

  /** The observations inside the box, in table order. */
  function InBox(lc: seq<Observation>, b: Box): (hits: seq<Observation>)
    ensures forall o | o in hits :: o in lc && InBoundingBox(b.ne, b.sw, o.lat, o.lon)
    ensures forall o | o in lc && InBoundingBox(b.ne, b.sw, o.lat, o.lon) :: o in hits
  {
    if lc == [] then []
    else
      var rest := InBox(lc[..|lc| - 1], b);
      var o := lc[|lc| - 1];
      assert forall x | x in lc :: x in lc[..|lc| - 1] || x == o;
      if InBoundingBox(b.ne, b.sw, o.lat, o.lon) then rest + [o] else rest
  }

  /**
   * The distance from the plot centre, with the arguments in the positions that
   * `get_globe_photos` passes them through `partial(haversine, lat, lon)`: the plot's
   * latitude and longitude, then the observation's.
   */
  function Distance(haversine: (real, real, real, real) -> real, lat: real, lon: real, o: Observation): real
  {
    haversine(lat, lon, o.lat, o.lon)
  }

  /** Selects the observations inside the box (the boolean mask and indexing). */
  method SelectInBox(lc: seq<Observation>, b: Box) returns (hits: seq<Observation>)
    ensures hits == InBox(lc, b)
  {
    hits := [];
    for i := 0 to |lc|
      invariant hits == InBox(lc[..i], b)
    {
      assert lc[..i + 1][..i] == lc[..i];
      if InBoundingBox(b.ne, b.sw, lc[i].lat, lc[i].lon) {
        hits := hits + [lc[i]];
      }
    }
    assert lc[..|lc|] == lc;
  }

  /** The row that sorting by distance puts first: a nearest observation (here the first of equal ones). */
  method NearestIndex(hits: seq<Observation>, haversine: (real, real, real, real) -> real, lat: real, lon: real)
    returns (k: nat)
    requires |hits| > 0
    ensures k < |hits|
    ensures forall j | 0 <= j < |hits| :: Distance(haversine, lat, lon, hits[k]) <= Distance(haversine, lat, lon, hits[j])
    ensures forall j | 0 <= j < k :: Distance(haversine, lat, lon, hits[k]) < Distance(haversine, lat, lon, hits[j])
  {
    k := 0;
    var best := Distance(haversine, lat, lon, hits[0]);
    for i := 1 to |hits|
      invariant k < i && best == Distance(haversine, lat, lon, hits[k])
      invariant forall j | 0 <= j < i :: best <= Distance(haversine, lat, lon, hits[j])
      invariant forall j | 0 <= j < k :: best < Distance(haversine, lat, lon, hits[j])
    {
      var d := Distance(haversine, lat, lon, hits[i]);
      if d < best {
        k, best := i, d;
      }
    }
  }

  /** The list comprehension over the nearest row's photo columns. */
  method CleanUrls(o: Observation, cols: seq<string>) returns (urls: seq<(string, string)>)
    ensures urls == SecureUrls(o, cols)
  {
    urls := [];
    var i := |cols|;
    while i > 0
      invariant 0 <= i <= |cols|
      invariant urls == SecureUrls(o, cols[i..])
    {
      i := i - 1;
      assert cols[i..][1..] == cols[i + 1..];
      var v := Cell(o, cols[i]);
      if IsSecureUrl(v) {
        urls := [(v.value, cols[i])] + urls;
      }
    }
  }

  datatype PhotoError =
    | PlotNotFound      // no PSU row has the plot id
    | SpacingUndefined  // the degree offsets are not defined at the plot's latitude
    | EmptyColumn       // the box test was vectorized over an empty photo table

  datatype PhotoMatch =
    | NoPhotos
    | Found(urls: seq<(string, string)>, lat: real, lon: real)

  /**
   * `m` is what the matcher may answer for the observations `lc` around (lat, lon) inside
   * box `b`: nothing when no observation is inside; otherwise an observation inside the box
   * that is nearest among those inside, its secure URLs and its coordinates.
   */
  ghost predicate IsMatch(lc: seq<Observation>, columns: seq<string>, b: Box,
                          haversine: (real, real, real, real) -> real, lat: real, lon: real, m: PhotoMatch)
  {
    if forall o | o in lc :: !InBoundingBox(b.ne, b.sw, o.lat, o.lon) then m == NoPhotos
    else
      exists o | o in lc ::
        && InBoundingBox(b.ne, b.sw, o.lat, o.lon)
        && (forall p | p in lc && InBoundingBox(b.ne, b.sw, p.lat, p.lon) ::
              Distance(haversine, lat, lon, o) <= Distance(haversine, lat, lon, p))
        && m == Found(SecureUrls(o, PhotoColumns(columns)), o.lat, o.lon)
  }

  /**
   * Finds the GLOBE photo observation nearest to a plot inside a 50 m box. `spacing` gives
   * the latitude and longitude offsets of 50 m at a latitude; `haversine` takes
   * (lon1, lat1, lon2, lat2) and is called with the plot's and the observation's
   * (lat, lon) in those positions, as `get_globe_photos` calls it through
   * `partial(haversine, lat, lon)(lc_Latitude, lc_Longitude)`.
   */
  method GetGlobePhotos(lc: seq<Observation>, columns: seq<string>, psu: seq<PlotRow>, plotId: int,
                        spacing: real -> Option<(real, real)>, haversine: (real, real, real, real) -> real)
    returns (r: Result<PhotoMatch, PhotoError>)
    ensures FindPlot(psu, plotId).None? ==> r == Err(PlotNotFound)
    ensures FindPlot(psu, plotId).Some? ==>
      var p := FindPlot(psu, plotId).value;
      if spacing(p.centerLat).None? then r == Err(SpacingUndefined)
      else if lc == [] then r == Err(EmptyColumn)
      else
        var (latConst, lonConst) := spacing(p.centerLat).value;
        r.Ok? && IsMatch(lc, columns, SearchBox(p.centerLat, p.centerLon, latConst, lonConst),
                         haversine, p.centerLat, p.centerLon, r.value)
  {
    var plot := FindPlot(psu, plotId);
    if plot.None? {
      return Err(PlotNotFound);
    }
    var lat, lon := plot.value.centerLat, plot.value.centerLon;
    var consts := spacing(lat);
    if consts.None? {
      return Err(SpacingUndefined);
    }
    if lc == [] {
      return Err(EmptyColumn);
    }
    var (latConst, lonConst) := consts.value;
    var b := SearchBox(lat, lon, latConst, lonConst);
    var hits := SelectInBox(lc, b);
    if hits == [] {
      return Ok(NoPhotos);
    }
    var k := NearestIndex(hits, haversine, lat, lon);
    var entry := hits[k];
    var urls := CleanUrls(entry, PhotoColumns(columns));
    r := Ok(Found(urls, entry.lat, entry.lon));
    forall p | p in lc && InBoundingBox(b.ne, b.sw, p.lat, p.lon)
      ensures Distance(haversine, lat, lon, entry) <= Distance(haversine, lat, lon, p)
    {
      var j :| 0 <= j < |hits| && hits[j] == p;
    }
  }

  /**
   * A plot centred at (10, 20) with 50 m offsets between 0.0001 and 0.01 degrees: of the
   * observations at (10.0001, 20.0001) and (10.01, 20.01) only the first is in the box, so it
   * is the match whatever the distances are.
   */
  lemma NearbyScenario(haversine: (real, real, real, real) -> real, latConst: real, lonConst: real,
                       near: Observation, far: Observation, columns: seq<string>, m: PhotoMatch)
    requires 0.0001 <= latConst < 0.01 && 0.0001 <= lonConst < 0.01
    requires near.lat == 10.0001 && near.lon == 20.0001 && far.lat == 10.01 && far.lon == 20.01
    requires IsMatch([near, far], columns, SearchBox(10.0, 20.0, latConst, lonConst), haversine, 10.0, 20.0, m)
    ensures m == Found(SecureUrls(near, PhotoColumns(columns)), 10.0001, 20.0001)
  {
    var b := SearchBox(10.0, 20.0, latConst, lonConst);
    assert InBoundingBox(b.ne, b.sw, near.lat, near.lon);
    assert !InBoundingBox(b.ne, b.sw, far.lat, far.lon);
  }
}
