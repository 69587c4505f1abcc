/**
 * The taxonomy cross-walk: the shared nine-class taxonomy, the two tables that translate
 * Collect Earth Online (CEO) labels and ESA WorldCover labels into it, the WorldCover
 * numeric-code table, and the lookup with an empty-string fallback.
 */
module Taxonomy {
  import opened Wrappers

  /** The shared classes, in the fixed order used for the confusion matrix's rows and columns. */
  const HarmonizedClasses: seq<string> := [
    "Grassland", "Shrubland", "Built Up", "Barren", "Trees",
    "Cropland", "Water Bodies", "Wetland", "Snow"
  ]

  const CeoToHarmonized: map<string, string> := map[
    "Trees_CanopyCover" := "Trees",
    "bush/scrub" := "Shrubland",
    "grass" := "Grassland",
    "cultivated vegetation" := "Cropland",
    "Water>lake/ponded/container" := "Water Bodies",
    "Water>rivers/stream" := "Water Bodies",
    "Water>irrigation ditch" := "Wetland",
    "Water>treated pool" := "Water Bodies",
    "Bare Ground" := "Barren",
    "Building" := "Built Up",
    "Impervious Surface (no building)" := "Built Up"
  ]

  const WcToHarmonized: map<string, string> := map[
    "Trees" := "Trees",
    "Shrubland" := "Shrubland",
    "Grassland" := "Grassland",
    "Cropland" := "Cropland",
    "Built-up" := "Built Up",
    "Barren / Sparse Vegetation" := "Barren",
    "Snow and Ice" := "Snow",
    "Open Water" := "Water Bodies",
    "Herbaceous Wetland" := "Wetland",
    "Mangroves" := "Wetland",
    "Moss and Lichen" := "Grassland"
  ]

  /** WorldCover's class codes and their labels. */
  const WcIdClassification: map<int, string> := map[
    10 := "Trees",
    20 := "Shrubland",
    30 := "Grassland",
    40 := "Cropland",
    50 := "Built-up",
    60 := "Barren / Sparse Vegetation",
    70 := "Snow and Ice",
    80 := "Open Water",
    90 := "Herbaceous Wetland",
    95 := "Mangroves",
    100 := "Moss and Lichen"
  ]

  /** The eleven codes WorldCover assigns. */
  const WcCodes: set<int> := {10, 20, 30, 40, 50, 60, 70, 80, 90, 95, 100}

  /**
   * The label of a WorldCover code. The dictionary lookup raises on a code that is not in
   * the table; that outcome is None here.
   */
  function WcToStr(code: int): (r: Option<string>)
    ensures r.Some? <==> code in WcCodes
    ensures r.Some? ==> r.value in WcToHarmonized
  {
    if code in WcIdClassification then Some(WcIdClassification[code]) else None
  }

  /** The lookup with fallback: the table's value for a known label, "" for any other string. */
  function ConvertToHarmonized(lookup: map<string, string>, value: string): (r: string)
    ensures value in lookup ==> r == lookup[value]
    ensures value !in lookup ==> r == ""
  {
    if value in lookup then lookup[value] else ""
  }

  /** Every value of either table is one of the shared classes. */
  lemma TablesMapIntoSharedClasses()
    ensures forall k | k in CeoToHarmonized :: CeoToHarmonized[k] in HarmonizedClasses
    ensures forall k | k in WcToHarmonized :: WcToHarmonized[k] in HarmonizedClasses
  {
  }

  /** No table value is "", so an empty result tells a miss apart from a hit. */
  lemma {:induction false} EmptyMeansMiss(lookup: map<string, string>, value: string)
    requires lookup == CeoToHarmonized || lookup == WcToHarmonized
    ensures ConvertToHarmonized(lookup, value) == "" <==> value !in lookup
    ensures ConvertToHarmonized(lookup, value) != "" ==> ConvertToHarmonized(lookup, value) in HarmonizedClasses
  {
    TablesMapIntoSharedClasses();
    if value in lookup {
      assert lookup[value] in HarmonizedClasses;
      assert "" !in HarmonizedClasses;
    }
  }

  /** On the raster side a known code never harmonizes to "": code, label, shared class. */
  lemma {:induction false} WcCodeAlwaysHarmonizes(code: int)
    requires code in WcCodes
    ensures WcToStr(code).Some?
    ensures ConvertToHarmonized(WcToHarmonized, WcToStr(code).value) in HarmonizedClasses
  {
    EmptyMeansMiss(WcToHarmonized, WcToStr(code).value);
  }

  /** The WorldCover table reaches all nine shared classes; the CEO table all but "Snow". */
  lemma TableRanges()
    ensures WcToHarmonized.Values == set c | c in HarmonizedClasses
    ensures CeoToHarmonized.Values == (set c | c in HarmonizedClasses) - {"Snow"}
  {
    assert WcToHarmonized["Trees"] == "Trees";
    assert WcToHarmonized["Shrubland"] == "Shrubland";
    assert WcToHarmonized["Grassland"] == "Grassland";
    assert WcToHarmonized["Cropland"] == "Cropland";
    assert WcToHarmonized["Built-up"] == "Built Up";
    assert WcToHarmonized["Barren / Sparse Vegetation"] == "Barren";
    assert WcToHarmonized["Snow and Ice"] == "Snow";
    assert WcToHarmonized["Open Water"] == "Water Bodies";
    assert WcToHarmonized["Herbaceous Wetland"] == "Wetland";
    assert CeoToHarmonized["Trees_CanopyCover"] == "Trees";
    assert CeoToHarmonized["bush/scrub"] == "Shrubland";
    assert CeoToHarmonized["grass"] == "Grassland";
    assert CeoToHarmonized["cultivated vegetation"] == "Cropland";
    assert CeoToHarmonized["Water>lake/ponded/container"] == "Water Bodies";
    assert CeoToHarmonized["Water>irrigation ditch"] == "Wetland";
    assert CeoToHarmonized["Bare Ground"] == "Barren";
    assert CeoToHarmonized["Building"] == "Built Up";
  }

  /** The CEO labels "shadow" and "unknown" have no shared class. */
  lemma UnclassifiableCeoLabels()
    ensures ConvertToHarmonized(CeoToHarmonized, "shadow") == ""
    ensures ConvertToHarmonized(CeoToHarmonized, "unknown") == ""
  {
  }
}
