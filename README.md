# Land-cover agreement dashboard: verified model of the analysis core

The dashboard compares land-cover labels collected in the field with Collect Earth Online
(CEO) against the classes of the ESA WorldCover raster at the same points. This project models
the part of `main.py` that does the analysis, leaving out the user interface. It covers:

- **Taxonomy cross-walk** (`taxonomy.dfy`, module `Taxonomy`). The nine shared classes, the
  CEO-to-shared and WorldCover-to-shared tables, and the WorldCover code-to-label table.
  `wc_to_str` raises on an unknown code. `convert_to_harmonized` returns `""` when a label is
  missing from its table.
- **Enrichment** (`enrichment.dfy`, module `Enrichment`). The sampled raster codes are
  converted to labels. They are inner-joined onto the CEO rows by `ObjectId`, both labels are
  harmonized, and rows with an empty harmonized label are dropped. The raster service is an
  input: a map from `ObjectId` to the sampled code.
- **Agreement summary** (`agreement.dfy`, module `Agreement`).
  - `get_accuracy` is the share of rows whose two harmonized labels are equal.
  - `generate_confusion_matrix` builds the diagonal list and the off-diagonal list from the
    normalized 9×9 matrix. It then takes Python's `max` of each list.
  - The matrix is an input.
- **Python ordering** (`pyorder.dfy`, module `PyOrder`). Python's `<` on strings and on the
  compared tuples, and the builtin `max`. `max` is a fold over the list and a loop that
  computes it. A lemma proves that its result is an element that nothing in the list exceeds.
- **Plot–photo matcher** (`photos.dfy`, module `Photos`).
  - `in_bounding_box` and the 50 m search box around a plot's centre.
  - The boolean mask over the GLOBE photo observations.
  - The choice of a nearest observation inside the box.
  - The filter that keeps that observation's `Url` columns whose value is present and
    contains `"https"`.
  - The distance function and the conversion from metres to degrees are parameters.
- `wrappers.dfy` holds `Option` and `Result`. `sequences.dfy` holds the subsequence relation
  used to state that order is preserved.

Each place where the code raises becomes an error value, not a precondition:

- an unknown WorldCover code;
- a vectorized conversion applied to a zero-length column;
- a division by zero in `get_accuracy`;
- a plot id that is not in the PSU table;
- a latitude where the degree offsets are undefined.

## Behaviour of the code worth noting

- **Tie-break in the confusion summary.** The code takes `max` over `(value, class)` tuples,
  so among equal values the greatest class name wins, not the first class in the order of
  `harmonized_classes`; for the confused pair the greatest (row name, column name) wins.
  `ZeroMatrixSummary` shows the effect: an all-zero matrix reports "Wetland" as most agreed
  and "Wetland for Water Bodies" as most confused.
- **Empty input to the agreement rate.** `get_accuracy` divides by `len(df)` without a guard,
  so it raises on an empty table instead of reporting 0. `GetAccuracy` returns `None` there.
- **Ties in the photo matcher.** `sort_values(by="Dist")` uses the default quicksort, which is
  not stable, so the code does not fix which of several equally near observations is chosen,
  and in particular does not promise the first in table order. `IsMatch` allows any nearest
  one. `NearestIndex` happens to choose the first.
- **Argument order of `haversine`.** `haversine` is declared as `(lon1, lat1, lon2, lat2)`.
  It is called as `partial(haversine, lat, lon)(lc_Latitude, lc_Longitude)`, so latitudes
  arrive in the longitude parameters. The model keeps this call order, `haversine(lat, lon,
  o.lat, o.lon)`, through the abstract distance parameter. The trigonometry is not modelled,
  so the model does not show how this changes the ranking.
- **Zero-length inputs.** `np.vectorize` without `otypes` raises on a zero-length input. So
  enrichment fails on an empty CEO table, an empty raster answer or an empty join, and the
  matcher fails on an empty photo table.
- **The pole case.** At ±90° `math.cos` is not exactly zero in floating point, so
  `get_latlon_spacing_constants` does not divide by zero there; it fails in `math.asin`,
  whose argument leaves [-1, 1]. The model leaves the spacing function abstract.
  `SpacingUndefined` stands for any latitude where that function has no value.

## Model

| member | source | states |
|---|---|---|
| `Taxonomy.WcToStr` | main.py:100-138 | `wc_to_str` (main.py:137-138) looks the code up in `wc_id_classification_map` (main.py:100-112): defined exactly on the eleven codes 10, 20, …, 90, 95, 100 (None, i.e. the `KeyError`, otherwise), and every label it yields is a key of the WorldCover-to-shared table |
| `Taxonomy.ConvertToHarmonized` | main.py:144-148 | the table's value for a key, `""` for every other string; total on all strings |
| `Taxonomy.TablesMapIntoSharedClasses` | main.py:47-97 | every value of the CEO table and of the WorldCover table is one of the nine shared classes |
| `Taxonomy.EmptyMeansMiss` | main.py:144-152 | for either table, the lookup gives `""` exactly when the label is not a key; a non-empty result is a shared class |
| `Taxonomy.WcCodeAlwaysHarmonizes` | main.py:137-152 | code → label → shared class never gives `""` on the raster side |
| `Taxonomy.TableRanges` | main.py:71-97 | the WorldCover table reaches all nine shared classes; the CEO table reaches all of them except "Snow" |
| `Taxonomy.UnclassifiableCeoLabels` | main.py:71-83 | the CEO labels "shadow" and "unknown" harmonize to `""` |
| `Enrichment.MakeRecord` | main.py:213-218 | a joined row keeps its CEO row and code; its harmonized WorldCover label is a non-empty shared class; its harmonized CEO label is empty exactly when the CEO label has no table entry |
| `Enrichment.Join` | main.py:214 | inner join on `ObjectId`: every joined row comes from a CEO row whose id the raster answered for, with that code; every such CEO row is joined; the join is empty exactly when no id matches |
| `Enrichment.JoinCounts` | main.py:214 | a CEO row occurs in the join as many times as in the CEO table when its id was answered, and not at all otherwise |
| `Enrichment.IsClassified` | main.py:219-221 | the mask's row condition: both harmonized labels are non-empty |
| `Enrichment.DropUnclassified` | main.py:219-221 | keeps exactly the rows with both harmonized labels non-empty, each as many times as it occurs in the joined table |
| `Enrichment.Enrich` | main.py:197-221 | fails exactly when the CEO table is empty, the raster answer is empty, a sampled code is unknown, or the join is empty |
| `Enrichment.EnrichSound` | main.py:213-221 | every output row comes from a CEO row the raster answered for, carries that code and its label, its harmonized labels are the two tables' values for its CEO label and its WorldCover label, and both are shared classes |
| `Enrichment.EnrichComplete` | main.py:214-221 | no CEO row whose id was answered and whose label has a shared class is dropped |
| `Enrichment.JoinKeepsOrder` | main.py:214 | the joined rows are a subsequence of the CEO rows, in the same order |
| `Enrichment.DropKeepsOrder` | main.py:219-221 | the filter keeps the order of the joined rows |
| `Enrichment.EnrichKeepsOrder` | main.py:214-221 | the enriched rows are a subsequence of the CEO table, in order |
| `PyOrder.StrLess` | main.py:243-244 | Python's `<` on strings: it never holds between equal strings, and a proper prefix comes before the longer string |
| `PyOrder.PairLess` | main.py:243 | Python's `<` on `(value, class)` tuples: a smaller value always comes first, and nothing comes before a tuple with a smaller value |
| `PyOrder.NestedLess` | main.py:244 | Python's `<` on `(value, (class, class))` tuples: a smaller value always comes first, and nothing comes before a tuple with a smaller value |
| `PyOrder.StrLessIrreflexive` | main.py:243-244 | Python string `<` is irreflexive |
| `PyOrder.StrLessTransitive` | main.py:243-244 | Python string `<` is transitive |
| `PyOrder.StrLessTotal` | main.py:243-244 | any two different strings are ordered by Python's `<` one way or the other |
| `PyOrder.PairLessFacts` | main.py:243 | the `(value, class)` tuple order is a strict total order |
| `PyOrder.NestedLessFacts` | main.py:244 | the `(value, (class, class))` tuple order is a strict total order |
| `PyOrder.PairLessStrictOrder` | main.py:243 | the `(value, class)` order is irreflexive and transitive, which `max` needs |
| `PyOrder.NestedLessStrictOrder` | main.py:244 | the `(value, (class, class))` order is irreflexive and transitive, which `max` needs |
| `PyOrder.Greatest` | main.py:243-244 | the builtin `max` of a non-empty list, as a fold; its result is an element of the list |
| `PyOrder.GreatestIsMaximal` | main.py:243-244 | under a strict order, what Python `max` returns is a member of the list that no member exceeds |
| `PyOrder.Max` | main.py:243-244 | the loop of Python's `max`, which keeps the current best unless a later element is strictly greater, computes that fold |
| `Agreement.AgreedCount` | main.py:260-261 | the number of agreeing rows is at most the row count; it equals the row count exactly when every row agrees, and is 0 exactly when none does |
| `Agreement.AgreedCountAppend` | main.py:260 | the count of agreeing rows adds up over a concatenation |
| `Agreement.GetAccuracy` | main.py:259-261 | fails exactly on an empty table; otherwise it is agreeing rows / rows, lies in [0, 1], is 1 exactly when all rows agree and 0 exactly when none does |
| `Agreement.AgreementEntries` | main.py:232-234 | the agreement list has one entry per class, entry i being `(cf[i][i], class i)` |
| `Agreement.AgreementList` | main.py:232-234 | the loop builds the list of `(cf[i][i], class i)` for the nine classes, in class order |
| `Agreement.RowEntries` | main.py:238-242 | row i's part of the confusion list has one entry per column below n except column i |
| `Agreement.ConfusionEntries` | main.py:235-242 | the confusion list has 8 entries per row, 72 in all |
| `Agreement.ConfusionList` | main.py:235-242 | the nested loops build exactly the off-diagonal entries, row by row, skipping `j == i` |
| `Agreement.RowEntriesMembers` | main.py:238-242 | one row's part of the confusion list holds exactly its off-diagonal cells |
| `Agreement.ConfusionEntriesMembers` | main.py:237-242 | the confusion list holds exactly the cells with `i != j` |
| `Agreement.AgreedIsMostAgreed` | main.py:243 | `max` of the agreement list is a diagonal cell with the greatest value, ties going to the greatest class name |
| `Agreement.ConfusedIsMostConfused` | main.py:244 | `max` of the confusion list is an off-diagonal cell with the greatest value, ties going to the greatest (row class, column class) |
| `Agreement.ConfusedString` | main.py:245-246 | the text is the CEO class, then `" for "`, then the WorldCover class, and nothing else |
| `Agreement.ClassNamesPrefixFree` | main.py:47-57 | no shared class name is the beginning of another |
| `Agreement.ConfusedStringIdentifiesPair` | main.py:245-246 | two pairs of shared classes give the same text only when they are the same pair, so the text names the most confused cell |
| `Agreement.ConfusedTuple` | main.py:244-247 | the confused tuple keeps the cell's value, and its text is the row class, `" for "` and the column class |
| `Agreement.GenerateConfusionMatrix` | main.py:224-247 | the agreed tuple is `max` of the diagonal list; the confused tuple is the value and `"<ceo> for <wc>"` of `max` of the off-diagonal list (with the two lemmas above: the most agreed and the most confused cells) |
| `Agreement.ClassesDistinct` | main.py:47-57 | the nine shared class names are pairwise different |
| `Agreement.MostAgreedIsUnique` | main.py:243 | the name tie-break leaves exactly one most agreed cell |
| `Agreement.MostConfusedIsUnique` | main.py:244 | the pair tie-break leaves exactly one most confused cell |
| `Agreement.ZeroMatrixSummary` | main.py:232-247 | on an all-zero matrix the summary is "Wetland" and "Wetland for Water Bodies" |
| `Agreement.ScenarioAccuracy` | main.py:259-261 | for (Trees, Trees), (Trees, Shrubland), (Grassland, Grassland) the agreement is 2/3 |
| `Agreement.ScenarioMostAgreed` | main.py:243 | in that example's normalized matrix, Trees is the most agreed class; it wins the tie with Grassland by name |
| `Agreement.ScenarioMostConfused` | main.py:244 | in that example's normalized matrix, (Trees, Shrubland) is the most confused pair |
| `Agreement.ScenarioAgreed` | main.py:243 | for that matrix the agreed tuple is (1, "Trees") |
| `Agreement.ScenarioConfused` | main.py:244-247 | for that matrix the confused tuple is (1, "Trees for Shrubland") |
| `Agreement.ScenarioSummary` | main.py:224-261 | the example gives agreement 2/3, agreed (1, "Trees") and confused (1, "Trees for Shrubland") |
| `Photos.InBoundingBox` | main.py:293-296 | a point can be inside the bounds only when the south-west corner is south and west of the north-east corner |
| `Photos.SearchBox` | main.py:293-305 | a point is in the box around (lat, lon) exactly when it is at most `lat_const` from the centre in latitude and at most `lon_const` in longitude, bounds included |
| `Photos.SearchBoxSymmetric` | main.py:304-305 | the box is symmetric about the plot centre, and holds the centre exactly when both offsets are non-negative |
| `Photos.FindPlot` | main.py:300-302 | the first PSU row with the plot id, or None (the `IndexError`) exactly when no row has it |
| `Photos.Contains` | main.py:317-323 | Python's `sub in s` on strings: the empty string is in every string, and nothing longer than `s` is in it |
| `Photos.ContainsAt` | main.py:317-323 | Python's `sub in s` holds exactly when `sub` occurs at some position of `s` |
| `Photos.PhotoColumns` | main.py:317 | exactly the columns whose name contains "Url", in column order |
| `Photos.SecureUrls` | main.py:320-324 | every kept pair is (the column's value, the column), taken from the photo columns, with a value that is present and contains "https"; every such column is kept |
| `Photos.SecureUrlsKeepOrder` | main.py:320-324 | the kept URLs come in photo-column order |
| `Photos.InBox` | main.py:306-312 | the selection holds exactly the observations inside the box |
| `Photos.SelectInBox` | main.py:306-312 | the mask loop computes that selection, in table order |
| `Photos.Distance` | main.py:313-316 | the distance of an observation is `haversine` called with the plot's latitude and longitude first, then the observation's latitude and longitude, in the positions declared as (lon1, lat1, lon2, lat2) |
| `Photos.NearestIndex` | main.py:313-318 | the chosen row has the least distance among the rows in the box |
| `Photos.CleanUrls` | main.py:319-324 | the comprehension loop computes the secure URLs of the chosen row |
| `Photos.GetGlobePhotos` | main.py:299-325 | the result is NotFound when no PSU row has the plot id; otherwise an error when the offsets are undefined or the photo table is empty; otherwise NoPhotos exactly when no observation is in the box, else an in-box observation of least distance with its secure URLs and its coordinates |
| `Photos.NearbyScenario` | main.py:303-312 | around (10, 20) with the offsets of 50 m, the observation at (10.0001, 20.0001) is matched and the one at (10.01, 20.01) is not, whatever the distances |

## Left out

- The Streamlit page is not modelled: session state, selectors, metrics, the pie chart and the
  download buttons (main.py:334-521). It is presentation only.
- Data loading is not modelled: `get_data` and the GLOBE API call (main.py:115-124, 345). These
  are network I/O. The PSU rows, CEO rows and photo observations are inputs.
- The Earth Engine work is not modelled: `to_gee`, `reduceRegions`, `ee_to_df`, the Sentinel
  cloud mask and the image collections (main.py:127-134, 198-212, 264-290). They are calls
  into a remote service. The sampled result is an abstract `ObjectId → code` map, so it holds one
  code per id.
- The trigonometry of `haversine` and `get_latlon_spacing_constants` is not modelled
  (main.py:155-193). It is floating point. Both are function parameters of
  `Photos.GetGlobePhotos`.
- The `sklearn` confusion matrix and its column normalization are not modelled
  (main.py:225-230). It is a foreign library; the normalized 9×9 matrix is an input.
- The heatmap figure that `generate_confusion_matrix` also returns is not modelled
  (main.py:249-256), and neither are the folium map layers. They are rendering only.
- The CSV export `convert_df` is not modelled (main.py:328-331). It is a library serializer.
- Legend and colour tables are not modelled (main.py:27-45, 59-69, 287-290). They are used only
  for display.
- `Enrichment.Join`: when two CEO rows share an `ObjectId` and the raster answer also holds two
  rows for that id, `pd.merge` returns every pairing (four rows); the model's one-code-per-id
  map returns one joined row per CEO row (two rows). Earth Engine's `reduceRegions` gives one
  feature per input point, but the model does not prove that the answer has one row per id.
- Floating point is modelled as `real`: the normalized matrix, coordinates, distances and the
  agreement share. With `real` there is no NaN and no rounding. Raster codes are `int`;
  Python's float median `10.0` looks up like `10`.
- Every cell of the photo table is modelled as optional text. A present value that is not a
  string, on which the code's `"https" in url` would fail, is not modelled.
- `Photos.NearestIndex`: it always returns the first of equally near observations, which pandas'
  unstable sort does not promise. So `Photos.GetGlobePhotos` promises only that the chosen
  observation is one of least distance (`IsMatch`).
