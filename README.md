# Viabilidade Sobral: zoning rules and buildable-area arithmetic in Dafny

This project models the decision logic of a small building-viability
assistant for the city of Sobral. Given a lot and the zoning rule that
applies to it, the assistant tells a layperson what may be built. The
Dafny model covers:

- **The index calculator** (`Calculations`). `compute` takes a lot and a
  loosely typed rule record. It returns the occupancy (TO), permeability
  (TP) and floor-area (IA) limits as fractions and as square metres, and
  two ground-floor options: the standard setback envelope and the "Art.112"
  envelope, where one side setback is dropped when the rule allows
  attaching to one side. It also returns a tolerance-based occupancy check.
- **The application's rule helpers** (`AppRules`). These cover alias
  coalescing, number conversion, the typed views of a rule record and the
  built-in fallback rules. They also cover the parking count (rule
  interpretation, rounding, minimum, heuristics), the sanitary fallback and
  the layperson report.
- **The zone map** (`ZonesMap`). `load_zones` filters GeoJSON features into
  (sigla, polygon) pairs. The zone of a point is the first polygon in list
  order that contains it.
- **The street index** (`Streets`). This is the fail-safe loader and
  ingestion of street features, the lazily built index object, the nearest
  street within a radius, the process-wide singleton and `find_street`.
- **The typed rule record** (`ZoneRulesRepository`). This is `ZoneRule.get`
  with its alias remapping, and the conversion of a database row that
  rejects missing required fields.

Python values are modelled by `PyValue.Value`: None, bool, int, float (as
`real`), str, list and dict. Dicts are `map<string, Value>`. Truthiness,
`dict.get`, `str.strip`, `str.lower`, `str()` and a decimal-only `float()`
are written out in `PyValue`. The geometry libraries (shapely and pyproj)
become one record of functions, `Geometry.GeoLib`:

- `shape` (GeoJSON to geometry, or failure);
- `isEmpty`;
- `contains` (polygon contains point);
- `query` (the candidate positions the spatial tree returns for a point and
  radius);
- `distanceM` (metric distance, or failure).

Everything the model proves holds for every such library.

Some behaviour of the code that the model keeps as it is:

- Keys are matched verbatim. There is no case-insensitive or
  punctuation-insensitive fallback (core/calculations.py:33, app.py:82).
- A missing TO, TP or IA becomes 0 in `compute`
  (core/calculations.py:119-121), so its area limit is 0. The
  application's typed properties give None for it instead (app.py:157-166).
- A missing or zero frontage or depth gives a 0 m² envelope
  (core/calculations.py:61-62).
- A street without a name gets the empty name `""` (core/streets.py:131).
- Coordinates are never range-checked. A radius of 0 or less gives no hit
  and no error (core/streets.py:159-161).
- `load_zones` rejects nothing about a polygon's shape. It skips features
  without a sigla or geometry (core/zones_map.py:27-33). Besides a missing
  or empty `features` and an empty result, it fails on a feature that is not
  a dict, on truthy `properties` that are not a dict (`.get` on them raises),
  and on a geometry the geometry library rejects (core/zones_map.py:27-34).

## Model

| member | source | states |
|---|---|---|
| Calculations.SafeFloat | core/calculations.py:18-26 | None, blank text, lists and dicts give None; ints and floats convert exactly; every other value (non-blank text, bools) gives what `float()` gives, None when it raises |
| Calculations.PickFirstSpec | core/calculations.py:37-42 | the result is the conversion of the first key, in argument order, whose value converts; it is None exactly when no key's value converts |
| Calculations.PctToFraction | core/calculations.py:45-49 | None stays None; a value above 1.5 is divided by 100; 1.5 and below are unchanged |
| Calculations.AreaBuildable | core/calculations.py:52-65 | never negative; 0 when the frontage or the depth is missing or zero |
| Calculations.AreaBuildableWhenSetbacksFit | core/calculations.py:61-65 | when the side setbacks fit in the frontage and the front and back ones in the depth, the envelope is (frontage − left − right) × (depth − front − back) |
| Calculations.AreaBuildableNoRoom | core/calculations.py:61-65 | side setbacks that take the whole frontage, or front and back setbacks that take the whole depth, give a 0 envelope |
| Calculations.AreaBuildableMonotoneInLeft | core/calculations.py:61-65 | a smaller left setback never gives a smaller envelope |
| Calculations.AreaBuildableWithinLot | core/calculations.py:61-65 | with non-negative setbacks the envelope fits in frontage × depth |
| Calculations.GroundArea | core/calculations.py:109-112 | with no `ground_area_m2` and a falsy `area_terreo_m2` the ground-floor area is 0 |
| Calculations.Compute | core/calculations.py:90-174 | fails with the lot-area error exactly when the lot area (new name, then legacy) is missing or ≤ 0; fails on a ground area only when `float()` rejects it; otherwise returns the envelope of the settled lot area, ground area, effective rule and dimensions |
| Calculations.GroundMaximaBounded | core/calculations.py:143-154 | each ground-floor maximum is at most the TO area and at most its envelope, and equals one of them |
| Calculations.Art112Envelope | core/calculations.py:132-154 | without attach permission the Art.112 option equals the standard one; with it and a non-negative side setback it is at least as large, in envelope and in ground-floor maximum |
| Calculations.IndexAreas | core/calculations.py:115-125 | the TO, TP and IA areas are lot area × fraction or ratio, IA taken unscaled; the percentages are the fractions × 100 |
| Calculations.MissingIndexIsZero | core/calculations.py:119-121 | a missing TO, TP or IA gives a 0 area limit and a 0 index |
| Calculations.OccupancyCheck | core/calculations.py:171-173 | `to_ok` holds iff the ground-floor area ≤ TO area + 1e-9 |
| Calculations.WorkedRuleValues | core/calculations.py:115-132 | a rule with `to_max_pct` 0.5, setbacks 3 / 2 / 1.5 m and attach permission gives TO 0.5, those setbacks and the permission |
| Calculations.WorkedLot | core/calculations.py:115-154 | a 10 m × 30 m lot of 300 m² under that rule: standard envelope 175 m², Art.112 envelope 212.5 m², TO area 150 m², both ground-floor maxima 150 m², occupancy check passed for 150 m² |
| Calculations.PercentAndFractionAgree | core/calculations.py:45-49 | an occupancy written as 60 and one written as 0.6 give the same fraction |
| Calculations.FirstAliasWins | core/calculations.py:115 | a number under `to_max_pct` decides TO whatever the later aliases hold |
| Calculations.NoRuleMeansNoLimits | core/calculations.py:29-31 | with no rule every index area is 0, both options coincide, and the ground-floor maximum is 0 |
| AppRules.CoalesceSpec | app.py:79-84 | the value of the first key, in argument order, that is present and not None; the default when no key is |
| AppRules.SafeFloat | app.py:107-113 | None and "" give None; ints and floats convert exactly; lists and dicts give None; every other value gives what `float()` gives, None when it raises |
| AppRules.SafeFloatsAgree | app.py:107-113 | the application's conversion and the calculator's conversion agree on every value |
| AppRules.Clamp | app.py:115-116 | within [lo, hi] when lo ≤ hi; identity inside the range; lo or hi outside it; lo when lo > hi |
| AppRules.AreaBuildableEstimate | app.py:118-132 | each output is None exactly when its index is None, else lot area × index |
| AppRules.EstimateIgnoresFloors | app.py:118-132 | the number of floors does not change the estimate |
| AppRules.AttachDefaultsToFalse | app.py:184-187 | without either attach alias the rule does not allow attaching to one side |
| AppRules.NotesAreStripped | app.py:189-191 | the notes are "" without either alias, and have no leading or trailing whitespace |
| AppRules.ToMaxReadsRaw | app.py:160-162 | the typed TO is the stored number, not percent-converted; a record with no TO alias gives None here while `compute` reads its TO as 0 |
| AppRules.FetchZoneRule | app.py:228-254 | a fetched non-empty row is used as it is; otherwise the fallback table's entry when there is one, else the "no rule" record naming the zone and use |
| AppRules.FallbackNamesRequest | app.py:248-254 | without a fetched row the record names the requested zone and use |
| AppRules.FallbackZapSingleFamily | app.py:45-60 | the built-in ZAP single-family rule as read through every typed property |
| AppRules.FallbackZapMultiFamily | app.py:61-73 | the built-in ZAP multi-family rule as read through every typed property |
| AppRules.UnknownPairHasNoIndices | app.py:248-253 | a pair outside the table gets no TO, TP, IA or height, and the "no rule found" note |
| AppRules.UnknownPairHasNoSetbacks | app.py:248-253 | a pair outside the table gets no setbacks and no permission to attach |
| AppRules.Ceil | app.py:309 | `math.ceil`: the least integer not below the value |
| AppRules.Trunc | app.py:314 | `int()` of a float truncates toward zero |
| AppRules.RoundHalfEven | app.py:307 | `round()`: the nearest integer, ties to the even one |
| AppRules.EstimatedUnits | app.py:293 | at least 1 and at least area / 60, and either 1 or less than area / 60 + 1: exactly `max(1, ceil(area / 60))` |
| AppRules.PerUnitFactor | app.py:295 | the stored spaces-per-unit when it is a non-zero number, else 1 |
| AppRules.AreaRatioVagas | app.py:285-289 | one space per `ratio` m² for a positive ratio, 0 otherwise |
| AppRules.RoundCount | app.py:303-309 | "floor" rounds down, "round" to the nearest, every other mode up |
| AppRules.Settle | app.py:311-314 | never below the rounded count nor below the integer part of the minimum; unchanged when there is no minimum or it is not larger, the minimum's integer part when it is larger |
| AppRules.InterpretRule | app.py:278-301 | the step-by-step reading of a rule's type, ratio, per-unit factor and fixed count gives the specified raw count; a given unit count is reported as is |
| AppRules.CalcParkingV2 | app.py:259-332 | equals the specified result; with a fetched rule the source is its table and a count ≥ the minimum's integer part exists; without one the source is "fallback" |
| AppRules.FallbackHeuristics | app.py:320-331 | single-family: 1 space up to 200 m², else 2; multi-family: exactly the estimated unit count (at least 1 and at least area / 60); other uses: no count |
| AppRules.PerM2WithoutRatio | app.py:285-289 | a per-m² rule without a positive ratio counts 0 before the minimum |
| AppRules.PerM2RoundsUp | app.py:282-309 | with the default rounding a per-m² rule gives at least area / ratio spaces |
| AppRules.PerM2NoExtraSpace | app.py:279-314 | with the default rounding, no minimum entry and a non-negative area, a per-m² rule gives less than area / ratio + 1 spaces |
| AppRules.CeilingSettles | app.py:303-314 | rounding a non-negative quotient up and settling it against a zero minimum adds less than one space |
| AppRules.DefaultRoundingIsCeil | app.py:282 | without a rounding entry the mode is "ceil" |
| AppRules.NoMinimumIsZero | app.py:281 | without a minimum entry the minimum is 0 |
| AppRules.MinimumRespected | app.py:281-314 | the count is at least the minimum's integer part and at least the rounded raw count; with no minimum entry it is not negative |
| AppRules.CalcSanitary | app.py:337-365 | a fetched rule is returned as it is, under its table; otherwise "fallback" with "not applicable" exactly for the residential uses and "no rule" for the others |
| AppRules.AttachMessage | app.py:392-396 | each of the four messages is chosen exactly for its combination of use and permission |
| AppRules.TargetOkByIa | app.py:383-386 | None unless both target and IA total exist; then target ≤ total + 1e-9 |
| AppRules.ReportAreas | app.py:374-389 | the lot area and target are the inputs'; floors assumed is the input when that is ≥ 1, else 1; each area is None exactly when its index is, else lot area × index; the IA target check as above |
| AppRules.BuildLeigoReport | app.py:370-426 | the report carries the inputs' zone, road class, use code and label; the rule's typed front, side and back setbacks, attach flag, the message for the input's use, the typed indices and notes; and the report areas |
| AppRules.BuiltAreaForParking | app.py:561-569 | the target when there is one, else 70 % of the IA total, else the lot area |
| AppRules.ParkingAreaWithinIa | app.py:561-569 | without a target the area used for parking does not exceed a non-negative IA total |
| ZonesMap.FeatureZone | core/zones_map.py:26-34 | a single feature either raises a feature or geometry error, is skipped, or gives a zone |
| ZonesMap.LoadZones | core/zones_map.py:18-39 | equals the specified loader; the "no features" error exactly when the input is not a dict or its features are missing or empty; a result is never empty |
| ZonesMap.CollectLoop | core/zones_map.py:25-34 | the loop equals the specified collection; its only errors are a bad feature or a bad geometry |
| ZonesMap.GatherStopsAtError | core/zones_map.py:25-34 | the first error ends the load: later features do not change the outcome |
| ZonesMap.GatherKeepsOrder | core/zones_map.py:25-34 | zones gathered from two runs of steps are concatenated in order |
| ZonesMap.CollectKeepsOrder | core/zones_map.py:25-34 | surviving features keep their input order across any split of the feature list |
| ZonesMap.SkippedFeature | core/zones_map.py:27-33 | a feature with no sigla under `sigla`, `SIGLA` or `zona`, or no geometry, is skipped whatever the geometry library does |
| ZonesMap.KeptFeature | core/zones_map.py:27-34 | a feature with a sigla and a geometry the library accepts gives the stripped sigla and that shape |
| ZonesMap.FeatureSiglaStripped | core/zones_map.py:34 | a stored sigla has no leading or trailing whitespace |
| ZonesMap.SiglasStripped | core/zones_map.py:25-34 | every sigla of a loaded zone list is stripped |
| ZonesMap.BlankSiglaKept | core/zones_map.py:28-34 | a sigla of a single space is truthy, so the feature is kept with the empty sigla |
| ZonesMap.ZoneFromLatLon | core/zones_map.py:42-47 | None iff no zone contains (lon, lat); otherwise the sigla of the first zone in list order that does |
| Streets.LoadFeatures | core/streets.py:93-106 | a missing file gives []; an unreadable one is the only error; a FeatureCollection gives its `features` when that is a list, else []; a bare list is returned unchanged; anything else gives [] |
| Streets.FirstTruthySpec | core/streets.py:126-133 | an `or` chain over keys gives the first truthy value, else the last operand |
| Streets.TypeOfStreet | core/streets.py:133-138 | the type is None iff neither `type` nor `tipo` is truthy; else the stripped text of the first truthy one |
| Streets.NameOfStreet | core/streets.py:126-137 | the name is the stripped text of the first truthy of `name`, `nome`, `rua`, `logradouro`, else "" |
| Streets.Index | core/streets.py:82-90 | a missing or unreadable file gives an empty index |
| Streets.IngestKeepsOrder | core/streets.py:108-144 | ingestion keeps input order across any split of the feature list |
| Streets.IngestOneShape | core/streets.py:113-139 | a kept feature is a dict with a truthy geometry; the street's geometry is the library's non-empty shape of it, and its name and type are those of the feature's properties (none when they are not a dict) |
| Streets.KeptStreet | core/streets.py:113-139 | conversely, a dict feature with a truthy geometry whose shape is non-empty is kept with its properties' name and type, alone and in place within any feature list |
| Streets.KeptSnoc | core/streets.py:112-137 | one more loop turn keeps the earlier streets, then its own street if any |
| Streets.IngestedNonEmpty | core/streets.py:118-120 | no ingested geometry is empty |
| Streets.SkippedWithoutGeometry | core/streets.py:114-116 | a non-dict feature or one without a truthy geometry is skipped |
| Streets.MetaStripped | core/streets.py:136-139 | the stored name and type have no leading or trailing whitespace |
| Streets.BestIsFirstMinimum | core/streets.py:182-190 | the selected distance is the least measured one, and strictly less than every measured one before it, so the first wins ties |
| Streets.BestNoneIff | core/streets.py:182-193 | nothing is selected iff no candidate could be measured |
| Streets.SelectBest | core/streets.py:182-190 | the loop selects the specified first minimum |
| Streets.Within | core/streets.py:192-197 | an answer is the selected first minimum and lies within the radius; no answer only when nothing was selected or the selection is beyond the radius |
| Streets.WithinIsClosest | core/streets.py:182-197 | no answer iff nothing was measured or the least distance exceeds the radius; an answer is the least distance, at the first candidate that has it |
| Streets.NearestHit | core/streets.py:156-204 | no hit for an empty index or a radius ≤ 0; a hit is within the radius |
| Streets.NearestHitIsClosest | core/streets.py:175-204 | no hit iff nothing was measured or the least distance exceeds the radius; a hit is the least distance, the first candidate at it, and carries that candidate's metadata |
| Streets.IngestFeatures | core/streets.py:108-144 | the loop's geometry list and metadata table are those of the specified ingestion |
| Streets.StreetsIndex.constructor | core/streets.py:68-73 | a fresh index is empty and not built |
| Streets.StreetsIndex.Build | core/streets.py:76-91 | afterwards the index is built and holds the ingestion of the loaded file (empty on failure) |
| Streets.StreetsIndex.Ingest | core/streets.py:108-144 | the index holds the ingestion of the features; the tree and built flags are untouched |
| Streets.StreetsIndex.Nearest | core/streets.py:147-206 | builds first if needed (otherwise the contents are unchanged), then returns the specified nearest hit |
| Streets.StreetsService.constructor | core/streets.py:244 | the singleton starts unset |
| Streets.StreetsService.GetStreetsIndex | core/streets.py:247-252 | the first call builds a fresh index from the default file and keeps it; later calls return that same index |
| Streets.StreetsService.FindStreet | core/streets.py:255-270 | the nearest hit of the singleton index, mapped to its result dict |
| Streets.HitRecord | core/streets.py:262-268 | None iff there is no hit; otherwise a dict of exactly `name`, `type`, `distance_m` copied from the hit, with `type` None iff the hit has none |
| ZoneRulesRepository.GetRemapsAliases | core/zone_rules_repository.py:21-30 | the five aliases read their target fields |
| ZoneRulesRepository.GetVerbatim | core/zone_rules_repository.py:29-30 | any other key reads the field of that exact name, or the default when there is none |
| ZoneRulesRepository.AttrsAreFields | core/zone_rules_repository.py:9-18 | the record's attributes are exactly its eight fields |
| ZoneRulesRepository.GetAnswersFieldOrDefault | core/zone_rules_repository.py:21-30 | `get` returns one of the record's fields or the default, never anything else |
| ZoneRulesRepository.ComputeReadsRecord | core/calculations.py:29-34 | `compute` reads such a record through its attributes: TO and TP percent-normalised, IA and setbacks as stored, no side attachment |
| ZoneRulesRepository.ReadFieldsSpec | core/zone_rules_repository.py:54-58 | reading required fields succeeds iff every one converts, giving them in order; otherwise it names the first that fails |
| ZoneRulesRepository.RowToRule | core/zone_rules_repository.py:60-69 | a converted record stores `str()` of the two codes and the six numbers in field order |
| ZoneRulesRepository.GetZoneRule | core/zone_rules_repository.py:48-69 | no rows gives None, and only no rows does; otherwise the conversion of the first row, or its error |
| ZoneRulesRepository.RowToRuleSpec | core/zone_rules_repository.py:54-68 | the conversion fails iff a required field is missing, None or not a number, naming the first such field; each stored number is `float()` of its field |
| ZoneRulesRepository.MissingFieldNamed | core/zone_rules_repository.py:54-58 | a None field after fields that convert raises the missing-field error naming it |
| ZoneRulesRepository.ReadFieldsFirstError | core/zone_rules_repository.py:54-68 | the error raised is the one of the first failing field |
| ZoneRulesRepository.MissingCodesBecomeNone | core/zone_rules_repository.py:61 | a row without `zone_sigla` stores the text "None" |

## Left out

- PyValue.LowerChar: lowers only the ASCII and Latin-1 capitals; Python's `str.lower` also covers the rest of Unicode, which the rule keys and mode names compared here never need.
- The Streamlit interface (`render_leigo`, `render_map`, `render_debug`, `main`) and the `_fmt_*` formatters are presentation only. The one decision `main` makes, the built area used for parking, is modelled as `AppRules.BuiltAreaForParking`.
- Supabase access is network I/O. This covers `get_supabase`, `sb_select_one`, `sb_select_many`, all of core/supabase_client.py, and the query in `get_zone_rule`.
- The table loops of `fetch_zone_rule`, `calc_parking_v2` and `calc_sanitary` are left out for the same reason. Their outcome, the first non-empty row found and the table it came from, is an input to the model.
- An exception raised while interpreting a fetched parking rule (which would send the code on to the next table) is not modelled, since the tables are not. An example is `math.ceil` of an infinite count.
- Reading files and parsing JSON are I/O. The model starts from the parsed value. A file that cannot be read or parsed is `Streets.StreetsFile.Unreadable`.
- The geometry libraries are abstract (`Geometry.GeoLib`): the WGS84 to UTM 24S projection, shapely's `shape`, `is_empty`, prepared `contains`, and point-to-line distance.
- The STRtree and its bounding-box prefilter in degrees (with `cos` of the latitude) are also abstract. The candidates are `GeoLib.query`, so the model proves the selection rule for whatever candidates the tree returns.
- Street metadata is keyed by `id(geom)` in the code and by the geometry's position in the index in the model. The two agree because each ingested geometry is a distinct object.
- `streets_health` is diagnostics over shapely bounds and is not part of this model.
- PyValue.Str renders a list or a dict as "[...]" or "{...}", not as Python's `str()` would. The core only applies `str()` to the texts and numbers it reads.
- ZonesMap.LoadZones: a truthy `features` that is a dict or a text gives `NotAFeatureList`. Python would iterate its keys or characters and fail on the first one (not a dict), so both raise, but with a different exception.
- The street index assumes the spatial tree's query answers the stored geometries themselves, as shapely 1.x does. Under shapely 2.x it answers positions, and reprojecting those in core/streets.py would fail for every candidate (no hit). The model follows the 1.x reading.
- Float semantics are not modelled. Floats are `real`. `float()` accepts only decimal text with an optional sign and point: no exponents, `inf` or `nan`. NaN comparisons and float rounding errors are not captured.
- AppRules.RoundHalfEven: Python's `round()` is modelled on exact reals, so halfway cases that a binary float would not represent exactly are not reproduced.
- Dict insertion order is not modelled, because dicts are maps. Nothing in the core depends on it.
- ZoneRulesRepository.GetVerbatim: `getattr` on a name that is not a field (a method such as `get`, or a dunder attribute) returns that attribute in Python. The model returns the default.
- `ZoneRule.to_dict` in app.py (a copy of the raw dict) is not modelled. Copying a value changes nothing in a value model.
- The `details` text of `calc_parking_v2` with a fetched rule is kept as its fields (type, area, units, minimum) rather than as formatted text.
- Streets.StreetsIndex.Nearest: a `float()` of the radius or the coordinates that raises is not modelled, because they are numbers here.
- The spatial tree is modelled by a flag. The index invariant says the flag is set exactly when there are geometries, as `build` guarantees.
- The process-wide singleton is modelled as a `StreetsService` object that holds it. Concurrent first calls are not modelled.
