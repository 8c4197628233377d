/**
  The zoning map: the zone polygons read from a parsed GeoJSON document, and
  the lookup of the zone containing a point.
*/
module ZonesMap {
  import opened Wrappers
  import opened PyValue
  import opened Geometry
  import Sequences

  /** A zone polygon with its acronym (`sigla`). */
  datatype ZoneFeature = ZoneFeature(sigla: string, geom: Shape)

  /** Why `load_zones` raises. */
  datatype ZonesError =
    | NoFeatures        // RuntimeError: not a dict, or `features` missing or empty
    | NotAFeatureList   // iterating `features` fails (it is not a list)
    | NotAFeature       // AttributeError: a feature or its properties is not a dict
    | BadGeometry       // shape() raised on a feature's geometry
    | NoZones           // RuntimeError: no feature had a sigla and a geometry

  /** The acronym of a feature's properties: `sigla`, then `SIGLA`, then `zona`. */
  function SiglaOf(props: Dict): Value {
    OrChain([Get(props, "sigla"), Get(props, "SIGLA"), Get(props, "zona")])
  }

  /** One loop turn of `load_zones`: Ok(None) for a skipped feature. */
  function FeatureZone(geo: GeoLib, f: Value): (r: Result<Option<ZoneFeature>, ZonesError>)
    ensures r.Err? ==> r.error == NotAFeature || r.error == BadGeometry
  {
    if !f.VDict? then Err(NotAFeature)
    else
      var p := Get(f.entries, "properties");
      var props := if Truthy(p) then p else VDict(map[]);
      if !props.VDict? then Err(NotAFeature)
      else
        var sigla := SiglaOf(props.entries);
        if !Truthy(sigla) then Ok(None)
        else
          var g := Get(f.entries, "geometry");
          if !Truthy(g) then Ok(None)
          else
            match geo.shape(g)
            case None => Err(BadGeometry)
            case Some(s) => Ok(Some(ZoneFeature(SiglaText(sigla), s)))
  }

  /** The text stored for a sigla: `str(sigla).strip()`. */
  function SiglaText(sigla: Value): string {
    Strip(Str(sigla))
  }

  /** The outcome of one loop turn: a kept zone, a skipped feature, or an error. */
  type Step = Result<Option<ZoneFeature>, ZonesError>

  /** The zones kept by a run of loop turns, in their order; the first error
      stops the run. */
  function Gather(steps: seq<Step>): Result<seq<ZoneFeature>, ZonesError> {
    if steps == [] then Ok([])
    else
      match Gather(steps[..|steps| - 1])
      case Err(e) => Err(e)
      case Ok(acc) =>
        match steps[|steps| - 1]
        case Err(e) => Err(e)
        case Ok(None) => Ok(acc)
        case Ok(Some(z)) => Ok(acc + [z])
  }

  /** One loop turn of `load_zones`, as a function of the feature. */
  function ZoneStep(geo: GeoLib): Value -> Step {
    f => FeatureZone(geo, f)
  }

  /** The loop turn of each feature. */
  function Steps(geo: GeoLib, fs: seq<Value>): (steps: seq<Step>)
    ensures |steps| == |fs|
    ensures forall i :: 0 <= i < |fs| ==> steps[i] == FeatureZone(geo, fs[i])
  {
    Sequences.Map(ZoneStep(geo), fs)
  }

  /** The zones collected from a run of features. */
  function CollectZones(geo: GeoLib, fs: seq<Value>): Result<seq<ZoneFeature>, ZonesError> {
    Gather(Steps(geo, fs))
  }

  /** The `features` member, when the document is a dict holding a truthy one. */
  function FeaturesOf(obj: Value): Option<Value> {
    if obj.VDict? && Truthy(Get(obj.entries, "features")) then Some(Get(obj.entries, "features")) else None
  }

  /** `load_zones` on an already parsed document. */
  function Zones(geo: GeoLib, obj: Value): Result<seq<ZoneFeature>, ZonesError> {
    match FeaturesOf(obj)
    case None => Err(NoFeatures)
    case Some(feats) =>
      if !feats.VList? then Err(NotAFeatureList)
      else
        match CollectZones(geo, feats.items)
        case Err(e) => Err(e)
        case Ok(zs) => if zs == [] then Err(NoZones) else Ok(zs)
  }

  /** `load_zones` after the JSON parse: fails without a feature list,
      collects the zones, and fails when none survives. */
  method LoadZones(geo: GeoLib, obj: Value) returns (r: Result<seq<ZoneFeature>, ZonesError>)
    ensures r == Zones(geo, obj)
    ensures r.Err? && r.error == NoFeatures <==> !obj.VDict? || !Truthy(Get(obj.entries, "features"))
    ensures r.Ok? ==> |r.value| > 0
  {
    if !obj.VDict? || !Truthy(Get(obj.entries, "features")) {
      return Err(NoFeatures);
    }
    var feats := Get(obj.entries, "features");
    if !feats.VList? {
      return Err(NotAFeatureList);
    }
    var collected := CollectLoop(geo, feats.items);
    if collected.Err? {
      return Err(collected.error);
    }
    if collected.value == [] {
      return Err(NoZones);
    }
    return Ok(collected.value);
  }

  /** The loop of `load_zones`: walks the features, appending the zone of
      each one that has a sigla and a geometry and skipping the others; the
      first feature that raises ends the walk with its error. */
  method CollectLoop(geo: GeoLib, fs: seq<Value>) returns (r: Result<seq<ZoneFeature>, ZonesError>)
    ensures r == CollectZones(geo, fs)
    ensures r.Err? ==> r.error == NotAFeature || r.error == BadGeometry
  {
    ghost var steps := Steps(geo, fs);
    var out: seq<ZoneFeature> := [];
    var i := 0;
    while i < |fs|
      invariant 0 <= i <= |fs|
      invariant Gather(steps[..i]) == Ok(out)
    {
      assert steps[..i + 1][..i] == steps[..i];
      var step := FeatureZone(geo, fs[i]);
      assert step == steps[i];
      if step.Err? {
        GatherStopsAtError(steps, i + 1);
        return Err(step.error);
      }
      if step.value.Some? {
        out := out + [step.value.value];
      }
      i := i + 1;
    }
    assert steps[..i] == steps;
    return Ok(out);
  }

  /** An error in the first `n` turns is the error of the whole run. */
  lemma {:induction false} GatherStopsAtError(steps: seq<Step>, n: nat)
    requires n <= |steps| && Gather(steps[..n]).Err?
    ensures Gather(steps) == Gather(steps[..n])
    decreases |steps| - n
  {
    if n < |steps| {
      assert steps[..n + 1][..n] == steps[..n];
      GatherStopsAtError(steps, n + 1);
    } else {
      assert steps[..n] == steps;
    }
  }

  /** Two runs back to back gather what each gathers, concatenated. */
  lemma {:induction false} GatherKeepsOrder(a: seq<Step>, b: seq<Step>)
    requires Gather(a).Ok? && Gather(b).Ok?
    ensures Gather(a + b) == Ok(Gather(a).value + Gather(b).value)
  {
    if b == [] {
      assert a + b == a;
      assert Gather(a).value + [] == Gather(a).value;
    } else {
      var b' := b[..|b| - 1];
      assert (a + b)[..|a + b| - 1] == a + b';
      assert (a + b)[|a + b| - 1] == b[|b| - 1];
      GatherKeepsOrder(a, b');
      var ga, gb := Gather(a).value, Gather(b').value;
      match b[|b| - 1]
      case Ok(Some(z)) =>
        assert ga + gb + [z] == ga + (gb + [z]);
      case _ =>
    }
  }

  /** The turns of two runs back to back are the turns of each. */
  lemma StepsConcat(geo: GeoLib, a: seq<Value>, b: seq<Value>)
    ensures Steps(geo, a + b) == Steps(geo, a) + Steps(geo, b)
  {
    Sequences.MapConcat(ZoneStep(geo), a, b);
  }

  /** Collecting two runs of features back to back is collecting each and
      concatenating: surviving features keep their input order. */
  lemma CollectKeepsOrder(geo: GeoLib, a: seq<Value>, b: seq<Value>)
    requires CollectZones(geo, a).Ok? && CollectZones(geo, b).Ok?
    ensures CollectZones(geo, a + b) == Ok(CollectZones(geo, a).value + CollectZones(geo, b).value)
  {
    StepsConcat(geo, a, b);
    GatherKeepsOrder(Steps(geo, a), Steps(geo, b));
  }

  /** Every zone gathered comes from a turn that kept it. */
  lemma {:induction false} GatheredFromSteps(steps: seq<Step>)
    requires Gather(steps).Ok?
    ensures forall z :: z in Gather(steps).value ==> Ok(Some(z)) in steps
  {
    if steps != [] {
      var init := steps[..|steps| - 1];
      GatheredFromSteps(init);
      assert forall s :: s in init ==> s in steps;
    }
  }

  /** A feature without a sigla under any alias, or without a geometry, is
      skipped rather than fatal. */
  lemma SkippedFeature(f: Value)
    requires f.VDict?
    requires var p := Get(f.entries, "properties"); !Truthy(p) || p.VDict?
    requires var p := Get(f.entries, "properties");
      (p.VDict? && Truthy(p) && !Truthy(SiglaOf(p.entries))) || !Truthy(p) || !Truthy(Get(f.entries, "geometry"))
    ensures forall geo: GeoLib :: FeatureZone(geo, f) == Ok(None)
  {
  }

  /** A feature with a sigla and a geometry `shape()` accepts is kept, with
      the sigla's stripped text. */
  lemma KeptFeature(geo: GeoLib, f: Value, props: Dict)
    requires f.VDict? && Get(f.entries, "properties") == VDict(props) && |props| != 0
    requires Truthy(SiglaOf(props)) && Truthy(Get(f.entries, "geometry"))
    requires geo.shape(Get(f.entries, "geometry")).Some?
    ensures FeatureZone(geo, f)
            == Ok(Some(ZoneFeature(SiglaText(SiglaOf(props)), geo.shape(Get(f.entries, "geometry")).value)))
  {
    assert Truthy(VDict(props));
  }

  /** A kept feature's sigla is already stripped. */
  lemma FeatureSiglaStripped(geo: GeoLib, f: Value)
    requires FeatureZone(geo, f).Ok? && FeatureZone(geo, f).value.Some?
    ensures var z := FeatureZone(geo, f).value.value; Strip(z.sigla) == z.sigla
  {
    var p := Get(f.entries, "properties");
    var props := if Truthy(p) then p else VDict(map[]);
    var sigla := SiglaOf(props.entries);
    assert FeatureZone(geo, f).value.value.sigla == SiglaText(sigla);
    StripIdempotent(Str(sigla));
  }

  /** Every stored sigla is already stripped. */
  lemma SiglasStripped(geo: GeoLib, fs: seq<Value>)
    requires CollectZones(geo, fs).Ok?
    ensures forall z :: z in CollectZones(geo, fs).value ==> Strip(z.sigla) == z.sigla
  {
    var steps := Steps(geo, fs);
    GatheredFromSteps(steps);
    forall z | z in Gather(steps).value
      ensures Strip(z.sigla) == z.sigla
    {
      var i :| 0 <= i < |steps| && steps[i] == Ok(Some(z));
      FeatureSiglaStripped(geo, fs[i]);
    }
  }

  /** A sigla made only of whitespace is truthy, so the feature is kept, and
      its stored sigla is the empty text. */
  lemma BlankSiglaKept(geo: GeoLib, g: Value)
    requires Truthy(g) && geo.shape(g).Some?
    ensures var f := VDict(map["properties" := VDict(map["sigla" := VStr(" ")]), "geometry" := g]);
      FeatureZone(geo, f) == Ok(Some(ZoneFeature("", geo.shape(g).value)))
  {
    var props := map["sigla" := VStr(" ")];
    var f := VDict(map["properties" := VDict(props), "geometry" := g]);
    assert Get(f.entries, "properties") == VDict(props) && Get(f.entries, "geometry") == g;
    assert "sigla" in props && |props| != 0;
    assert SiglaOf(props) == VStr(" ");
    assert SiglaText(VStr(" ")) == "" by {
      SpaceStripsToEmpty();
    }
    KeptFeature(geo, f, props);
  }

  /** `zone_from_latlon`: the sigla of the first zone, in list order, whose
      polygon contains the point (longitude, latitude). */
  method ZoneFromLatLon(geo: GeoLib, zones: seq<ZoneFeature>, lat: real, lon: real) returns (r: Option<string>)
    ensures r.None? <==> forall i :: 0 <= i < |zones| ==> !geo.contains(zones[i].geom, Point(lon, lat))
    ensures r.Some? ==> exists i :: 0 <= i < |zones| && geo.contains(zones[i].geom, Point(lon, lat))
                                 && r.value == zones[i].sigla
                                 && forall j :: 0 <= j < i ==> !geo.contains(zones[j].geom, Point(lon, lat))
  {
    var p := Point(lon, lat);
    var i := 0;
    while i < |zones|
      invariant 0 <= i <= |zones|
      invariant forall j :: 0 <= j < i ==> !geo.contains(zones[j].geom, p)
    {
      if geo.contains(zones[i].geom, p) {
        return Some(zones[i].sigla);
      }
      i := i + 1;
    }
    return None;
  }
}
