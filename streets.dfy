/**
  The street index: street lines read from a parsed GeoJSON document, kept in
  a spatial tree, and the nearest street within a radius of a point. The
  index is built lazily, never fails (a broken file leaves it empty), and a
  process-wide instance serves the application's street lookups.
*/
module Streets {
  import opened Wrappers
  import opened PyValue
  import opened Geometry
  import Sequences

  /** The street file's path, relative to the repository root. */
  const RuasFile: string := "data/ruas.json"

  /** What reading the street file finds: no file, a file that cannot be read
      or is not JSON, or the parsed document. */
  datatype StreetsFile = Missing | Unreadable | Parsed(data: Value)

  /** The attributes kept for a street: its stripped name and its type. */
  datatype StreetMeta = StreetMeta(name: string, streetType: Option<string>)

  /** An ingested street: its geometry and its attributes. */
  datatype Street = Street(geom: Shape, meta: StreetMeta)

  /** The answer of `nearest`. */
  datatype StreetHit = StreetHit(name: string, streetType: Option<string>, distanceM: real)

  // ---------------------------------------------------------------------
  // Reading the features
  // ---------------------------------------------------------------------

  /** `_load_features`: the feature list of a FeatureCollection or of a bare
      list; anything else is no features. Err stands for the exception a
      file that cannot be read or parsed raises. */
  function LoadFeatures(file: StreetsFile): (r: Result<seq<Value>, string>)
    ensures r.Err? <==> file.Unreadable?
    ensures file.Missing? ==> r == Ok([])
    ensures file.Parsed? && file.data.VList? ==> r == Ok(file.data.items)
    ensures file.Parsed? && !file.data.VList? && !file.data.VDict? ==> r == Ok([])
    ensures file.Parsed? && file.data.VDict? && Get(file.data.entries, "type") != VStr("FeatureCollection") ==> r == Ok([])
    ensures file.Parsed? && file.data.VDict? && Get(file.data.entries, "type") == VStr("FeatureCollection") ==>
      var feats := Get(file.data.entries, "features");
      r == Ok(if feats.VList? then feats.items else [])
  {
    match file
    case Missing => Ok([])
    case Unreadable => Err("ruas.json could not be read or parsed")
    case Parsed(data) =>
      if data.VDict? && Get(data.entries, "type") == VStr("FeatureCollection") then
        // `data.get("features") or []`, kept only when it is a list
        var f := Get(data.entries, "features");
        var feats := if Truthy(f) then f else VList([]);
        if feats.VList? then Ok(feats.items) else Ok([])
      else if data.VList? then Ok(data.items)
      else Ok([])
  }

  /** The property keys tried for a street's name, in order. */
  const NameAliases: seq<string> := ["name", "nome", "rua", "logradouro"]

  /** The property keys tried for a street's type, in order. */
  const TypeAliases: seq<string> := ["type", "tipo"]

  /** `props.get(keys[0]) or props.get(keys[1]) or ... or last`. */
  function FirstTruthy(props: Dict, keys: seq<string>, last: Value): Value {
    if keys == [] then last
    else if Truthy(Get(props, keys[0])) then Get(props, keys[0])
    else FirstTruthy(props, keys[1..], last)
  }

  /** The name and type of a street's properties: the name is the first truthy
      name alias (else ""), the type the first truthy type alias (else none);
      both are stored as stripped text. */
  function MetaOf(props: Dict): StreetMeta {
    var name := FirstTruthy(props, NameAliases, VStr(""));
    var t := FirstTruthy(props, TypeAliases, VNone);
    StreetMeta(StrippedText(name), if t == VNone then None else Some(StrippedText(t)))
  }

  /** The alias chain answers its first truthy key's value, and `last` when
      no key holds a truthy value. */
  lemma {:induction false} FirstTruthySpec(props: Dict, keys: seq<string>, last: Value)
    ensures forall n :: 0 <= n < |keys| && Truthy(Get(props, keys[n]))
              && (forall i :: 0 <= i < n ==> !Truthy(Get(props, keys[i])))
              ==> FirstTruthy(props, keys, last) == Get(props, keys[n])
    ensures (forall i :: 0 <= i < |keys| ==> !Truthy(Get(props, keys[i])))
              ==> FirstTruthy(props, keys, last) == last
  {
    if keys != [] {
      FirstTruthySpec(props, keys[1..], last);
      assert forall i :: 1 <= i < |keys| ==> keys[i] == keys[1..][i - 1];
    }
  }

  /** A street has no type exactly when neither type alias holds a truthy
      value; a typed street's type is the first truthy one, stripped. */
  lemma TypeOfStreet(props: Dict)
    ensures MetaOf(props).streetType.None? <==> !Truthy(Get(props, "type")) && !Truthy(Get(props, "tipo"))
    ensures Truthy(Get(props, "type")) ==> MetaOf(props).streetType == Some(StrippedText(Get(props, "type")))
    ensures !Truthy(Get(props, "type")) && Truthy(Get(props, "tipo"))
            ==> MetaOf(props).streetType == Some(StrippedText(Get(props, "tipo")))
  {
    var t := FirstTruthy(props, TypeAliases, VNone);
    assert TypeAliases[1..] == ["tipo"] && ["tipo"][1..] == [];
    if Truthy(Get(props, "type")) {
      assert t == Get(props, "type");
    } else {
      assert t == FirstTruthy(props, ["tipo"], VNone);
    }
  }

  /** The first truthy name alias is the one stored; with none, the name is
      empty. */
  lemma NameOfStreet(props: Dict)
    ensures forall n :: 0 <= n < |NameAliases| && Truthy(Get(props, NameAliases[n]))
              && (forall i :: 0 <= i < n ==> !Truthy(Get(props, NameAliases[i])))
              ==> MetaOf(props).name == StrippedText(Get(props, NameAliases[n]))
    ensures (forall i :: 0 <= i < |NameAliases| ==> !Truthy(Get(props, NameAliases[i])))
              ==> MetaOf(props).name == ""
  {
    FirstTruthySpec(props, NameAliases, VStr(""));
  }

  /** `str(v).strip()`. */
  function StrippedText(v: Value): string {
    Strip(Str(v))
  }

  /** One loop turn of `_ingest`: the street a feature yields, or none when
      it has no geometry, `shape()` raises on it, or it is empty. */
  function IngestOne(geo: GeoLib, feat: Value): Option<Street> {
    if !feat.VDict? then None
    else
      var g := Get(feat.entries, "geometry");
      if !Truthy(g) then None
      else
        match geo.shape(g)
        case None => None
        case Some(s) =>
          if geo.isEmpty(s) then None
          else Some(Street(s, MetaOf(PropsOf(feat.entries))))
  }

  /** A feature's `properties` when they are a dict, else no attributes. */
  function PropsOf(feat: Dict): Dict {
    var p := Get(feat, "properties");
    if p.VDict? then p.entries else map[]
  }

  /** The streets kept by a run of loop turns, in their order. */
  function Kept(steps: seq<Option<Street>>): seq<Street> {
    if steps == [] then []
    else
      Kept(steps[..|steps| - 1])
      + (match steps[|steps| - 1] case None => [] case Some(st) => [st])
  }

  /** One loop turn of `_ingest`, as a function of the feature. */
  function IngestStep(geo: GeoLib): Value -> Option<Street> {
    feat => IngestOne(geo, feat)
  }

  /** The loop turn of each feature. */
  function IngestSteps(geo: GeoLib, fs: seq<Value>): (steps: seq<Option<Street>>)
    ensures |steps| == |fs|
    ensures forall i :: 0 <= i < |fs| ==> steps[i] == IngestOne(geo, fs[i])
  {
    Sequences.Map(IngestStep(geo), fs)
  }

  /** The streets `_ingest` keeps from a feature list. */
  function Ingested(geo: GeoLib, fs: seq<Value>): seq<Street> {
    Kept(IngestSteps(geo, fs))
  }

  /** The streets a build ends with: none when the file cannot be read. */
  function Index(geo: GeoLib, file: StreetsFile): (sts: seq<Street>)
    ensures file.Missing? || file.Unreadable? ==> sts == []
  {
    match LoadFeatures(file)
    case Err(_) => []
    case Ok(fs) => Ingested(geo, fs)
  }

  /** The geometries of a run of streets. */
  function ShapesOf(sts: seq<Street>): (gs: seq<Shape>)
    ensures |gs| == |sts| && forall k :: 0 <= k < |sts| ==> gs[k] == sts[k].geom
  {
    seq(|sts|, k requires 0 <= k < |sts| => sts[k].geom)
  }

  /** The attributes of a run of streets, keyed by each geometry's position
      (the source keys them by the geometry object's identity). */
  function MetaTable(sts: seq<Street>): (t: map<nat, StreetMeta>)
    ensures forall k: nat :: k in t <==> k < |sts|
    ensures forall k: nat :: k < |sts| ==> t[k] == sts[k].meta
  {
    map k: nat | k < |sts| :: sts[k].meta
  }

  /** Appending a street appends its geometry and adds its attributes under
      the next position. */
  lemma TablesSnoc(sts: seq<Street>, st: Street)
    ensures ShapesOf(sts + [st]) == ShapesOf(sts) + [st.geom]
    ensures MetaTable(sts + [st]) == MetaTable(sts)[|sts| := st.meta]
  {
  }

  /** One more loop turn keeps what the earlier ones kept, then its street. */
  lemma KeptSnoc(steps: seq<Option<Street>>, i: nat, one: Option<Street>)
    requires i < |steps| && steps[i] == one
    ensures Kept(steps[..i + 1]) == Kept(steps[..i]) + (if one.Some? then [one.value] else [])
  {
    assert steps[..i + 1][..i] == steps[..i];
  }

  // ---------------------------------------------------------------------
  // Properties of ingestion
  // ---------------------------------------------------------------------

  /** Two runs of loop turns back to back keep what each keeps, in order. */
  lemma {:induction false} KeptConcat(a: seq<Option<Street>>, b: seq<Option<Street>>)
    ensures Kept(a + b) == Kept(a) + Kept(b)
  {
    if b == [] {
      assert a + b == a;
    } else {
      var b' := b[..|b| - 1];
      assert (a + b)[..|a + b| - 1] == a + b';
      assert (a + b)[|a + b| - 1] == b[|b| - 1];
      KeptConcat(a, b');
    }
  }

  /** The turns of two runs back to back are the turns of each. */
  lemma IngestStepsConcat(geo: GeoLib, a: seq<Value>, b: seq<Value>)
    ensures IngestSteps(geo, a + b) == IngestSteps(geo, a) + IngestSteps(geo, b)
  {
    Sequences.MapConcat(IngestStep(geo), a, b);
  }

  /** Ingesting two feature lists back to back keeps each one's streets, in
      input order. */
  lemma IngestKeepsOrder(geo: GeoLib, a: seq<Value>, b: seq<Value>)
    ensures Ingested(geo, a + b) == Ingested(geo, a) + Ingested(geo, b)
  {
    IngestStepsConcat(geo, a, b);
    KeptConcat(IngestSteps(geo, a), IngestSteps(geo, b));
  }

  /** Every kept street comes from a turn that yielded it. */
  lemma {:induction false} KeptFromSteps(steps: seq<Option<Street>>)
    ensures forall st :: st in Kept(steps) ==> Some(st) in steps
  {
    if steps != [] {
      var init := steps[..|steps| - 1];
      KeptFromSteps(init);
      assert forall s :: s in init ==> s in steps;
    }
  }

  /** A street a feature yields has a non-empty geometry `shape()` built from
      the feature's truthy `geometry` member, and the name and type of the
      feature's properties. */
  lemma IngestOneShape(geo: GeoLib, feat: Value)
    requires IngestOne(geo, feat).Some?
    ensures var st := IngestOne(geo, feat).value;
      feat.VDict? && Truthy(Get(feat.entries, "geometry"))
      && geo.shape(Get(feat.entries, "geometry")) == Some(st.geom) && !geo.isEmpty(st.geom)
      && st.meta == MetaOf(PropsOf(feat.entries))
  {
  }

  /** Conversely, a dict feature whose truthy geometry gives a non-empty shape
      is kept, on its own and wherever it stands in a feature list. */
  lemma KeptStreet(geo: GeoLib, feat: Value, s: Shape, before: seq<Value>, after: seq<Value>)
    requires feat.VDict? && Truthy(Get(feat.entries, "geometry"))
    requires geo.shape(Get(feat.entries, "geometry")) == Some(s) && !geo.isEmpty(s)
    ensures IngestOne(geo, feat) == Some(Street(s, MetaOf(PropsOf(feat.entries))))
    ensures Ingested(geo, before + [feat] + after)
            == Ingested(geo, before) + [Street(s, MetaOf(PropsOf(feat.entries)))] + Ingested(geo, after)
  {
    IngestKeepsOrder(geo, before + [feat], after);
    IngestKeepsOrder(geo, before, [feat]);
    assert Ingested(geo, [feat]) == [Street(s, MetaOf(PropsOf(feat.entries)))] by {
      assert IngestSteps(geo, [feat]) == [IngestOne(geo, feat)];
      assert Kept([IngestOne(geo, feat)]) == Kept([]) + [Street(s, MetaOf(PropsOf(feat.entries)))];
    }
  }

  /** No ingested street has an empty geometry. */
  lemma IngestedNonEmpty(geo: GeoLib, fs: seq<Value>)
    ensures forall st :: st in Ingested(geo, fs) ==> !geo.isEmpty(st.geom)
  {
    var steps := IngestSteps(geo, fs);
    KeptFromSteps(steps);
    forall st | st in Kept(steps)
      ensures !geo.isEmpty(st.geom)
    {
      var i :| 0 <= i < |steps| && steps[i] == Some(st);
      IngestOneShape(geo, fs[i]);
    }
  }

  /** A feature that is not a dict, or whose geometry is falsy, is skipped. */
  lemma SkippedWithoutGeometry(geo: GeoLib, feat: Value)
    requires !feat.VDict? || !Truthy(Get(feat.entries, "geometry"))
    ensures IngestOne(geo, feat).None?
  {
  }

  /** Stored names and types are stripped. */
  lemma MetaStripped(props: Dict)
    ensures var m := MetaOf(props);
      Strip(m.name) == m.name && (m.streetType.Some? ==> Strip(m.streetType.value) == m.streetType.value)
  {
    StripIdempotent(Str(FirstTruthy(props, NameAliases, VStr(""))));
    StripIdempotent(Str(FirstTruthy(props, TypeAliases, VNone)));
  }

  // ---------------------------------------------------------------------
  // Picking the nearest candidate
  // ---------------------------------------------------------------------

  /** The distance to one candidate, given as a position in the stored
      geometries; none when measuring raises (the loop skips it), which is
      also what a position the tree does not hold gives. */
  function CandidateDistance(geo: GeoLib, geoms: seq<Shape>, k: nat, p: Point): Option<real> {
    if k < |geoms| then geo.distanceM(geoms[k], p) else None
  }

  /** The distances to the candidates, in the order the tree returns them. */
  function Distances(geo: GeoLib, geoms: seq<Shape>, cands: seq<nat>, p: Point): (ds: seq<Option<real>>)
    ensures |ds| == |cands|
    ensures forall j :: 0 <= j < |cands| ==> ds[j] == CandidateDistance(geo, geoms, cands[j], p)
  {
    seq(|cands|, j requires 0 <= j < |cands| => CandidateDistance(geo, geoms, cands[j], p))
  }

  /** The loop's `best`: the position and distance of the first measured
      candidate strictly closer than every one before it. */
  function Best(ds: seq<Option<real>>): (b: Option<(nat, real)>)
    ensures b.Some? ==> b.value.0 < |ds| && ds[b.value.0] == Some(b.value.1)
  {
    if ds == [] then None
    else
      var b := Best(ds[..|ds| - 1]);
      match ds[|ds| - 1]
      case None => b
      case Some(d) => if b.None? || d < b.value.1 then Some((|ds| - 1, d)) else b
  }

  /** `best` is no farther than any measured candidate, and strictly nearer
      than every candidate before it: on a tie the first one wins. */
  lemma {:induction false} BestIsFirstMinimum(ds: seq<Option<real>>)
    requires Best(ds).Some?
    ensures forall i :: 0 <= i < |ds| && ds[i].Some? ==> Best(ds).value.1 <= ds[i].value
    ensures forall i :: 0 <= i < Best(ds).value.0 && ds[i].Some? ==> Best(ds).value.1 < ds[i].value
  {
    var init := ds[..|ds| - 1];
    assert forall i :: 0 <= i < |init| ==> ds[i] == init[i];
    var b := Best(init);
    if b.Some? {
      BestIsFirstMinimum(init);
    } else {
      BestNoneIff(init);
    }
  }

  /** There is no `best` exactly when no candidate could be measured. */
  lemma {:induction false} BestNoneIff(ds: seq<Option<real>>)
    ensures Best(ds).None? <==> forall i :: 0 <= i < |ds| ==> ds[i].None?
  {
    if ds != [] {
      var init := ds[..|ds| - 1];
      BestNoneIff(init);
      assert forall i :: 0 <= i < |init| ==> ds[i] == init[i];
    }
  }

  /** The loop of `nearest` over the candidates. */
  method SelectBest(geo: GeoLib, geoms: seq<Shape>, cands: seq<nat>, p: Point) returns (best: Option<(nat, real)>)
    ensures best == Best(Distances(geo, geoms, cands, p))
  {
    ghost var ds := Distances(geo, geoms, cands, p);
    best := None;
    var j := 0;
    while j < |cands|
      invariant 0 <= j <= |cands|
      invariant best == Best(ds[..j])
    {
      assert ds[..j + 1][..j] == ds[..j];
      var k := cands[j];
      if k < |geoms| {
        var d := geo.distanceM(geoms[k], p);
        if d.Some? && (best.None? || d.value < best.value.1) {
          best := Some((j, d.value));
        }
      }
      j := j + 1;
    }
    assert ds[..j] == ds;
  }

  /** The attributes stored for a geometry position; the source's default
      `{}` reads as an empty name and no type. */
  function MetaAt(meta: map<nat, StreetMeta>, k: nat): StreetMeta {
    if k in meta then meta[k] else StreetMeta("", None)
  }

  /** The radius cutoff on the selected candidate: the first minimum when it
      lies within the radius, else nothing. */
  function Within(ds: seq<Option<real>>, radiusM: real): (w: Option<(nat, real)>)
    ensures w.Some? ==> w == Best(ds) && w.value.1 <= radiusM
    ensures w.None? ==> Best(ds).None? || Best(ds).value.1 > radiusM
  {
    match Best(ds)
    case None => None
    case Some((j, d)) => if d > radiusM then None else Some((j, d))
  }

  /** The cutoff answers nothing exactly when no candidate was measured or
      the least distance exceeds the radius; otherwise it answers the least
      distance at the first candidate that has it. */
  lemma WithinIsClosest(ds: seq<Option<real>>, radiusM: real)
    ensures Within(ds, radiusM).None? <==>
      (forall i :: 0 <= i < |ds| ==> ds[i].None?)
      || (exists i :: 0 <= i < |ds| && ds[i].Some? && ds[i].value > radiusM
            && forall i' :: 0 <= i' < |ds| && ds[i'].Some? ==> ds[i].value <= ds[i'].value)
    ensures Within(ds, radiusM).Some? ==>
      var (j, d) := Within(ds, radiusM).value;
      && j < |ds| && ds[j] == Some(d) && d <= radiusM
      && (forall i :: 0 <= i < |ds| && ds[i].Some? ==> d <= ds[i].value)
      && (forall i :: 0 <= i < j && ds[i].Some? ==> d < ds[i].value)
  {
    BestNoneIff(ds);
    var b := Best(ds);
    if b.Some? {
      BestIsFirstMinimum(ds);
      var (j, d) := b.value;
      if d > radiusM {
        assert 0 <= j < |ds| && ds[j].Some? && ds[j].value > radiusM;
      } else {
        forall i | 0 <= i < |ds| && ds[i].Some? && ds[i].value > radiusM
          ensures exists i' :: 0 <= i' < |ds| && ds[i'].Some? && ds[i].value > ds[i'].value
        {
          assert ds[j].Some? && ds[i].value > ds[j].value;
        }
      }
    }
  }

  /** What `nearest` answers for a built index. */
  function NearestHit(geo: GeoLib, geoms: seq<Shape>, meta: map<nat, StreetMeta>,
                      lat: real, lon: real, radiusM: real): (r: Option<StreetHit>)
    ensures geoms == [] || radiusM <= 0.0 ==> r.None?
    ensures r.Some? ==> r.value.distanceM <= radiusM
  {
    if geoms == [] || radiusM <= 0.0 then None
    else
      var p := Point(lon, lat);
      var cands := geo.query(geoms, p, radiusM);
      if cands == [] then None
      else
        match Within(Distances(geo, geoms, cands, p), radiusM)
        case None => None
        case Some((j, d)) =>
          var m := MetaAt(meta, cands[j]);
          Some(StreetHit(m.name, m.streetType, d))
  }

  /** A hit is the closest measured candidate, carries the attributes of the
      first candidate at that distance, and lies within the radius; there is
      no hit when no candidate could be measured or the closest is too far. */
  lemma NearestHitIsClosest(geo: GeoLib, geoms: seq<Shape>, meta: map<nat, StreetMeta>,
                            lat: real, lon: real, radiusM: real)
    requires geoms != [] && radiusM > 0.0
    ensures var p := Point(lon, lat);
      var cands := geo.query(geoms, p, radiusM);
      var ds := Distances(geo, geoms, cands, p);
      var r := NearestHit(geo, geoms, meta, lat, lon, radiusM);
      (r.None? <==> (forall i :: 0 <= i < |ds| ==> ds[i].None?)
                    || (exists i :: 0 <= i < |ds| && ds[i].Some? && ds[i].value > radiusM
                          && forall i' :: 0 <= i' < |ds| && ds[i'].Some? ==> ds[i].value <= ds[i'].value))
      && (r.Some? ==> exists j :: 0 <= j < |ds| && ds[j] == Some(r.value.distanceM)
                        && (forall i :: 0 <= i < |ds| && ds[i].Some? ==> r.value.distanceM <= ds[i].value)
                        && (forall i :: 0 <= i < j && ds[i].Some? ==> r.value.distanceM < ds[i].value)
                        && MetaAt(meta, cands[j]) == StreetMeta(r.value.name, r.value.streetType))
  {
    var p := Point(lon, lat);
    var cands := geo.query(geoms, p, radiusM);
    var ds := Distances(geo, geoms, cands, p);
    WithinIsClosest(ds, radiusM);
    var w := Within(ds, radiusM);
    if w.Some? {
      var (j, d) := w.value;
      var r := NearestHit(geo, geoms, meta, lat, lon, radiusM);
      assert r == Some(StreetHit(MetaAt(meta, cands[j]).name, MetaAt(meta, cands[j]).streetType, d));
      assert 0 <= j < |ds| && ds[j] == Some(r.value.distanceM);
    }
  }

  // ---------------------------------------------------------------------
  // The index
  // ---------------------------------------------------------------------

  /** The loop of `_ingest`: walks the features, appending each kept
      street's geometry and recording its attributes under the geometry's
      position. */
  method IngestFeatures(geo: GeoLib, features: seq<Value>)
      returns (gs: seq<Shape>, meta: map<nat, StreetMeta>)
    ensures gs == ShapesOf(Ingested(geo, features)) && meta == MetaTable(Ingested(geo, features))
  {
    ghost var steps := IngestSteps(geo, features);
    gs, meta := [], map[];
    ghost var sts: seq<Street> := [];
    var i := 0;
    while i < |features|
      invariant 0 <= i <= |features|
      invariant sts == Kept(steps[..i])
      invariant gs == ShapesOf(sts) && meta == MetaTable(sts)
    {
      var one := IngestOne(geo, features[i]);
      KeptSnoc(steps, i, one);
      if one.Some? {
        TablesSnoc(sts, one.value);
        meta := meta[|gs| := one.value.meta];
        gs := gs + [one.value.geom];
        sts := sts + [one.value];
      }
      i := i + 1;
    }
    assert steps[..i] == steps;
  }

  /** `StreetsIndex`: the stored geometries, whether the tree over them
      exists, their attributes keyed by position, and whether the index has
      been built. */
  class StreetsIndex {
    const ruasFile: string
    var hasTree: bool
    var geoms: seq<Shape>
    var metaById: map<nat, StreetMeta>
    var built: bool

    /** The tree exists exactly when there are geometries, and every
        geometry has its attributes. */
    ghost predicate Valid()
      reads this
    {
      hasTree == (geoms != []) && forall k: nat :: k in metaById <==> k < |geoms|
    }

    /** True when the index holds exactly the given streets. */
    ghost predicate Holds(sts: seq<Street>)
      reads this
    {
      geoms == ShapesOf(sts) && metaById == MetaTable(sts)
    }

    constructor(ruasFile: string)
      ensures this.ruasFile == ruasFile
      ensures !hasTree && geoms == [] && metaById == map[] && !built
      ensures Valid()
    {
      this.ruasFile := ruasFile;
      hasTree := false;
      geoms := [];
      metaById := map[];
      built := false;
    }

    /** `build`: loads and ingests the street file; a file that cannot be
        read leaves the index empty. It never fails and marks the index built. */
    method Build(geo: GeoLib, file: StreetsFile)
      modifies this
      ensures built && Valid()
      ensures Holds(Index(geo, file))
    {
      var loaded := LoadFeatures(file);
      if loaded.Err? {
        hasTree := false;
        geoms := [];
        metaById := map[];
      } else {
        Ingest(geo, loaded.value);
        hasTree := geoms != [];
      }
      built := true;
    }

    /** `_ingest`: replaces the stored geometries and attributes with the
        streets the features yield, in input order. */
    method Ingest(geo: GeoLib, features: seq<Value>)
      modifies this
      ensures Holds(Ingested(geo, features))
      ensures hasTree == old(hasTree) && built == old(built)
    {
      var gs, meta := IngestFeatures(geo, features);
      geoms := gs;
      metaById := meta;
    }

    /** `nearest`: builds the index first if needed, then answers the
        closest street within the radius, or none. */
    method Nearest(geo: GeoLib, file: StreetsFile, lat: real, lon: real, radiusM: real)
        returns (hit: Option<StreetHit>)
      requires Valid()
      modifies this
      ensures built && Valid()
      ensures old(built) ==> geoms == old(geoms) && metaById == old(metaById)
      ensures !old(built) ==> Holds(Index(geo, file))
      ensures hit == NearestHit(geo, geoms, metaById, lat, lon, radiusM)
    {
      if !built {
        Build(geo, file);
      }
      if !hasTree || geoms == [] {
        return None;
      }
      if radiusM <= 0.0 {
        return None;
      }
      var p := Point(lon, lat);
      var cands := geo.query(geoms, p, radiusM);
      if cands == [] {
        return None;
      }
      var best := SelectBest(geo, geoms, cands, p);
      if best.None? {
        return None;
      }
      var (j, d) := best.value;
      if d > radiusM {
        return None;
      }
      var m := MetaAt(metaById, cands[j]);
      return Some(StreetHit(m.name, m.streetType, d));
    }
  }

  // ---------------------------------------------------------------------
  // The shared index and the application's lookup
  // ---------------------------------------------------------------------

  /** The module's shared index, created and built on first use. */
  class StreetsService {
    var singleton: StreetsIndex?

    ghost predicate Valid()
      reads this, singleton
    {
      singleton != null ==> singleton.Valid() && singleton.built
    }

    constructor()
      ensures singleton == null && Valid()
    {
      singleton := null;
    }

    /** `get_streets_index`: the shared index, built from the street file
        the first time it is asked for. */
    method GetStreetsIndex(geo: GeoLib, file: StreetsFile) returns (idx: StreetsIndex)
      requires Valid()
      modifies this
      ensures Valid() && singleton == idx
      ensures old(singleton) != null ==> idx == old(singleton)
      ensures old(singleton) == null ==> fresh(idx) && idx.ruasFile == RuasFile && idx.Holds(Index(geo, file))
    {
      if singleton == null {
        var created := new StreetsIndex(RuasFile);
        created.Build(geo, file);
        singleton := created;
      }
      idx := singleton;
    }

    /** `find_street`: the nearest street as a record with its name, type and
        distance, or none. */
    method FindStreet(geo: GeoLib, file: StreetsFile, lat: real, lon: real, radiusM: real)
        returns (r: Option<Dict>)
      requires Valid()
      modifies this, singleton
      ensures Valid() && singleton != null
      ensures old(singleton) != null ==> (singleton == old(singleton)
        && singleton.geoms == old(singleton.geoms) && singleton.metaById == old(singleton.metaById))
      ensures old(singleton) == null ==> singleton.Holds(Index(geo, file))
      ensures r == HitRecord(NearestHit(geo, singleton.geoms, singleton.metaById, lat, lon, radiusM))
    {
      var idx := GetStreetsIndex(geo, file);
      var hit := idx.Nearest(geo, file, lat, lon, radiusM);
      r := HitRecord(hit);
    }
  }

  /** The record `find_street` answers for a hit: `name`, `type` (None when
      the street has no type) and `distance_m`. */
  function HitRecord(hit: Option<StreetHit>): (r: Option<Dict>)
    ensures r.None? <==> hit.None?
    ensures r.Some? ==> (r.value.Keys == {"name", "type", "distance_m"}
      && r.value["name"] == VStr(hit.value.name)
      && r.value["distance_m"] == VFloat(hit.value.distanceM)
      && (r.value["type"] == VNone <==> hit.value.streetType.None?)
      && (hit.value.streetType.Some? ==> r.value["type"] == VStr(hit.value.streetType.value)))
  {
    match hit
    case None => None
    case Some(h) =>
      Some(map["name" := VStr(h.name),
               "type" := (match h.streetType case None => VNone case Some(t) => VStr(t)),
               "distance_m" := VFloat(h.distanceM)])
  }
}
