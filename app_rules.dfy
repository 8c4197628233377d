/**
  The application-level rule helpers: alias resolution over raw rule records,
  the `ZoneRule` wrapper and its typed properties, the built-in fallback rule
  table, the parking-space and sanitary-fixture rules and the layperson
  viability report.

  Records fetched from the rule store are inputs here: `fetched` is the first
  non-empty record the store returned (None when there is no store client or
  no table yields one), paired with the name of the table it came from.
*/
module AppRules {
  import opened Wrappers
  import opened PyValue
  import Calculations

  /** Tolerance of the IA target check, in square metres. */
  const Tolerance: real := 0.000000001

  // ---------------------------------------------------------------------
  // _coalesce, _safe_float, _clamp
  // ---------------------------------------------------------------------

  /** `k in d and d[k] is not None`. */
  predicate Present(d: Dict, k: string) {
    k in d && d[k] != VNone
  }

  /** `_coalesce(d, *keys, default=default)`: the value under the first key,
      in argument order, that is present and not None (see CoalesceSpec). */
  function Coalesce(d: Dict, keys: seq<string>, default: Value): Value {
    if keys == [] then default
    else if Present(d, keys[0]) then d[keys[0]]
    else Coalesce(d, keys[1..], default)
  }

  /** Coalesce returns the value under the first present, non-None key, and
      the default exactly when no key qualifies or the default is what the
      first qualifying key holds. Keys are matched verbatim. */
  lemma {:induction false} CoalesceSpec(d: Dict, keys: seq<string>, default: Value)
    ensures forall i :: 0 <= i < |keys| && Present(d, keys[i]) && (forall j :: 0 <= j < i ==> !Present(d, keys[j]))
                        ==> Coalesce(d, keys, default) == d[keys[i]]
    ensures (forall i :: 0 <= i < |keys| ==> !Present(d, keys[i])) ==> Coalesce(d, keys, default) == default
    ensures Coalesce(d, keys, default) == default
            || exists i :: 0 <= i < |keys| && Present(d, keys[i]) && Coalesce(d, keys, default) == d[keys[i]]
  {
    if keys != [] && !Present(d, keys[0]) {
      CoalesceSpec(d, keys[1..], default);
      assert forall i :: 1 <= i < |keys| ==> keys[i] == keys[1..][i - 1];
      var r := Coalesce(d, keys, default);
      if r != default {
        var i' :| 0 <= i' < |keys[1..]| && Present(d, keys[1..][i']) && r == d[keys[1..][i']];
        assert keys[i' + 1] == keys[1..][i'];
      }
    }
  }

  /** app.py's `_safe_float`: None and the empty text give None, and so does
      any value `float()` rejects. */
  function SafeFloat(x: Value): (r: Option<real>)
    ensures x == VNone || x == VStr("") ==> r.None?
    ensures x.VInt? ==> r == Some(x.i as real)
    ensures x.VFloat? ==> r == Some(x.r)
    ensures x.VList? || x.VDict? ==> r.None?
    ensures x != VNone && x != VStr("") ==> r == ToFloat(x)
  {
    if x == VNone || x == VStr("") then None else ToFloat(x)
  }

  /** The two `_safe_float` helpers of the code base agree on every value,
      although one tests for `""` and the other for blank text. */
  lemma SafeFloatsAgree(x: Value)
    ensures SafeFloat(x) == Calculations.SafeFloat(x)
  {
    if x.VStr? && Strip(x.s) == "" {
      BlankIsNotANumber(x.s);
    }
  }

  /** `_clamp(v, lo, hi)`: `max(lo, min(hi, v))`. */
  function Clamp(v: real, lo: real, hi: real): (r: real)
    ensures lo <= hi ==> lo <= r <= hi
    ensures lo <= v <= hi ==> r == v
    ensures lo <= hi && v < lo ==> r == lo
    ensures lo <= hi && v > hi ==> r == hi
    ensures lo > hi ==> r == lo
  {
    Calculations.Max(lo, Calculations.Min(hi, v))
  }

  // ---------------------------------------------------------------------
  // _area_buildable_estimate
  // ---------------------------------------------------------------------

  /** The pair returned by `_area_buildable_estimate`. */
  datatype Estimate = Estimate(maxFootprintM2: Option<real>, maxTotalBuiltM2: Option<real>)

  /** Footprint from TO and total built area from IA, each None when its
      index is None; `floors` is accepted and not used. */
  function AreaBuildableEstimate(lotArea: real, toMax: Option<real>, iaMax: Option<real>, floors: int): (e: Estimate)
    ensures e.maxFootprintM2.None? <==> toMax.None?
    ensures e.maxTotalBuiltM2.None? <==> iaMax.None?
    ensures toMax.Some? ==> e.maxFootprintM2.value == lotArea * toMax.value
    ensures iaMax.Some? ==> e.maxTotalBuiltM2.value == lotArea * iaMax.value
  {
    Estimate(
      if toMax.Some? then Some(lotArea * toMax.value) else None,
      if iaMax.Some? then Some(lotArea * iaMax.value) else None)
  }

  /** The number of floors has no effect on the estimate. */
  lemma EstimateIgnoresFloors(lotArea: real, toMax: Option<real>, iaMax: Option<real>, floors: int, floors': int)
    ensures AreaBuildableEstimate(lotArea, toMax, iaMax, floors) == AreaBuildableEstimate(lotArea, toMax, iaMax, floors')
  {
  }

  // ---------------------------------------------------------------------
  // ZoneRule
  // ---------------------------------------------------------------------

  const TpMinAliases: seq<string> := ["tp_min", "taxa_permeabilidade_min", "tp"]
  const ToMaxAliases: seq<string> := ["to_max", "taxa_ocupacao_max", "to", "to_solo_max"]
  const IaMaxAliases: seq<string> := ["ia_max", "indice_aproveitamento_max", "ia"]
  const MaxHeightAliases: seq<string> := ["max_height_m", "altura_max_m", "altura_maxima_m", "gabarito_m"]
  const FrontAliases: seq<string> := ["setback_front_m", "recuo_frontal_m", "front_setback_m", "recuo_frente_m"]
  const SideAliases: seq<string> := ["setback_side_m", "recuo_lateral_m", "side_setback_m", "recuo_lados_m"]
  const BackAliases: seq<string> := ["setback_back_m", "recuo_fundos_m", "back_setback_m", "recuo_fundo_m"]
  const AttachAliases: seq<string> := ["allow_attach_one_side", "permite_encostar_uma_lateral"]
  const NotesAliases: seq<string> := ["notes", "observacoes"]

  /** A rule record as the application sees it: the raw row and typed views
      of it, each reading an ordered list of aliases. */
  datatype ZoneRule = ZoneRule(raw: Dict) {

    /** `rule.get(key, default)`: `dict.get` on the raw row. */
    function Get(key: string, default: Value): Value {
      if key in raw then raw[key] else default
    }

    function TpMin(): Option<real> { SafeFloat(Coalesce(raw, TpMinAliases, VNone)) }
    function ToMax(): Option<real> { SafeFloat(Coalesce(raw, ToMaxAliases, VNone)) }
    function IaMax(): Option<real> { SafeFloat(Coalesce(raw, IaMaxAliases, VNone)) }
    function MaxHeightM(): Option<real> { SafeFloat(Coalesce(raw, MaxHeightAliases, VNone)) }
    function SetbackFrontM(): Option<real> { SafeFloat(Coalesce(raw, FrontAliases, VNone)) }
    function SetbackSideM(): Option<real> { SafeFloat(Coalesce(raw, SideAliases, VNone)) }
    function SetbackBackM(): Option<real> { SafeFloat(Coalesce(raw, BackAliases, VNone)) }

    /** `bool(_coalesce(raw, ..., default=False))`. */
    predicate AllowAttachOneSide() {
      Truthy(Coalesce(raw, AttachAliases, VBool(false)))
    }

    /** `str(_coalesce(raw, "notes", "observacoes", default="")).strip()`. */
    function Notes(): string {
      Strip(Str(Coalesce(raw, NotesAliases, VStr(""))))
    }
  }

  /** Attaching to one side is refused unless one of its two aliases holds a
      truthy value; an absent or None entry counts as refusal. */
  lemma AttachDefaultsToFalse(z: ZoneRule)
    requires !Present(z.raw, "allow_attach_one_side") && !Present(z.raw, "permite_encostar_uma_lateral")
    ensures !z.AllowAttachOneSide()
  {
    CoalesceSpec(z.raw, AttachAliases, VBool(false));
  }

  /** The notes are empty when neither alias is set, and never carry leading
      or trailing whitespace. */
  lemma NotesAreStripped(z: ZoneRule)
    ensures !Present(z.raw, "notes") && !Present(z.raw, "observacoes") ==> z.Notes() == ""
    ensures Strip(z.Notes()) == z.Notes()
    ensures z.Notes() == [] || (!IsSpace(z.Notes()[0]) && !IsSpace(z.Notes()[|z.Notes()| - 1]))
  {
    CoalesceSpec(z.raw, NotesAliases, VStr(""));
    var s := Str(Coalesce(z.raw, NotesAliases, VStr("")));
    StripIdempotent(s);
    StripTrimmed(s);
  }

  /** The application reads TO as stored (no percent conversion), and a
      record with no TO alias at all gives None here while `compute` takes
      the same record's TO as 0. */
  lemma ToMaxReadsRaw(z: ZoneRule)
    ensures "to_max" in z.raw && z.raw["to_max"].VFloat? ==> z.ToMax() == Some(z.raw["to_max"].r)
    ensures (forall k :: k in z.raw ==> k !in ToMaxAliases + Calculations.ToKeys)
            ==> z.ToMax().None? && Calculations.ToFraction(Calculations.DictRule(z.raw)) == 0.0
  {
    CoalesceSpec(z.raw, ToMaxAliases, VNone);
    Calculations.PickFirstSpec(Calculations.DictRule(z.raw), Calculations.ToKeys);
    if forall k :: k in z.raw ==> k !in ToMaxAliases + Calculations.ToKeys {
      assert forall i :: 0 <= i < |Calculations.ToKeys| ==> Calculations.ToKeys[i] !in z.raw by {
        forall i | 0 <= i < |Calculations.ToKeys|
          ensures Calculations.ToKeys[i] !in z.raw
        {
          assert Calculations.ToKeys[i] in ToMaxAliases + Calculations.ToKeys;
        }
      }
    }
  }

  // ---------------------------------------------------------------------
  // fetch_zone_rule
  // ---------------------------------------------------------------------

  const FallbackNote: string := "Fallback: revise no Supabase."
  const NoRuleNote: string := "Nenhuma regra encontrada no Supabase. Configure as tabelas e/ou revise a sigla da zona."

  /** `FALLBACK_RULES.get((zone, use))`. */
  function FallbackRules(zone: string, use: string): Option<Dict> {
    if zone == "ZAP" && use == "RES_UNI" then
      Some(map[
        "zone_sigla" := VStr("ZAP"),
        "use_type_code" := VStr("RES_UNI"),
        "tp_min" := VFloat(0.10),
        "to_max" := VFloat(0.60),
        "ia_max" := VFloat(1.50),
        "max_height_m" := VFloat(9.0),
        "setback_front_m" := VFloat(3.0),
        "setback_side_m" := VFloat(1.5),
        "setback_back_m" := VFloat(2.0),
        "allow_attach_one_side" := VBool(true),
        "notes" := VStr(FallbackNote)])
    else if zone == "ZAP" && use == "RES_MULTI" then
      Some(map[
        "zone_sigla" := VStr("ZAP"),
        "use_type_code" := VStr("RES_MULTI"),
        "tp_min" := VFloat(0.10),
        "to_max" := VFloat(0.50),
        "ia_max" := VFloat(2.00),
        "max_height_m" := VFloat(18.0),
        "setback_front_m" := VFloat(5.0),
        "setback_side_m" := VFloat(2.0),
        "setback_back_m" := VFloat(3.0),
        "allow_attach_one_side" := VBool(false),
        "notes" := VStr(FallbackNote)])
    else None
  }

  /** The record used when nothing is known about (zone, use). */
  function UnknownRule(zone: string, use: string): Dict {
    map["zone_sigla" := VStr(zone), "use_type_code" := VStr(use), "notes" := VStr(NoRuleNote)]
  }

  /** `fetch_zone_rule`: the fetched record when it is non-empty, else the
      built-in entry for (zone, use), else a record naming the pair. */
  function FetchZoneRule(fetched: Option<Dict>, zone: string, use: string): (z: ZoneRule)
    ensures fetched.Some? && fetched.value != map[] ==> z.raw == fetched.value
    ensures (fetched.None? || fetched.value == map[]) && FallbackRules(zone, use).Some?
            ==> z.raw == FallbackRules(zone, use).value
    ensures (fetched.None? || fetched.value == map[]) && FallbackRules(zone, use).None?
            ==> z.raw == UnknownRule(zone, use)
  {
    if fetched.Some? && fetched.value != map[] then ZoneRule(fetched.value)
    else if FallbackRules(zone, use).Some? then ZoneRule(FallbackRules(zone, use).value)
    else ZoneRule(UnknownRule(zone, use))
  }

  /** Without a fetched record the rule always names the requested zone and
      use, whether it comes from the table or not. */
  lemma FallbackNamesRequest(zone: string, use: string)
    ensures FetchZoneRule(None, zone, use).Get("zone_sigla", VNone) == VStr(zone)
    ensures FetchZoneRule(None, zone, use).Get("use_type_code", VNone) == VStr(use)
  {
  }

  /** The built-in single-family ZAP rule, as read through the typed properties. */
  lemma FallbackZapSingleFamily()
    ensures var z := FetchZoneRule(None, "ZAP", "RES_UNI");
      && z.ToMax() == Some(0.60) && z.TpMin() == Some(0.10) && z.IaMax() == Some(1.50)
      && z.MaxHeightM() == Some(9.0) && z.SetbackFrontM() == Some(3.0)
      && z.SetbackSideM() == Some(1.5) && z.SetbackBackM() == Some(2.0)
      && z.AllowAttachOneSide() && z.Get("notes", VNone) == VStr(FallbackNote)
  {
    var d := FallbackRules("ZAP", "RES_UNI").value;
    FirstAliasRead(d, ToMaxAliases, 0.60);
    FirstAliasRead(d, TpMinAliases, 0.10);
    FirstAliasRead(d, IaMaxAliases, 1.50);
    FirstAliasRead(d, MaxHeightAliases, 9.0);
    FirstAliasRead(d, FrontAliases, 3.0);
    FirstAliasRead(d, SideAliases, 1.5);
    FirstAliasRead(d, BackAliases, 2.0);
  }

  /** The built-in multi-family ZAP rule, as read through the typed properties. */
  lemma FallbackZapMultiFamily()
    ensures var z := FetchZoneRule(None, "ZAP", "RES_MULTI");
      && z.ToMax() == Some(0.50) && z.TpMin() == Some(0.10) && z.IaMax() == Some(2.00)
      && z.MaxHeightM() == Some(18.0) && z.SetbackFrontM() == Some(5.0)
      && z.SetbackSideM() == Some(2.0) && z.SetbackBackM() == Some(3.0)
      && !z.AllowAttachOneSide() && z.Get("notes", VNone) == VStr(FallbackNote)
  {
    var d := FallbackRules("ZAP", "RES_MULTI").value;
    FirstAliasRead(d, ToMaxAliases, 0.50);
    FirstAliasRead(d, TpMinAliases, 0.10);
    FirstAliasRead(d, IaMaxAliases, 2.00);
    FirstAliasRead(d, MaxHeightAliases, 18.0);
    FirstAliasRead(d, FrontAliases, 5.0);
    FirstAliasRead(d, SideAliases, 2.0);
    FirstAliasRead(d, BackAliases, 3.0);
  }

  /** A zone and use outside the table get a rule with no indices and the
      "no rule found" note. */
  lemma UnknownPairHasNoIndices(zone: string, use: string)
    requires FallbackRules(zone, use).None?
    ensures var z := FetchZoneRule(None, zone, use);
      && z.ToMax().None? && z.TpMin().None? && z.IaMax().None? && z.MaxHeightM().None?
      && z.Get("notes", VNone) == VStr(NoRuleNote)
  {
    var d := UnknownRule(zone, use);
    CoalesceAbsent(d, TpMinAliases, VNone);
    CoalesceAbsent(d, ToMaxAliases, VNone);
    CoalesceAbsent(d, IaMaxAliases, VNone);
    CoalesceAbsent(d, MaxHeightAliases, VNone);
  }

  /** A zone and use outside the table get a rule with no setbacks and no
      permission to attach to a side. */
  lemma UnknownPairHasNoSetbacks(zone: string, use: string)
    requires FallbackRules(zone, use).None?
    ensures var z := FetchZoneRule(None, zone, use);
      && z.SetbackFrontM().None? && z.SetbackSideM().None? && z.SetbackBackM().None?
      && !z.AllowAttachOneSide()
  {
    var d := UnknownRule(zone, use);
    CoalesceAbsent(d, FrontAliases, VNone);
    CoalesceAbsent(d, SideAliases, VNone);
    CoalesceAbsent(d, BackAliases, VNone);
    CoalesceAbsent(d, AttachAliases, VBool(false));
  }

  /** A number stored under the first alias is what the typed property reads. */
  lemma FirstAliasRead(d: Dict, keys: seq<string>, x: real)
    requires keys != [] && keys[0] in d && d[keys[0]] == VFloat(x)
    ensures SafeFloat(Coalesce(d, keys, VNone)) == Some(x)
  {
  }

  /** Coalesce over keys none of which is in the record gives the default. */
  lemma {:induction false} CoalesceAbsent(d: Dict, keys: seq<string>, default: Value)
    requires forall k :: k in keys ==> k !in d
    ensures Coalesce(d, keys, default) == default
  {
    if keys != [] {
      CoalesceAbsent(d, keys[1..], default);
    }
  }

  // ---------------------------------------------------------------------
  // calc_parking_v2
  // ---------------------------------------------------------------------

  /** Python's `math.ceil`. */
  function Ceil(x: real): (n: int)
    ensures x <= n as real < x + 1.0
  {
    -((-x).Floor)
  }

  /** Python's `int()` of a float: truncation toward zero. */
  function Trunc(x: real): (n: int)
    ensures x >= 0.0 ==> n as real <= x < n as real + 1.0
    ensures x < 0.0 ==> n as real - 1.0 < x <= n as real
  {
    if x >= 0.0 then x.Floor else Ceil(x)
  }

  /** Python's `round()` to an int: the nearest integer, ties to the even one. */
  function RoundHalfEven(x: real): (n: int)
    ensures n as real - 0.5 <= x <= n as real + 0.5
    ensures (x == n as real - 0.5 || x == n as real + 0.5) ==> n % 2 == 0
  {
    var f := x.Floor;
    var d := x - f as real;
    if d < 0.5 then f
    else if d > 0.5 then f + 1
    else if f % 2 == 0 then f
    else f + 1
  }

  /** `max(1, int(math.ceil(area / 60.0)))`: one dwelling per 60 m². */
  function EstimatedUnits(builtAreaM2: real): (n: int)
    ensures n >= 1 && n as real >= builtAreaM2 / 60.0
    ensures n == 1 || n as real < builtAreaM2 / 60.0 + 1.0
  {
    var c := Ceil(builtAreaM2 / 60.0);
    if c >= 1 then c else 1
  }

  /** The four ways `calc_parking_v2` reads a rule type. */
  datatype RuleKind = PerM2 | PerUnitKind | Fixed | Auto

  /** The branch taken for a (lower-cased) rule type. */
  function KindOf(ruleType: string): RuleKind {
    if ruleType == "per_m2" || ruleType == "m2" || ruleType == "area" then PerM2
    else if ruleType == "per_unit" || ruleType == "unit" || ruleType == "unidade" then PerUnitKind
    else if ruleType == "fixed" || ruleType == "fixo" then Fixed
    else Auto
  }

  /** The lower-cased rule type ("" when absent). */
  function RuleType(rule: Dict): string {
    Lower(Str(Coalesce(rule, ["rule_type", "tipo_regra"], VStr(""))))
  }

  function RatioM2(rule: Dict): Option<real> {
    SafeFloat(Coalesce(rule, ["ratio_m2", "m2_por_vaga", "area_por_vaga"], VNone))
  }

  function PerUnit(rule: Dict): Option<real> {
    SafeFloat(Coalesce(rule, ["vagas_por_unidade", "ratio_unit"], VNone))
  }

  /** The minimum: 0 when absent, None when present but not a number. */
  function Minimum(rule: Dict): Option<real> {
    SafeFloat(Coalesce(rule, ["min_vagas", "minimo"], VInt(0)))
  }

  /** The lower-cased rounding mode, "ceil" when absent. */
  function Rounding(rule: Dict): string {
    Lower(Str(Coalesce(rule, ["rounding", "arredondamento"], VStr("ceil"))))
  }

  /** `_safe_float(fixed_vagas or vagas_fixas or 0) or 0`. */
  function FixedVagas(rule: Dict): real {
    SafeFloat(Coalesce(rule, ["fixed_vagas", "vagas_fixas"], VInt(0))).GetOr(0.0)
  }

  /** `per_unit or 1.0`: a missing or zero spaces-per-unit ratio counts as 1. */
  function PerUnitFactor(rule: Dict): (f: real)
    ensures f != 0.0
    ensures PerUnit(rule).Some? && PerUnit(rule).value != 0.0 ==> f == PerUnit(rule).value
    ensures PerUnit(rule).None? || PerUnit(rule).value == 0.0 ==> f == 1.0
  {
    var per := PerUnit(rule);
    if per.None? || per.value == 0.0 then 1.0 else per.value
  }

  /** One space per `ratio` m² when the ratio is a positive number, else none. */
  function AreaRatioVagas(ratio: Option<real>, builtAreaM2: real): (v: real)
    ensures ratio.Some? && ratio.value > 0.0 ==> v * ratio.value == builtAreaM2
    ensures ratio.None? || ratio.value <= 0.0 ==> v == 0.0
  {
    if ratio.Some? && ratio.value > 0.0 then SpacesPer(builtAreaM2, ratio.value) else 0.0
  }

  /** `area / ratio`: spaces at one per `ratio` m². */
  function SpacesPer(area: real, ratio: real): (v: real)
    requires ratio > 0.0
    ensures v * ratio == area
  {
    area / ratio
  }

  /** `factor * float(units)`. */
  function SpacesFor(factor: real, units: int): real {
    factor * units as real
  }

  /** The given unit count, or the 60 m² estimate when there is none. */
  function UnitsOrEstimate(units: Option<int>, builtAreaM2: real): int {
    if units.None? then EstimatedUnits(builtAreaM2) else units.value
  }

  /** The count before rounding, with the unit count that is reported (an
      estimate replaces a missing one for per-unit rules). */
  datatype RawCount = RawCount(vagas: real, units: Option<int>)

  /** The rule's count before rounding. */
  function RawVagas(rule: Dict, builtAreaM2: real, units: Option<int>): RawCount {
    var ruleType, ratio := RuleType(rule), RatioM2(rule);
    var kind := KindOf(ruleType);
    if kind == PerM2 then
      RawCount(AreaRatioVagas(ratio, builtAreaM2), units)
    else if kind == PerUnitKind then
      var u := UnitsOrEstimate(units, builtAreaM2);
      RawCount(SpacesFor(PerUnitFactor(rule), u), Some(u))
    else if kind == Fixed then
      RawCount(FixedVagas(rule), units)
    else
      RawCount(AreaRatioVagas(ratio, builtAreaM2), units)
  }

  /** The rounding step: "floor", "round", and `ceil` for every other mode. */
  function RoundCount(rounding: string, vagas: real): (n: int)
    ensures rounding == "floor" ==> n as real <= vagas < n as real + 1.0
    ensures rounding == "round" ==> n as real - 0.5 <= vagas <= n as real + 0.5
    ensures rounding != "floor" && rounding != "round" ==> vagas <= n as real < vagas + 1.0
  {
    if rounding == "floor" then vagas.Floor
    else if rounding == "round" then RoundHalfEven(vagas)
    else Ceil(vagas)
  }

  /** `int(max(vagas, float(minimum)))` when there is a minimum: the count
      never drops below the rounded count nor below the minimum's integer part. */
  function Settle(rounded: int, minimum: Option<real>): (n: int)
    ensures n >= rounded
    ensures minimum.Some? ==> n >= Trunc(minimum.value)
    ensures minimum.None? || minimum.value <= rounded as real ==> n == rounded
    ensures minimum.Some? && minimum.value > rounded as real ==> n == Trunc(minimum.value)
  {
    if minimum.Some? && minimum.value > rounded as real then Trunc(minimum.value) else rounded
  }

  /** The count a fetched parking rule gives. */
  function RuleVagas(rule: Dict, builtAreaM2: real, units: Option<int>): int {
    Settle(RoundCount(Rounding(rule), RawVagas(rule, builtAreaM2, units).vagas), Minimum(rule))
  }

  /** The `details` text of the result, kept as its fields. */
  datatype ParkingDetails =
    | RuleApplied(ruleType: string, builtAreaM2: real, units: Option<int>, minimum: Option<real>)
    | SingleFamilyHeuristic   // "Heurística: unifamiliar 1 vaga até 200m²; acima 2."
    | MultiFamilyHeuristic(estimatedUnits: int)
    | NoParkingRule           // "Sem regra."

  /** The dict returned by `calc_parking_v2`. */
  datatype ParkingResult = ParkingResult(source: string, vagas: Option<int>, details: ParkingDetails)

  /** The heuristics used when no parking rule is fetched. */
  function HeuristicParking(useCode: string, builtAreaM2: real): ParkingResult {
    if useCode == "RES_UNI" then
      ParkingResult("fallback", Some(if builtAreaM2 <= 200.0 then 1 else 2), SingleFamilyHeuristic)
    else if useCode == "RES_MULTI" then
      var est := EstimatedUnits(builtAreaM2);
      ParkingResult("fallback", Some(est), MultiFamilyHeuristic(est))
    else ParkingResult("fallback", None, NoParkingRule)
  }

  /** `calc_parking_v2`, written as a single expression. */
  function ParkingFor(fetched: Option<(string, Dict)>, useCode: string, builtAreaM2: real, units: Option<int>): ParkingResult {
    if fetched.Some? && fetched.value.1 != map[] then
      var rule := fetched.value.1;
      var ruleType := RuleType(rule);
      ParkingResult(
        fetched.value.0,
        Some(RuleVagas(rule, builtAreaM2, units)),
        RuleApplied(if ruleType == "" then "auto" else ruleType, builtAreaM2,
                    RawVagas(rule, builtAreaM2, units).units, Minimum(rule)))
    else HeuristicParking(useCode, builtAreaM2)
  }

  /** The branch of `calc_parking_v2` that turns the rule type into a count
      before rounding, estimating the unit count when a per-unit rule needs it. */
  method InterpretRule(rule: Dict, builtAreaM2: real, units: Option<int>) returns (raw: RawCount)
    ensures raw == RawVagas(rule, builtAreaM2, units)
    ensures units.Some? ==> raw.units == units
  {
    var ruleType := RuleType(rule);
    var ratio := RatioM2(rule);
    var u := units;
    var vagas: real := 0.0;
    var kind := KindOf(ruleType);
    if kind == PerM2 {
      if ratio.Some? && ratio.value > 0.0 {
        vagas := SpacesPer(builtAreaM2, ratio.value);
      } else {
        vagas := 0.0;
      }
      assert vagas == AreaRatioVagas(ratio, builtAreaM2);
    } else if kind == PerUnitKind {
      if u.None? {
        var est := EstimatedUnits(builtAreaM2);
        u := Some(est);
      }
      assert u.value == UnitsOrEstimate(units, builtAreaM2);
      vagas := SpacesFor(PerUnitFactor(rule), u.value);
    } else if kind == Fixed {
      vagas := FixedVagas(rule);
    } else {
      if ratio.Some? && ratio.value > 0.0 {
        vagas := SpacesPer(builtAreaM2, ratio.value);
      }
      assert vagas == AreaRatioVagas(ratio, builtAreaM2);
    }
    raw := RawCount(vagas, u);
  }

  /** `calc_parking_v2`: interprets a fetched parking rule step by step, or
      falls back to the residential heuristics. */
  method CalcParkingV2(fetched: Option<(string, Dict)>, useCode: string, builtAreaM2: real, units: Option<int>)
    returns (out: ParkingResult)
    ensures out == ParkingFor(fetched, useCode, builtAreaM2, units)
    ensures fetched.Some? && fetched.value.1 != map[] ==>
      && out.source == fetched.value.0 && out.vagas.Some?
      && (Minimum(fetched.value.1).Some? ==> out.vagas.value >= Trunc(Minimum(fetched.value.1).value))
    ensures (fetched.None? || fetched.value.1 == map[]) ==> out.source == "fallback"
  {
    out := ParkingResult("fallback", None, NoParkingRule);
    if fetched.Some? && fetched.value.1 != map[] {
      var (table, rule) := fetched.value;
      out := out.(source := table);
      var ruleType := RuleType(rule);
      var minimum := Minimum(rule);
      var rounding := Rounding(rule);

      var raw := InterpretRule(rule, builtAreaM2, units);
      var vagas, u := raw.vagas, raw.units;

      var n: int;
      if rounding == "floor" {
        n := vagas.Floor;
      } else if rounding == "round" {
        n := RoundHalfEven(vagas);
      } else {
        n := Ceil(vagas);
      }
      assert n == RoundCount(rounding, vagas);

      var settled: real := n as real;
      if minimum.Some? {
        settled := if minimum.value > settled then minimum.value else settled;
      }
      assert Trunc(settled) == Settle(n, minimum) == RuleVagas(rule, builtAreaM2, units);

      out := out.(vagas := Some(Trunc(settled)),
                  details := RuleApplied(if ruleType == "" then "auto" else ruleType, builtAreaM2, u, minimum));
    } else if useCode == "RES_UNI" {
      out := out.(vagas := Some(if builtAreaM2 <= 200.0 then 1 else 2), details := SingleFamilyHeuristic);
    } else if useCode == "RES_MULTI" {
      var est := EstimatedUnits(builtAreaM2);
      out := out.(vagas := Some(est), details := MultiFamilyHeuristic(est));
    } else {
      out := out.(vagas := None, details := NoParkingRule);
    }
    assert (fetched.None? || fetched.value.1 == map[]) ==> out == HeuristicParking(useCode, builtAreaM2);
  }

  /** Without a fetched rule: one space for a single-family home up to
      200 m² and two above; one space per estimated 60 m² dwelling (at least
      one) for multi-family; no count for any other use. */
  lemma FallbackHeuristics(useCode: string, builtAreaM2: real)
    ensures var r := ParkingFor(None, useCode, builtAreaM2, None);
      && (useCode == "RES_UNI" ==> r.vagas.Some? && (r.vagas.value == 1 <==> builtAreaM2 <= 200.0)
                                   && (r.vagas.value == 2 <==> builtAreaM2 > 200.0))
      && (useCode == "RES_MULTI" ==> r.vagas.Some? && r.vagas.value == EstimatedUnits(builtAreaM2)
                                     && r.vagas.value >= 1 && r.vagas.value as real >= builtAreaM2 / 60.0
                                     && r.details == MultiFamilyHeuristic(r.vagas.value))
      && (useCode != "RES_UNI" && useCode != "RES_MULTI" ==> r.vagas.None? && r.details == NoParkingRule)
      && r.source == "fallback"
  {
  }

  /** A per-m² rule without a usable ratio counts no spaces before the
      minimum is applied. */
  lemma PerM2WithoutRatio(rule: Dict, builtAreaM2: real, units: Option<int>)
    requires KindOf(RuleType(rule)) == PerM2
    requires RatioM2(rule).None? || RatioM2(rule).value <= 0.0
    ensures RawVagas(rule, builtAreaM2, units).vagas == 0.0
    ensures RuleVagas(rule, builtAreaM2, units) == Settle(0, Minimum(rule))
  {
  }

  /** With the default rounding a per-m² rule rounds up: at least one space per
      started `ratio` m². */
  lemma PerM2RoundsUp(rule: Dict, builtAreaM2: real, units: Option<int>)
    requires KindOf(RuleType(rule)) == PerM2 && RatioM2(rule).Some? && RatioM2(rule).value > 0.0
    requires !Present(rule, "rounding") && !Present(rule, "arredondamento")
    ensures builtAreaM2 / RatioM2(rule).value <= RuleVagas(rule, builtAreaM2, units) as real
  {
    CoalesceSpec(rule, ["rounding", "arredondamento"], VStr("ceil"));
    assert Lower("ceil") == "ceil";
  }

  /** With the default rounding, no minimum entry and a non-negative area, a
      per-m² rule gives exactly one space per started `ratio` m²: never a whole
      space more than the area needs. */
  lemma PerM2NoExtraSpace(rule: Dict, builtAreaM2: real, units: Option<int>)
    requires KindOf(RuleType(rule)) == PerM2 && RatioM2(rule).Some? && RatioM2(rule).value > 0.0
    requires !Present(rule, "rounding") && !Present(rule, "arredondamento")
    requires !Present(rule, "min_vagas") && !Present(rule, "minimo") && builtAreaM2 >= 0.0
    ensures (RuleVagas(rule, builtAreaM2, units) as real) < builtAreaM2 / RatioM2(rule).value + 1.0
  {
    var raw := RawVagas(rule, builtAreaM2, units).vagas;
    assert raw == builtAreaM2 / RatioM2(rule).value;
    DefaultRoundingIsCeil(rule);
    NoMinimumIsZero(rule);
    CeilingSettles(builtAreaM2, RatioM2(rule).value);
  }

  /** A non-negative area over a positive ratio, rounded up and settled
      against a zero minimum, is less than one space above the quotient. */
  lemma CeilingSettles(area: real, ratio: real)
    requires area >= 0.0 && ratio > 0.0
    ensures (Settle(RoundCount("ceil", area / ratio), Some(0.0)) as real) < area / ratio + 1.0
  {
    assert area / ratio >= 0.0;
  }

  /** Without a rounding entry the mode is "ceil". */
  lemma DefaultRoundingIsCeil(rule: Dict)
    requires !Present(rule, "rounding") && !Present(rule, "arredondamento")
    ensures Rounding(rule) == "ceil"
  {
    CoalesceSpec(rule, ["rounding", "arredondamento"], VStr("ceil"));
    assert Lower("ceil") == "ceil";
  }

  /** Without a minimum entry the minimum is 0. */
  lemma NoMinimumIsZero(rule: Dict)
    requires !Present(rule, "min_vagas") && !Present(rule, "minimo")
    ensures Minimum(rule) == Some(0.0)
  {
    CoalesceSpec(rule, ["min_vagas", "minimo"], VInt(0));
  }

  /** The count is never below the integer part of the minimum, nor below the
      rounded raw count; an absent minimum is 0, so the count of a rule with
      no minimum entry and a non-negative raw count is non-negative. */
  lemma MinimumRespected(rule: Dict, builtAreaM2: real, units: Option<int>)
    ensures var m := Minimum(rule);
      m.Some? ==> RuleVagas(rule, builtAreaM2, units) >= Trunc(m.value)
    ensures RuleVagas(rule, builtAreaM2, units)
            >= RoundCount(Rounding(rule), RawVagas(rule, builtAreaM2, units).vagas)
    ensures !Present(rule, "min_vagas") && !Present(rule, "minimo") ==> RuleVagas(rule, builtAreaM2, units) >= 0
  {
    CoalesceSpec(rule, ["min_vagas", "minimo"], VInt(0));
  }

  // ---------------------------------------------------------------------
  // calc_sanitary
  // ---------------------------------------------------------------------

  const ResidentialNotice: string :=
    "Regras de sanitários do Anexo III normalmente se aplicam a usos como comércio/serviços. Se você modelou regras residenciais, elas virão do Supabase."

  /** The dict returned by `calc_sanitary`. */
  datatype SanitaryResult = SanitaryResult(source: string, items: Dict, details: string)

  /** `calc_sanitary`: the fetched rule as it is, else "not applicable" for
      residential uses and "no rule" for the others. */
  function CalcSanitary(fetched: Option<(string, Dict)>, useCode: string, builtAreaM2: real, people: Option<int>): (r: SanitaryResult)
    ensures fetched.Some? && fetched.value.1 != map[] ==> r.source == fetched.value.0 && r.items == fetched.value.1
    ensures fetched.None? || fetched.value.1 == map[] ==>
      && r.source == "fallback" && "status" in r.items
      && (r.items["status"] == VStr("Não aplicável (residencial)") <==> useCode == "RES_UNI" || useCode == "RES_MULTI")
      && (r.items["status"] == VStr("Sem regra") <==> useCode != "RES_UNI" && useCode != "RES_MULTI")
  {
    if fetched.Some? && fetched.value.1 != map[] then
      SanitaryResult(fetched.value.0, fetched.value.1, "Regra encontrada no Supabase (exibida em debug).")
    else if useCode == "RES_UNI" || useCode == "RES_MULTI" then
      SanitaryResult("fallback",
        map["status" := VStr("Não aplicável (residencial)"), "observacao" := VStr(ResidentialNotice)],
        "Fallback.")
    else
      SanitaryResult("fallback", map["status" := VStr("Sem regra")], "Fallback.")
  }

  // ---------------------------------------------------------------------
  // build_leigo_report
  // ---------------------------------------------------------------------

  /** `ViabilityInputs`. */
  datatype ViabilityInputs = ViabilityInputs(
    zoneSigla: string,
    viaClass: string,
    useLabel: string,
    useCode: string,
    lotAreaM2: real,
    lotFrontM: Option<real>,
    floors: int,
    builtAreaTargetM2: Option<real>)

  datatype Setbacks = Setbacks(front: Option<real>, side: Option<real>, back: Option<real>,
                               attachOneSide: bool, attachMsg: string)
  datatype Indices = Indices(tpMin: Option<real>, toMax: Option<real>, iaMax: Option<real>, maxHeightM: Option<real>)
  datatype Areas = Areas(
    lotAreaM2: real,
    minPermeableM2: Option<real>,
    maxFootprintM2: Option<real>,
    maxTotalBuiltM2: Option<real>,
    floorsAssumed: int,
    targetBuiltM2: Option<real>,
    targetOkByIa: Option<bool>)

  /** The dict returned by `build_leigo_report`. */
  datatype LeigoReport = LeigoReport(
    zone: string, via: string, useCode: string, useLabel: string,
    setbacks: Setbacks, indices: Indices, areas: Areas, notes: string)

  const MsgUniAttach: string := "Pode encostar em 1 lateral"
  const MsgUniNoAttach: string := "Em regra, não encosta (precisa manter recuo lateral)"
  const MsgOtherAttach: string := "Só pode encostar se houver regra específica liberando"
  const MsgOtherNoAttach: string := "Normalmente precisa manter recuos laterais"

  /** The side-attachment message for the use and the rule's permission. */
  function AttachMessage(useCode: string, canAttach: bool): (m: string)
    ensures m == MsgUniAttach <==> useCode == "RES_UNI" && canAttach
    ensures m == MsgUniNoAttach <==> useCode == "RES_UNI" && !canAttach
    ensures m == MsgOtherAttach <==> useCode != "RES_UNI" && canAttach
    ensures m == MsgOtherNoAttach <==> useCode != "RES_UNI" && !canAttach
  {
    if useCode == "RES_UNI" then (if canAttach then MsgUniAttach else MsgUniNoAttach)
    else (if canAttach then MsgOtherAttach else MsgOtherNoAttach)
  }

  /** `target <= max_total + 1e-9` when both exist, else None. */
  function TargetOkByIa(target: Option<real>, maxTotal: Option<real>): (ok: Option<bool>)
    ensures ok.Some? <==> target.Some? && maxTotal.Some?
    ensures ok.Some? ==> (ok.value <==> target.value <= maxTotal.value + Tolerance)
  {
    if target.Some? && maxTotal.Some? then Some(target.value <= maxTotal.value + Tolerance) else None
  }

  /** The "areas" part of the report: the rule's indices applied to the lot. */
  function ReportAreas(inputs: ViabilityInputs, toMax: Option<real>, tpMin: Option<real>, iaMax: Option<real>): (a: Areas)
    ensures a.lotAreaM2 == inputs.lotAreaM2 && a.targetBuiltM2 == inputs.builtAreaTargetM2
    ensures a.floorsAssumed >= 1
    ensures inputs.floors >= 1 ==> a.floorsAssumed == inputs.floors
    ensures inputs.floors < 1 ==> a.floorsAssumed == 1
    ensures a.maxTotalBuiltM2.None? <==> iaMax.None?
    ensures iaMax.Some? ==> a.maxTotalBuiltM2.value == inputs.lotAreaM2 * iaMax.value
    ensures a.targetOkByIa.Some? <==> inputs.builtAreaTargetM2.Some? && iaMax.Some?
    ensures a.targetOkByIa.Some? ==>
      (a.targetOkByIa.value <==> inputs.builtAreaTargetM2.value <= a.maxTotalBuiltM2.value + Tolerance)
    ensures a.minPermeableM2.None? <==> tpMin.None?
    ensures tpMin.Some? ==> a.minPermeableM2.value == inputs.lotAreaM2 * tpMin.value
    ensures a.maxFootprintM2.None? <==> toMax.None?
    ensures toMax.Some? ==> a.maxFootprintM2.value == inputs.lotAreaM2 * toMax.value
  {
    var lotArea := inputs.lotAreaM2;
    var floors := if inputs.floors >= 1 then inputs.floors else 1;
    var est := AreaBuildableEstimate(lotArea, toMax, iaMax, floors);
    var target := inputs.builtAreaTargetM2;
    var minPermeable := if tpMin.Some? then Some(lotArea * tpMin.value) else None;
    Areas(lotArea, minPermeable, est.maxFootprintM2, est.maxTotalBuiltM2, floors, target,
          TargetOkByIa(target, est.maxTotalBuiltM2))
  }

  /** `build_leigo_report`: the rule's limits applied to the lot, in terms a
      layperson reads (the areas are stated by ReportAreas). */
  function BuildLeigoReport(inputs: ViabilityInputs, rule: ZoneRule): (r: LeigoReport)
    ensures r.zone == inputs.zoneSigla && r.via == inputs.viaClass
         && r.useCode == inputs.useCode && r.useLabel == inputs.useLabel
    ensures r.areas == ReportAreas(inputs, rule.ToMax(), rule.TpMin(), rule.IaMax())
    ensures r.setbacks.front == rule.SetbackFrontM() && r.setbacks.side == rule.SetbackSideM()
         && r.setbacks.back == rule.SetbackBackM()
    ensures r.setbacks.attachOneSide <==> rule.AllowAttachOneSide()
    ensures r.setbacks.attachMsg == AttachMessage(inputs.useCode, rule.AllowAttachOneSide())
    ensures r.indices == Indices(rule.TpMin(), rule.ToMax(), rule.IaMax(), rule.MaxHeightM())
    ensures r.notes == rule.Notes()
  {
    var canAttach := rule.AllowAttachOneSide();
    LeigoReport(
      inputs.zoneSigla, inputs.viaClass, inputs.useCode, inputs.useLabel,
      Setbacks(rule.SetbackFrontM(), rule.SetbackSideM(), rule.SetbackBackM(),
               canAttach, AttachMessage(inputs.useCode, canAttach)),
      Indices(rule.TpMin(), rule.ToMax(), rule.IaMax(), rule.MaxHeightM()),
      ReportAreas(inputs, rule.ToMax(), rule.TpMin(), rule.IaMax()),
      rule.Notes())
  }

  /** The area `main` hands to the parking and sanitary rules: the target
      when given, else 70% of the IA total, else the lot area. */
  function BuiltAreaForParking(target: Option<real>, report: LeigoReport, lotAreaM2: real): (a: real)
    ensures target.Some? ==> a == target.value
    ensures target.None? && report.areas.maxTotalBuiltM2.Some? ==> a == report.areas.maxTotalBuiltM2.value * 0.7
    ensures target.None? && report.areas.maxTotalBuiltM2.None? ==> a == lotAreaM2
  {
    if target.Some? then target.value
    else if report.areas.maxTotalBuiltM2.Some? then report.areas.maxTotalBuiltM2.value * 0.7
    else lotAreaM2
  }

  /** Without a target, the area used for parking stays within a
      non-negative IA total. */
  lemma ParkingAreaWithinIa(report: LeigoReport, lotAreaM2: real)
    requires report.areas.maxTotalBuiltM2.Some? && report.areas.maxTotalBuiltM2.value >= 0.0
    ensures BuiltAreaForParking(None, report, lotAreaM2) <= report.areas.maxTotalBuiltM2.value
  {
  }
}
