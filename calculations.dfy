/**
  The occupancy (TO), permeability (TP) and floor-area (IA) calculator with its
  two footprint options: the standard setback envelope and the "Art.112"
  envelope, in which one side setback is dropped when the rule allows the
  building to be attached to one side of the lot.

  The rule record is loosely typed: it may be absent, a dict, or an object
  whose attributes are read with `getattr`. Each index is looked up under an
  ordered list of aliases, verbatim.
*/
module Calculations {
  import opened Wrappers
  import opened PyValue

  /** The `rule` argument: None, a dict, or an object seen through its attributes. */
  datatype RuleSource = NoRule | DictRule(d: Dict) | ObjectRule(attrs: Dict)

  /** Why `compute` raises. */
  datatype ComputeError =
    | InvalidLotArea            // ValueError: lot area missing or not positive
    | NotANumber(arg: string)   // float() of the named ground-area argument failed

  /** The keyword arguments of `compute`; omitted ones are VNone, except
      `area_terreo_m2` whose default is 0.0. */
  datatype ComputeArgs = ComputeArgs(
    areaLoteM2: Value,
    testadaM: Value,
    profundidadeM: Value,
    areaTerreoM2: Value,
    zoneRule: RuleSource,
    lotAreaM2: Value,
    frontageM: Value,
    depthM: Value,
    groundAreaM2: Value,
    larguraM: Value,
    rule: RuleSource)

  /** One footprint option. */
  datatype Footprint = Footprint(envelopeM2: real, maxGroundM2: real)

  /** The flat result dict of `compute`. */
  datatype Envelope = Envelope(
    toMaxPct: real,
    tpMinPct: real,
    iaMax: real,
    toMaxM2: real,
    tpMinM2: real,
    iaMaxM2: real,
    standard: Footprint,
    art112: Footprint,
    toOk: bool)

  /** Tolerance of the occupancy check, in square metres. */
  const Tolerance: real := 0.000000001

  const ToKeys: seq<string> := ["to_max_pct", "to_max", "to_sub_max", "to", "taxa_ocupacao_max"]
  const TpKeys: seq<string> := ["tp_min_pct", "tp_min", "tp", "taxa_permeabilidade_min"]
  const IaKeys: seq<string> := ["ia_max", "ia", "indice_aproveitamento_max"]
  const FrontKeys: seq<string> := ["recuo_frontal_m", "recuo_frontal", "setback_front_m"]
  const SideKeys: seq<string> := ["recuo_lateral_m", "recuo_lateral", "setback_side_m"]
  const BackKeys: seq<string> := ["recuo_fundos_m", "recuo_fundos", "setback_back_m"]

  function Max(a: real, b: real): real { if a >= b then a else b }
  function Min(a: real, b: real): real { if a <= b then a else b }

  /** `_safe_float`: None, blank text and anything `float()` rejects become None. */
  function SafeFloat(v: Value): (r: Option<real>)
    ensures v.VNone? || v.VList? || v.VDict? ==> r.None?
    ensures v.VStr? && Strip(v.s) == "" ==> r.None?
    ensures v.VInt? ==> r == Some(v.i as real)
    ensures v.VFloat? ==> r == Some(v.r)
    ensures r.Some? ==> ToFloat(v) == r
    ensures !v.VNone? && !(v.VStr? && Strip(v.s) == "") ==> r == ToFloat(v)
  {
    if v.VNone? then None
    else if v.VStr? && Strip(v.s) == "" then None
    else ToFloat(v)
  }

  /** `_rule_get`: `dict.get` on a dict, `getattr(rule, key, None)` otherwise. */
  function RuleGet(rule: RuleSource, key: string): Value {
    match rule
    case NoRule => VNone
    case DictRule(d) => Get(d, key)
    case ObjectRule(attrs) => Get(attrs, key)
  }

  /** `_pick_first`: the number under the first key, in argument order, whose
      value converts; None when no key's value does (see PickFirstSpec). */
  function PickFirst(rule: RuleSource, keys: seq<string>): Option<real> {
    if keys == [] then None
    else
      var v := SafeFloat(RuleGet(rule, keys[0]));
      if v.Some? then v else PickFirst(rule, keys[1..])
  }

  /** PickFirst returns the conversion of the first key whose value converts,
      and None exactly when no key's value converts. */
  lemma {:induction false} PickFirstSpec(rule: RuleSource, keys: seq<string>)
    ensures forall i :: 0 <= i < |keys| && SafeFloat(RuleGet(rule, keys[i])).Some?
                        && (forall j :: 0 <= j < i ==> SafeFloat(RuleGet(rule, keys[j])).None?)
                        ==> PickFirst(rule, keys) == SafeFloat(RuleGet(rule, keys[i]))
    ensures (forall i :: 0 <= i < |keys| ==> SafeFloat(RuleGet(rule, keys[i])).None?) <==> PickFirst(rule, keys).None?
  {
    if keys != [] && SafeFloat(RuleGet(rule, keys[0])).None? {
      PickFirstSpec(rule, keys[1..]);
      assert forall i :: 1 <= i < |keys| ==> keys[i] == keys[1..][i - 1];
    }
  }

  /** `_pct_to_fraction`: a value above 1.5 is read as a percentage. */
  function PctToFraction(v: Option<real>): (r: Option<real>)
    ensures v.None? <==> r.None?
    ensures v.Some? && v.value > 1.5 ==> r.value * 100.0 == v.value && r.value != v.value
    ensures v.Some? && v.value <= 1.5 ==> r == v
  {
    match v
    case None => None
    case Some(x) => Some(if x > 1.5 then x / 100.0 else x)
  }

  /** Python's `not x` for an optional float. */
  predicate Falsy(x: Option<real>) {
    x.None? || x.value == 0.0
  }

  /** `_area_buildable`: the rectangle left once the setbacks are taken off
      the frontage and the depth, each side clamped at zero; 0 without both
      dimensions. */
  function AreaBuildable(testada: Option<real>, profundidade: Option<real>,
                         front: real, back: real, left: real, right: real): (a: real)
    ensures a >= 0.0
    ensures Falsy(testada) || Falsy(profundidade) ==> a == 0.0
  {
    if Falsy(testada) || Falsy(profundidade) then 0.0
    else
      var w := Max(0.0, testada.value - left - right);
      var d := Max(0.0, profundidade.value - front - back);
      w * d
  }

  /** A smaller left setback never shrinks the envelope. */
  lemma AreaBuildableMonotoneInLeft(testada: Option<real>, profundidade: Option<real>,
                                    front: real, back: real, left: real, left': real, right: real)
    requires left' <= left
    ensures AreaBuildable(testada, profundidade, front, back, left', right)
         >= AreaBuildable(testada, profundidade, front, back, left, right)
  {
    if !(Falsy(testada) || Falsy(profundidade)) {
      var w := Max(0.0, testada.value - left - right);
      var w' := Max(0.0, testada.value - left' - right);
      var d := Max(0.0, profundidade.value - front - back);
      assert w' >= w >= 0.0 && d >= 0.0;
      MulMonotone(w, w', d);
    }
  }

  lemma MulMonotone(w: real, w': real, d: real)
    requires 0.0 <= w <= w' && d >= 0.0
    ensures w * d <= w' * d
  {
    assert w' * d - w * d == (w' - w) * d;
  }

  /** With non-negative setbacks and a positive frontage and depth the
      envelope fits in the frontage-by-depth rectangle. */
  lemma AreaBuildableWithinLot(testada: real, profundidade: real,
                               front: real, back: real, left: real, right: real)
    requires testada > 0.0 && profundidade > 0.0
    requires front >= 0.0 && back >= 0.0 && left >= 0.0 && right >= 0.0
    ensures AreaBuildable(Some(testada), Some(profundidade), front, back, left, right) <= testada * profundidade
  {
    var w := Max(0.0, testada - left - right);
    var d := Max(0.0, profundidade - front - back);
    MulMonotone(w, testada, d);
    assert testada * d <= testada * profundidade by {
      assert testada * profundidade - testada * d == testada * (profundidade - d);
    }
  }

  /** When both pairs of setbacks fit in the lot, the envelope is the
      frontage less the side setbacks times the depth less the front and
      back setbacks. */
  lemma AreaBuildableWhenSetbacksFit(testada: real, profundidade: real,
                                     front: real, back: real, left: real, right: real)
    requires 0.0 <= left + right <= testada && 0.0 <= front + back <= profundidade
    ensures AreaBuildable(Some(testada), Some(profundidade), front, back, left, right)
            == (testada - left - right) * (profundidade - front - back)
  {
    if testada == 0.0 {
      assert testada - left - right == 0.0;
    } else if profundidade == 0.0 {
      assert profundidade - front - back == 0.0;
    }
  }

  /** Side setbacks that take the whole frontage, or front and back setbacks
      that take the whole depth, leave no envelope. */
  lemma AreaBuildableNoRoom(testada: real, profundidade: real,
                            front: real, back: real, left: real, right: real)
    requires left + right >= testada || front + back >= profundidade
    ensures AreaBuildable(Some(testada), Some(profundidade), front, back, left, right) == 0.0
  {
  }

  // ---------------------------------------------------------------------
  // compute
  // ---------------------------------------------------------------------

  /** The lot area: the new keyword first, then the legacy one. */
  function LotArea(a: ComputeArgs): Option<real> {
    var x := SafeFloat(a.areaLoteM2);
    if x.Some? then x else SafeFloat(a.lotAreaM2)
  }

  /** The frontage: `testada_m`, then `frontage_m`, then `largura_m`. */
  function Testada(a: ComputeArgs): Option<real> {
    var x := SafeFloat(a.testadaM);
    if x.Some? then x
    else
      var y := SafeFloat(a.frontageM);
      if y.Some? then y else SafeFloat(a.larguraM)
  }

  /** The depth: `profundidade_m`, then `depth_m`. */
  function Profundidade(a: ComputeArgs): Option<real> {
    var x := SafeFloat(a.profundidadeM);
    if x.Some? then x else SafeFloat(a.depthM)
  }

  /** The rule in force: `zone_rule`, or `rule` when `zone_rule` is None. */
  function EffectiveRule(a: ComputeArgs): RuleSource {
    if a.zoneRule.NoRule? && !a.rule.NoRule? then a.rule else a.zoneRule
  }

  /** Python's `v in (None, 0.0)`: None, or a value equal to zero. */
  predicate NoneOrZero(v: Value) {
    v == VNone || v == VBool(false) || v == VInt(0) || v == VFloat(0.0)
  }

  /** The ground-floor area: `ground_area_m2` replaces a missing or zero
      `area_terreo_m2`; then `float(area_terreo_m2 or 0.0)`. Err when
      `float()` raises. */
  function GroundArea(a: ComputeArgs): (r: Result<real, ComputeError>)
    ensures a.groundAreaM2 == VNone && !Truthy(a.areaTerreoM2) ==> r == Ok(0.0)
  {
    if a.groundAreaM2 != VNone && NoneOrZero(a.areaTerreoM2) then
      match ToFloat(a.groundAreaM2)
      case None => Err(NotANumber("ground_area_m2"))
      case Some(g) => Ok(g)
    else if !Truthy(a.areaTerreoM2) then Ok(0.0)
    else
      match ToFloat(a.areaTerreoM2)
      case None => Err(NotANumber("area_terreo_m2"))
      case Some(g) => Ok(g)
  }

  /** The occupancy fraction in force: the percent-normalised TO, 0 when missing. */
  function ToFraction(rule: RuleSource): real {
    PctToFraction(PickFirst(rule, ToKeys)).GetOr(0.0)
  }

  /** The permeability fraction in force: the percent-normalised TP, 0 when missing. */
  function TpFraction(rule: RuleSource): real {
    PctToFraction(PickFirst(rule, TpKeys)).GetOr(0.0)
  }

  /** The floor-area ratio in force, never percent-scaled, 0 when missing. */
  function IaRatio(rule: RuleSource): real {
    PickFirst(rule, IaKeys).GetOr(0.0)
  }

  function FrontSetback(rule: RuleSource): real { PickFirst(rule, FrontKeys).GetOr(0.0) }
  function SideSetback(rule: RuleSource): real { PickFirst(rule, SideKeys).GetOr(0.0) }
  function BackSetback(rule: RuleSource): real { PickFirst(rule, BackKeys).GetOr(0.0) }

  /** `bool(_rule_get(rule, "allow_attach_one_side") or False)`. */
  predicate AllowAttachOneSide(rule: RuleSource) {
    Truthy(RuleGet(rule, "allow_attach_one_side"))
  }

  /** The result dict of `compute` once the lot area, the ground-floor area,
      the rule and the lot dimensions are settled. */
  function EnvelopeFor(area: real, terreo: real, rule: RuleSource,
                       testada: Option<real>, profundidade: Option<real>): Envelope
  {
    var toFrac, tpFrac, iaVal := ToFraction(rule), TpFraction(rule), IaRatio(rule);
    var toMaxM2 := area * toFrac;
    var front, side, back := FrontSetback(rule), SideSetback(rule), BackSetback(rule);
    var standard := AreaBuildable(testada, profundidade, front, back, side, side);
    var art112 := AreaBuildable(testada, profundidade, front, back,
                                if AllowAttachOneSide(rule) then 0.0 else side, side);
    Envelope(
      toMaxPct := toFrac * 100.0,
      tpMinPct := tpFrac * 100.0,
      iaMax := iaVal,
      toMaxM2 := toMaxM2,
      tpMinM2 := area * tpFrac,
      iaMaxM2 := area * iaVal,
      standard := Footprint(standard, Min(toMaxM2, standard)),
      art112 := Footprint(art112, Min(toMaxM2, art112)),
      toOk := terreo <= toMaxM2 + Tolerance)
  }

  /** `compute`: the TO/TP/IA limits and both footprint options for a lot. */
  function Compute(a: ComputeArgs): (r: Result<Envelope, ComputeError>)
    ensures r == Err(InvalidLotArea) <==> LotArea(a).None? || LotArea(a).value <= 0.0
    ensures r.Err? && r.error.NotANumber? ==> GroundArea(a).Err?
    ensures r.Ok? ==> LotArea(a).Some? && LotArea(a).value > 0.0 && GroundArea(a).Ok?
                      && r.value == EnvelopeFor(LotArea(a).value, GroundArea(a).value, EffectiveRule(a),
                                                Testada(a), Profundidade(a))
  {
    var lot := LotArea(a);
    if lot.None? || lot.value <= 0.0 then Err(InvalidLotArea)
    else
      match GroundArea(a)
      case Err(e) => Err(e)
      case Ok(terreo) => Ok(EnvelopeFor(lot.value, terreo, EffectiveRule(a), Testada(a), Profundidade(a)))
  }

  // ---------------------------------------------------------------------
  // Properties of compute (stated on EnvelopeFor, which Compute returns)
  // ---------------------------------------------------------------------

  /** Both ground-floor maxima are the smaller of the TO area and their envelope. */
  lemma GroundMaximaBounded(area: real, terreo: real, rule: RuleSource, testada: Option<real>, profundidade: Option<real>)
    ensures var e := EnvelopeFor(area, terreo, rule, testada, profundidade);
      && e.standard.maxGroundM2 <= e.toMaxM2 && e.standard.maxGroundM2 <= e.standard.envelopeM2
      && (e.standard.maxGroundM2 == e.toMaxM2 || e.standard.maxGroundM2 == e.standard.envelopeM2)
      && e.art112.maxGroundM2 <= e.toMaxM2 && e.art112.maxGroundM2 <= e.art112.envelopeM2
      && (e.art112.maxGroundM2 == e.toMaxM2 || e.art112.maxGroundM2 == e.art112.envelopeM2)
  {
  }

  /** Without `allow_attach_one_side` the Art.112 option is the standard one;
      with it and a non-negative side setback it is at least as large. */
  lemma Art112Envelope(area: real, terreo: real, rule: RuleSource, testada: Option<real>, profundidade: Option<real>)
    ensures var e := EnvelopeFor(area, terreo, rule, testada, profundidade);
      && (!AllowAttachOneSide(rule) ==> e.art112 == e.standard)
      && (AllowAttachOneSide(rule) && SideSetback(rule) >= 0.0 ==>
            e.art112.envelopeM2 >= e.standard.envelopeM2 && e.art112.maxGroundM2 >= e.standard.maxGroundM2)
  {
    var side := SideSetback(rule);
    if AllowAttachOneSide(rule) && side >= 0.0 {
      AreaBuildableMonotoneInLeft(testada, profundidade, FrontSetback(rule), BackSetback(rule), side, 0.0, side);
    }
  }

  /** The index areas are the lot area times the fraction or ratio in force
      (IA taken as it is, never percent-scaled); the percentages are the
      fractions times 100. */
  lemma IndexAreas(area: real, terreo: real, rule: RuleSource, testada: Option<real>, profundidade: Option<real>)
    ensures var e := EnvelopeFor(area, terreo, rule, testada, profundidade);
      && e.toMaxM2 == area * ToFraction(rule)
      && e.tpMinM2 == area * TpFraction(rule)
      && e.iaMaxM2 == area * PickFirst(rule, IaKeys).GetOr(0.0)
      && e.toMaxPct == ToFraction(rule) * 100.0
      && e.tpMinPct == TpFraction(rule) * 100.0
  {
  }

  /** A missing TO, TP or IA becomes 0, so its area limit is 0. */
  lemma MissingIndexIsZero(area: real, terreo: real, rule: RuleSource, testada: Option<real>, profundidade: Option<real>)
    ensures var e := EnvelopeFor(area, terreo, rule, testada, profundidade);
      && (PickFirst(rule, ToKeys).None? ==> e.toMaxM2 == 0.0 && e.toMaxPct == 0.0)
      && (PickFirst(rule, TpKeys).None? ==> e.tpMinM2 == 0.0 && e.tpMinPct == 0.0)
      && (PickFirst(rule, IaKeys).None? ==> e.iaMaxM2 == 0.0 && e.iaMax == 0.0)
  {
  }

  /** `to_ok` holds exactly when the ground-floor area is within the TO area
      plus the tolerance. */
  lemma OccupancyCheck(area: real, terreo: real, rule: RuleSource, testada: Option<real>, profundidade: Option<real>)
    ensures var e := EnvelopeFor(area, terreo, rule, testada, profundidade);
      e.toOk <==> terreo <= e.toMaxM2 + Tolerance
  {
  }

  /** An occupancy written as 60 and one written as 0.6 give the same limit. */
  lemma PercentAndFractionAgree(x: real)
    requires 0.015 < x <= 1.5
    ensures PctToFraction(Some(x * 100.0)) == PctToFraction(Some(x))
  {
  }

  /** Alias order decides, not record content: when `to_max_pct` holds a
      number, `to_max` and the later aliases are ignored. */
  lemma FirstAliasWins(d: Dict, x: real)
    requires "to_max_pct" in d && d["to_max_pct"] == VFloat(x)
    ensures ToFraction(DictRule(d)) == PctToFraction(Some(x)).value
  {
  }

  /** Without any rule every index limit is 0, both options coincide and
      nothing may be built on the ground floor. */
  lemma NoRuleMeansNoLimits(area: real, terreo: real, testada: Option<real>, profundidade: Option<real>)
    ensures var e := EnvelopeFor(area, terreo, NoRule, testada, profundidade);
      e.toMaxM2 == 0.0 && e.tpMinM2 == 0.0 && e.iaMaxM2 == 0.0 && e.art112 == e.standard
      && e.standard.maxGroundM2 == 0.0
  {
    assert PickFirst(NoRule, ToKeys).None?;
    assert PickFirst(NoRule, TpKeys).None?;
    assert PickFirst(NoRule, IaKeys).None?;
    MissingIndexIsZero(area, terreo, NoRule, testada, profundidade);
    GroundMaximaBounded(area, terreo, NoRule, testada, profundidade);
  }

  /** The rule of the worked lot below. */
  function WorkedRule(): RuleSource {
    DictRule(map["to_max_pct" := VFloat(0.5), "recuo_frontal_m" := VFloat(3.0),
                 "recuo_fundos_m" := VFloat(2.0), "recuo_lateral_m" := VFloat(1.5),
                 "allow_attach_one_side" := VBool(true)])
  }

  /** The worked rule's TO, setbacks and attachment are read from its first
      aliases. */
  lemma WorkedRuleValues()
    ensures ToFraction(WorkedRule()) == 0.5 && AllowAttachOneSide(WorkedRule())
    ensures FrontSetback(WorkedRule()) == 3.0 && BackSetback(WorkedRule()) == 2.0
    ensures SideSetback(WorkedRule()) == 1.5
  {
    var rule := WorkedRule();
    assert RuleGet(rule, ToKeys[0]) == VFloat(0.5);
    assert RuleGet(rule, FrontKeys[0]) == VFloat(3.0);
    assert RuleGet(rule, BackKeys[0]) == VFloat(2.0);
    assert RuleGet(rule, SideKeys[0]) == VFloat(1.5);
  }

  /** A 10 m by 30 m lot of 300 m² with a 3 m front, 2 m back and 1.5 m side
      setbacks and a TO of 0.5: the standard envelope is 7 × 25 = 175 m², the
      Art.112 one (one side attached) 8.5 × 25 = 212.5 m², and the TO caps
      both ground-floor maxima at 150 m². */
  lemma WorkedLot()
    ensures var e := EnvelopeFor(300.0, 150.0, WorkedRule(), Some(10.0), Some(30.0));
      e.toMaxM2 == 150.0 && e.toOk
      && e.standard == Footprint(175.0, 150.0) && e.art112 == Footprint(212.5, 150.0)
  {
    WorkedRuleValues();
    AreaBuildableWhenSetbacksFit(10.0, 30.0, 3.0, 2.0, 1.5, 1.5);
    AreaBuildableWhenSetbacksFit(10.0, 30.0, 3.0, 2.0, 0.0, 1.5);
  }
}
