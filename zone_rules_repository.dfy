/**
  The typed zoning-rule record read from the `zone_rules` table: six required
  numeric fields besides the zone and use codes, a `get` that accepts the
  application's older key names, and the conversion of a fetched row into a
  record, which refuses a row missing any numeric field.

  The query itself is not modelled: the rows it returns are an input.
*/
module ZoneRulesRepository {
  import opened Wrappers
  import opened PyValue
  import Calculations

  /** The frozen record. Percentages are kept as stored (`to_max_pct` may be
      60 or 0.6). */
  datatype ZoneRule = ZoneRule(
    zoneSigla: string,
    useTypeCode: string,
    toMaxPct: real,
    tpMinPct: real,
    iaMax: real,
    recuoFrontalM: real,
    recuoLateralM: real,
    recuoFundosM: real)
  {
    /** `getattr(self, attr)` for the record's fields; None for a name that
        is not a field. */
    function Attr(attr: string): Option<Value> {
      if attr == "zone_sigla" then Some(VStr(zoneSigla))
      else if attr == "use_type_code" then Some(VStr(useTypeCode))
      else if attr == "to_max_pct" then Some(VFloat(toMaxPct))
      else if attr == "tp_min_pct" then Some(VFloat(tpMinPct))
      else if attr == "ia_max" then Some(VFloat(iaMax))
      else if attr == "recuo_frontal_m" then Some(VFloat(recuoFrontalM))
      else if attr == "recuo_lateral_m" then Some(VFloat(recuoLateralM))
      else if attr == "recuo_fundos_m" then Some(VFloat(recuoFundosM))
      else None
    }

    /** `rule.get(key, default)`: the key is first renamed through the alias
        table, then read as an attribute, with `default` when there is none. */
    function Get(key: string, default: Value): Value {
      Attr(AttrName(key)).GetOr(default)
    }

    /** The record's fields as the attribute map `getattr` sees. */
    function Attrs(): Dict {
      map[
        "zone_sigla" := VStr(zoneSigla),
        "use_type_code" := VStr(useTypeCode),
        "to_max_pct" := VFloat(toMaxPct),
        "tp_min_pct" := VFloat(tpMinPct),
        "ia_max" := VFloat(iaMax),
        "recuo_frontal_m" := VFloat(recuoFrontalM),
        "recuo_lateral_m" := VFloat(recuoLateralM),
        "recuo_fundos_m" := VFloat(recuoFundosM)]
    }
  }

  /** The field names of the record, in declaration order. */
  const FieldNames: seq<string> :=
    ["zone_sigla", "use_type_code", "to_max_pct", "tp_min_pct", "ia_max",
     "recuo_frontal_m", "recuo_lateral_m", "recuo_fundos_m"]

  /** The older key names `get` accepts, and the field each one reads. */
  const Aliases: map<string, string> := map[
    "to_max" := "to_max_pct",
    "tp_min" := "tp_min_pct",
    "setback_front_m" := "recuo_frontal_m",
    "setback_side_m" := "recuo_lateral_m",
    "setback_back_m" := "recuo_fundos_m"]

  /** `alias.get(key, key)`. */
  function AttrName(key: string): string {
    if key in Aliases then Aliases[key] else key
  }

  /** Each older name reads the field it stands for. */
  lemma GetRemapsAliases(z: ZoneRule, default: Value)
    ensures z.Get("to_max", default) == VFloat(z.toMaxPct)
    ensures z.Get("tp_min", default) == VFloat(z.tpMinPct)
    ensures z.Get("setback_front_m", default) == VFloat(z.recuoFrontalM)
    ensures z.Get("setback_side_m", default) == VFloat(z.recuoLateralM)
    ensures z.Get("setback_back_m", default) == VFloat(z.recuoFundosM)
  {
  }

  /** A key outside the alias table is looked up verbatim: it reads the field
      of that name, or gives the default when no field has that name. */
  lemma GetVerbatim(z: ZoneRule, key: string, default: Value)
    requires key !in Aliases
    ensures key in z.Attrs() ==> z.Get(key, default) == z.Attrs()[key]
    ensures key !in z.Attrs() ==> z.Get(key, default) == default
  {
  }

  /** The attribute map holds exactly the field names. */
  lemma AttrsAreFields(z: ZoneRule)
    ensures forall k :: k in z.Attrs() <==> k in FieldNames
  {
  }

  /** `get` never invents a value: it answers a field of the record or the
      default. */
  lemma GetAnswersFieldOrDefault(z: ZoneRule, key: string, default: Value)
    ensures z.Get(key, default) == default
            || exists k :: k in z.Attrs() && z.Get(key, default) == z.Attrs()[k]
  {
    var a := AttrName(key);
    if a in z.Attrs() {
      assert z.Get(key, default) == z.Attrs()[a];
    }
  }

  /** `compute` reads such a record through its attributes (not through
      `get`): TO and TP are the stored percentages turned into fractions, IA
      and the setbacks are the stored numbers, and attaching to one side is
      never allowed since the record has no such field. */
  lemma ComputeReadsRecord(z: ZoneRule)
    ensures var rule := Calculations.ObjectRule(z.Attrs());
      && Calculations.ToFraction(rule) == Calculations.PctToFraction(Some(z.toMaxPct)).value
      && Calculations.TpFraction(rule) == Calculations.PctToFraction(Some(z.tpMinPct)).value
      && Calculations.IaRatio(rule) == z.iaMax
      && Calculations.FrontSetback(rule) == z.recuoFrontalM
      && Calculations.SideSetback(rule) == z.recuoLateralM
      && Calculations.BackSetback(rule) == z.recuoFundosM
      && !Calculations.AllowAttachOneSide(rule)
  {
    var rule := Calculations.ObjectRule(z.Attrs());
    assert Calculations.RuleGet(rule, "to_max_pct") == VFloat(z.toMaxPct);
    assert Calculations.RuleGet(rule, "tp_min_pct") == VFloat(z.tpMinPct);
    assert Calculations.RuleGet(rule, "ia_max") == VFloat(z.iaMax);
    assert Calculations.RuleGet(rule, "recuo_frontal_m") == VFloat(z.recuoFrontalM);
    assert Calculations.RuleGet(rule, "recuo_lateral_m") == VFloat(z.recuoLateralM);
    assert Calculations.RuleGet(rule, "recuo_fundos_m") == VFloat(z.recuoFundosM);
    assert Calculations.RuleGet(rule, "allow_attach_one_side") == VNone;
  }

  // ---------------------------------------------------------------------
  // Row conversion
  // ---------------------------------------------------------------------

  /** Why the conversion raises. */
  datatype RowError =
    | MissingField(field: string)   // RuntimeError: "Campo obrigatório ausente em zone_rules: <field>"
    | NotANumber(field: string)     // float() of the field's value raised

  /** The numeric fields the conversion requires, in the order it reads them. */
  const RequiredFields: seq<string> :=
    ["to_max_pct", "tp_min_pct", "ia_max", "recuo_frontal_m", "recuo_lateral_m", "recuo_fundos_m"]

  /** `_f(k)`: the field as a number; missing or None raises naming the field. */
  function Required(row: Dict, k: string): Result<real, RowError> {
    var v := Get(row, k);
    if v == VNone then Err(MissingField(k))
    else
      match ToFloat(v)
      case None => Err(NotANumber(k))
      case Some(x) => Ok(x)
  }

  /** The required fields read one after the other; the first that raises
      stops the reading (see ReadFieldsSpec). */
  function ReadFields(row: Dict, keys: seq<string>): Result<seq<real>, RowError> {
    if keys == [] then Ok([])
    else
      match Required(row, keys[0])
      case Err(e) => Err(e)
      case Ok(x) =>
        match ReadFields(row, keys[1..])
        case Err(e) => Err(e)
        case Ok(xs) => Ok([x] + xs)
  }

  /** Reading succeeds exactly when every field converts, and then yields
      each field's number in order; otherwise the error is that of the first
      field that does not convert. */
  lemma {:induction false} ReadFieldsSpec(row: Dict, keys: seq<string>)
    ensures ReadFields(row, keys).Ok? <==> forall i :: 0 <= i < |keys| ==> Required(row, keys[i]).Ok?
    ensures ReadFields(row, keys).Ok? ==>
      |ReadFields(row, keys).value| == |keys|
      && forall i :: 0 <= i < |keys| ==> ReadFields(row, keys).value[i] == Required(row, keys[i]).value
    ensures ReadFields(row, keys).Err? ==>
      exists i :: 0 <= i < |keys| && Required(row, keys[i]).Err?
        && ReadFields(row, keys).error == Required(row, keys[i]).error
        && forall j :: 0 <= j < i ==> Required(row, keys[j]).Ok?
  {
    if keys != [] {
      ReadFieldsSpec(row, keys[1..]);
      assert forall i :: 1 <= i < |keys| ==> keys[i] == keys[1..][i - 1];
      var r := ReadFields(row, keys);
      if Required(row, keys[0]).Err? {
        assert Required(row, keys[0]).Err? && r.error == Required(row, keys[0]).error;
      } else if r.Err? {
        var i :| 0 <= i < |keys[1..]| && Required(row, keys[1..][i]).Err?
                 && r.error == Required(row, keys[1..][i]).error
                 && forall j :: 0 <= j < i ==> Required(row, keys[1..][j]).Ok?;
        assert Required(row, keys[i + 1]).Err? && r.error == Required(row, keys[i + 1]).error;
        assert forall j :: 0 <= j < i + 1 ==> Required(row, keys[j]).Ok? by {
          forall j | 0 <= j < i + 1 ensures Required(row, keys[j]).Ok? {
            if j > 0 { assert keys[j] == keys[1..][j - 1]; }
          }
        }
      }
    }
  }

  /** The row-to-record conversion of `get_zone_rule`: the codes are stored
      as `str()` of the row's values, the six numbers as read. */
  function RowToRule(row: Dict): (r: Result<ZoneRule, RowError>)
    ensures r.Ok? ==> (r.value.zoneSigla == Str(Get(row, "zone_sigla"))
                       && r.value.useTypeCode == Str(Get(row, "use_type_code")))
  {
    match ReadFields(row, RequiredFields)
    case Err(e) => Err(e)
    case Ok(xs) =>
      ReadFieldsLength(row, RequiredFields);
      Ok(ZoneRule(Str(Get(row, "zone_sigla")), Str(Get(row, "use_type_code")),
                  xs[0], xs[1], xs[2], xs[3], xs[4], xs[5]))
  }

  /** A successful reading has one number per field. */
  lemma {:induction false} ReadFieldsLength(row: Dict, keys: seq<string>)
    requires ReadFields(row, keys).Ok?
    ensures |ReadFields(row, keys).value| == |keys|
  {
    if keys != [] {
      ReadFieldsLength(row, keys[1..]);
    }
  }

  /** `get_zone_rule` once the query has run: no row gives None; otherwise
      the first row is converted. */
  function GetZoneRule(rows: seq<Dict>): (r: Result<Option<ZoneRule>, RowError>)
    ensures rows == [] <==> r == Ok(None)
    ensures rows != [] && RowToRule(rows[0]).Ok? ==> r == Ok(Some(RowToRule(rows[0]).value))
    ensures rows != [] && RowToRule(rows[0]).Err? ==> r == Err(RowToRule(rows[0]).error)
  {
    if rows == [] then Ok(None)
    else
      match RowToRule(rows[0])
      case Err(e) => Err(e)
      case Ok(z) => Ok(Some(z))
  }

  /** The conversion fails exactly when a required field is missing, None
      or not a number, and then names the first such field; when it
      succeeds each number is the field's value as `float()` reads it. */
  lemma RowToRuleSpec(row: Dict)
    ensures RowToRule(row).Err? <==>
      exists i :: 0 <= i < |RequiredFields| && Required(row, RequiredFields[i]).Err?
    ensures RowToRule(row).Err? ==>
      exists i :: 0 <= i < |RequiredFields|
        && (RowToRule(row).error == MissingField(RequiredFields[i]) || RowToRule(row).error == NotANumber(RequiredFields[i]))
        && forall j :: 0 <= j < i ==> Required(row, RequiredFields[j]).Ok?
    ensures RowToRule(row).Ok? ==>
      var z := RowToRule(row).value;
      && Some(z.toMaxPct) == ToFloat(Get(row, "to_max_pct"))
      && Some(z.tpMinPct) == ToFloat(Get(row, "tp_min_pct"))
      && Some(z.iaMax) == ToFloat(Get(row, "ia_max"))
      && Some(z.recuoFrontalM) == ToFloat(Get(row, "recuo_frontal_m"))
      && Some(z.recuoLateralM) == ToFloat(Get(row, "recuo_lateral_m"))
      && Some(z.recuoFundosM) == ToFloat(Get(row, "recuo_fundos_m"))
  {
    ReadFieldsSpec(row, RequiredFields);
    var rr := ReadFields(row, RequiredFields);
    if rr.Ok? {
      forall i | 0 <= i < |RequiredFields|
        ensures Some(rr.value[i]) == ToFloat(Get(row, RequiredFields[i]))
      {
        assert Required(row, RequiredFields[i]).Ok?;
      }
    } else {
      var i :| 0 <= i < |RequiredFields| && Required(row, RequiredFields[i]).Err?
               && rr.error == Required(row, RequiredFields[i]).error
               && forall j :: 0 <= j < i ==> Required(row, RequiredFields[j]).Ok?;
      assert rr.error == MissingField(RequiredFields[i]) || rr.error == NotANumber(RequiredFields[i]);
    }
  }

  /** A field that is absent or None is reported as missing, by name, when
      every field before it converts. */
  lemma MissingFieldNamed(row: Dict, i: nat)
    requires i < |RequiredFields| && Get(row, RequiredFields[i]) == VNone
    requires forall j :: 0 <= j < i ==> Required(row, RequiredFields[j]).Ok?
    ensures RowToRule(row) == Err(MissingField(RequiredFields[i]))
  {
    ReadFieldsFirstError(row, RequiredFields, i);
  }

  /** The reading stops at the first field that raises, with its error. */
  lemma {:induction false} ReadFieldsFirstError(row: Dict, keys: seq<string>, i: nat)
    requires i < |keys| && Required(row, keys[i]).Err?
    requires forall j :: 0 <= j < i ==> Required(row, keys[j]).Ok?
    ensures ReadFields(row, keys) == Err(Required(row, keys[i]).error)
  {
    if i > 0 {
      assert forall j :: 0 <= j < i - 1 ==> keys[1..][j] == keys[j + 1];
      ReadFieldsFirstError(row, keys[1..], i - 1);
    }
  }

  /** Missing codes are not rejected: they are stored as the text "None". */
  lemma MissingCodesBecomeNone(row: Dict)
    requires "zone_sigla" !in row && RowToRule(row).Ok?
    ensures RowToRule(row).value.zoneSigla == "None"
  {
  }
}
