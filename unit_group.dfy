/**
 * A group of measurement units and the lookup of a unit by id, falling back
 * to the group's default unit.
 */
module UnitGroups {
  import opened Wrappers

  /** The conversion record of a unit; only its default flag matters here. */
  datatype CalcUnitConvert = CalcUnitConvert(isDefault: bool)

  /** A unit: its id and its conversion, which may be missing. */
  datatype CalcUnit = CalcUnit(id: int, name: string, convertation: Option<CalcUnitConvert>)

  datatype LookupError =
    | ArgumentNull   // the group has no unit list
    | NullReference  // the fallback scan reached a unit without a conversion

  /** FirstOrDefault(u => u.Id == unitId), as the index of the unit found. */
  function FirstWithId(units: seq<CalcUnit>, unitId: int): (k: Option<nat>)
    ensures k.Some? ==> k.value < |units| && units[k.value].id == unitId &&
                        forall j :: 0 <= j < k.value ==> units[j].id != unitId
    ensures k.None? ==> forall j :: 0 <= j < |units| ==> units[j].id != unitId
    decreases |units|
  {
    if |units| == 0 then None
    else if units[0].id == unitId then Some(0)
    else
      match FirstWithId(units[1..], unitId)
      case None => None
      case Some(k) => Some(k + 1)
  }

  /** A unit whose conversion is present and marked default. */
  predicate IsDefault(u: CalcUnit)
  {
    u.convertation.Some? && u.convertation.value.isDefault
  }

  /**
   * FirstOrDefault(u => u.Convertation.IsDefault), as an index: the scan
   * stops at the first default unit, and fails (with the index reached) at a
   * unit without a conversion met before any default one.
   */
  function FirstDefault(units: seq<CalcUnit>): (r: Result<Option<nat>, nat>)
    ensures r.Ok? && r.value.Some? ==>
              r.value.value < |units| && IsDefault(units[r.value.value]) &&
              forall j :: 0 <= j < r.value.value ==> units[j].convertation.Some? && !IsDefault(units[j])
    ensures r.Ok? && r.value.None? ==>
              forall j :: 0 <= j < |units| ==> units[j].convertation.Some? && !IsDefault(units[j])
    ensures r.Err? ==>
              r.error < |units| && units[r.error].convertation.None? &&
              forall j :: 0 <= j < r.error ==> units[j].convertation.Some? && !IsDefault(units[j])
    decreases |units|
  {
    if |units| == 0 then Ok(None)
    else if units[0].convertation.None? then Err(0)
    else if units[0].convertation.value.isDefault then Ok(Some(0))
    else
      match FirstDefault(units[1..])
      case Err(k) => Err(k + 1)
      case Ok(None) => Ok(None)
      case Ok(Some(k)) => Ok(Some(k + 1))
  }

  /**
   * GetUnitOrDefault: the first unit with the id asked for; failing that,
   * the first default unit; failing that, none.
   */
  function GetUnitOrDefault(units: Option<seq<CalcUnit>>, unitId: int): (r: Result<Option<CalcUnit>, LookupError>)
    ensures units.None? <==> r == Err(ArgumentNull)
    ensures units.Some? && FirstWithId(units.value, unitId).Some? ==>
              r == Ok(Some(units.value[FirstWithId(units.value, unitId).value]))
    ensures units.Some? && FirstWithId(units.value, unitId).None? ==>
              r == match FirstDefault(units.value)
                   case Err(_) => Err(NullReference)
                   case Ok(None) => Ok(None)
                   case Ok(Some(k)) => Ok(Some(units.value[k]))
  {
    match units
    case None => Err(ArgumentNull)
    case Some(list) =>
      match FirstWithId(list, unitId)
      case Some(k) => Ok(Some(list[k]))
      case None =>
        match FirstDefault(list)
        case Err(_) => Err(NullReference)
        case Ok(None) => Ok(None)
        case Ok(Some(k)) => Ok(Some(list[k]))
  }

  /** A unit with the id asked for wins over every default unit, even when it is not a default itself. */
  lemma IdWins(units: seq<CalcUnit>, unitId: int, k: nat)
    requires k < |units| && units[k].id == unitId
    requires forall j :: 0 <= j < k ==> units[j].id != unitId
    ensures GetUnitOrDefault(Some(units), unitId) == Ok(Some(units[k]))
  {
  }

  /** Whatever is found is a unit of the group, and it has the id asked for or is a default. */
  lemma FoundUnitMatches(units: seq<CalcUnit>, unitId: int)
    ensures GetUnitOrDefault(Some(units), unitId).Ok? && GetUnitOrDefault(Some(units), unitId).value.Some? ==>
              var u := GetUnitOrDefault(Some(units), unitId).value.value;
              u in units && (u.id == unitId || IsDefault(u))
  {
  }

  /** With no unit of that id and no default among units that all have conversions, nothing is found. */
  lemma NothingFound(units: seq<CalcUnit>, unitId: int)
    requires forall j :: 0 <= j < |units| ==> units[j].id != unitId && units[j].convertation.Some? && !IsDefault(units[j])
    ensures GetUnitOrDefault(Some(units), unitId) == Ok(None)
  {
  }

  /** The fallback scan fails at a unit without conversion placed before the first default. */
  lemma MissingConversionFails(units: seq<CalcUnit>, unitId: int, j: nat)
    requires j < |units| && units[j].convertation.None?
    requires forall i :: 0 <= i < |units| ==> units[i].id != unitId
    requires forall i :: 0 <= i < j ==> units[i].convertation.Some? && !IsDefault(units[i])
    ensures GetUnitOrDefault(Some(units), unitId) == Err(NullReference)
  {
  }
}
