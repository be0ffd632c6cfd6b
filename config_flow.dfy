/**
 * Validation of a new proxy's configuration: reading the LLV and HLD levels a
 * user typed (as a percentage, or as a plain number that is read as a
 * percentage up to 100 and as a raw 0..255 level above that), and the checks
 * of the user step before an entry is created.
 *
 * Strings reach the model already split the way the source looks at them:
 * whether the stripped text ends in "%", and what `float()` makes of the rest
 * (an integer, or a parse failure).
 */
module ConfigFlow {
  import opened Wrappers
  import opened Rounding
  import opened PyText

  /** A level as the form delivers it. */
  datatype LevelInput =
    | NoValue                                   // None
    | Text(percent: bool, number: Option<int>)  // a string: "%"-suffixed?, float() of the number part
    | Number(n: int)                            // an int
    | Other                                     // a value of any other type

  /** The fields of the user step's form. */
  datatype UserInput = UserInput(name: string, target: string, llv: LevelInput, hld: LevelInput, profile: string)

  /** An existing config entry of the integration, seen through `data.get("target")`. */
  datatype ConfigEntry = ConfigEntry(target: Option<string>)

  /** The data stored in a new config entry. */
  datatype EntryData = EntryData(name: string, target: string, llv: int, hld: int, profile: string)

  /** The two ways the user step ends: the form again, with errors, or a new entry. */
  datatype FlowResult =
    | ShowForm(errors: map<string, string>)
    | CreateEntry(title: string, data: EntryData)

  const ErrorKey: string := "base"
  const BadLevel: string := "bad_level"
  const LlvGtHld: string := "llv_gt_hld"
  const TargetInUse: string := "target_in_use"

  /**
   * The nested `clamp255` applied to the rational num / den: clamp into
   * 0..255, then round half to even.
   */
  function Clamp255(num: int, den: int): (r: int)
    requires den > 0
    ensures 0 <= r <= 255
    ensures num <= 0 ==> r == 0
    ensures num >= 255 * den ==> r == 255
    ensures 0 <= num <= 255 * den ==> den * (2 * r - 1) <= 2 * num <= den * (2 * r + 1)
    ensures 0 <= num <= 255 * den && (2 * num == den * (2 * r - 1) || 2 * num == den * (2 * r + 1)) ==> r % 2 == 0
    ensures 0 <= num <= 255 * den ==> r == RoundHalfEven(num, den)
  {
    RoundMultiple(0, den);
    RoundMultiple(255, den);
    if num < 0 then 0
    else if num > 255 * den then 255
    else
      RoundMonotone(0, num, den);
      RoundMonotone(num, 255 * den, den);
      RoundHalfEven(num, den)
  }

  /** A percentage read as a level: 255 * pct / 100, clamped and rounded. */
  function PercentLevel(pct: int): (r: int)
  {
    Clamp255(255 * pct, 100)
  }

  /** A plain number: up to 100 (from 0) it is a percentage, otherwise a raw level. */
  function PlainLevel(v: int): (r: int)
  {
    if 0 <= v <= 100 then PercentLevel(v) else Clamp255(v, 1)
  }

  /** `_parse_level`. */
  function ParseLevel(value: LevelInput): (r: Option<int>)
    ensures r.Some? ==> 0 <= r.value <= 255
    ensures value.NoValue? || value.Other? ==> r.None?
    ensures value.Text? && value.number.None? ==> r.None?
    ensures value.Text? && value.percent && value.number.Some? ==>
              (r.None? <==> value.number.value < 0 || value.number.value > 100)
    ensures value.Number? || (value.Text? && !value.percent && value.number.Some?) ==> r.Some?
  {
    match value
    case NoValue => None
    case Text(percent, number) =>
      if number.None? then None
      else if percent then
        if number.value < 0 || number.value > 100 then None else Some(PercentLevel(number.value))
      else Some(PlainLevel(number.value))
    case Number(n) => Some(PlainLevel(n))
    case Other => None
  }

  /** Some existing entry already targets this entity. */
  predicate Proxied(entries: seq<ConfigEntry>, target: string)
  {
    exists i :: 0 <= i < |entries| && entries[i].target == Some(target)
  }

  /**
   * The outcome of the user step: the form with no errors when nothing was
   * submitted; otherwise the first failing check in the order bad_level,
   * llv_gt_hld, target_in_use; otherwise a new entry.
   */
  function UserStepOutcome(userInput: Option<UserInput>, entries: seq<ConfigEntry>): (r: FlowResult)
    // nothing submitted: the form with no errors; a submitted form comes back with one error
    ensures userInput.None? ==> r == ShowForm(map[])
    ensures userInput.Some? && r.ShowForm? ==>
              && ErrorKey in r.errors && r.errors.Keys == {ErrorKey}
              && r.errors[ErrorKey] in {BadLevel, LlvGtHld, TargetInUse}
    ensures r.CreateEntry? ==>
              && userInput.Some? && r.title == r.data.name == Strip(userInput.value.name)
              && r.data.target == Strip(userInput.value.target) && r.data.profile == userInput.value.profile
  {
    if userInput.None? then ShowForm(map[])
    else
      var u := userInput.value;
      var name, target := Strip(u.name), Strip(u.target);
      var llv, hld := ParseLevel(u.llv), ParseLevel(u.hld);
      if llv.None? || hld.None? then ShowForm(map[ErrorKey := BadLevel])
      else if llv.value > hld.value then ShowForm(map[ErrorKey := LlvGtHld])
      else if Proxied(entries, target) then ShowForm(map[ErrorKey := TargetInUse])
      else CreateEntry(name, EntryData(name, target, llv.value, hld.value, u.profile))
  }

  /** `_target_already_proxied`: a linear search over the existing entries. */
  method TargetAlreadyProxied(entries: seq<ConfigEntry>, target: string) returns (found: bool)
    ensures found <==> Proxied(entries, target)
  {
    for i := 0 to |entries|
      invariant forall j :: 0 <= j < i ==> entries[j].target != Some(target)
    {
      if entries[i].target == Some(target) {
        return true;
      }
    }
    return false;
  }

  /** `async_step_user`. */
  method StepUser(userInput: Option<UserInput>, entries: seq<ConfigEntry>) returns (r: FlowResult)
    ensures r == UserStepOutcome(userInput, entries)
  {
    var errors: map<string, string> := map[];
    if userInput.Some? {
      var u := userInput.value;
      var name := Strip(u.name);
      var target := Strip(u.target);
      var profile := u.profile;
      var llv := ParseLevel(u.llv);
      var hld := ParseLevel(u.hld);
      if llv.None? || hld.None? {
        errors := errors[ErrorKey := BadLevel];
        assert ErrorKey in errors;
      } else if llv.value > hld.value {
        errors := errors[ErrorKey := LlvGtHld];
        assert ErrorKey in errors;
      } else {
        var inUse := TargetAlreadyProxied(entries, target);
        if inUse {
          errors := errors[ErrorKey := TargetInUse];
          assert ErrorKey in errors;
        }
      }
      if errors == map[] {
        return CreateEntry(name, EntryData(name, target, llv.value, hld.value, profile));
      }
    }
    return ShowForm(errors);
  }
}
