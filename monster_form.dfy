/**
 * The creation form: its initial values, the per-field edit rule (stats are
 * parsed and clamped to at least 1, text is kept as typed) and the submit guard.
 */
module MonsterForm {
  import opened Types

  /** The six inputs of the form. */
  datatype Field = Name | Attack | Defense | Speed | Hp | ImageUrl {
    predicate IsStat() {
      Attack? || Defense? || Speed? || Hp?
    }
  }

  /** What a field currently holds: text fields hold strings, stat fields numbers. */
  datatype FieldValue = Text(text: string) | Number(number: int)

  function Get(form: MonsterInput, field: Field): FieldValue {
    match field
    case Name => Text(form.name)
    case Attack => Number(form.attack)
    case Defense => Number(form.defense)
    case Speed => Number(form.speed)
    case Hp => Number(form.hp)
    case ImageUrl => Text(form.imageUrl)
  }


  /**
   * `Math.max(1, parseInt(v) || 1)`: `parsed` is what `parseInt` gives, `None`
   * standing for `NaN`; `NaN` and `0` fall back to 1, the rest is floored at 1.
   */
  function ClampStat(parsed: Option<int>): (v: int)
    ensures v >= 1
    ensures parsed.Some? && parsed.value >= 1 ==> v == parsed.value
    ensures parsed.None? || parsed.value < 1 ==> v == 1
  {
    Max(1, if parsed.Some? && parsed.value != 0 then parsed.value else 1)
  }

  /** Every stat is at least 1, as the edit rule keeps them. */
  predicate StatsPositive(form: MonsterInput) {
    form.attack >= 1 && form.defense >= 1 && form.speed >= 1 && form.hp >= 1
  }

  /**
   * The form after typing `value` into `field`. `parse` is the browser's
   * `parseInt`, which this model does not define.
   */
  function WithField(form: MonsterInput, field: Field, value: string, parse: string -> Option<int>): (r: MonsterInput)
    ensures forall f: Field :: f != field ==> Get(r, f) == Get(form, f)
    ensures field.IsStat() ==> Get(r, field) == Number(ClampStat(parse(value)))
    ensures !field.IsStat() ==> Get(r, field) == Text(value)
    ensures StatsPositive(form) ==> StatsPositive(r)
  {
    match field
    case Name => form.(name := value)
    case Attack => form.(attack := ClampStat(parse(value)))
    case Defense => form.(defense := ClampStat(parse(value)))
    case Speed => form.(speed := ClampStat(parse(value)))
    case Hp => form.(hp := ClampStat(parse(value)))
    case ImageUrl => form.(imageUrl := value)
  }

  /** What submitting hands over: the form itself, and only with a name and an image URL. */
  function Submission(form: MonsterInput): (s: Option<MonsterInput>)
    ensures s.Some? <==> form.name != "" && form.imageUrl != ""
    ensures s.Some? ==> s.value == form
  {
    if form.name != "" && form.imageUrl != "" then Some(form) else None
  }

  /** The values an empty form opens with: positive stats, and empty text fields, so it cannot be submitted yet. */
  function InitialForm(): (form: MonsterInput)
    ensures StatsPositive(form)
    ensures Submission(form) == None
    ensures forall f: Field :: f.IsStat() ==> Get(form, f).number >= 30
  {
    MonsterInput("", 50, 40, 30, 100, "")
  }

  /** The form component's state. */
  class FormState {
    var formData: MonsterInput

    constructor ()
      ensures formData == InitialForm()
    {
      formData := InitialForm();
    }

    method UpdateField(field: Field, value: string, parse: string -> Option<int>)
      modifies this
      ensures formData == WithField(old(formData), field, value, parse)
    {
      var prev := formData;
      if field.IsStat() {
        var v := ClampStat(parse(value));
        formData := match field
          case Attack => prev.(attack := v)
          case Defense => prev.(defense := v)
          case Speed => prev.(speed := v)
          case _ => prev.(hp := v);
      } else {
        formData := if field == Name then prev.(name := value) else prev.(imageUrl := value);
      }
    }

    /** `handleSubmit`: what reaches `onSubmit`, if anything; the form itself is left as it is. */
    method HandleSubmit() returns (submitted: Option<MonsterInput>)
      ensures submitted == Submission(formData)
    {
      if formData.name != "" && formData.imageUrl != "" {
        submitted := Some(formData);
      } else {
        submitted := None;
      }
    }
  }
}
