/** `ValidationEngine`: a pure evaluator over two static rule tables. */
module Validation {
  import opened Results
  import opened Text
  import opened Values
  import opened Context

  datatype ValidationResult = ValidationResult(isValid: bool, message: string, suggestions: seq<string>)

  /** A field rule: the "type", "min_length" and "max_length" entries of a rule dict,
      `None` where the entry is absent. */
  datatype FieldRule = FieldRule(ty: Option<PyType>, minLength: Option<int>, maxLength: Option<int>)

  /** One entry of the structure table: a step and the fields it requires. */
  datatype Step = Step(name: string, required: seq<string>)

  /** The engine's static configuration. `structureRules` lists the steps in the
      order they were declared, as a Python dict keeps insertion order. A dict cannot
      repeat a step name; a table here that does corresponds to no configuration, and
      `StepRequired` reads the first entry of that name. */
  datatype Engine = Engine(fieldRules: map<string, FieldRule>, structureRules: seq<Step>)

  const NoFieldRules := "No hay reglas de validación para este campo"
  const FieldOk := "Campo válido"
  const NoStepRules := "No hay reglas de estructura para este paso"
  const StructureOk := "Estructura válida"
  const AllComplete := "Todos los campos requeridos " + "han sido completados"

  predicate TypeMismatch(rule: FieldRule, value: Value)
  {
    rule.ty.Some? && !IsInstance(value, rule.ty.value)
  }

  /** Length rules apply to strings only. */
  predicate TooShort(rule: FieldRule, value: Value)
  {
    value.VStr? && rule.minLength.Some? && |value.s| < rule.minLength.value
  }

  predicate TooLong(rule: FieldRule, value: Value)
  {
    value.VStr? && rule.maxLength.Some? && |value.s| > rule.maxLength.value
  }

  function TypeMessage(t: PyType): string
  {
    "El campo debe ser de tipo " + PyTypeName(t)
  }

  function TooShortMessage(minLength: int): string
  {
    "El texto debe tener al menos " + IntToString(minLength) + " caracteres"
  }

  function TooLongMessage(maxLength: int): string
  {
    "El texto no debe exceder " + IntToString(maxLength) + " caracteres"
  }

  /** The `errors` list `validate_field` builds: type check first, then the two length checks. */
  function FieldErrors(rule: FieldRule, value: Value): seq<string>
  {
    (if TypeMismatch(rule, value) then [TypeMessage(rule.ty.value)] else [])
    + (if TooShort(rule, value) then [TooShortMessage(rule.minLength.value)] else [])
    + (if TooLong(rule, value) then [TooLongMessage(rule.maxLength.value)] else [])
  }

  /** `validate_field`. The context argument is accepted and not consulted, as in the source. */
  function ValidateField(engine: Engine, field: string, value: Value, context: ContextView): (r: ValidationResult)
    ensures field !in engine.fieldRules ==> r == ValidationResult(true, NoFieldRules, [])
    ensures field in engine.fieldRules ==>
      var errors := FieldErrors(engine.fieldRules[field], value);
      && (r.isValid <==> errors == [])
      && r.message == (if errors == [] then FieldOk else Join(errors, ", "))
      && r.suggestions == []
  {
    if field !in engine.fieldRules then ValidationResult(true, NoFieldRules, [])
    else
      var errors := FieldErrors(engine.fieldRules[field], value);
      ValidationResult(|errors| == 0, if errors != [] then Join(errors, ", ") else FieldOk, [])
  }

  /** A ruled field is valid exactly when its type matches (if a type is given) and,
      for a string, its length is within the given bounds; each violated check adds
      exactly one error, independently of the others. */
  lemma FieldVerdict(engine: Engine, field: string, value: Value, context: ContextView)
    requires field in engine.fieldRules
    ensures var rule := engine.fieldRules[field];
      && (ValidateField(engine, field, value, context).isValid <==>
            !TypeMismatch(rule, value) && !TooShort(rule, value) && !TooLong(rule, value))
      && |FieldErrors(rule, value)| == (if TypeMismatch(rule, value) then 1 else 0)
                                       + (if TooShort(rule, value) then 1 else 0)
                                       + (if TooLong(rule, value) then 1 else 0)
  {
  }

  /** A value that is not a string never receives a length error. */
  lemma NonStringNoLengthError(rule: FieldRule, value: Value)
    requires !value.VStr?
    ensures FieldErrors(rule, value) == (if TypeMismatch(rule, value) then [TypeMessage(rule.ty.value)] else [])
  {
  }

  /** A type mismatch and a length violation are reported together in one result. */
  lemma TypeAndLengthBothReported()
    ensures var rule := FieldRule(Some(TInt), Some(5), None);
      var engine := Engine(map["company_size" := rule], []);
      && FieldErrors(rule, VStr("ab")) == [TypeMessage(TInt), TooShortMessage(5)]
      && ValidateField(engine, "company_size", VStr("ab"), ContextView("s", "user", 0, map[], map[], map[]))
           == ValidationResult(false, TypeMessage(TInt) + ", " + TooShortMessage(5), [])
  {
    var rule := FieldRule(Some(TInt), Some(5), None);
    assert TypeMismatch(rule, VStr("ab")) && TooShort(rule, VStr("ab")) && !TooLong(rule, VStr("ab"));
    assert FieldErrors(rule, VStr("ab")) == [TypeMessage(TInt), TooShortMessage(5)];
    assert Join([TypeMessage(TInt), TooShortMessage(5)], ", ") == TypeMessage(TInt) + ", " + Join([TooShortMessage(5)], ", ");
  }

  /** The required fields of `step`, looked up in the structure table. */
  function StepRequired(steps: seq<Step>, step: string): Option<seq<string>>
  {
    if steps == [] then None
    else if steps[0].name == step then Some(steps[0].required)
    else StepRequired(steps[1..], step)
  }

  function Suggestion(field: string): string
  {
    "Por favor, proporciona el campo: " + field
  }

  /** `validate_structure`: which required fields of the step are absent from the context's data. */
  function ValidateStructure(engine: Engine, context: ContextView, targetStep: string): (r: ValidationResult)
    ensures StepRequired(engine.structureRules, targetStep).None? ==> r == ValidationResult(true, NoStepRules, [])
    ensures StepRequired(engine.structureRules, targetStep).Some? ==>
      var required := StepRequired(engine.structureRules, targetStep).value;
      var missing := MissingKeys(required, context.data);
      && (r.isValid <==> forall f :: f in required ==> f in context.data)
      && r.message == (if missing == [] then StructureOk else "Faltan campos requeridos: " + Join(missing, ", "))
      && |r.suggestions| == |missing|
      && forall i :: 0 <= i < |missing| ==> r.suggestions[i] == Suggestion(missing[i])
  {
    match StepRequired(engine.structureRules, targetStep)
    case None => ValidationResult(true, NoStepRules, [])
    case Some(required) =>
      var missing := MissingKeys(required, context.data);
      ValidationResult(
        |missing| == 0,
        if missing != [] then "Faltan campos requeridos: " + Join(missing, ", ") else StructureOk,
        seq(|missing|, i requires 0 <= i < |missing| => Suggestion(missing[i])))
  }

  /** Presence of a key is what counts: a key holding `None` is not missing. */
  lemma NoneValueIsPresent(engine: Engine, context: ContextView, targetStep: string, field: string)
    requires StepRequired(engine.structureRules, targetStep) == Some([field])
    requires field in context.data && context.data[field] == VNone
    ensures ValidateStructure(engine, context, targetStep).isValid
  {
  }

  function Prompt(missing: seq<string>): string
  {
    "Por favor, proporciona información sobre: " + Join(missing, ", ")
  }

  /** The answer of `suggest_next_action`: the missing fields of the first step,
      in declaration order, that has any. */
  function NextAction(steps: seq<Step>, data: Dict): (r: string)
    ensures r == AllComplete || exists k :: 0 <= k < |steps| && r == Prompt(MissingKeys(steps[k].required, data))
  {
    if steps == [] then AllComplete
    else
      var missing := MissingKeys(steps[0].required, data);
      if missing != [] then Prompt(missing) else NextAction(steps[1..], data)
  }

  /** The completion message is returned exactly when no step has a missing field. */
  lemma {:induction false} NextActionCompleteIff(steps: seq<Step>, data: Dict)
    ensures NextAction(steps, data) == AllComplete
            <==> forall i :: 0 <= i < |steps| ==> MissingKeys(steps[i].required, data) == []
  {
    if steps != [] {
      NextActionCompleteIff(steps[1..], data);
      var missing := MissingKeys(steps[0].required, data);
      if missing != [] {
        assert Prompt(missing)[0] == 'P';
        assert AllComplete[0] == 'T';
      } else {
        forall i | 0 <= i < |steps[1..]|
          ensures MissingKeys(steps[1..][i].required, data) == MissingKeys(steps[i + 1].required, data)
        {
          assert steps[1..][i] == steps[i + 1];
        }
      }
    }
  }

  /** When step `k` is the first with a missing field, the suggestion names exactly
      that step's missing fields. */
  lemma {:induction false} NextActionFirstGap(steps: seq<Step>, data: Dict, k: nat)
    requires k < |steps| && MissingKeys(steps[k].required, data) != []
    requires forall j :: 0 <= j < k ==> MissingKeys(steps[j].required, data) == []
    ensures NextAction(steps, data) == Prompt(MissingKeys(steps[k].required, data))
  {
    if k > 0 {
      assert MissingKeys(steps[0].required, data) == [];
      assert steps[1..][k - 1] == steps[k];
      forall j | 0 <= j < k - 1 ensures MissingKeys(steps[1..][j].required, data) == [] {
        assert steps[1..][j] == steps[j + 1];
      }
      NextActionFirstGap(steps[1..], data, k - 1);
    }
  }

  /** `suggest_next_action`: scans the steps in declaration order and stops at the first gap. */
  method SuggestNextAction(engine: Engine, context: ContextView) returns (r: string)
    ensures r == NextAction(engine.structureRules, context.data)
  {
    var data := context.data;
    var steps := engine.structureRules;
    var i := 0;
    while i < |steps|
      invariant 0 <= i <= |steps|
      invariant NextAction(steps, data) == NextAction(steps[i..], data)
    {
      var missing := MissingKeys(steps[i].required, data);
      if missing != [] {
        return Prompt(missing);
      }
      assert steps[i..][1..] == steps[i + 1..];
      i := i + 1;
    }
    r := AllComplete;
  }
}
