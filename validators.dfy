/** The generic validators of the market analyzer (`utils/validators.py`). Each
    either passes or fails with the `ValidationError` message it would raise. */
module Validators {
  import opened Results
  import opened Text
  import opened Values
  import opened Context
  import opened Validation

  function RequiredFieldsMessage(missing: seq<string>): string
  {
    "Faltan campos requeridos: " + Join(missing, ", ")
  }

  /** `validate_required_fields`. */
  function ValidateRequiredFields(data: Dict, requiredFields: seq<string>): (r: Outcome)
    ensures r.Pass? <==> forall f :: f in requiredFields ==> f in data
    ensures r.Fail? ==> r.error == RequiredFieldsMessage(MissingKeys(requiredFields, data))
    ensures requiredFields == [] ==> r == Pass
  {
    var missing := MissingKeys(requiredFields, data);
    if missing != [] then Fail(RequiredFieldsMessage(missing)) else Pass
  }

  /** The failure message names exactly the absent fields, in the order they are
      required. */
  lemma RequiredFieldsMessageLists(data: Dict, requiredFields: seq<string>)
    requires ValidateRequiredFields(data, requiredFields).Fail?
    ensures var missing := MissingKeys(requiredFields, data);
      && ValidateRequiredFields(data, requiredFields).error == RequiredFieldsMessage(missing)
      && (forall f :: f in missing <==> f in requiredFields && f !in data)
      && Subsequence(missing, requiredFields)
  {
    MissingKeysInOrder(requiredFields, data);
  }

  /** The validation engine's structure check and this validator agree on the same
      required list: the same verdict and, on failure, the same message. */
  lemma StructureAgreesWithRequiredFields(engine: Engine, context: ContextView, targetStep: string, required: seq<string>)
    requires StepRequired(engine.structureRules, targetStep) == Some(required)
    ensures ValidateStructure(engine, context, targetStep).isValid
            <==> ValidateRequiredFields(context.data, required).Pass?
    ensures ValidateRequiredFields(context.data, required).Fail? ==>
              ValidateStructure(engine, context, targetStep).message
              == ValidateRequiredFields(context.data, required).error
  {
  }

  function RangeMessage(value: int, minValue: int, maxValue: int): string
  {
    "El valor " + IntToString(value) + " está fuera del rango ["
    + IntToString(minValue) + ", " + IntToString(maxValue) + "]"
  }

  /** `validate_numeric_range`: the chained comparison `min <= value <= max`. */
  function ValidateNumericRange(value: int, minValue: int, maxValue: int): (r: Outcome)
    ensures r.Pass? <==> minValue <= value && value <= maxValue
    ensures r.Fail? ==> r.error == RangeMessage(value, minValue, maxValue)
  {
    if !(minValue <= value <= maxValue) then Fail(RangeMessage(value, minValue, maxValue)) else Pass
  }

  /** An empty range (`min > max`) rejects every value. */
  lemma EmptyRangeRejectsAll(value: int, minValue: int, maxValue: int)
    requires minValue > maxValue
    ensures ValidateNumericRange(value, minValue, maxValue).Fail?
  {
  }

  function LengthMessage(minLength: int, maxLength: int): string
  {
    "La longitud de la cadena debe estar entre " + IntToString(minLength)
    + " y " + IntToString(maxLength) + " caracteres"
  }

  /** `validate_string_length`; `len` counts characters. */
  function ValidateStringLength(value: string, minLength: int, maxLength: int): (r: Outcome)
    ensures r.Pass? <==> minLength <= |value| && |value| <= maxLength
    ensures r.Fail? ==> r.error == LengthMessage(minLength, maxLength)
  {
    if !(minLength <= |value| <= maxLength) then Fail(LengthMessage(minLength, maxLength)) else Pass
  }

  /** The string-length validator accepts exactly the strings that a field rule with
      the same two bounds gives no length error. */
  lemma StringLengthAgreesWithFieldRule(value: string, minLength: int, maxLength: int)
    ensures var rule := FieldRule(None, Some(minLength), Some(maxLength));
      ValidateStringLength(value, minLength, maxLength).Pass?
      <==> !TooShort(rule, VStr(value)) && !TooLong(rule, VStr(value))
  {
  }
}
