/** `ValidateSymptomForm.validate_symptom`: the per-field check run before the form accepts a
    symptom into the tracker. */
module Validation {
  import opened Wrappers
  import opened Json
  import opened Conversation

  const SymptomRejected := "That doesn't seem like a valid symptom. Please describe it."

  /** A validator's answer: messages to dispatch and the slot values to set (`None` clears). */
  datatype SlotUpdate = SlotUpdate(messages: seq<Message>, slots: map<string, Option<Scalar>>)

  /** Accepts exactly the strings longer than two characters; anything else is rejected with a
      message and the slot is cleared so that the form asks again. */
  function ValidateSymptom(value: Scalar): (r: SlotUpdate)
    ensures r.slots.Keys == {"symptom"}
    ensures r.slots["symptom"].Some? <==> value.JStr? && |value.s| > 2
    ensures r.slots["symptom"].Some? ==> r.slots["symptom"].value == value && r.messages == []
    ensures r.slots["symptom"].None? ==> r.messages == [Text(SymptomRejected)]
  {
    if value.JStr? && |value.s| > 2 then SlotUpdate([], map["symptom" := Some(value)])
    else SlotUpdate([Text(SymptomRejected)], map["symptom" := None])
  }

  /** Validating an accepted symptom again accepts it unchanged. */
  lemma ValidateSymptomIdempotent(value: Scalar)
    requires ValidateSymptom(value).slots["symptom"].Some?
    ensures ValidateSymptom(ValidateSymptom(value).slots["symptom"].value) == ValidateSymptom(value)
  {
  }

  /** "cough" is accepted; "ok" (two characters) is rejected and cleared. */
  lemma ValidateSymptomExamples()
    ensures ValidateSymptom(JStr("cough")) == SlotUpdate([], map["symptom" := Some(JStr("cough"))])
    ensures ValidateSymptom(JStr("ok")) == SlotUpdate([Text(SymptomRejected)], map["symptom" := None])
  {
  }
}
