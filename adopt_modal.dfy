/** The adoption form shown in the dog page's Adopted modal: eight text
    fields kept under their input names, and a submit that only projects six
    of them into an adoption record. */
module AdoptModal {

  /** The inputs of the form, in the order the state lists them. */
  const FieldNames: seq<string> :=
    ["adopter_name", "adoption_date", "email", "phone", "address", "country", "contract_img", "comment"]

  /** The fields the submit copies: all but `contract_img` and `comment`. */
  const SubmittedNames: set<string> :=
    {"adopter_name", "adoption_date", "email", "phone", "address", "country"}

  /** The state as the constructor sets it: every field the empty string. */
  const InitialState: map<string, string> := map k | k in FieldNames :: ""

  /** Every field of the form has a value. */
  predicate HasAllFields(state: map<string, string>)
  {
    forall k :: k in FieldNames ==> k in state
  }

  /** The record `handleSubmit` builds: the six submitted fields, copied. */
  function Adoption(state: map<string, string>): (adoption: map<string, string>)
    requires HasAllFields(state)
    ensures adoption.Keys == SubmittedNames
    ensures forall k :: k in adoption ==> adoption[k] == state[k]
    ensures "contract_img" !in adoption && "comment" !in adoption
  {
    map k | k in SubmittedNames :: state[k]
  }

  /** The contract image and the comment never reach the adoption record. */
  lemma {:induction false} UnsubmittedFieldsIgnored(state: map<string, string>, name: string, value: string)
    requires HasAllFields(state)
    requires name == "contract_img" || name == "comment"
    ensures Adoption(state[name := value]) == Adoption(state)
  {
    var before := Adoption(state);
    var after := Adoption(state[name := value]);
    assert name !in SubmittedNames;
    assert forall k :: k in after ==> after[k] == before[k];
  }

  /** A submitted field typed last shows up in the record as typed. */
  lemma SubmittedFieldReflectsInput(state: map<string, string>, name: string, value: string)
    requires HasAllFields(state)
    requires name in SubmittedNames
    ensures Adoption(state[name := value])[name] == value
  {
  }

  class AdoptForm {
    var state: map<string, string>

    constructor ()
      ensures state == InitialState
      ensures HasAllFields(state)
    {
      state := InitialState;
    }

    /** `onChange`: the input named `name` takes `value`; every other field
        keeps its value. */
    method OnChange(name: string, value: string)
      modifies this
      ensures state == old(state)[name := value]
      ensures HasAllFields(old(state)) ==> HasAllFields(state)
    {
      state := state[name := value];
    }

    /** `handleSubmit`: the six-field record, and nothing else: no request,
        no change to the form or to the dog's status. */
    method HandleSubmit() returns (adoption: map<string, string>)
      requires HasAllFields(state)
      ensures adoption.Keys == SubmittedNames
      ensures forall k :: k in adoption ==> adoption[k] == state[k]
    {
      adoption := Adoption(state);
    }
  }

  /** The fresh form submits six empty fields. */
  lemma InitialSubmission()
    ensures HasAllFields(InitialState)
    ensures Adoption(InitialState) == map k | k in SubmittedNames :: ""
  {
    assert HasAllFields(InitialState);
  }
}
