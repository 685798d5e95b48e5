/**
 * The controlled text forms of the checkout, payment and address screens: a map from input
 * name to text, updated by the shared `handleChange` pattern `{ ...prev, [name]: value }`.
 */
module Forms {

  /** A form whose every named input is empty. */
  function EmptyForm(names: seq<string>): (m: map<string, string>)
    ensures forall k :: 0 <= k < |names| ==> names[k] in m && m[names[k]] == ""
    ensures forall f :: f in m ==> f in names
  {
    map f | f in names :: ""
  }

  /** `handleChange`: the input named `name` takes `value`; every other input keeps its text. */
  function ChangeField(form: map<string, string>, name: string, value: string): (r: map<string, string>)
    ensures name in r && r[name] == value
    ensures forall f :: f in form && f != name ==> f in r && r[f] == form[f]
    ensures forall f :: f in r ==> f in form || f == name
  {
    form[name := value]
  }

  /**
   * The browser's check of a form's `required` inputs: submission goes ahead only when each
   * of them holds some text.
   */
  predicate AllFilled(form: map<string, string>, names: seq<string>) {
    forall k :: 0 <= k < |names| ==> names[k] in form && form[names[k]] != ""
  }

  /** A form just rendered cannot be submitted while it has a required input. */
  lemma EmptyFormNotFilled(names: seq<string>)
    requires |names| > 0
    ensures !AllFilled(EmptyForm(names), names)
  {
    assert EmptyForm(names)[names[0]] == "";
  }

  /** Typing text into a required input fills it and leaves the other inputs as they were. */
  lemma ChangeFillsField(form: map<string, string>, names: seq<string>, k: nat, value: string)
    requires k < |names| && value != "" && AllFilled(form, names[..k] + names[k + 1..])
    ensures AllFilled(ChangeField(form, names[k], value), names)
  {
    var r := ChangeField(form, names[k], value);
    forall j | 0 <= j < |names| ensures names[j] in r && r[names[j]] != "" {
      if names[j] != names[k] {
        if j < k {
          assert (names[..k] + names[k + 1..])[j] == names[j];
        } else {
          assert (names[..k] + names[k + 1..])[j - 1] == names[j];
        }
      }
    }
  }

  /** Typing into an input never adds or loses a field that was already there. */
  lemma ChangeKeepsFields(form: map<string, string>, name: string, value: string)
    requires name in form
    ensures ChangeField(form, name, value).Keys == form.Keys
  {
  }

  /** Typing twice into the same input keeps only the second text. */
  lemma ChangeTwiceKeepsLast(form: map<string, string>, name: string, v1: string, v2: string)
    ensures ChangeField(ChangeField(form, name, v1), name, v2) == ChangeField(form, name, v2)
  {
  }
}
