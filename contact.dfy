/** The contact form: four text inputs bound to one record, and a simulated
    submission that disables the submit button, waits, then clears the form. */
module Contact {

  /** The `name` attributes of the form's inputs; a change event names one. */
  datatype Field = Name | Email | Subject | Message

  /** The form's contents, one string per input. */
  datatype FormData = FormData(name: string, email: string, subject: string, message: string)

  /** The contents the form starts with and is reset to. */
  const EmptyForm: FormData := FormData("", "", "", "")

  /** The value held for one input. */
  function Get(form: FormData, field: Field): string
  {
    match field
    case Name => form.name
    case Email => form.email
    case Subject => form.subject
    case Message => form.message
  }

  /** The record spread `{...form, [field]: value}`: exactly the named input
      takes the new value and the other three keep theirs. */
  function Update(form: FormData, field: Field, value: string): (r: FormData)
    ensures Get(r, field) == value
    ensures forall g :: g != field ==> Get(r, g) == Get(form, g)
  {
    match field
    case Name => form.(name := value)
    case Email => form.(email := value)
    case Subject => form.(subject := value)
    case Message => form.(message := value)
  }

  /** Every input holds some text, as the inputs' `required` attribute
      demands before the browser lets a submit through. */
  predicate AllFilled(form: FormData)
  {
    forall f :: Get(form, f) != ""
  }

  /** The empty form can never be submitted, and a filled one stays filled
      under a change that types a non-empty value. */
  lemma FilledUnderUpdate(form: FormData, field: Field, value: string)
    ensures !AllFilled(EmptyForm)
    ensures AllFilled(form) && value != "" ==> AllFilled(Update(form, field, value))
    ensures value == "" ==> !AllFilled(Update(form, field, value))
  {
    assert Get(EmptyForm, Name) == "";
    assert Get(Update(form, field, value), field) == value;
  }

  /** Two records that agree on every input are the same record. */
  lemma FormExtensionality(a: FormData, b: FormData)
    requires forall f :: Get(a, f) == Get(b, f)
    ensures a == b
  {
    assert Get(a, Name) == Get(b, Name) && Get(a, Email) == Get(b, Email);
    assert Get(a, Subject) == Get(b, Subject) && Get(a, Message) == Get(b, Message);
  }

  /** A later change to the same input overrides an earlier one. */
  lemma UpdateOverrides(form: FormData, field: Field, v1: string, v2: string)
    ensures Update(Update(form, field, v1), field, v2) == Update(form, field, v2)
  {
  }

  /** Changes to two different inputs commute. */
  lemma UpdatesCommute(form: FormData, f: Field, g: Field, v: string, w: string)
    requires f != g
    ensures Update(Update(form, f, v), g, w) == Update(Update(form, g, w), f, v)
  {
  }

  /** Typing back the value an input already holds changes nothing. */
  lemma UpdateSameValue(form: FormData, field: Field)
    ensures Update(form, field, Get(form, field)) == form
  {
  }

  /** The contact section's state. */
  class ContactForm {
    var formData: FormData
    var isSubmitting: bool

    /** Every input starts empty and no submission is in flight. */
    constructor ()
      ensures formData == EmptyForm
      ensures !isSubmitting
    {
      formData := EmptyForm;
      isSubmitting := false;
    }

    /** A change event on one input. Inputs stay editable while a submission
        is in flight. */
    method HandleInputChange(field: Field, value: string)
      modifies this
      ensures formData == Update(old(formData), field, value)
      ensures isSubmitting == old(isSubmitting)
    {
      formData := Update(formData, field, value);
    }

    /** The first half of a submit: the button becomes disabled. A submit is
        ignored while the button is disabled, and the browser holds it back
        while a required input is empty; `started` says whether this one was
        taken. The contents are untouched either way. */
    method BeginSubmit() returns (started: bool)
      modifies this
      ensures started == (!old(isSubmitting) && AllFilled(old(formData)))
      ensures isSubmitting == (old(isSubmitting) || started)
      ensures formData == old(formData)
    {
      started := !isSubmitting && AllFilled(formData);
      if started {
        isSubmitting := true;
      }
    }

    /** The second half of a submit, after the simulated delay: every input
        is cleared, whatever it held, and the button is enabled again. */
    method CompleteSubmit()
      requires isSubmitting
      modifies this
      ensures formData == EmptyForm
      ensures !isSubmitting
    {
      formData := EmptyForm;
      isSubmitting := false;
    }
  }

  /** A whole submission, with edits typed during the wait, ends with an
      empty form ready for the next message. */
  method SubmitWithEditsDuringWait(c: ContactForm, edits: seq<(Field, string)>) returns (started: bool)
    modifies c
    ensures started == (!old(c.isSubmitting) && AllFilled(old(c.formData)))
    ensures started ==> c.formData == EmptyForm && !c.isSubmitting
    ensures !started ==> c.formData == old(c.formData) && c.isSubmitting == old(c.isSubmitting)
  {
    started := c.BeginSubmit();
    if started {
      var k := 0;
      while k < |edits|
        invariant 0 <= k <= |edits|
        invariant c.isSubmitting
      {
        c.HandleInputChange(edits[k].0, edits[k].1);
        k := k + 1;
      }
      c.CompleteSubmit();
    }
  }
}
