/**
 * The contact form: four text fields and a submitting flag. Submission is a
 * begin step and a completion step; the one-second wait between them is
 * not modelled, only the two synchronous updates on either side of it.
 */
module Contact {

  datatype FormData = FormData(name: string, email: string, subject: string, message: string)

  const InitialFormData: FormData := FormData("", "", "", "")

  /** Every field is filled in, as the `required` attribute of each input demands. */
  predicate Filled(data: FormData)
  {
    data.name != "" && data.email != "" && data.subject != "" && data.message != ""
  }

  /** The four inputs; each one's `name` attribute is the key it updates. */
  datatype Field = Name | Email | Subject | Message

  function FieldValue(data: FormData, field: Field): string
  {
    match field
    case Name => data.name
    case Email => data.email
    case Subject => data.subject
    case Message => data.message
  }

  /** `{ ...prev, [name]: value }`: the given field takes the new value, the others keep theirs. */
  function WithField(data: FormData, field: Field, value: string): (r: FormData)
    ensures FieldValue(r, field) == value
    ensures forall other :: other != field ==> FieldValue(r, other) == FieldValue(data, other)
  {
    match field
    case Name => data.(name := value)
    case Email => data.(email := value)
    case Subject => data.(subject := value)
    case Message => data.(message := value)
  }

  /** Two records that agree on every field are equal. */
  lemma FieldsDetermineForm(a: FormData, b: FormData)
    requires forall f :: FieldValue(a, f) == FieldValue(b, f)
    ensures a == b
  {
    assert FieldValue(a, Name) == FieldValue(b, Name);
    assert FieldValue(a, Email) == FieldValue(b, Email);
    assert FieldValue(a, Subject) == FieldValue(b, Subject);
    assert FieldValue(a, Message) == FieldValue(b, Message);
  }

  /** Writing a field's current value back leaves the record as it was. */
  lemma WithCurrentValue(data: FormData, field: Field)
    ensures WithField(data, field, FieldValue(data, field)) == data
  {
    FieldsDetermineForm(WithField(data, field, FieldValue(data, field)), data);
  }

  /** The last write to a field wins; writes to different fields commute. */
  lemma WithFieldTwice(data: FormData, f: Field, g: Field, u: string, v: string)
    ensures f == g ==> WithField(WithField(data, f, u), g, v) == WithField(data, g, v)
    ensures f != g ==> WithField(WithField(data, f, u), g, v) == WithField(WithField(data, g, v), f, u)
  {
    FieldsDetermineForm(WithField(WithField(data, f, u), g, v),
      if f == g then WithField(data, g, v) else WithField(WithField(data, g, v), f, u));
  }

  /** The submit button: disabled while sending, with a matching caption. */
  datatype SubmitButton = SubmitButton(disabled: bool, caption: string)

  function SubmitButtonFor(isSubmitting: bool): (r: SubmitButton)
    ensures r.disabled <==> isSubmitting
    ensures r.caption == "Sending..." <==> isSubmitting
    ensures r.caption == "Send Message" <==> !isSubmitting
  {
    SubmitButton(isSubmitting, if isSubmitting then "Sending..." else "Send Message")
  }

  class ContactForm {
    var formData: FormData
    var isSubmitting: bool

    constructor ()
      ensures formData == InitialFormData && !isSubmitting
    {
      formData, isSubmitting := InitialFormData, false;
    }

    /** `handleChange` for the input bound to `field`. */
    method HandleChange(field: Field, value: string)
      modifies this
      ensures formData == WithField(old(formData), field, value)
      ensures isSubmitting == old(isSubmitting)
    {
      formData := WithField(formData, field, value);
    }

    /**
     * The part of `handleSubmit` before the wait. The browser fires the submit
     * event only when every `required` field is filled in, and the button is
     * disabled while a submission is under way.
     */
    method BeginSubmit()
      requires Filled(formData)
      requires !isSubmitting
      modifies this
      ensures isSubmitting
      ensures formData == old(formData)
    {
      isSubmitting := true;
    }

    /** The part of `handleSubmit` after the wait: back to the empty form. */
    method CompleteSubmit()
      modifies this
      ensures formData == InitialFormData
      ensures !isSubmitting
    {
      formData := InitialFormData;
      isSubmitting := false;
    }

    function Button(): (r: SubmitButton)
      reads this
      ensures r.disabled <==> isSubmitting
      ensures r.caption == "Sending..." <==> isSubmitting
      ensures r.caption == "Send Message" <==> !isSubmitting
    {
      SubmitButtonFor(isSubmitting)
    }
  }

  // ---------------------------------------------------------------------------
  // Scenario

  /** Fill in the form and submit it; an edit made while sending is wiped by the completion. */
  method SubmitScenario()
  {
    var form := new ContactForm();
    form.HandleChange(Name, "Ada");
    form.HandleChange(Email, "ada@example.com");
    form.HandleChange(Subject, "Booking");
    form.HandleChange(Message, "A table for two");
    assert form.formData == FormData("Ada", "ada@example.com", "Booking", "A table for two");
    assert form.Button() == SubmitButton(false, "Send Message");
    form.BeginSubmit();
    assert form.Button() == SubmitButton(true, "Sending...");
    assert form.formData == FormData("Ada", "ada@example.com", "Booking", "A table for two");
    form.HandleChange(Message, "late edit");
    form.CompleteSubmit();
    assert form.formData == InitialFormData && form.Button().caption == "Send Message";
  }
}
