/**
 * The quote-request form session, present on the contact page and in the
 * contact section with the same behaviour: five text fields and a
 * `submitted` flag. A submission shows a confirmation in place of the form;
 * a timer later brings the form back empty.
 */
module ContactForm {

  datatype Field = Name | Email | Phone | Address | Message

  datatype FormData = FormData(name: string, email: string, phone: string, address: string, message: string) {

    function Get(f: Field): string {
      match f
      case Name => name
      case Email => email
      case Phone => phone
      case Address => address
      case Message => message
    }

    /** `{ ...formData, [e.target.name]: e.target.value }`: the named field replaced, the others kept. */
    function With(f: Field, value: string): (d: FormData)
      ensures d.Get(f) == value
      ensures forall g :: g != f ==> d.Get(g) == Get(g)
    {
      match f
      case Name => this.(name := value)
      case Email => this.(email := value)
      case Phone => this.(phone := value)
      case Address => this.(address := value)
      case Message => this.(message := value)
    }

    /** The browser lets the form submit only when the `required` name and email inputs are non-empty. */
    predicate RequiredFilled(): (r: bool)
      ensures r <==> forall f :: f in RequiredFields ==> Get(f) != ""
    {
      name != "" && email != ""
    }
  }

  /** The inputs marked `required`. */
  const RequiredFields: set<Field> := {Name, Email}

  const Blank: FormData := FormData("", "", "", "", "")

  /** Writing a field's current value back changes nothing; the last write to a field wins. */
  lemma WithLaws(d: FormData, f: Field, v: string, w: string)
    ensures d.With(f, d.Get(f)) == d
    ensures d.With(f, v).With(f, w) == d.With(f, w)
  {
  }

  class FormSession {
    var formData: FormData
    var isSubmitted: bool

    /** Every field starts empty and nothing is submitted. */
    constructor ()
      ensures formData == Blank && !isSubmitted
    {
      formData := Blank;
      isSubmitted := false;
    }

    /** `handleChange`: typing into a field; the inputs exist only while the form is shown. */
    method HandleChange(f: Field, value: string)
      requires !isSubmitted
      modifies this
      ensures formData == old(formData).With(f, value) && !isSubmitted
    {
      formData := formData.With(f, value);
    }

    /**
     * `handleSubmit`: runs only once the browser has accepted the required
     * fields; it shows the confirmation and starts the reset timer.
     */
    method HandleSubmit()
      requires !isSubmitted && formData.RequiredFilled()
      modifies this
      ensures isSubmitted && formData == old(formData)
    {
      isSubmitted := true;
    }

    /** The timer callback: back to editing, every field cleared. */
    method TimerFires()
      modifies this
      ensures !isSubmitted && formData == Blank
    {
      isSubmitted := false;
      formData := Blank;
    }

    /**
     * Pressing the submit button: the browser's `required` check on name and
     * email either blocks the submission, leaving the session as it was, or
     * passes it on to `HandleSubmit`.
     */
    method SubmitPressed() returns (accepted: bool)
      requires !isSubmitted
      modifies this
      ensures accepted == old(formData).RequiredFilled()
      ensures isSubmitted == accepted && formData == old(formData)
    {
      accepted := formData.RequiredFilled();
      if accepted {
        HandleSubmit();
      }
    }
  }

  /**
   * A full round: fill in name and email, press submit, let the timer fire.
   * The submission is accepted with the fields as typed, and the session
   * ends back in its initial state.
   */
  method SessionRoundTrip(name: string, email: string) returns (accepted: bool, sent: FormData, session: FormSession)
    requires name != "" && email != ""
    ensures accepted
    ensures sent == FormData(name, email, "", "", "")
    ensures session.formData == Blank && !session.isSubmitted
  {
    session := new FormSession();
    session.HandleChange(Name, name);
    session.HandleChange(Email, email);
    accepted := session.SubmitPressed();
    sent := session.formData;
    session.TimerFires();
  }
}
