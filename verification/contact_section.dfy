/**
 * The landing page's inquiry form: a five-field record rewritten one field at
 * a time, a submit whose button is disabled while a submission is pending,
 * and a reset to empty fields when the simulated submission completes.
 */
module ContactSection {

  datatype ContactField = Name | Email | Phone | Investment | Message

  datatype ContactData = ContactData(name: string, email: string, phone: string, investment: string, message: string)
  {
    function Get(f: ContactField): string {
      match f
      case Name => name
      case Email => email
      case Phone => phone
      case Investment => investment
      case Message => message
    }

    /** The record with field `f` set to `v`, as the object spread in the change handler builds it. */
    function With(f: ContactField, v: string): (r: ContactData)
      ensures r.Get(f) == v
      ensures forall g :: g != f ==> r.Get(g) == Get(g)
    {
      match f
      case Name => this.(name := v)
      case Email => this.(email := v)
      case Phone => this.(phone := v)
      case Investment => this.(investment := v)
      case Message => this.(message := v)
    }
  }

  const EmptyContact := ContactData("", "", "", "", "")

  /** The values the budget select offers, the placeholder first. */
  const InvestmentOptions: seq<string> := ["", "1-3cr", "3-5cr", "5-10cr", "10cr+"]

  /** The fields the browser requires before it lets the form submit. */
  predicate RequiredFilled(d: ContactData) {
    d.name != "" && d.phone != "" && d.email != ""
  }

  /** Two edits of the same field leave the last value. */
  lemma LastEditWins(d: ContactData, f: ContactField, a: string, b: string)
    ensures d.With(f, a).With(f, b) == d.With(f, b)
  {
  }

  /** Edits of two different fields do not interfere. */
  lemma EditsCommute(d: ContactData, f: ContactField, g: ContactField, a: string, b: string)
    requires f != g
    ensures d.With(f, a).With(g, b) == d.With(g, b).With(f, a)
  {
  }

  class ContactForm {
    var formData: ContactData
    var isSubmitting: bool

    ghost predicate Valid()
      reads this
    {
      formData.investment in InvestmentOptions
    }

    /** Whether the submit button is disabled. */
    function SubmitDisabled(): bool
      reads this
    {
      isSubmitting
    }

    constructor ()
      ensures Valid() && formData == EmptyContact && !isSubmitting
    {
      formData := EmptyContact;
      isSubmitting := false;
    }

    /** An edit of one field; the select can only yield one of its options. */
    method HandleChange(f: ContactField, v: string)
      requires Valid()
      requires f == Investment ==> v in InvestmentOptions
      modifies this`formData
      ensures Valid()
      ensures formData == old(formData).With(f, v)
    {
      formData := formData.With(f, v);
    }

    /**
     * A submit attempt. It starts only when the button is enabled and the
     * required fields are filled; otherwise nothing changes.
     */
    method Submit() returns (started: bool)
      requires Valid()
      modifies this`isSubmitting
      ensures Valid()
      ensures started <==> !old(isSubmitting) && RequiredFilled(formData)
      ensures old(SubmitDisabled()) ==> !started
      ensures started ==> isSubmitting
      ensures !started ==> isSubmitting == old(isSubmitting)
    {
      started := !isSubmitting && RequiredFilled(formData);
      if started {
        isSubmitting := true;
      }
    }

    /** The simulated submission has completed: all fields are emptied and the button is enabled again. */
    method CompleteSubmission()
      requires Valid() && isSubmitting
      modifies this
      ensures Valid() && formData == EmptyContact && !isSubmitting
    {
      formData := EmptyContact;
      isSubmitting := false;
    }
  }
}
