/**
 * The site-visit booking modal of the property page: rendered only while open,
 * a six-field record rewritten one field at a time, a time chosen from fixed
 * slots, and a submission that empties the form and then closes the modal.
 */
module BookSiteVisitModal {

  datatype BookingField = Name | Phone | Email | Date | Time | Message

  datatype BookingData = BookingData(name: string, phone: string, email: string, date: string, time: string, message: string)
  {
    function Get(f: BookingField): string {
      match f
      case Name => name
      case Phone => phone
      case Email => email
      case Date => date
      case Time => time
      case Message => message
    }

    /** The record with field `f` set to `v`, as the object spread in the change handler builds it. */
    function With(f: BookingField, v: string): (r: BookingData)
      ensures r.Get(f) == v
      ensures forall g :: g != f ==> r.Get(g) == Get(g)
    {
      match f
      case Name => this.(name := v)
      case Phone => this.(phone := v)
      case Email => this.(email := v)
      case Date => this.(date := v)
      case Time => this.(time := v)
      case Message => this.(message := v)
    }
  }

  const EmptyBooking := BookingData("", "", "", "", "", "")

  const TimeSlots: seq<string> := ["10:00 AM", "11:00 AM", "12:00 PM", "02:00 PM", "03:00 PM", "04:00 PM", "05:00 PM"]

  /** The seven slots are distinct, as their use as option keys requires. */
  lemma TimeSlotsDistinct()
    ensures |TimeSlots| == 7
    ensures forall i, j :: 0 <= i < j < |TimeSlots| ==> TimeSlots[i] != TimeSlots[j]
  {
  }

  /** A value the time select can hold: its placeholder or one of the slots. */
  predicate SelectableTime(t: string) {
    t == "" || t in TimeSlots
  }

  /** The fields the browser requires before it lets the form submit. */
  predicate RequiredFilled(d: BookingData) {
    d.name != "" && d.phone != "" && d.email != "" && d.date != "" && d.time != ""
  }

  /** A filled-in booking has a real slot as its time. */
  lemma FilledTimeIsSlot(d: BookingData)
    requires SelectableTime(d.time) && RequiredFilled(d)
    ensures d.time in TimeSlots
  {
  }

  class BookingModal {
    /** The `isOpen` prop, owned by the property page. */
    var isOpen: bool
    var formData: BookingData
    var isSubmitting: bool
    /** How many times the `onClose` callback has been invoked. */
    var closeCalls: nat

    ghost predicate Valid()
      reads this
    {
      SelectableTime(formData.time)
    }

    /** Whether anything is rendered: the backdrop and the dialog exist only while open. */
    function Rendered(): bool
      reads this
    {
      isOpen
    }

    /** The modal as the page first renders it: closed, with an empty form. */
    constructor ()
      ensures Valid() && !isOpen
      ensures formData == EmptyBooking && !isSubmitting && closeCalls == 0
    {
      isOpen := false;
      formData := EmptyBooking;
      isSubmitting := false;
      closeCalls := 0;
    }

    /** An edit of one field of the open dialog; the time select can only yield a slot or its placeholder. */
    method HandleChange(f: BookingField, v: string)
      requires Valid() && isOpen
      requires f == Time ==> SelectableTime(v)
      modifies this`formData
      ensures Valid()
      ensures formData == old(formData).With(f, v)
    {
      formData := formData.With(f, v);
    }

    /**
     * A submit attempt. It starts only on the rendered dialog, with the button
     * enabled and every required field filled; otherwise nothing changes.
     */
    method Submit() returns (started: bool)
      requires Valid()
      modifies this`isSubmitting
      ensures Valid()
      ensures started <==> isOpen && !old(isSubmitting) && RequiredFilled(formData)
      ensures !Rendered() ==> !started
      ensures started ==> isSubmitting
      ensures !started ==> isSubmitting == old(isSubmitting)
    {
      started := isOpen && !isSubmitting && RequiredFilled(formData);
      if started {
        isSubmitting := true;
      }
    }

    /**
     * The simulated submission has completed: the form is emptied, the button
     * enabled, and then `onClose` is invoked once, which closes the modal.
     */
    method CompleteSubmission()
      requires Valid() && isSubmitting
      modifies this
      ensures Valid() && formData == EmptyBooking && !isSubmitting
      ensures closeCalls == old(closeCalls) + 1 && !isOpen
    {
      formData := EmptyBooking;
      isSubmitting := false;
      OnClose();
    }

    /** The page's "Book Site Visit" button sets the open flag. */
    method Open()
      modifies this`isOpen
      ensures isOpen
    {
      isOpen := true;
    }

    /** A click on the backdrop or the close button. */
    method Dismiss()
      requires Rendered()
      modifies this`isOpen, this`closeCalls
      ensures closeCalls == old(closeCalls) + 1 && !isOpen
    {
      OnClose();
    }

    /** The parent's close callback: it sets the page's open flag to false. */
    method OnClose()
      modifies this`isOpen, this`closeCalls
      ensures closeCalls == old(closeCalls) + 1 && !isOpen
    {
      closeCalls := closeCalls + 1;
      isOpen := false;
    }
  }
}
