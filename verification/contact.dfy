/**
 * The contact form: three text fields, a submitting flag, and a submit
 * routine around an external send whose outcome is given to the model.
 */
module Contact {

  /** The three named inputs of the form. */
  datatype Field = Name | Email | Message

  datatype FormData = FormData(name: string, email: string, message: string)

  const EmptyForm: FormData := FormData("", "", "")

  function Get(f: FormData, field: Field): string
  {
    match field
    case Name => f.name
    case Email => f.email
    case Message => f.message
  }

  /** The change handler: overwrite the named field, keep the others. */
  function Update(f: FormData, field: Field, v: string): (r: FormData)
    ensures Get(r, field) == v
    ensures forall g :: g != field ==> Get(r, g) == Get(f, g)
  {
    match field
    case Name => f.(name := v)
    case Email => f.(email := v)
    case Message => f.(message := v)
  }

  /** The template parameters handed to the external send. */
  datatype TemplateParams = TemplateParams(fromName: string, fromEmail: string, message: string)

  function ParamsOf(f: FormData): (p: TemplateParams)
    ensures p.fromName == Get(f, Name) && p.fromEmail == Get(f, Email) && p.message == Get(f, Message)
  {
    TemplateParams(f.name, f.email, f.message)
  }

  /** How the awaited send settles: resolved, or rejected/thrown. */
  datatype SendOutcome = Delivered | Failed

  /** A notification; the description is a translation key. */
  datatype Toast = Toast(title: string, description: string, destructive: bool)

  const SuccessToast: Toast := Toast("Success!", "contact.success", false)
  const ErrorToast: Toast := Toast("Error", "contact.error", true)

  /** The fields once the send has settled. */
  function Settled(f: FormData, outcome: SendOutcome): (r: FormData)
    ensures outcome == Delivered ==> forall g :: Get(r, g) == ""
    ensures outcome == Failed ==> forall g :: Get(r, g) == Get(f, g)
  {
    if outcome == Delivered then EmptyForm else f
  }

  /** The notification raised once the send has settled. */
  function ToastFor(outcome: SendOutcome): (t: Toast)
    ensures t.destructive <==> outcome == Failed
  {
    match outcome
    case Delivered => SuccessToast
    case Failed => ErrorToast
  }

  /** A failed send leaves the form able to resend exactly the same message. */
  lemma RetryResendsSameMessage(f: FormData)
    ensures ParamsOf(Settled(f, Failed)) == ParamsOf(f)
  {
  }

  /** A delivered send leaves nothing to resend. */
  lemma DeliveredClearsMessage(f: FormData)
    ensures ParamsOf(Settled(f, Delivered)) == TemplateParams("", "", "")
  {
  }

  /** The component state of the form. `sends` records every invocation of
      the external send, `toasts` every notification raised. */
  class ContactForm {
    var formData: FormData
    var isSubmitting: bool
    var sends: seq<TemplateParams>
    var toasts: seq<Toast>

    /** Mount: all fields empty, not submitting, nothing sent or shown. */
    constructor ()
      ensures formData == EmptyForm && !isSubmitting
      ensures sends == [] && toasts == []
    {
      formData, isSubmitting, sends, toasts := EmptyForm, false, [], [];
    }

    /** The submit button is enabled exactly when no submission is in flight. */
    predicate SubmitEnabled()
      reads this
    {
      !isSubmitting
    }

    method HandleChange(field: Field, v: string)
      modifies this
      ensures formData == Update(old(formData), field, v)
      ensures isSubmitting == old(isSubmitting) && sends == old(sends) && toasts == old(toasts)
    {
      formData := Update(formData, field, v);
    }

    /** The synchronous part of submit, up to the await: the flag is set,
        then the send is invoked once with the current field values. */
    method StartSubmit() returns (p: TemplateParams)
      modifies this
      ensures isSubmitting
      ensures p == ParamsOf(old(formData))
      ensures sends == old(sends) + [p]
      ensures formData == old(formData) && toasts == old(toasts)
    {
      isSubmitting := true;
      p := ParamsOf(formData);
      sends := sends + [p];
    }

    /** The part after the await: notify, clear the fields on success or
        keep them on failure, and always reset the flag. */
    method FinishSubmit(outcome: SendOutcome)
      modifies this
      ensures !isSubmitting
      ensures formData == Settled(old(formData), outcome)
      ensures toasts == old(toasts) + [ToastFor(outcome)]
      ensures sends == old(sends)
    {
      if outcome == Delivered {
        toasts := toasts + [SuccessToast];
        formData := EmptyForm;
      } else {
        toasts := toasts + [ErrorToast];
      }
      isSubmitting := false;
    }

    /** A whole submission whose send settles with `outcome` before any other event. */
    method HandleSubmit(outcome: SendOutcome)
      modifies this
      ensures !isSubmitting
      ensures sends == old(sends) + [ParamsOf(old(formData))]
      ensures toasts == old(toasts) + [ToastFor(outcome)]
      ensures formData == Settled(old(formData), outcome)
    {
      var _ := StartSubmit();
      FinishSubmit(outcome);
    }

    /** A press of the submit button: a disabled button starts nothing, so
        no second send is made while one is in flight. */
    method PressSubmit() returns (started: bool)
      modifies this
      ensures started <==> !old(isSubmitting)
      ensures started ==> isSubmitting && sends == old(sends) + [ParamsOf(old(formData))]
      ensures !started ==> isSubmitting == old(isSubmitting) && sends == old(sends)
      ensures formData == old(formData) && toasts == old(toasts)
    {
      started := SubmitEnabled();
      if started {
        var _ := StartSubmit();
      }
    }
  }

  /** Presses while a submission is in flight invoke the send once in all. */
  method PressTwiceSendsOnce(form: ContactForm)
    requires form.SubmitEnabled()
    modifies form
    ensures |form.sends| == |old(form.sends)| + 1
    ensures form.isSubmitting
  {
    var first := form.PressSubmit();
    var second := form.PressSubmit();
    assert first && !second;
  }
}
