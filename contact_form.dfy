/**
 * The inquiry form: a five-field draft, an in-flight flag and a
 * submission status. The awaited mail call splits a submission into two
 * events: `HandleSubmit` (up to the call) and `Settle` (when it returns or
 * throws). The 5-second success timer is an explicit event.
 */
module ContactForm {
  import opened Wrappers
  import opened EmailService

  datatype Status = Idle | Success | Error

  /** The input elements, by their `name` attribute. */
  datatype Field = Name | Phone | Marka | Vin | Message

  /** How the awaited call ended: it returned a boolean, or it threw. */
  datatype CallResult = Returned(ok: bool) | Threw

  const EmptyDraft := ContactFormData("", "", "", "", "")

  /** Milliseconds the success banner stays before status returns to idle. */
  const SuccessBannerMs: nat := 5000

  function Get(d: ContactFormData, f: Field): string {
    match f
    case Name => d.name
    case Phone => d.phone
    case Marka => d.marka
    case Vin => d.vin
    case Message => d.message
  }

  /** `{ ...prev, [name]: value }`: exactly the named field changes. */
  function WithField(d: ContactFormData, f: Field, value: string): (r: ContactFormData)
    ensures Get(r, f) == value
    ensures forall g :: g != f ==> Get(r, g) == Get(d, g)
  {
    match f
    case Name => d.(name := value)
    case Phone => d.(phone := value)
    case Marka => d.(marka := value)
    case Vin => d.(vin := value)
    case Message => d.(message := value)
  }

  /** The required fields are non-empty; no trimming, so whitespace counts. */
  predicate HasRequiredFields(d: ContactFormData) {
    d.name != "" && d.phone != "" && d.marka != ""
  }

  class Form {
    var formData: ContactFormData
    var isSubmitting: bool
    var submitStatus: Status
    /** Success timers scheduled and not yet fired. */
    var pendingResets: nat

    constructor ()
      ensures formData == EmptyDraft && !isSubmitting && submitStatus == Idle
      ensures pendingResets == 0
    {
      formData := EmptyDraft;
      isSubmitting := false;
      submitStatus := Idle;
      pendingResets := 0;
    }

    /** The submit button is disabled while a call is in flight. */
    predicate SubmitDisabled()
      reads this
    {
      isSubmitting
    }

    method HandleInputChange(f: Field, value: string)
      modifies this
      ensures formData == WithField(old(formData), f, value)
      ensures isSubmitting == old(isSubmitting) && submitStatus == old(submitStatus)
      ensures pendingResets == old(pendingResets)
    {
      formData := WithField(formData, f, value);
    }

    /** Validation and the start of the call. `sent` is the draft handed to
        the mail call, or None when validation stopped the submission.
        The disabled button keeps a second submission from starting, and a
        valid submission disables it until the call settles. */
    method HandleSubmit() returns (sent: Option<ContactFormData>)
      requires !SubmitDisabled()
      modifies this
      ensures sent.Some? <==> HasRequiredFields(old(formData))
      ensures sent.Some? ==> sent.value == old(formData) && isSubmitting && submitStatus == Idle
      ensures sent.Some? ==> SubmitDisabled()
      ensures sent.None? ==> isSubmitting == old(isSubmitting) && submitStatus == old(submitStatus)
      ensures formData == old(formData) && pendingResets == old(pendingResets)
    {
      if formData.name == "" || formData.phone == "" || formData.marka == "" {
        return None;
      }
      isSubmitting := true;
      submitStatus := Idle;
      sent := Some(formData);
    }

    /** The awaited call has ended: success resets the draft and schedules
        the banner timer; a false result or a throw keeps the draft as it is
        now; in every case the button is enabled again. */
    method Settle(result: CallResult)
      requires SubmitDisabled()
      modifies this
      ensures !SubmitDisabled()
      ensures result == Returned(true) ==>
        submitStatus == Success && formData == EmptyDraft && pendingResets == old(pendingResets) + 1
      ensures result != Returned(true) ==>
        submitStatus == Error && formData == old(formData) && pendingResets == old(pendingResets)
    {
      match result {
        case Returned(ok) =>
          if ok {
            submitStatus := Success;
            formData := EmptyDraft;
            pendingResets := pendingResets + 1;
          } else {
            submitStatus := Error;
          }
        case Threw =>
          submitStatus := Error;
      }
      isSubmitting := false;
    }

    /** A success timer fires after `SuccessBannerMs`. */
    method ResetTimerFires()
      requires pendingResets > 0
      modifies this
      ensures submitStatus == Idle && pendingResets == old(pendingResets) - 1
      ensures formData == old(formData) && isSubmitting == old(isSubmitting)
    {
      submitStatus := Idle;
      pendingResets := pendingResets - 1;
    }
  }

  /** Scenario driver: types each field of `d` into the form in turn. */
  method Fill(form: Form, d: ContactFormData)
    modifies form
    ensures form.formData == d
    ensures form.isSubmitting == old(form.isSubmitting) && form.submitStatus == old(form.submitStatus)
    ensures form.pendingResets == old(form.pendingResets)
  {
    form.HandleInputChange(Name, d.name);
    form.HandleInputChange(Phone, d.phone);
    form.HandleInputChange(Marka, d.marka);
    form.HandleInputChange(Vin, d.vin);
    form.HandleInputChange(Message, d.message);
  }

  /** A draft with an empty phone number never reaches the mail call and
      leaves the form as typed. */
  method EmptyPhoneNeverSends(name: string, marka: string, vin: string, message: string)
    returns (sent: Option<ContactFormData>, status: Status, submitting: bool, draft: ContactFormData)
    ensures sent == None && status == Idle && !submitting
    ensures draft == ContactFormData(name, "", marka, vin, message)
  {
    var form := new Form();
    Fill(form, ContactFormData(name, "", marka, vin, message));
    sent := form.HandleSubmit();
    status, submitting, draft := form.submitStatus, form.isSubmitting, form.formData;
  }

  /** A complete draft is sent as typed; on success the draft is cleared and,
      once the timer fires, the status is idle again with no user action. */
  method SuccessfulInquiry(d: ContactFormData)
    returns (sent: Option<ContactFormData>, afterSend: Status, afterTimer: Status, draft: ContactFormData, submitting: bool)
    requires HasRequiredFields(d)
    ensures sent == Some(d)
    ensures afterSend == Success && afterTimer == Idle
    ensures draft == EmptyDraft && !submitting
  {
    var form := new Form();
    Fill(form, d);
    sent := form.HandleSubmit();
    form.Settle(Returned(true));
    afterSend := form.submitStatus;
    form.ResetTimerFires();
    afterTimer, draft, submitting := form.submitStatus, form.formData, form.isSubmitting;
  }

  /** A failed call, by a false result or a throw, keeps the draft verbatim
      and shows the error status; there is no automatic reset. */
  method FailedInquiry(d: ContactFormData, failure: CallResult)
    returns (status: Status, draft: ContactFormData, submitting: bool, resets: nat)
    requires HasRequiredFields(d) && failure != Returned(true)
    ensures status == Error && draft == d && !submitting && resets == 0
  {
    var form := new Form();
    Fill(form, d);
    var sent := form.HandleSubmit();
    form.Settle(failure);
    status, draft, submitting, resets := form.submitStatus, form.formData, form.isSubmitting, form.pendingResets;
  }

  /** The real mail call never throws: `sendContactEmail` turns every relay
      error into `false`, so the form's `catch` is never taken. A complete
      draft ends in success exactly when the configuration is complete and
      the relay acknowledges; otherwise it ends in error with the draft
      kept as typed. */
  method InquiryThroughMailService(d: ContactFormData, config: EmailConfig, relay: RelayAnswer)
    returns (sent: Option<ContactFormData>, result: CallResult, status: Status, draft: ContactFormData)
    requires HasRequiredFields(d)
    ensures sent == Some(d) && result != Threw
    ensures status == Success <==>
      relay == Acknowledged && config.serviceId != "" && config.templateId != "" && config.publicKey != ""
    ensures status != Success ==> status == Error && draft == d
    ensures status == Success ==> draft == EmptyDraft
  {
    var form := new Form();
    Fill(form, d);
    sent := form.HandleSubmit();
    result := Returned(SendContactEmail(config, sent.value, relay));
    form.Settle(result);
    status, draft := form.submitStatus, form.formData;
  }
}
