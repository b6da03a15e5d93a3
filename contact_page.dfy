/** The contact form of the Contact page: four controlled text fields, an
    `isSubmitting` flag, a tri-state `submitStatus`, and one EmailJS send per
    accepted submit. The send itself is outside the model: each accepted
    submit appends the submitted fields to `outbox`, and a later `Outcome`
    (standing in for the settled EmailJS promise) runs the success or the
    failure callback. */
module ContactPage {

  /** The `formData` record. */
  datatype FormData = FormData(name: string, email: string, subject: string, message: string)

  /** The `name` attribute of the input that fired `onChange`. */
  datatype Field = Name | Email | Subject | Message

  /** `submitStatus`: `null`, `'success'` or `'error'`. */
  datatype SubmitStatus = NoStatus | Success | Error

  /** How the EmailJS promise settled: the first or the second `.then` callback. */
  datatype Outcome = Delivered | Failed

  /** What the form shows and holds, plus the sends issued so far
      (`outbox`, oldest first) and how many of them have settled. */
  datatype ContactState = ContactState(
    formData: FormData,
    isSubmitting: bool,
    submitStatus: SubmitStatus,
    outbox: seq<FormData>,
    settled: nat)

  const EmptyForm: FormData := FormData("", "", "", "")

  /** The state on mount: every field empty, not submitting, no status, nothing sent. */
  const Initial: ContactState := ContactState(EmptyForm, false, NoStatus, [], 0)

  const SuccessText: string := "✓ Message sent successfully! I'll get back to you soon."
  const ErrorText: string := "✗ Failed to send message. Please try again or email me directly."

  function Get(f: FormData, field: Field): (v: string)
  {
    match field
    case Name => f.name
    case Email => f.email
    case Subject => f.subject
    case Message => f.message
  }

  /** `{...formData, [name]: value}`: the named field takes the value, the
      other three keep theirs. */
  function Set(f: FormData, field: Field, value: string): (r: FormData)
    ensures Get(r, field) == value
    ensures forall g :: g != field ==> Get(r, g) == Get(f, g)
  {
    match field
    case Name => f.(name := value)
    case Email => f.(email := value)
    case Subject => f.(subject := value)
    case Message => f.(message := value)
  }

  /** The fields the submit handler insists on; `subject` is not one of them. */
  predicate Required(field: Field)
  {
    field != Subject
  }

  /** The handler's check `!name || !email || !message` fails exactly when a
      required field is the empty string; whitespace counts as filled. */
  predicate Validates(f: FormData)
    ensures Validates(f) ==> |Get(f, Name)| > 0 && |Get(f, Email)| > 0 && |Get(f, Message)| > 0
    ensures !Validates(f) ==> Get(f, Name) == [] || Get(f, Email) == [] || Get(f, Message) == []
  {
    !(f.name == "" || f.email == "" || f.message == "")
  }

  lemma ValidatesIffRequiredFilled(f: FormData)
    ensures Validates(f) <==> forall g :: Required(g) ==> Get(f, g) != ""
  {
    if !Validates(f) {
      if f.name == "" { assert Required(Name) && Get(f, Name) == ""; }
      else if f.email == "" { assert Required(Email) && Get(f, Email) == ""; }
      else { assert Required(Message) && Get(f, Message) == ""; }
    }
  }

  /** Validation looks only at emptiness: any non-empty strings pass,
      whitespace included, whatever the subject. */
  lemma WhitespaceOnlyPasses()
    ensures forall n, e, sub, m :: n != "" && e != "" && m != "" ==> Validates(FormData(n, e, sub, m))
    ensures forall sub :: Validates(FormData(" ", " ", sub, " "))
    ensures forall e, sub, m :: !Validates(FormData("", e, sub, m))
  {
  }

  /** `handleChange`: exactly one field is overwritten. */
  function ChangeField(s: ContactState, field: Field, value: string): (r: ContactState)
    ensures Get(r.formData, field) == value
    ensures forall g :: g != field ==> Get(r.formData, g) == Get(s.formData, g)
    ensures r.isSubmitting == s.isSubmitting && r.submitStatus == s.submitStatus
    ensures r.outbox == s.outbox && r.settled == s.settled
  {
    s.(formData := Set(s.formData, field, value))
  }

  /** `handleSubmit`: a form missing a required field gets status error and
      nothing is sent; otherwise `isSubmitting` is raised, the status is
      cleared and exactly one send of the current fields is issued. */
  function SubmitForm(s: ContactState): (r: ContactState)
    ensures r.formData == s.formData && r.settled == s.settled
    ensures !Validates(s.formData) ==>
      r.submitStatus == Error && r.isSubmitting == s.isSubmitting && r.outbox == s.outbox
    ensures Validates(s.formData) ==>
      r.isSubmitting && r.submitStatus == NoStatus && r.outbox == s.outbox + [s.formData]
  {
    if !Validates(s.formData) then
      s.(submitStatus := Error)
    else
      s.(isSubmitting := true, submitStatus := NoStatus, outbox := s.outbox + [s.formData])
  }

  /** A send has been issued and its promise has not settled yet. */
  predicate Pending(s: ContactState)
  {
    s.settled < |s.outbox|
  }

  /** The `.then` callbacks: success clears all four fields (including
      anything typed while the send was in flight), failure leaves them as
      they are; both lower `isSubmitting` and set the status. */
  function SettleSend(s: ContactState, outcome: Outcome): (r: ContactState)
    requires Pending(s)
    ensures !r.isSubmitting && r.outbox == s.outbox && r.settled == s.settled + 1
    ensures outcome == Delivered ==> r.submitStatus == Success && r.formData == EmptyForm
    ensures outcome == Failed ==> r.submitStatus == Error && r.formData == s.formData
  {
    match outcome
    case Delivered => s.(submitStatus := Success, isSubmitting := false, formData := EmptyForm, settled := s.settled + 1)
    case Failed => s.(submitStatus := Error, isSubmitting := false, settled := s.settled + 1)
  }

  /** `disabled={isSubmitting}` on the submit button. */
  predicate ButtonDisabled(s: ContactState)
    ensures SingleFlight(s) ==> (ButtonDisabled(s) <==> Pending(s))
  {
    s.isSubmitting
  }

  function ButtonLabel(s: ContactState): (text: string)
    ensures text == "Sending..." <==> ButtonDisabled(s)
    ensures text == "Send Message" <==> !ButtonDisabled(s)
  {
    if s.isSubmitting then "Sending..." else "Send Message"
  }

  /** The status line under the form: the success message for `'success'`,
      the error message for `'error'`, nothing for `null`. */
  function StatusMessage(s: ContactState): (m: seq<string>)
    ensures m == [SuccessText] <==> s.submitStatus == Success
    ensures m == [ErrorText] <==> s.submitStatus == Error
    ensures m == [] <==> s.submitStatus == NoStatus
  {
    assert |SuccessText| != |ErrorText| && [SuccessText][0] != [ErrorText][0];
    (if s.submitStatus == Success then [SuccessText] else [])
    + (if s.submitStatus == Error then [ErrorText] else [])
  }

  /** What the user can do on the page. `Press` is a click on the submit
      button, which a disabled button ignores; `Settle` is the EmailJS
      promise of the oldest unsettled send resolving. */
  datatype Event = Type(field: Field, value: string) | Press | Settle(outcome: Outcome)

  function Step(s: ContactState, e: Event): (r: ContactState)
    ensures |s.outbox| <= |r.outbox| <= |s.outbox| + 1 && r.outbox[..|s.outbox|] == s.outbox
    ensures s.settled <= r.settled <= s.settled + 1
    ensures e.Press? && ButtonDisabled(s) ==> r == s
    ensures e.Settle? && !Pending(s) ==> r == s
  {
    match e
    case Type(field, value) => ChangeField(s, field, value)
    case Press => if ButtonDisabled(s) then s else SubmitForm(s)
    case Settle(outcome) => if Pending(s) then SettleSend(s, outcome) else s
  }

  /** A run only ever adds sends: the earlier ones stay, in order, and at
      most one is added per event. */
  function Run(s: ContactState, events: seq<Event>): (r: ContactState)
    ensures |s.outbox| <= |r.outbox| <= |s.outbox| + |events|
    ensures r.outbox[..|s.outbox|] == s.outbox
    ensures s.settled <= r.settled
    decreases events
  {
    if events == [] then s else Run(Step(s, events[0]), events[1..])
  }

  /** Every send but the current one has settled, and one is in flight
      exactly while `isSubmitting` holds. */
  predicate SingleFlight(s: ContactState)
  {
    |s.outbox| == s.settled + (if s.isSubmitting then 1 else 0)
  }

  lemma StepKeepsSingleFlight(s: ContactState, e: Event)
    requires SingleFlight(s)
    ensures SingleFlight(Step(s, e))
    ensures |Step(s, e).outbox| <= |s.outbox| + 1
    ensures e.Press? && s.isSubmitting ==> Step(s, e) == s
  {
  }

  /** Through the page's own controls, at most one send is ever in flight:
      from mount, after any sequence of keystrokes, clicks and settlements,
      the sends issued are the settled ones plus the one `isSubmitting`
      stands for. */
  lemma {:induction false} RunKeepsSingleFlight(s: ContactState, events: seq<Event>)
    requires SingleFlight(s)
    ensures SingleFlight(Run(s, events))
    ensures |Run(s, events).outbox| <= |s.outbox| + |events|
    decreases events
  {
    if events != [] {
      StepKeepsSingleFlight(s, events[0]);
      RunKeepsSingleFlight(Step(s, events[0]), events[1..]);
    }
  }

  lemma InitialIsIdle()
    ensures Initial.formData == EmptyForm && !Initial.isSubmitting && Initial.submitStatus == NoStatus
    ensures SingleFlight(Initial) && !ButtonDisabled(Initial) && StatusMessage(Initial) == []
  {
  }

  /** The handler itself has no in-flight guard: called while a send is
      pending, it issues a second one. Only the disabled button stops this. */
  lemma HandlerAloneAllowsSecondSend(f: FormData)
    requires Validates(f)
    ensures var s := SubmitForm(Initial.(formData := f));
            s.isSubmitting && |SubmitForm(s).outbox| == 2 && !SingleFlight(SubmitForm(s))
  {
  }

  /** A filled form, pressed once and delivered: success, every field empty,
      one send carrying the fields as they were at the press. */
  lemma SubmitThenDelivered(f: FormData)
    requires Validates(f)
    ensures var s := Run(Initial.(formData := f), [Press, Settle(Delivered)]);
            s.submitStatus == Success && s.formData == EmptyForm && s.outbox == [f] && !s.isSubmitting
  {
  }

  /** A filled form, pressed once and failed: error, fields as submitted. */
  lemma SubmitThenFailed(f: FormData)
    requires Validates(f)
    ensures var s := Run(Initial.(formData := f), [Press, Settle(Failed)]);
            s.submitStatus == Error && s.formData == f && s.outbox == [f] && !s.isSubmitting
  {
  }

  /** The contact form as the component holds it: three state cells that
      `handleChange`, `handleSubmit` and the EmailJS callbacks overwrite,
      plus the record of sends issued. */
  class ContactForm {
    var formData: FormData
    var isSubmitting: bool
    var submitStatus: SubmitStatus
    var outbox: seq<FormData>
    var settled: nat

    function State(): (s: ContactState)
      reads this
    {
      ContactState(formData, isSubmitting, submitStatus, outbox, settled)
    }

    /** `isSubmitting` always stands for a send not yet settled. This is
        weaker than `SingleFlight`: the raw handler `HandleSubmit` may issue a
        second send while one is pending (`HandlerAloneAllowsSecondSend`), so
        only `PressSubmit` keeps single flight. */
    ghost predicate Valid()
      reads this
    {
      settled <= |outbox| && (isSubmitting ==> settled < |outbox|)
    }

    constructor ()
      ensures Valid() && State() == Initial
    {
      formData := EmptyForm;
      isSubmitting := false;
      submitStatus := NoStatus;
      outbox := [];
      settled := 0;
    }

    method HandleChange(field: Field, value: string)
      requires Valid()
      modifies this
      ensures Valid() && State() == ChangeField(old(State()), field, value)
    {
      formData := Set(formData, field, value);
    }

    /** The submit handler as written; returns whether a send was issued. */
    method HandleSubmit() returns (issued: bool)
      requires Valid()
      modifies this
      ensures Valid() && State() == SubmitForm(old(State()))
      ensures issued <==> Validates(old(formData))
      ensures issued ==> outbox == old(outbox) + [old(formData)]
    {
      if formData.name == "" || formData.email == "" || formData.message == "" {
        submitStatus := Error;
        issued := false;
        return;
      }
      isSubmitting := true;
      submitStatus := NoStatus;
      outbox := outbox + [formData];
      issued := true;
    }

    /** A click on the submit button: ignored while it is disabled. */
    method PressSubmit() returns (issued: bool)
      requires Valid()
      modifies this
      ensures Valid() && State() == Step(old(State()), Press)
      ensures old(isSubmitting) ==> !issued && State() == old(State())
      ensures issued <==> !old(isSubmitting) && Validates(old(formData))
    {
      if isSubmitting {
        issued := false;
      } else {
        issued := HandleSubmit();
      }
    }

    /** The EmailJS promise of the oldest pending send settles. */
    method Resolve(outcome: Outcome)
      requires Valid() && Pending(State())
      modifies this
      ensures Valid() && State() == SettleSend(old(State()), outcome)
    {
      match outcome {
        case Delivered =>
          submitStatus := Success;
          isSubmitting := false;
          formData := EmptyForm;
        case Failed =>
          submitStatus := Error;
          isSubmitting := false;
      }
      settled := settled + 1;
    }
  }
}
