/**
 * The raffle page's form: the four pieces of state it keeps (the text typed,
 * whether a request is in flight, whether the signup went through, and the
 * error shown), what a submit does to them, and the auto-scroll button.
 *
 * The submit handler runs in two halves around its one network call: the
 * first half validates and, for an accepted handle, marks the form as
 * submitting and sends the request; the second half runs when the call has
 * an outcome. `Begin` and `Settle` are those halves on values; `RafflePage`
 * is the page object whose methods perform them in place.
 */
module RifasPage {

  import opened Wrappers
  import opened JsText
  import opened InstagramHandle
  import opened RaffleBrands
  import opened BrandsCarousel

  /** What the signup call came back with: a response whose `success` flag is
      given, or a failure, which is anything that throws inside the handler's
      `try`: a network error; a non-OK HTTP status or a GraphQL `errors` list,
      which the request helper throws; a body that is not JSON; or a response
      without `data`, on which reading `createRaffleSignup` throws. */
  datatype Outcome = Ok(success: bool) | Failure

  const GenericFailureMessage := "No pudimos registrar tu participación. Intenta nuevamente."

  /** The form's state: `instagramUser`, `submitting`, `submitted` and `error`. */
  datatype FormState = FormState(instagramUser: string, submitting: bool, submitted: bool, error: Option<string>)

  const InitialState := FormState("", false, false, None)

  /** The submit button is on the page (not yet replaced by the confirmation)
      and not disabled. */
  predicate SubmitEnabled(s: FormState) {
    !s.submitted && !s.submitting
  }

  /** The handler up to the network call: clear the error, refuse a blank or
      malformed handle with its message, otherwise mark the form as submitting
      and produce the request. */
  function Begin(s: FormState, brands: seq<Brand>, partners: seq<ExternalBrand>): (FormState, Option<SignupRequest>) {
    match ValidateInput(s.instagramUser)
    case Rejected(message) => (s.(error := Some(message)), None)
    case Accepted(handle) => (s.(error := None, submitting := true), Some(BuildRequest(handle, brands, partners)))
  }

  /** The handler after the network call: a successful signup marks the form
      as submitted; anything else shows the generic message; in every case
      the form stops submitting. */
  function Settle(s: FormState, outcome: Outcome): FormState {
    match outcome
    case Ok(true) => s.(submitted := true, submitting := false)
    case _ => s.(error := Some(GenericFailureMessage), submitting := false)
  }

  /** What the first half does, in terms of the input alone: it sends a
      request exactly when the trimmed input is in the pattern's language, and
      that request carries the trimmed input; then it clears the error and
      starts submitting. Otherwise it sends nothing and shows the first message
      for a blank input and the second for any other, changing nothing else. */
  lemma BeginMeaning(s: FormState, brands: seq<Brand>, partners: seq<ExternalBrand>)
    ensures var (t, request) := Begin(s, brands, partners);
      && (request.Some? <==> InHandleLanguage(Trim(s.instagramUser)))
      && (request.Some? ==>
            && request.value == BuildRequest(Trim(s.instagramUser), brands, partners)
            && t == s.(error := None, submitting := true))
      && (request.None? ==>
            t == s.(error := Some(if AllWhitespace(s.instagramUser) then EmptyUserMessage else InvalidUserMessage)))
  {
    ValidateInputMeaning(s.instagramUser);
    AcceptedIffTrimmedInLanguage(s.instagramUser);
  }

  /** One whole run of the submit handler, given the outcome of its call. */
  function Submit(s: FormState, brands: seq<Brand>, partners: seq<ExternalBrand>, outcome: Outcome): (FormState, Option<SignupRequest>) {
    var (t, request) := Begin(s, brands, partners);
    if request.Some? then (Settle(t, outcome), request) else (t, request)
  }

  /** A blank input shows the first message, sends nothing and leaves
      `submitting` and `submitted` as they were. */
  lemma SubmitBlankInput(s: FormState, brands: seq<Brand>, partners: seq<ExternalBrand>, outcome: Outcome)
    requires AllWhitespace(s.instagramUser)
    ensures Submit(s, brands, partners, outcome) == (s.(error := Some("Por favor ingresa tu usuario de Instagram")), None)
  {
    TrimSpec(s.instagramUser);
  }

  /** A non-blank input that does not match the pattern shows the second
      message, sends nothing and leaves `submitting` and `submitted` as they were. */
  lemma SubmitMalformedInput(s: FormState, brands: seq<Brand>, partners: seq<ExternalBrand>, outcome: Outcome)
    requires !AllWhitespace(s.instagramUser) && !MatchesHandlePattern(Trim(s.instagramUser))
    ensures Submit(s, brands, partners, outcome)
         == (s.(error := Some("Usuario inválido. Solo letras, números, punto y guion bajo")), None)
  {
    TrimSpec(s.instagramUser);
  }

  /** An accepted input sends exactly one request, built from the trimmed
      input; afterwards the form is not submitting, is submitted exactly when
      the call reported success (or it already was), and shows the generic
      message exactly when it did not. */
  lemma SubmitAcceptedInput(s: FormState, brands: seq<Brand>, partners: seq<ExternalBrand>, outcome: Outcome)
    requires InHandleLanguage(Trim(s.instagramUser))
    ensures var (t, request) := Submit(s, brands, partners, outcome);
      && request == Some(BuildRequest(Trim(s.instagramUser), brands, partners))
      && t.instagramUser == s.instagramUser
      && !t.submitting
      && t.submitted == (s.submitted || outcome == Ok(true))
      && t.error == (if outcome == Ok(true) then None else Some(GenericFailureMessage))
  {
    BeginMeaning(s, brands, partners);
  }

  /** A failed signup leaves a form that had not gone through ready for another
      try: the button is back and enabled. */
  lemma FailureIsRetryable(s: FormState, outcome: Outcome)
    requires s.submitting && !s.submitted && outcome != Ok(true)
    ensures var t := Settle(s, outcome); SubmitEnabled(t) && t.error == Some(GenericFailureMessage)
  {}

  /** What the user can do on the page. `Press` is a click on the submit button
      and reaches the handler only while the button is enabled. `Enter` is the
      Enter key in the text field: before the signup has gone through, the
      browser submits the form through its default button, which does nothing
      while that button is disabled; once the button has been replaced by the
      confirmation, the form has a single text field and no button, so Enter
      submits it directly, whether or not a request is in flight. `Respond`
      delivers the outcome of the oldest request in flight. */
  datatype UiEvent = Type(text: string) | Press | Enter | Respond(outcome: Outcome)

  /** The page between events: the form's state and how many signup calls are
      waiting for their answer. */
  datatype PageState = PageState(form: FormState, pending: nat)

  /** The result of a sequence of events: the final state and the requests sent,
      in order. */
  datatype Run = Run(state: PageState, sent: seq<SignupRequest>)

  /** The handler's first half, run by a submission of the form. */
  function StartSubmit(p: PageState, brands: seq<Brand>, partners: seq<ExternalBrand>): Run {
    var (t, request) := Begin(p.form, brands, partners);
    if request.Some? then Run(PageState(t, p.pending + 1), [request.value])
    else Run(PageState(t, p.pending), [])
  }

  /** Whether a key press in the text field submits the form. As written, the
      page lets it through whenever the button is not there to be disabled;
      `guarded` is the form that refuses a submission while a request is in
      flight, whatever is on the page. */
  predicate EnterSubmits(s: FormState, guarded: bool) {
    !s.submitting || (s.submitted && !guarded)
  }

  /** One event. A submission that reaches the handler runs its first half and
      adds the request, if any, to those in flight; an answer runs the second
      half of the handler that is waiting for it. */
  function Step(p: PageState, brands: seq<Brand>, partners: seq<ExternalBrand>, e: UiEvent, guarded: bool): Run {
    match e
    case Type(text) => Run(p.(form := p.form.(instagramUser := text)), [])
    case Press => if SubmitEnabled(p.form) then StartSubmit(p, brands, partners) else Run(p, [])
    case Enter => if EnterSubmits(p.form, guarded) then StartSubmit(p, brands, partners) else Run(p, [])
    case Respond(outcome) =>
      if p.pending > 0 then Run(PageState(Settle(p.form, outcome), p.pending - 1), []) else Run(p, [])
  }

  function RunEvents(p: PageState, brands: seq<Brand>, partners: seq<ExternalBrand>, events: seq<UiEvent>, guarded: bool): Run
    decreases |events|
  {
    if events == [] then Run(p, [])
    else
      var first := Step(p, brands, partners, events[0], guarded);
      var rest := RunEvents(first.state, brands, partners, events[1..], guarded);
      Run(rest.state, first.sent + rest.sent)
  }

  /** The form shows `submitting` exactly while one request, and only one, is in flight. */
  predicate OneInFlightWhileSubmitting(p: PageState) {
    p.pending == (if p.form.submitting then 1 else 0)
  }

  /** A submission that is not refused for being in flight starts submitting
      exactly when it sends a request, and does not touch `submitted`. */
  lemma BeginAccounting(s: FormState, brands: seq<Brand>, partners: seq<ExternalBrand>)
    requires !s.submitting
    ensures var (t, request) := Begin(s, brands, partners);
      && t.submitting == request.Some?
      && t.submitted == s.submitted
  {}

  /** Every request sent is one more in flight, and every answer delivered is
      one fewer. Without the Enter key, or with the guard, no event breaks the
      link between `submitting` and the one request in flight. */
  lemma StepAccounting(p: PageState, brands: seq<Brand>, partners: seq<ExternalBrand>, e: UiEvent, guarded: bool)
    ensures var r := Step(p, brands, partners, e, guarded);
      r.state.pending + (if e.Respond? && p.pending > 0 then 1 else 0) == p.pending + |r.sent|
    ensures OneInFlightWhileSubmitting(p) && (guarded || !e.Enter?) ==>
      OneInFlightWhileSubmitting(Step(p, brands, partners, e, guarded).state)
  {
    if (e.Press? || e.Enter?) && !p.form.submitting {
      BeginAccounting(p.form, brands, partners);
    }
  }

  /** With the guard, or without the Enter key, at most one request is ever in
      flight, exactly while the form is submitting, and every other request
      sent has been answered. */
  lemma {:induction false} AtMostOneInFlight(p: PageState, brands: seq<Brand>, partners: seq<ExternalBrand>, events: seq<UiEvent>, guarded: bool)
    requires OneInFlightWhileSubmitting(p)
    requires guarded || ClicksOnly(events)
    ensures OneInFlightWhileSubmitting(RunEvents(p, brands, partners, events, guarded).state)
    decreases |events|
  {
    if events != [] {
      StepAccounting(p, brands, partners, events[0], guarded);
      assert ClicksOnly(events) ==> ClicksOnly(events[1..]) by {
        if ClicksOnly(events) {
          forall k | 0 <= k < |events| - 1 ensures !events[1..][k].Enter? {
            assert events[1..][k] == events[k + 1];
          }
        }
      }
      AtMostOneInFlight(Step(p, brands, partners, events[0], guarded).state, brands, partners, events[1..], guarded);
    }
  }

  /** A run of two events is the first step followed by the second. */
  lemma RunTwo(p: PageState, brands: seq<Brand>, partners: seq<ExternalBrand>, e1: UiEvent, e2: UiEvent, guarded: bool)
    ensures var r1 := Step(p, brands, partners, e1, guarded);
      var r2 := Step(r1.state, brands, partners, e2, guarded);
      RunEvents(p, brands, partners, [e1, e2], guarded) == Run(r2.state, r1.sent + r2.sent)
  {
    var r1 := Step(p, brands, partners, e1, guarded);
    var r2 := Step(r1.state, brands, partners, e2, guarded);
    assert [e1, e2][1..] == [e2];
    assert RunEvents(r1.state, brands, partners, [e2], guarded) == Run(r2.state, r2.sent) by {
      assert [e2][1..] == [];
      assert r2.sent + [] == r2.sent;
    }
  }

  /** Enter on a valid name, while the key submits the form, clears the error,
      starts submitting and sends the request for the trimmed name. */
  lemma EnterSendsName(p: PageState, brands: seq<Brand>, partners: seq<ExternalBrand>, guarded: bool)
    requires EnterSubmits(p.form, guarded) && InHandleLanguage(Trim(p.form.instagramUser))
    ensures Step(p, brands, partners, Enter, guarded)
         == Run(PageState(p.form.(error := None, submitting := true), p.pending + 1),
                [BuildRequest(Trim(p.form.instagramUser), brands, partners)])
  {
    BeginMeaning(p.form, brands, partners);
  }

  /** The page as written: after a successful signup, two presses of Enter on a
      valid name send two signups, both in flight at once, while the form shows
      one submission. */
  lemma TwoInFlightAfterSuccess(p: PageState, brands: seq<Brand>, partners: seq<ExternalBrand>)
    requires p.form.submitted && !p.form.submitting && p.pending == 0
    requires InHandleLanguage(Trim(p.form.instagramUser))
    ensures var r := RunEvents(p, brands, partners, [Enter, Enter], false);
      && r.sent == [BuildRequest(Trim(p.form.instagramUser), brands, partners), BuildRequest(Trim(p.form.instagramUser), brands, partners)]
      && r.state.pending == 2
      && !OneInFlightWhileSubmitting(r.state)
  {
    RunTwo(p, brands, partners, Enter, Enter, false);
    EnterSendsName(p, brands, partners, false);
    var q := PageState(p.form.(error := None, submitting := true), 1);
    EnterSendsName(q, brands, partners, false);
    assert q.form.(error := None, submitting := true) == q.form;
  }

  /** The same two presses with the guard: the second is refused, and one
      request is in flight. */
  lemma GuardedRefusesSecondEnter(p: PageState, brands: seq<Brand>, partners: seq<ExternalBrand>)
    requires p.form.submitted && !p.form.submitting && p.pending == 0
    requires InHandleLanguage(Trim(p.form.instagramUser))
    ensures var r := RunEvents(p, brands, partners, [Enter, Enter], true);
      && r.sent == [BuildRequest(Trim(p.form.instagramUser), brands, partners)]
      && r.state.pending == 1
      && OneInFlightWhileSubmitting(r.state)
  {
    RunTwo(p, brands, partners, Enter, Enter, true);
    EnterSendsName(p, brands, partners, true);
  }

  /** No event in the sequence is the Enter key. */
  predicate ClicksOnly(events: seq<UiEvent>) {
    forall k :: 0 <= k < |events| ==> !events[k].Enter?
  }

  /** After the signup has gone through, no event undoes it, and no event other
      than the Enter key sends a request. */
  lemma StepAfterSuccess(p: PageState, brands: seq<Brand>, partners: seq<ExternalBrand>, e: UiEvent, guarded: bool)
    requires p.form.submitted
    ensures var r := Step(p, brands, partners, e, guarded);
      && r.state.form.submitted
      && (!e.Enter? ==> r.sent == [])
  {}

  /** Once the signup has gone through the form stays submitted, and as the
      submit button is gone, no sequence of clicks, typing and answers sends
      another request. */
  lemma {:induction false} NoRequestAfterSuccess(p: PageState, brands: seq<Brand>, partners: seq<ExternalBrand>, events: seq<UiEvent>, guarded: bool)
    requires p.form.submitted
    ensures var r := RunEvents(p, brands, partners, events, guarded);
      && r.state.form.submitted
      && (ClicksOnly(events) ==> r.sent == [])
    decreases |events|
  {
    if events != [] {
      StepAfterSuccess(p, brands, partners, events[0], guarded);
      NoRequestAfterSuccess(Step(p, brands, partners, events[0], guarded).state, brands, partners, events[1..], guarded);
      if ClicksOnly(events) {
        assert !events[0].Enter?;
        assert ClicksOnly(events[1..]) by {
          forall k | 0 <= k < |events| - 1 ensures !events[1..][k].Enter? {
            assert events[1..][k] == events[k + 1];
          }
        }
      }
    }
  }

  /** The Enter key still submits the form after the signup has gone through:
      a valid name is sent again, the confirmation stays, and a failed second
      call puts the generic message next to it. */
  lemma ResubmitAfterSuccess(p: PageState, brands: seq<Brand>, partners: seq<ExternalBrand>, outcome: Outcome, guarded: bool)
    requires p.form.submitted && !p.form.submitting && InHandleLanguage(Trim(p.form.instagramUser))
    ensures var r := RunEvents(p, brands, partners, [Enter, Respond(outcome)], guarded);
      && r.sent == [BuildRequest(Trim(p.form.instagramUser), brands, partners)]
      && r.state.pending == p.pending
      && r.state.form.submitted && !r.state.form.submitting
      && r.state.form.error == (if outcome == Ok(true) then None else Some(GenericFailureMessage))
  {
    RunTwo(p, brands, partners, Enter, Respond(outcome), guarded);
    EnterSendsName(p, brands, partners, guarded);
  }

  /** The page component, with its state fields, the brand records it reads,
      the partner table it closes over, and the reference to the scrollable
      list of brands. In the page that reference is empty until the list is
      mounted and set afterwards; here it is fixed when the page is built, so
      the model does not show it changing. */
  class RafflePage {
    var instagramUser: string
    var submitting: bool
    var submitted: bool
    var error: Option<string>
    const brands: seq<Brand>
    const partners: seq<ExternalBrand>
    const brandsGrid: ScrollContainer?

    function State(): FormState
      reads this
    {
      FormState(instagramUser, submitting, submitted, error)
    }

    constructor (brands: seq<Brand>, brandsGrid: ScrollContainer?)
      ensures State() == InitialState
      ensures this.brands == brands && this.partners == ExternalBrands && this.brandsGrid == brandsGrid
    {
      instagramUser, submitting, submitted, error := "", false, false, None;
      this.brands, this.partners, this.brandsGrid := brands, ExternalBrands, brandsGrid;
    }

    /** The input's `onChange`. */
    method ChangeInstagramUser(text: string)
      modifies this`instagramUser
      ensures State() == old(State()).(instagramUser := text)
    {
      instagramUser := text;
    }

    /** The handler up to the network call; returns the request it sends, if any. */
    method BeginSubmit() returns (request: Option<SignupRequest>)
      modifies this`error, this`submitting
      ensures (State(), request) == Begin(old(State()), brands, partners)
    {
      error := None;
      var trimmed := Trim(instagramUser);
      if trimmed == [] {
        error := Some(EmptyUserMessage);
        return None;
      }
      if !MatchesHandlePattern(trimmed) {
        error := Some(InvalidUserMessage);
        return None;
      }
      submitting := true;
      request := Some(BuildRequest(trimmed, brands, partners));
    }

    /** The handler after the network call, given its outcome. */
    method SettleSubmit(outcome: Outcome)
      modifies this`error, this`submitting, this`submitted
      ensures State() == Settle(old(State()), outcome)
    {
      match outcome {
        case Ok(success) =>
          if success {
            submitted := true;
          } else {
            error := Some(GenericFailureMessage);
          }
        case Failure =>
          error := Some(GenericFailureMessage);
      }
      submitting := false;
    }

    /** The whole submit handler, given the outcome its call will have. */
    method HandleSubmit(outcome: Outcome) returns (request: Option<SignupRequest>)
      modifies this`error, this`submitting, this`submitted
      ensures (State(), request) == Submit(old(State()), brands, partners, outcome)
    {
      request := BeginSubmit();
      if request.Some? {
        SettleSubmit(outcome);
      }
    }

    /** The "Deslizar" button: nothing happens without the list; otherwise the
        list wraps to the start or moves two cards on. */
    method HandleAutoScroll()
      requires brandsGrid != null ==> brandsGrid.Valid()
      modifies brandsGrid
      ensures brandsGrid != null ==> brandsGrid.Valid()
      ensures brandsGrid != null ==> unchanged(brandsGrid`scrollWidth, brandsGrid`clientWidth)
      ensures brandsGrid != null ==>
        brandsGrid.scrollLeft == AfterPress(old(brandsGrid.scrollLeft), old(brandsGrid.scrollWidth), old(brandsGrid.clientWidth))
    {
      if brandsGrid != null {
        var container := brandsGrid;
        var currentScroll := container.scrollLeft;
        var maxScroll := container.scrollWidth - container.clientWidth;
        if currentScroll >= maxScroll - EndSlack {
          container.ScrollTo(0);
        } else {
          container.ScrollTo(currentScroll + CardWidth * 2);
        }
      }
    }
  }
}
