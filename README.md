# Raffle signup form of the Terraza Eden site

This project models the raffle page of the food court's web site
(`src/app/rifas/page.tsx`). On that page a visitor types an Instagram user
name and signs up for the raffles of the participating brands. It covers:

- **Validating the user name**: the text is trimmed with JavaScript's `trim`.
  A blank text is refused with "Por favor ingresa tu usuario de Instagram".
  Anything else must match `^@?[a-zA-Z0-9._]{1,30}$`, or it is refused with
  "Usuario inválido. Solo letras, números, punto y guion bajo".
- **The accounts sent with a signup**:
  - first, the brands whose raffle is enabled and that have an Instagram
    handle or URL, in their stored order;
  - a brand's account is its handle, or else `@` plus the last path segment
    of its URL after one trailing `/` is dropped;
  - then the seven fixed partner accounts;
  - every account loses its leading `@`, if it has one.
- **The signup request**: the trimmed name (with its `@`, if any), the
  account list, the referrer `rifas-page` and the tenant `terraza-eden`.
- **The form's state machine**: four pieces of state, `instagramUser`,
  `submitting`, `submitted` and `error`, changed by typing, by the submit
  handler before its network call, and by the call's outcome.
- **The "Deslizar" button**: it scrolls the list of brands two cards (560
  pixels) further, or back to the start when the list is within 10 pixels of
  its end.

The model has these modules:

| module | file | contents |
|---|---|---|
| `Wrappers` | `wrappers.dfy` | `Option` |
| `JsText` | `js_text.dfy` | `trim`; the anchored replacements `replace(/^@/, '')` and `replace(/\/$/, '')`; `split('/').pop()` |
| `InstagramHandle` | `instagram_handle.dfy` | the pattern, stated two ways, and `ValidateInput` |
| `RaffleBrands` | `raffle_brands.dfy` | brand records, the two brand filters, handle derivation, the partner table, the request |
| `BrandsCarousel` | `brands_carousel.dfy` | the scroll rule and a scroll container class |
| `RifasPage` | `rifas_page.dfy` | the pure state machine, event traces, and the page class |

The submit handler is modelled twice:

- **As functions on values.** `Begin` covers the handler up to the `await`
  and `Settle` covers the rest. `Submit` is the two together.
- **As methods of the class `RafflePage`.** The class holds the four state
  fields, the brand records, the partner table and the list's scroll
  container. `BeginSubmit`, `SettleSubmit` and `HandleSubmit` update the
  fields in place. Each is proved equal to its function.

The network call is not modelled. Its outcome is given to the model as
`Outcome`: either `Ok(success)` or `Failure`. `Failure` stands for every
way the call can throw inside the handler's `try`:
- a network error;
- a non-OK HTTP status or a GraphQL `errors` list, which the request helper
  turns into an exception;
- a response body that is not JSON, on which parsing throws;
- a response without `data`, on which the helper returns `undefined` and
  reading `createRaffleSignup` from it throws a `TypeError`.

The form can be submitted two ways: by a click on its submit button, and by
the Enter key in its text field. Once the signup has gone through, the
button is replaced by the confirmation, but the text field stays. A form
with one text field and no button is still submitted by Enter, so a second
signup can then be sent. `ResubmitAfterSuccess` states this. Nothing refuses
that submission while such a signup is in flight, so pressing Enter again
sends another request while the previous one is still waiting: see
"## Findings".

The event model (`Step`, `RunEvents`) keeps the form's state and the number
of signup calls still waiting for their answer. Its flag `guarded` selects
between two readings. Without it, the model is the page as written. With it,
the model is the evidently intended form, which refuses every submission
while a request is in flight.

## Model

| member | source | states |
|---|---|---|
| JsText.Trim | src/app/rifas/page.tsx:57 | `instagramUser.trim()`; its contract is in `TrimSpec`, `TrimIsSlice` and `TrimOfPadded` |
| JsText.StripLeadingAt | src/app/rifas/page.tsx:74 | `replace(/^@/, '')`, also at line 77; its contract is in `StripLeadingAtSpec` and `StripLeadingAtUndoesPrefix` |
| JsText.DropTrailingSlash | src/app/rifas/page.tsx:73 | `replace(/\/$/, '')`; what it means for a profile URL is in `UrlNamesAccount` |
| JsText.TrimStartSpec | src/app/rifas/page.tsx:57 | the start of `trim` removes a whitespace-only prefix and keeps a suffix that does not start with whitespace |
| JsText.TrimEndSpec | src/app/rifas/page.tsx:57 | the end of `trim` removes a whitespace-only suffix and keeps a prefix that does not end with whitespace |
| JsText.TrimSpec | src/app/rifas/page.tsx:57-58 | the trimmed text has no whitespace at either end, and it is empty (the `!trimmed` test) exactly when the input is all whitespace |
| JsText.TrimIsSlice | src/app/rifas/page.tsx:57 | the trimmed text is one contiguous slice of the input, with only whitespace cut on either side |
| JsText.TrimStartSkipsBlanks | src/app/rifas/page.tsx:57 | leading whitespace before a non-blank start is exactly what the start of `trim` removes |
| JsText.TrimEndSkipsBlanks | src/app/rifas/page.tsx:57 | trailing whitespace after a non-blank end is exactly what the end of `trim` removes |
| JsText.TrimOfPadded | src/app/rifas/page.tsx:57 | trimming whitespace + t + whitespace gives back t whenever t has no whitespace at either end |
| JsText.TrimKeepsTrimmed | src/app/rifas/page.tsx:57 | text without whitespace at either end is left unchanged |
| JsText.TrimIdempotent | src/app/rifas/page.tsx:57 | trimming twice is trimming once |
| JsText.StripLeadingAtSpec | src/app/rifas/page.tsx:74 | `replace(/^@/, '')` removes the first character when it is `@` and keeps the rest; a string that does not start with `@` is returned unchanged |
| JsText.StripLeadingAtUndoesPrefix | src/app/rifas/page.tsx:73-74 | stripping the `@` that was put in front of a name gives back the name |
| JsText.Split | src/app/rifas/page.tsx:73 | `split('/')` returns at least one part, no part contains `/`, and joining the parts with `/` gives back the input |
| JsText.JoinEndsWithLast | src/app/rifas/page.tsx:73 | the joined string ends with its last part |
| JsText.LastSegment | src/app/rifas/page.tsx:73 | `split('/').pop()` is a `/`-free suffix of the input, preceded by a `/` whenever it is shorter than the input |
| JsText.SplitWithoutSeparator | src/app/rifas/page.tsx:73 | a string without `/` splits into itself alone |
| JsText.SplitBeforeLastSegment | src/app/rifas/page.tsx:73 | splitting prefix + `/` + segment gives the parts of prefix followed by segment |
| JsText.LastSegmentAfterSlash | src/app/rifas/page.tsx:73 | the last segment of prefix + `/` + name (name without `/`) is name |
| InstagramHandle.MatchesHandlePattern | src/app/rifas/page.tsx:62 | the regular expression test; `MatchesIffInLanguage` relates it to the pattern's language and `MatchShape` gives the shape of a match |
| InstagramHandle.ValidateInput | src/app/rifas/page.tsx:57-65 | the trim and the two early returns; its contract is in `ValidateInputMeaning` and `AcceptedIffTrimmedInLanguage` |
| InstagramHandle.MatchesIffInLanguage | src/app/rifas/page.tsx:62 | the direct test of `^@?[a-zA-Z0-9._]{1,30}$` accepts exactly the language of the pattern (an optional `@` then 1 to 30 class characters), in both directions |
| InstagramHandle.ValidateInputMeaning | src/app/rifas/page.tsx:57-65 | an accepted name is the trimmed input and is in the pattern's language; the first message is given exactly for blank input; no other message is ever given |
| InstagramHandle.AcceptedIffTrimmedInLanguage | src/app/rifas/page.tsx:57-65 | the input is accepted exactly when its trimmed form is in the pattern's language |
| InstagramHandle.AcceptsTrimmedInLanguage | src/app/rifas/page.tsx:62-65 | an input whose trimmed form is in the language is accepted as that trimmed form, `@` kept |
| InstagramHandle.MatchShape | src/app/rifas/page.tsx:62 | a match is 1 to 31 characters: an optional `@` then only class characters, and at least one after the `@` |
| InstagramHandle.AcceptedHandleShape | src/app/rifas/page.tsx:57-65 | every accepted name has that shape |
| InstagramHandle.ForeignCharacterSpoilsMatch | src/app/rifas/page.tsx:62 | a character outside `[a-zA-Z0-9._]` after the first position prevents a match |
| InstagramHandle.RejectsForeignCharacter | src/app/rifas/page.tsx:62-64 | an inner space, `-` or second `@` in the trimmed input gives the "Usuario inválido" message |
| InstagramHandle.RejectsLongBody | src/app/rifas/page.tsx:62-64 | more than 30 characters after the optional `@` give the "Usuario inválido" message |
| InstagramHandle.RejectsBareAt | src/app/rifas/page.tsx:62-64 | a lone `@` is refused with the "Usuario inválido" message |
| InstagramHandle.AcceptsPaddedHandle | src/app/rifas/page.tsx:57-65 | a matching name with any whitespace around it is accepted as exactly that name |
| InstagramHandle.AcceptedExample | src/app/rifas/page.tsx:62 | `my.user_1` is accepted unchanged |
| InstagramHandle.RejectedExamples | src/app/rifas/page.tsx:57-64 | the empty input gets the first message; `my user` and `my-user` get the second |
| RaffleBrands.Participates | src/app/rifas/page.tsx:71 | the signup filter; `Participants` states that it decides membership |
| RaffleBrands.RawHandle | src/app/rifas/page.tsx:73 | the handle before the `@` strip; `PayloadHandleSource` states which source wins |
| RaffleBrands.PayloadHandle | src/app/rifas/page.tsx:72-75 | one brand's entry in the map; its contract is in `PayloadHandleSource` and `UrlOnlyBrandHandle` |
| RaffleBrands.BuildRequest | src/app/rifas/page.tsx:79-86 | the request's variables; their layout is stated in `BuildRequestLayout` |
| RaffleBrands.PayloadHandleSource | src/app/rifas/page.tsx:72-75 | a non-empty stored handle wins over the URL: it is sent without its first character when that is `@`, and unchanged otherwise; without one the account is exactly the last URL segment after one trailing `/` is dropped, and it contains no `/` |
| RaffleBrands.UrlNamesAccount | src/app/rifas/page.tsx:73 | a profile URL `https://www.instagram.com/<account>`, with or without a trailing `/`, yields `<account>` |
| RaffleBrands.UrlOnlyBrandHandle | src/app/rifas/page.tsx:73-74 | a participating brand with only a profile URL contributes the account named in the URL |
| RaffleBrands.UrlOnlyBrandExample | src/app/rifas/page.tsx:73-74 | `https://www.instagram.com/saborextremogourmet/` gives `saborextremogourmet` |
| RaffleBrands.Participants | src/app/rifas/page.tsx:70-71 | the filter keeps exactly the brands with raffle enabled and a non-empty handle or URL, and no more brands than it was given |
| RaffleBrands.ParticipantsAppend | src/app/rifas/page.tsx:70-71 | the filter keeps the brands' order: filtering a concatenation filters each part |
| RaffleBrands.PayloadHandles | src/app/rifas/page.tsx:72-75 | the map gives one account per brand, in order: the k-th is the k-th brand's account |
| RaffleBrands.EnabledBrandHandles | src/app/rifas/page.tsx:70-75 | one account per participating brand, the k-th being the k-th participant's account |
| RaffleBrands.EnabledBrandHandlesAppend | src/app/rifas/page.tsx:70-75 | the accounts of a concatenation of brand lists are the accounts of each list, one after the other |
| RaffleBrands.EnabledBrandHandleHasSource | src/app/rifas/page.tsx:70-75 | every account in the list comes from some participating brand |
| RaffleBrands.ParticipantHandleListed | src/app/rifas/page.tsx:70-75 | every participating brand's account is in the list |
| RaffleBrands.EnabledBrandHandlesMembership | src/app/rifas/page.tsx:70-75 | an account is in the list exactly when some participating brand contributes it |
| RaffleBrands.ListedBrandsParticipate | src/app/rifas/page.tsx:240 | every brand shown under "Marcas participantes" (raffle enabled, URL present) is registered; a brand with a handle and no URL is registered without being shown |
| RaffleBrands.PartnerHandles | src/app/rifas/page.tsx:77 | one account per partner, in table order, each being that partner's handle without its leading `@` |
| RaffleBrands.ExternalHandlesValue | src/app/rifas/page.tsx:20-28 | the seven partner accounts sent are exactly the seven table handles, in order, without `@` |
| RaffleBrands.BuildRequestLayout | src/app/rifas/page.tsx:79-86 | the request carries the name as given, the brand accounts in brand order followed by the partner accounts in table order, `rifas-page` and `terraza-eden` |
| BrandsCarousel.ScrollTarget | src/app/rifas/page.tsx:37-48 | the `left` passed to `scrollTo`; `PressWrapsOrAdvances` states where it leaves the list |
| BrandsCarousel.AfterPress | src/app/rifas/page.tsx:30-51 | the position after one press; its contract is in `PressWrapsOrAdvances` |
| BrandsCarousel.Clamp | src/app/rifas/page.tsx:39-48 | the clamped target lies in the range, and equals the target when the target already does |
| BrandsCarousel.PressWrapsOrAdvances | src/app/rifas/page.tsx:30-51 | a press goes back to 0 exactly when the list is within 10 pixels of its end; otherwise it moves forward by exactly 560 pixels, or to the end when less than that remains; the position stays in range |
| BrandsCarousel.AfterPresses | src/app/rifas/page.tsx:30-51 | any number of presses keeps the position inside the scrollable range |
| BrandsCarousel.PressesReturnToStart | src/app/rifas/page.tsx:37-48 | from any position, repeated presses reach 0 within (remaining distance / 560) + 2 presses |
| BrandsCarousel.ScrollContainer.ScrollTo | src/app/rifas/page.tsx:39-48 | `scrollTo` sets the position to the requested `left`, kept inside the scrollable range |
| RifasPage.Begin | src/app/rifas/page.tsx:53-67 | the handler up to the call, on values; its contract is in `BeginMeaning` and `BeginAccounting` |
| RifasPage.Settle | src/app/rifas/page.tsx:99-110 | the handler after the call, on values; its contract is in `SubmitAcceptedInput` and `FailureIsRetryable` |
| RifasPage.Submit | src/app/rifas/page.tsx:53-111 | the whole handler, on values; its contract is in `SubmitBlankInput`, `SubmitMalformedInput` and `SubmitAcceptedInput` |
| RifasPage.Step | src/app/rifas/page.tsx:152-197 | one event on the form: a click reaches the handler only while the button is shown and enabled (`SubmitEnabled`), Enter whenever the form is not submitting or, as written, once the button is gone, and an answer settles one call in flight; the submission runs `StartSubmit`, the first half of the handler; `StepAccounting` and `StepAfterSuccess` state what it keeps |
| RifasPage.RunEvents | src/app/rifas/page.tsx:152-197 | a sequence of events; its contract is in `AtMostOneInFlight`, `NoRequestAfterSuccess`, `ResubmitAfterSuccess` and `TwoInFlightAfterSuccess` |
| RifasPage.RunTwo | src/app/rifas/page.tsx:152-197 | a run of two events is the first step followed by the second |
| RifasPage.EnterSendsName | src/app/rifas/page.tsx:53-86 | Enter on a valid name, when it reaches the handler, clears the error, starts submitting, adds one call in flight and sends the request for the trimmed name |
| RifasPage.TwoInFlightAfterSuccess | src/app/rifas/page.tsx:182-197 | as written, after a successful signup two Enter presses on a valid name send two requests, both in flight at once, although the form shows a single submission |
| RifasPage.GuardedRefusesSecondEnter | src/app/rifas/page.tsx:182-189 | with the guard, the second Enter is refused and exactly one request is in flight |
| RifasPage.BeginMeaning | src/app/rifas/page.tsx:55-86 | before the call, the handler sends a request exactly when the trimmed input is in the pattern's language; the request carries the trimmed input, and the error is cleared and submitting starts; otherwise nothing is sent and the error is the first message for blank input and the second for any other |
| RifasPage.SubmitBlankInput | src/app/rifas/page.tsx:55-61 | blank input sets the first message, sends nothing and leaves `submitting` and `submitted` unchanged |
| RifasPage.SubmitMalformedInput | src/app/rifas/page.tsx:62-65 | non-blank input that does not match sets the second message, sends nothing and leaves `submitting` and `submitted` unchanged |
| RifasPage.SubmitAcceptedInput | src/app/rifas/page.tsx:67-110 | an accepted input sends exactly one request built from the trimmed input; afterwards `submitting` is false, `submitted` is set exactly on `Ok(true)`, and the generic message is shown exactly otherwise |
| RifasPage.FailureIsRetryable | src/app/rifas/page.tsx:106-110 | after a failed signup the error is the generic message and the button is back and enabled |
| RifasPage.BeginAccounting | src/app/rifas/page.tsx:67 | when the form is not already submitting, the handler starts submitting exactly when it sends a request, and does not touch `submitted` |
| RifasPage.StepAccounting | src/app/rifas/page.tsx:182-189 | per event, calls in flight after plus answers delivered equal calls in flight before plus requests sent; with the guard, or for any event but Enter, `submitting` stays true exactly while one call is in flight |
| RifasPage.AtMostOneInFlight | src/app/rifas/page.tsx:182-189 | with the guard, over any sequence of clicks, Enter keys, typing and answers, and on the page as written over any sequence without Enter, at most one call is in flight, and one is exactly while `submitting` |
| RifasPage.StepAfterSuccess | src/app/rifas/page.tsx:182-197 | once submitted, no event undoes `submitted`, and no event other than the Enter key sends a request |
| RifasPage.NoRequestAfterSuccess | src/app/rifas/page.tsx:182-197 | once submitted, the form stays submitted, and no sequence of clicks, typing and answers sends another request |
| RifasPage.ResubmitAfterSuccess | src/app/rifas/page.tsx:152-197 | once submitted, Enter in the text field sends the valid name again; the form stays submitted, and a failed second call shows the generic message as well |
| BrandsCarousel.ScrollContainer.constructor | src/app/rifas/page.tsx:17 | the list's element starts at position 0 with the given widths, inside the scrollable range |
| RifasPage.RafflePage.constructor | src/app/rifas/page.tsx:13-28 | the page starts with an empty name, not submitting, not submitted and no error, and holds the partner table |
| RifasPage.RafflePage.ChangeInstagramUser | src/app/rifas/page.tsx:165 | typing replaces the name and changes nothing else |
| RifasPage.RafflePage.BeginSubmit | src/app/rifas/page.tsx:53-67 | the in-place handler up to the call leaves the state and returns the request exactly as `Begin` says |
| RifasPage.RafflePage.SettleSubmit | src/app/rifas/page.tsx:99-110 | the in-place end of the handler, run for every answer whatever `submitting` is (a second call in flight after success can be answered when it is already false), leaves the state exactly as `Settle` says |
| RifasPage.RafflePage.HandleSubmit | src/app/rifas/page.tsx:53-111 | the whole in-place handler leaves the state and sends the request exactly as `Submit` says |
| RifasPage.RafflePage.HandleAutoScroll | src/app/rifas/page.tsx:30-51 | without a container nothing changes; otherwise the position becomes `AfterPress` of the old one and the widths are unchanged |

## Left out

- The network call (`src/lib/graphql.ts`) is not modelled. The submit
  handler receives its outcome as a parameter.
- A response with no `createRaffleSignup` object takes the same path as
  `Ok(false)`, so it is represented by `Ok(false)`.
- The message of the error thrown on an unsuccessful response is never
  shown (the catch replaces it with the generic message), so it is not
  modelled.
- The contents of `brands.json` are a parameter.
- Of a brand record, only `id`, `name`, `contact.instagramHandle`,
  `contact.instagramUrl` and `raffle.enabled` are modelled. The other fields
  of `src/types/brand.ts` play no part in the form.
- Rendering is not modelled: the JSX, the animations, the confirmation box
  and the cards of the participant list. Only the list's filter (line 240)
  is stated, as `ListedForFollowing`, to compare it with the signup filter.
- `e.preventDefault()` is not modelled. The browser's form submission is
  modelled by two events. `Press` is a click on the submit button, and it
  reaches the handler only while `SubmitEnabled` holds. `Enter` is the Enter
  key in the text field. It reaches the handler whenever the form is not
  submitting, and, on the page as written, also while it is submitting once
  the button has been replaced by the confirmation.
- RifasPage.NoRequestAfterSuccess: covers only clicks, typing and answers.
  After a successful signup the Enter key still submits the form and sends
  another request, as `ResubmitAfterSuccess` shows.
- RifasPage.StepAfterSuccess: for the same reason, it says that no event
  other than the Enter key sends a request.
- React's batching of state updates and re-rendering are not modelled.
  Updates take effect in order, on the object's fields. The handler is split
  at its single `await`. `HandleSubmit` runs both halves with nothing in
  between. In the event model (`Step`), typing may happen between the two
  halves. `Press` is refused while the form is submitting. `Enter` is
  refused while the form is submitting only before the signup has gone
  through, or with the guard. Answers arrive one at a time, and each runs
  the second half of one waiting handler. Which request an answer belongs to
  is not recorded, because the second half does not depend on it.
- RifasPage.AtMostOneInFlight: on the page as written it covers only
  sequences without the Enter key, because after a successful signup Enter
  can put a second call in flight (`TwoInFlightAfterSuccess`).
- Scrolling: pixel values are integers rather than floating point. The
  smooth animation is not modelled: `scrollTo` sets its final position,
  clamped to the scrollable range as browsers do.
- `trim` uses a fixed set of whitespace characters: ECMAScript's
  WhiteSpace and LineTerminator code points, with the Unicode space
  separators written out. Strings are sequences of characters, not UTF-16
  code units. This makes no difference here. A character outside the Basic
  Multilingual Plane is two code units in JavaScript, but neither those code
  units nor the character itself is whitespace, so `trim` stops at it either
  way. The pattern accepts only ASCII characters, so it refuses such a
  character either way.
- The regular expression engine is not modelled in general. The single
  pattern is written as a predicate, and a second, language-style
  definition is proved equivalent to it.
- The clamp in `ScrollTo` is the browser's behaviour. It is not in the
  repository's code.

## Findings

| source | as written | input that shows it | evidently intended | confidence | as-written member | corrected member |
|---|---|---|---|---|---|---|
| src/app/rifas/page.tsx:182-197 | the submit button is the only thing that stops a second submission while one is in flight, and after a successful signup it is replaced by the confirmation; the form keeps its one text field, so Enter still submits it and `handleSubmit` runs with a request already in flight | after a successful signup, with a valid name in the field, press Enter twice before the answer arrives: two `createRaffleSignup` requests are in flight at once | no submission starts while a request is in flight (the button's `disabled={submitting}`) | not executed | RifasPage.TwoInFlightAfterSuccess | RifasPage.AtMostOneInFlight |
