/** pages/admin/index.tsx: the create-event form. `validateForm` fills a
    map from field to message by a fixed sequence of checks, a later check
    overwriting the message of an earlier one for the same field;
    `handleSubmit` builds the new event and adds it to the store.

    A `datetime-local` input yields either the empty string or a valid
    date-time, so a date field is `None` (empty, `new Date('')` is NaN) or
    `Some(ms)`. Every comparison with NaN is false, and so is every
    comparison here with a `None`. */
module AdminCreate {
  import opened Wrappers
  import opened Text
  import opened Types
  import opened Helpers
  import opened Store

  /** The keys of the error map. */
  datatype FormField = Name | OwnerEmail | EventDate | UploadWindowStart | UploadDeadline

  /** The form's state. `maxFileSize` comes from a range input bounded to
      1..100 and starts at 50. */
  datatype FormData = FormData(
    name: string,
    ownerEmail: string,
    eventDate: Option<int>,
    uploadWindowStart: Option<int>,
    uploadDeadline: Option<int>,
    description: string,
    maxFileSize: nat)

  /** The form as first shown: every text empty, 50 MB. */
  const InitialForm := FormData("", "", None, None, None, "", 50)

  const NameRequired := "Event-Name erforderlich"
  const EmailRequired := "E-Mail erforderlich"
  const EventDateRequired := "Event-Datum erforderlich"
  const UploadStartRequired := "Upload-Start erforderlich"
  const DeadlineRequired := "Upload-Deadline erforderlich"
  const EventDateInPast := "Event-Datum muss in der Zukunft liegen"
  const UploadStartInPast := "Upload-Start muss in der Zukunft liegen"
  const DeadlineNotAfterStart := "Deadline muss nach Upload-Start liegen"
  const DeadlineAfterEvent := "Deadline sollte vor oder am Event-Datum liegen"

  /** `a <= b` on dates, false when either is invalid. */
  predicate AtMost(a: Option<int>, b: Option<int>)
  {
    a.Some? && b.Some? && a.value <= b.value
  }

  /** `a > b` on dates, false when either is invalid. */
  predicate After(a: Option<int>, b: Option<int>)
  {
    a.Some? && b.Some? && a.value > b.value
  }

  /** The message `validateForm` leaves under each field: the last check
      that fires for it wins. */
  function ErrorFor(form: FormData, now: int, field: FormField): Option<string>
  {
    match field
    case Name => if IsBlank(form.name) then Some(NameRequired) else None
    case OwnerEmail => if IsBlank(form.ownerEmail) then Some(EmailRequired) else None
    case EventDate =>
      if AtMost(form.eventDate, Some(now)) then Some(EventDateInPast)
      else if form.eventDate.None? then Some(EventDateRequired)
      else None
    case UploadWindowStart =>
      if AtMost(form.uploadWindowStart, Some(now)) then Some(UploadStartInPast)
      else if form.uploadWindowStart.None? then Some(UploadStartRequired)
      else None
    case UploadDeadline =>
      if After(form.uploadDeadline, form.eventDate) then Some(DeadlineAfterEvent)
      else if AtMost(form.uploadDeadline, form.uploadWindowStart) then Some(DeadlineNotAfterStart)
      else if form.uploadDeadline.None? then Some(DeadlineRequired)
      else None
  }

  /** The map holds exactly the fields `ErrorFor` gives a message for, with
      that message. */
  predicate DescribesErrors(errors: map<FormField, string>, form: FormData, now: int)
  {
    forall field :: (field in errors <==> ErrorFor(form, now, field).Some?)
                    && (field in errors ==> errors[field] == ErrorFor(form, now, field).value)
  }

  /** A form that can be submitted, stated without the error map: both
      texts have a non-blank character, every date is given, the start and
      the event lie in the future, and the deadline lies after the start
      and not after the event. */
  predicate FormValid(form: FormData, now: int)
  {
    !IsBlank(form.name) && !IsBlank(form.ownerEmail)
    && form.eventDate.Some? && form.uploadWindowStart.Some? && form.uploadDeadline.Some?
    && now < form.eventDate.value && now < form.uploadWindowStart.value
    && form.uploadWindowStart.value < form.uploadDeadline.value <= form.eventDate.value
  }

  /** The message of the first five checks of `validateForm`: a blank text
      or an empty date is required. */
  function RequiredError(form: FormData, field: FormField): Option<string>
  {
    match field
    case Name => if IsBlank(form.name) then Some(NameRequired) else None
    case OwnerEmail => if IsBlank(form.ownerEmail) then Some(EmailRequired) else None
    case EventDate => if form.eventDate.None? then Some(EventDateRequired) else None
    case UploadWindowStart => if form.uploadWindowStart.None? then Some(UploadStartRequired) else None
    case UploadDeadline => if form.uploadDeadline.None? then Some(DeadlineRequired) else None
  }

  /** The message the date comparisons of `validateForm` leave last under
      a field, if any of them fires. */
  function ComparisonError(form: FormData, now: int, field: FormField): Option<string>
  {
    match field
    case EventDate => if AtMost(form.eventDate, Some(now)) then Some(EventDateInPast) else None
    case UploadWindowStart =>
      if AtMost(form.uploadWindowStart, Some(now)) then Some(UploadStartInPast) else None
    case UploadDeadline =>
      if After(form.uploadDeadline, form.eventDate) then Some(DeadlineAfterEvent)
      else if AtMost(form.uploadDeadline, form.uploadWindowStart) then Some(DeadlineNotAfterStart)
      else None
    case _ => None
  }

  /** The presence checks, in the source's order. */
  method RequiredChecks(form: FormData) returns (newErrors: map<FormField, string>)
    ensures forall field :: (field in newErrors <==> RequiredError(form, field).Some?)
                            && (field in newErrors ==> newErrors[field] == RequiredError(form, field).value)
  {
    newErrors := map[];
    if Trim(form.name) == "" { newErrors := newErrors[Name := NameRequired]; }
    if Trim(form.ownerEmail) == "" { newErrors := newErrors[OwnerEmail := EmailRequired]; }
    if form.eventDate.None? { newErrors := newErrors[EventDate := EventDateRequired]; }
    if form.uploadWindowStart.None? {
      newErrors := newErrors[UploadWindowStart := UploadStartRequired];
    }
    if form.uploadDeadline.None? { newErrors := newErrors[UploadDeadline := DeadlineRequired]; }
    TrimEmptyIffBlank(form.name);
    TrimEmptyIffBlank(form.ownerEmail);
  }

  /** The date comparisons, in the source's order, each overwriting what
      is already under its field. */
  method ComparisonChecks(form: FormData, now: int, errors: map<FormField, string>)
    returns (newErrors: map<FormField, string>)
    ensures forall field :: (field in newErrors <==> field in errors || ComparisonError(form, now, field).Some?)
    ensures forall field :: field in newErrors ==>
              newErrors[field] == if ComparisonError(form, now, field).Some?
                                  then ComparisonError(form, now, field).value else errors[field]
  {
    newErrors := errors;
    if AtMost(form.eventDate, Some(now)) { newErrors := newErrors[EventDate := EventDateInPast]; }
    if AtMost(form.uploadWindowStart, Some(now)) {
      newErrors := newErrors[UploadWindowStart := UploadStartInPast];
    }
    if AtMost(form.uploadDeadline, form.uploadWindowStart) {
      newErrors := newErrors[UploadDeadline := DeadlineNotAfterStart];
    }
    if After(form.uploadDeadline, form.eventDate) {
      newErrors := newErrors[UploadDeadline := DeadlineAfterEvent];
    }
  }

  /** `validateForm`'s map: the presence checks, then the comparisons. */
  method CollectErrors(form: FormData, now: int) returns (newErrors: map<FormField, string>)
    ensures DescribesErrors(newErrors, form, now)
    ensures |newErrors| == 0 <==> FormValid(form, now)
  {
    var required := RequiredChecks(form);
    newErrors := ComparisonChecks(form, now, required);
    LaterWriteWins(form, now);
    NoErrorsIffValid(form, now);
    if |newErrors| == 0 {
      forall field ensures ErrorFor(form, now, field).None? {
        assert field !in newErrors;
      }
    } else {
      var field :| field in newErrors;
      assert ErrorFor(form, now, field).Some?;
    }
  }

  /** A comparison message replaces the presence message of its field. */
  lemma LaterWriteWins(form: FormData, now: int)
    ensures forall field :: ErrorFor(form, now, field)
                            == if ComparisonError(form, now, field).Some?
                               then ComparisonError(form, now, field) else RequiredError(form, field)
  {
    forall field
      ensures ErrorFor(form, now, field)
              == if ComparisonError(form, now, field).Some?
                 then ComparisonError(form, now, field) else RequiredError(form, field)
    {
    }
  }

  /** `validateForm` accepts exactly the valid forms: no field has a
      message iff `FormValid`. */
  lemma NoErrorsIffValid(form: FormData, now: int)
    ensures (forall field :: ErrorFor(form, now, field).None?) <==> FormValid(form, now)
  {
    if forall field :: ErrorFor(form, now, field).None? {
      assert ErrorFor(form, now, Name).None? && ErrorFor(form, now, OwnerEmail).None?;
      assert ErrorFor(form, now, EventDate).None? && ErrorFor(form, now, UploadWindowStart).None?;
      assert ErrorFor(form, now, UploadDeadline).None?;
    }
  }

  /** A blank name or e-mail address (empty or only white space) is
      reported under its own field. */
  lemma BlankTextRequired(form: FormData, now: int)
    requires Trim(form.name) == "" || Trim(form.ownerEmail) == ""
    ensures Trim(form.name) == "" ==> ErrorFor(form, now, Name) == Some(NameRequired)
    ensures Trim(form.ownerEmail) == "" ==> ErrorFor(form, now, OwnerEmail) == Some(EmailRequired)
  {
    TrimEmptyIffBlank(form.name);
    TrimEmptyIffBlank(form.ownerEmail);
  }

  /** An event date or upload start that is not strictly after `now` gets
      the "in der Zukunft" message, overwriting nothing else. */
  lemma PastDatesRejected(form: FormData, now: int)
    ensures form.eventDate.Some? && form.eventDate.value <= now
            ==> ErrorFor(form, now, EventDate) == Some(EventDateInPast)
    ensures form.uploadWindowStart.Some? && form.uploadWindowStart.value <= now
            ==> ErrorFor(form, now, UploadWindowStart) == Some(UploadStartInPast)
  {
  }

  /** A deadline both not after the start and after the event keeps only
      the second message: the later write wins. */
  lemma DeadlineLaterWriteWins(form: FormData, now: int)
    requires form.uploadDeadline.Some? && form.uploadWindowStart.Some? && form.eventDate.Some?
    requires form.uploadDeadline.value <= form.uploadWindowStart.value
    requires form.uploadDeadline.value > form.eventDate.value
    ensures ErrorFor(form, now, UploadDeadline) == Some(DeadlineAfterEvent)
  {
  }

  /** An empty date field gets its "erforderlich" message and no
      comparison message, and it triggers no comparison message on the
      fields compared with it, except for the deadline's own. */
  lemma EmptyDateOnlyRequired(form: FormData, now: int)
    requires form.eventDate.None? || form.uploadWindowStart.None? || form.uploadDeadline.None?
    ensures form.eventDate.None? ==> ErrorFor(form, now, EventDate) == Some(EventDateRequired)
    ensures form.uploadWindowStart.None? ==> ErrorFor(form, now, UploadWindowStart) == Some(UploadStartRequired)
    ensures form.uploadDeadline.None? ==> ErrorFor(form, now, UploadDeadline) == Some(DeadlineRequired)
    ensures form.eventDate.None? && form.uploadDeadline.Some?
            ==> ErrorFor(form, now, UploadDeadline) != Some(DeadlineAfterEvent)
    ensures form.uploadWindowStart.None? && form.uploadDeadline.Some?
            ==> ErrorFor(form, now, UploadDeadline) != Some(DeadlineNotAfterStart)
  {
  }

  /** The event `handleSubmit` builds from a valid form: fixed defaults
      and the form's values; an empty description becomes absent. */
  function BuildEvent(form: FormData, id: string, inviteToken: string, createdAt: int, updatedAt: int): (e: Event)
    requires form.eventDate.Some? && form.uploadWindowStart.Some? && form.uploadDeadline.Some?
    ensures e.isActive && e.downloadsCount == 0 && e.downloadLink.None?
    ensures e.allowedFileTypes == AllowedFileTypes && e.maxFileSize == form.maxFileSize
    ensures e.description.None? <==> form.description == ""
    ensures e.description.Some? ==> e.description.value == form.description
    ensures e.id == id && e.inviteToken == inviteToken
    ensures e.name == form.name && e.ownerEmail == form.ownerEmail
    ensures e.eventDate == form.eventDate.value && e.uploadWindowStart == form.uploadWindowStart.value
    ensures e.uploadDeadline == form.uploadDeadline.value
  {
    Event(
      id := id,
      name := form.name,
      ownerEmail := form.ownerEmail,
      eventDate := form.eventDate.value,
      uploadDeadline := form.uploadDeadline.value,
      uploadWindowStart := form.uploadWindowStart.value,
      description := if form.description == "" then None else Some(form.description),
      maxFileSize := form.maxFileSize,
      allowedFileTypes := ["image/jpeg", "image/png", "image/webp", "image/gif", "image/heic"],
      createdAt := createdAt,
      updatedAt := updatedAt,
      isActive := true,
      inviteToken := inviteToken,
      downloadLink := None,
      downloadsCount := 0)
  }

  /** An event created at `now` from a valid form has its window in the
      future: closed at `now`, open from its start through its deadline,
      and the deadline is not after the event. */
  lemma CreatedEventWellOrdered(form: FormData, now: int, id: string, token: string,
                                createdAt: int, updatedAt: int, t: int)
    requires FormValid(form, now)
    ensures var e := BuildEvent(form, id, token, createdAt, updatedAt);
            now < e.uploadWindowStart < e.uploadDeadline <= e.eventDate
            && !IsUploadWindowOpen(e.uploadWindowStart, e.uploadDeadline, now)
            && (IsUploadWindowOpen(e.uploadWindowStart, e.uploadDeadline, t)
                <==> e.uploadWindowStart <= t <= e.uploadDeadline)
  {
  }

  class CreateEventPage {
    var formData: FormData
    var errors: map<FormField, string>
    var createdEvent: Option<Event>
    const store: EventStore

    /** The page as first rendered, bound to the shared store. */
    constructor(store: EventStore)
      ensures this.store == store
      ensures formData == InitialForm && errors == map[] && createdEvent == None
    {
      this.store := store;
      formData := InitialForm;
      errors := map[];
      createdEvent := None;
    }

    /** The inputs' `onChange` handlers replace the form. */
    method SetFormData(form: FormData)
      modifies this`formData
      ensures formData == form
    {
      formData := form;
    }

    /** `validateForm`: stores the error map and answers whether it is
      empty. */
    method ValidateForm(now: int) returns (ok: bool)
      modifies this`errors
      ensures DescribesErrors(errors, formData, now)
      ensures ok <==> |errors| == 0
      ensures ok <==> FormValid(formData, now)
    {
      var newErrors := CollectErrors(formData, now);
      errors := newErrors;
      ok := |newErrors| == 0;
    }

    /** `handleSubmit`. The clock readings and random draws are parameters:
      `now` for the validation, `createdAt` and `updatedAt` for the two
      timestamps, `random36` and `now36` for the id's base-36 parts and
      `tokenDraws` for the invite token. An invalid form changes only the
      errors; a valid one adds the new event to the store, which makes it
      the current event, and shows it as created. */
    method HandleSubmit(now: int, random36: string, now36: string, tokenDraws: seq<real>,
                        createdAt: int, updatedAt: int)
      requires |tokenDraws| == InviteTokenLength && AreRandomDraws(tokenDraws)
      modifies this`errors, this`createdEvent, store`events, store`currentEvent
      ensures DescribesErrors(errors, formData, now)
      ensures !FormValid(formData, now) ==>
                createdEvent == old(createdEvent) && store.events == old(store.events)
                && store.currentEvent == old(store.currentEvent)
      ensures FormValid(formData, now) ==>
                createdEvent.Some?
                && var e := createdEvent.value;
                   e == BuildEvent(formData, GenerateEventId(random36, now36), e.inviteToken,
                                   createdAt, updatedAt)
                   && |e.inviteToken| == InviteTokenLength
                   && (forall i :: 0 <= i < |e.inviteToken| ==>
                         e.inviteToken[i] == TokenAlphabet[AlphabetIndex(tokenDraws[i])])
                   && store.events == old(store.events) + [e]
                   && store.currentEvent == Some(e)
    {
      var ok := ValidateForm(now);
      if !ok {
        return;
      }
      var id := GenerateEventId(random36, now36);
      var token := GenerateInviteToken(tokenDraws);
      var newEvent := BuildEvent(formData, id, token, createdAt, updatedAt);
      store.AddEvent(newEvent);
      createdEvent := Some(newEvent);
    }
  }
}
