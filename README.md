# EventShare core in Dafny

EventShare lets an organizer open a time-boxed, token-gated collection point
where guests upload photos. This project models the parts of the repository
that hold logic:

- **Validation and time utilities** (`utils/helpers.ts`): `validateFile`, the
  upload-window test, the countdown split, and id and token generation.
- **The event store** (`store/eventStore.ts`): a class whose actions replace
  some of its fields. Each action's `modifies` clause names exactly the
  fields the source's `set` call replaces.
- **Batch screening in the upload zone** (`components/FileUploadZone.tsx`).
  It has one batch-level error for too many files and one "name: reason"
  entry per rejected file. Accepted files are handed on in order. The drag
  and drop guards are modelled too.
- **The consent banner** (`components/ConsentBanner.tsx`). It has three
  independent checkboxes. The proceed button is offered only when all three
  are ticked, and the compact variant has only a details toggle.
- **The create-event form** (`pages/admin/index.tsx`). `validateForm` fills
  an error map step by step, and a later check overwrites an earlier message
  for the same field. `handleSubmit` builds the event and adds it to the
  store.

Files:

| file | contents |
|---|---|
| `wrappers.dfy` | the `Option` type |
| `text.dfy` | decimal rendering, `toFixed(2)`, `split`/`join`, ASCII upper case, `trim` |
| `seqs.dfy` | `Array.prototype.filter` and its laws |
| `types.dfy` | the records of `types/index.ts` and the object spread used by `updateEvent` |
| `helpers.dfy` | `utils/helpers.ts` |
| `event_store.dfy` | `store/eventStore.ts` |
| `file_upload_zone.dfy` | `components/FileUploadZone.tsx` |
| `consent_banner.dfy` | `components/ConsentBanner.tsx` |
| `create_event.dfy` | `pages/admin/index.tsx` |

How the model represents the source:

- **Time and sizes.** Time is whole milliseconds since the epoch. File sizes
  are whole bytes.
- **Inputs and clocks.** The current time, each `Math.random()` draw (a real
  in [0, 1)), and the base-36 renderings of a random number and of the clock
  are parameters.
- **Callbacks.** A React callback (`onFilesSelected`, `onConsentGiven`)
  becomes a method result.
- **Date fields.** A `datetime-local` form field is `None` when empty and
  `Some(ms)` otherwise. Every comparison with `None` is false, as every
  comparison with an invalid `Date` is.

What the modelled code does, stated plainly:

- `handleFiles` (components/FileUploadZone.tsx:30-56) itself checks neither
  consent nor the upload window. The guest page that uses the zone renders
  it only when consent is given and the window is open; that page is not
  part of this model (see "## Left out").
- `handleFiles` validates every file, also past the `maxFiles` cap, and
  delivers every valid one (components/FileUploadZone.tsx:36-47).
- `validateForm` rejects a deadline after the event date
  (pages/admin/index.tsx:44-45).
- The store does not keep `eventUploads` equal to the current event's share
  of `uploads`. The model states this relation as a predicate (`InSync`),
  not as an invariant. It proves exactly when `addUpload` preserves the
  relation, and gives inputs for which `addEvent` and `setEventUploads`
  break it.

## Model

| member | source | states |
|---|---|---|
| Text.NatToString | components/FileUploadZone.tsx:37 | a number interpolated into a template literal renders as a non-empty string of digits, with no leading zero unless the number is 0 |
| Text.ParseNatToString | utils/helpers.ts:58 | reading back the decimal rendering of a number gives that number |
| Text.FixedTwo | utils/helpers.ts:58-60 | `toFixed(2)` of a value in hundredths gives its integer part, a '.', then exactly two digits that spell the remainder mod 100 |
| Text.JoinSplit | utils/helpers.ts:48 | joining the pieces of `split(sep)` with `sep` gives back the string |
| Text.SecondPiece | utils/helpers.ts:48 | `t.split('/')[1]` exists exactly when `t` contains a '/' |
| Text.UpperChar | utils/helpers.ts:48 | an ASCII lower-case letter becomes its upper-case letter, 32 code points lower; every other character is unchanged |
| Text.ToUpper | utils/helpers.ts:48 | `toUpperCase` keeps the length and upper-cases each character in its place |
| Text.Split | utils/helpers.ts:48 | `String.prototype.split` on a one-character separator: at least one piece, no piece contains the separator |
| Text.Join | utils/helpers.ts:49 | `Array.prototype.join`: the pieces with the separator between each two |
| Text.IsJsWhitespace | pages/admin/index.tsx:26-27 | the characters `trim()` removes: the ECMAScript white space and line terminators |
| Text.Trim | pages/admin/index.tsx:26-27 | `trim()`: leading then trailing white space removed |
| Text.IsBlank | pages/admin/index.tsx:26-27 | a text is blank when every character is white space |
| Text.TrimEmptyIffBlank | pages/admin/index.tsx:26-27 | `trim()` gives the empty string exactly when every character is white space |
| Seqs.Filter | store/eventStore.ts:68 | `Array.prototype.filter`: no longer than the list, and an element is kept exactly when it is in the list and passes |
| Seqs.FilterAppend | store/eventStore.ts:68 | filtering a concatenation is the concatenation of the filtered parts |
| Seqs.FilterSnoc | store/eventStore.ts:77-78 | filtering a list extended by one element adds that element exactly when it passes |
| Seqs.FilterAllKept | store/eventStore.ts:68 | a list whose every element passes is kept whole |
| Seqs.FilterPartition | components/FileUploadZone.tsx:40-47 | a test and its negation split a list: the two filtered lengths add up to its length |
| Types.Merge | store/eventStore.ts:59 | `{ ...e, ...patch }`: an empty patch changes nothing; the id and the active flag come from the patch when it gives them and from the event otherwise |
| Helpers.Substring | utils/helpers.ts:3 | `substring` with clamped ends is no longer than the string and than the span of its ends |
| Helpers.GenerateId | utils/helpers.ts:2-4 | an id is the random part without its first two characters, followed by the clock part |
| Helpers.GenerateEventId | utils/helpers.ts:6-11 | an event id starts with "evt_", ends with the upper-cased clock part, and has at most six random characters between them |
| Helpers.AlphabetIndex | utils/helpers.ts:18 | `Math.floor(draw * 62)` of a draw in [0, 1) is a valid alphabet position |
| Helpers.GenerateToken | utils/helpers.ts:13-21 | the token has the requested length; each character is the alphabet character its random draw selects |
| Helpers.GenerateInviteToken | utils/helpers.ts:23-25 | an invite token has 20 characters, all from the 62-character alphabet |
| Helpers.UpperSubtypes | utils/helpers.ts:47-49 | each allowed type maps, in order, to its part after '/' in upper case |
| Helpers.TypeError | utils/helpers.ts:47-49 | the type-error message: the fixed German prefix, then the upper-cased subtypes joined by ", " |
| Helpers.HundredthsOfMb | utils/helpers.ts:54-60 | the result is the number of hundredths of a megabyte nearest to the size, a tie rounding up |
| Helpers.SizeError | utils/helpers.ts:58-60 | the size-error message: the limit in MB and the file's size in MB to two decimals |
| Helpers.Acceptable | utils/helpers.ts:44-55 | the independent statement of a valid file: its type is allowed and its size is at most `maxSizeMb` MB |
| Helpers.ValidateFile | utils/helpers.ts:38-65 | valid exactly when the type is allowed and the size is at most `maxSizeMb` MB; valid exactly when no error is given; a disallowed type gives the type error, otherwise an oversized file gives the size error |
| Helpers.TypeCheckFirst | utils/helpers.ts:44-51 | a file of a disallowed type gets the type error even when it is also too large |
| Helpers.SizeLimitBoundary | utils/helpers.ts:54-62 | a file of exactly `maxSizeMb` MB passes, and one byte more gets the size error |
| Helpers.DefaultTypeError | utils/helpers.ts:28-34 | with the default types, the type error lists "JPEG, PNG, WEBP, GIF, HEIC" |
| Helpers.IsUploadWindowOpen | utils/helpers.ts:78-84 | the window is open exactly when start <= now <= deadline, both ends included |
| Helpers.GetTimeRemaining | utils/helpers.ts:86-106 | expired exactly when the deadline is not after now, and then every part is zero; otherwise hours < 24, minutes < 60 and seconds < 60 |
| Helpers.TimeRemainingAddsUp | utils/helpers.ts:100-105 | before the deadline, days*86400 + hours*3600 + minutes*60 + seconds equals the whole seconds left |
| Helpers.IsShownActive | components/EventCard.tsx:18 | a card shows an event as active exactly when its flag is set and now is before its deadline |
| Store.UpdateMatching | store/eventStore.ts:59 | same length and order; every event with the id is merged with the patch, and every other event is unchanged |
| Store.WithoutId | store/eventStore.ts:68 | `events.filter(e => e.id !== id)` |
| Store.UploadsOf | store/eventStore.ts:13 | the current event's share of the uploads, in order |
| Store.InSync | store/eventStore.ts:13 | the view holds exactly the current event's uploads; the store does not maintain this |
| Store.DeleteRemovesExactly | store/eventStore.ts:68 | after deleting, an event is present exactly when it was present and has another id |
| Store.DeleteKeepsOrder | store/eventStore.ts:68 | deleting from a concatenation deletes from each part, so the survivors keep their order |
| Store.DeleteAbsentId | store/eventStore.ts:68 | deleting an id that no event has changes nothing |
| Store.AddUploadKeepsSync | store/eventStore.ts:75-79 | when `eventUploads` is the current event's share of `uploads`, adding an upload keeps it so exactly when the upload belongs to the current event |
| Store.SetEventUploadsCanBreakSync | store/eventStore.ts:81 | replacing the view can make it disagree with `uploads` |
| Store.AddEventCanBreakSync | store/eventStore.ts:51-55 | making a new event current can make the view disagree with `uploads` |
| Store.EventStore.constructor | store/eventStore.ts:36-44 | the initial state: empty lists, no current event, no sessions, no error, not loading |
| Store.EventStore.SetCurrentEvent | store/eventStore.ts:47 | replaces the current event only |
| Store.EventStore.SetAdminSession | store/eventStore.ts:49 | replaces the admin session only |
| Store.EventStore.AddEvent | store/eventStore.ts:51-55 | appends the event at the end and makes it current; nothing else changes |
| Store.EventStore.UpdateEvent | store/eventStore.ts:57-64 | merges the patch into the matching events, and into the current event only when its id matches |
| Store.EventStore.DeleteEvent | store/eventStore.ts:66-70 | removes the events with the id, and clears the current event exactly when its id matches; uploads stay |
| Store.EventStore.SetGuestSession | store/eventStore.ts:73 | replaces the guest session only |
| Store.EventStore.AddUpload | store/eventStore.ts:75-79 | appends the same upload to both lists, whatever its event, and preserves the view relation exactly when the upload belongs to the current event |
| Store.EventStore.SetEventUploads | store/eventStore.ts:81 | replaces `eventUploads` only |
| Store.EventStore.SetIsLoading | store/eventStore.ts:84 | replaces the loading flag only |
| Store.EventStore.SetError | store/eventStore.ts:86 | replaces the error only |
| Store.EventStore.ClearStore | store/eventStore.ts:88-97 | empties every list and clears the current event, the sessions and the error; the loading flag is untouched |
| Store.ClearStoreTwice | store/eventStore.ts:88-97 | clearing twice leaves the store as clearing once, with the loading flag kept |
| FileUpload.TooManyFilesError | components/FileUploadZone.tsx:37 | the batch-level message "Maximum {maxFiles} Dateien erlaubt" |
| FileUpload.AcceptedFiles | components/FileUploadZone.tsx:42-43 | the valid files of a batch, in order |
| FileUpload.RejectedFiles | components/FileUploadZone.tsx:44-46 | the invalid files of a batch, in order |
| FileUpload.FileError | components/FileUploadZone.tsx:45 | a per-file entry is the file name, ": ", then the reason |
| FileUpload.FileErrors | components/FileUploadZone.tsx:40-46 | one "name: reason" entry per rejected file, in the batch's order |
| FileUpload.BatchErrors | components/FileUploadZone.tsx:36-46 | the too-many message when the batch is over the cap, followed by the per-file entries |
| FileUpload.FileErrorsCount | components/FileUploadZone.tsx:44-46 | each rejected file adds exactly one error entry |
| FileUpload.ScreenFiles | components/FileUploadZone.tsx:33-47 | the collected files are the order-preserving filter of the batch by validity; the errors are the too-many message (when over the cap), then one "name: reason" per rejected file, in order |
| FileUpload.ScreenStep | components/FileUploadZone.tsx:40-47 | screening one more file appends it to the accepted files or its entry to the errors |
| FileUpload.AcceptedStep | components/FileUploadZone.tsx:42-43 | one more file extends the accepted files by itself when valid and by nothing otherwise |
| FileUpload.ErrorsStep | components/FileUploadZone.tsx:44-46 | the errors of a batch are those of all but its last file, then the last file's entry when it is rejected |
| FileUpload.CanScreenPrefix | components/FileUploadZone.tsx:40-41 | every prefix of a batch that can be validated without throwing can be validated too |
| FileUpload.BatchErrorCount | components/FileUploadZone.tsx:36-49 | the error count is (1 when over the cap, else 0) plus the rejected files; accepted and rejected files together make up the batch |
| FileUpload.OverCapStillDelivered | components/FileUploadZone.tsx:36-47 | over the cap, the errors start with the too-many message, and a valid file past the cap is still delivered |
| FileUpload.FileUploadZone.constructor | components/FileUploadZone.tsx:13-28 | a zone holds its props, is not dragging and has no errors |
| FileUpload.FileUploadZone.WithDefaults | components/FileUploadZone.tsx:15-25 | the defaults are the five image types, 50 MB, 20 files, enabled and not uploading |
| FileUpload.FileUploadZone.HandleFiles | components/FileUploadZone.tsx:30-56 | replaces the errors with the batch's errors; the callback fires exactly when some file is valid, and receives exactly the valid files |
| FileUpload.FileUploadZone.Enabled | components/FileUploadZone.tsx:61 | the zone reacts to drags and drops only when neither disabled nor uploading |
| FileUpload.FileUploadZone.HandleDragOver | components/FileUploadZone.tsx:58-64 | dragging starts only when the zone is neither disabled nor uploading |
| FileUpload.FileUploadZone.HandleDragLeave | components/FileUploadZone.tsx:66-70 | leaving ends dragging |
| FileUpload.FileUploadZone.HandleDrop | components/FileUploadZone.tsx:72-80 | a drop ends dragging; on a disabled or uploading zone nothing else happens, otherwise the batch is screened |
| FileUpload.FileUploadZone.HandleInputChange | components/FileUploadZone.tsx:82-86 | picked files are screened; no file list changes nothing |
| Consent.ConsentBanner.constructor | components/ConsentBanner.tsx:15-18 | all three consent flags and the details flag start false |
| Consent.ConsentBanner.AllConsentGiven | components/ConsentBanner.tsx:20 | `allConsentGiven`: the privacy, image-rights and processing flags are all set |
| Consent.ConsentBanner.Controls | components/ConsentBanner.tsx:22-162 | the compact banner offers only its details link; the full banner offers the three checkboxes, and the proceed button exactly when it is shown |
| Consent.ConsentBanner.Shown | components/ConsentBanner.tsx:20-58 | the compact banner shows only the notice with its details flag; the full banner shows the proceed button exactly when all three flags are set, and the "accept all" notice otherwise |
| Consent.ConsentBanner.OnPrivacyChange | components/ConsentBanner.tsx:76 | the privacy flag follows the checkbox, including on unticking; the other flags are untouched |
| Consent.ConsentBanner.OnRightsChange | components/ConsentBanner.tsx:99 | the image-rights flag follows the checkbox; the other flags are untouched |
| Consent.ConsentBanner.OnConsentChange | components/ConsentBanner.tsx:121 | the processing-consent flag follows the checkbox; the other flags are untouched |
| Consent.ConsentBanner.ToggleDetails | components/ConsentBanner.tsx:29 | the compact banner's link flips the details |
| Consent.ConsentBanner.OnProceed | components/ConsentBanner.tsx:147-154 | the proceed button is pressable only when all three flags are set, and pressing it reports consent |
| Consent.ProceedOfferedIff | components/ConsentBanner.tsx:22-58 | the proceed button is offered exactly when the banner is full and all three flags are set; the compact banner offers only the details link |
| Consent.UncheckRevokes | components/ConsentBanner.tsx:147-162 | the full banner always offers all three boxes, and with any box unticked it shows the "accept all" notice |
| Consent.TickAllThenProceed | components/ConsentBanner.tsx:76-154 | ticking the three boxes of a full banner brings up the proceed button, which then reports consent |
| Consent.UntickAfterAll | components/ConsentBanner.tsx:99 | unticking one box after all three were ticked withdraws the button and keeps the other two ticks |
| AdminCreate.AtMost | pages/admin/index.tsx:39-43 | `a <= b` on dates, false when either date is invalid |
| AdminCreate.After | pages/admin/index.tsx:44 | `a > b` on dates, false when either date is invalid |
| AdminCreate.ErrorFor | pages/admin/index.tsx:26-45 | per field, the message the last firing check leaves |
| AdminCreate.FormValid | pages/admin/index.tsx:26-45 | a submittable form, stated without the map: non-blank texts, all dates given, event and start after now, start < deadline <= event date |
| AdminCreate.RequiredChecks | pages/admin/index.tsx:26-31 | the first five checks put a "erforderlich" message under exactly the fields that are blank or empty |
| AdminCreate.ComparisonChecks | pages/admin/index.tsx:39-45 | the date comparisons overwrite the message of each field they fire for, and keep every other entry |
| AdminCreate.CollectErrors | pages/admin/index.tsx:23-48 | the error map holds exactly the fields with a message, with the last message written; it is empty exactly when the form is valid |
| AdminCreate.LaterWriteWins | pages/admin/index.tsx:28-45 | a field's message is its comparison message when one fires, and its "erforderlich" message otherwise |
| AdminCreate.NoErrorsIffValid | pages/admin/index.tsx:47-48 | no field has a message exactly when both texts are non-blank, all dates are given, the event and the start lie after now, and start < deadline <= event date |
| AdminCreate.BlankTextRequired | pages/admin/index.tsx:26-27 | an empty or white-space-only name or e-mail gets its "erforderlich" message |
| AdminCreate.PastDatesRejected | pages/admin/index.tsx:39-41 | an event date not strictly after now gets the "in der Zukunft" message, and so, independently of the event date, does an upload start not strictly after now |
| AdminCreate.DeadlineLaterWriteWins | pages/admin/index.tsx:42-45 | a deadline that is both not after the start and after the event keeps only "vor oder am Event-Datum" |
| AdminCreate.EmptyDateOnlyRequired | pages/admin/index.tsx:28-45 | an empty date field gets only its "erforderlich" message, and no comparison message comes from comparing with it |
| AdminCreate.BuildEvent | pages/admin/index.tsx:56-77 | the new event is active, has no downloads, the five image types and the form's size limit, texts and dates; an empty description becomes absent, any other description (white space included) is kept |
| AdminCreate.CreatedEventWellOrdered | pages/admin/index.tsx:39-45 | an event built from a valid form has now < start < deadline <= event date, so its window is closed at creation and open exactly from start through deadline |
| AdminCreate.CreateEventPage.constructor | pages/admin/index.tsx:10-21 | the form starts with empty texts and dates and 50 MB, with no errors and no created event |
| AdminCreate.CreateEventPage.SetFormData | pages/admin/index.tsx:190 | an input's change replaces the form |
| AdminCreate.CreateEventPage.ValidateForm | pages/admin/index.tsx:23-49 | stores the error map and answers true exactly when it has no keys, that is exactly when the form is valid |
| AdminCreate.CreateEventPage.HandleSubmit | pages/admin/index.tsx:51-81 | an invalid form changes only the errors and does not touch the store; a valid form adds the built event (generated id, 20-character invite token) once at the end of the store's events, makes it current and records it as created |

## Left out

- `formatFileSize`: it rests on `Math.log`, `Math.pow` and floating-point rounding.
- `formatDate` and `formatDateShort`: they wrap `Intl.DateTimeFormat`.
- `validateEmail`: a regular expression that would need a regex-engine model. The owner e-mail is checked only for being non-blank, as the form does.
- `getInviteUrl` and `getAdminDashboardUrl`: their base depends on `window` and `process.env`.
- The GDPR text constants: static text with no behaviour.
- The zustand `create` machinery and subscriber notification: the store is a plain class.
- JSX rendering, CSS classes, the clipboard, history and link routing: they are layout. So are `pages/index.tsx`, `pages/_document.tsx`, `components/Header.tsx`, `components/Gallery.tsx` (a grid and a lightbox for one selected image, whose delete button only calls `onDelete`), and `components/EventCard.tsx` apart from its active badge (`Helpers.IsShownActive`).
- The event dashboard `pages/admin/[eventId].tsx` is not part of this model. It shows `store.currentEvent` whatever that event's id, and looks the URL's id up in `store.events` only when there is no current event (`pages/admin/[eventId].tsx`:27-31). It lists `store.eventUploads` without filtering them by event (:36) and sums their sizes (:58). Deleting an upload there removes it from the page's local list only, never from the store (:66-67).
- The guest page `pages/event/[token].tsx` is not part of this model. It is what gates uploads: it renders the upload zone only when consent is given and the upload window is open (`pages/event/[token].tsx`:59, 165, 204), and its `handleFilesSelected` refuses files without consent (:62-65). It builds one `Upload` record per delivered file and appends them to the store's view with `setEventUploads` (:76-93), after a simulated delay; the record construction, the delay and that page's state are left out.
- Helpers.GenerateId, Helpers.GenerateEventId, Helpers.GenerateToken: the randomness and the clock are parameters. Nothing is claimed about the uniqueness of ids or tokens.
- Helpers.GenerateToken: the default length of 16 is only a constant, because every call in the modelled code passes a length.
- Helpers.AlphabetIndex: the product `draw * 62` is exact real arithmetic, not a double.
- Helpers.GetTimeRemaining: its divisions are integer divisions. For a positive integer difference they agree with the source's floating-point `Math.floor` of a quotient or remainder.
- Text.ToUpper: it upper-cases ASCII letters only. JavaScript's full Unicode case mapping is not modelled. The MIME subtypes it is applied to are ASCII.
- Helpers.ValidateFile: sizes and limits are whole numbers. A fractional or NaN `maxSizeMb` is not modelled.
- Helpers.ValidateFile: its precondition (the file's type is allowed, or every allowed type contains a '/') is the condition under which the source does not throw on `t.split('/')[1].toUpperCase()`. A throwing call is not modelled.
- FileUpload.ScreenFiles: carries the same no-throw condition for every file of the batch (`CanScreen`); a batch on which `validateFile` throws is not modelled.
- FileUpload.FileUploadZone.HandleFiles: the same `CanScreen` precondition as `ScreenFiles`.
- FileUpload.FileUploadZone.HandleDrop: the same `CanScreen` precondition as `ScreenFiles`.
- FileUpload.FileUploadZone.HandleInputChange: the same `CanScreen` precondition as `ScreenFiles`, on a present file list.
- FileUpload.FileUploadZone: the props are constants of the object, because the component does not change them.
- FileUpload.FileUploadZone: a disabled zone also disables its file input in the DOM. That is not modelled, so `HandleInputChange` is not guarded.
- AdminCreate.FormData: the text of a `datetime-local` field is abstracted to `None` (empty) or its parsed time. The parsing itself is left out.
- AdminCreate.FormData: `maxFileSize` is whatever the range input gives. Its 1..100 bounds are enforced by the browser, not by the code.
- AdminCreate.CreateEventPage.HandleSubmit: the three `new Date()` readings (validation, `createdAt` and `updatedAt`) are separate parameters.
- The owner e-mail shown by the consent banner is display only, so it is not modelled.
- `UserConsent`, `DownloadExport`, `EventStats` and `ApiResponse`: the modelled code gives them no behaviour.
