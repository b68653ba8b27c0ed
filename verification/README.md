# DailyBox submission planner

A Dafny model of the persistence logic of one day cell (`DailyBox`) of the
wonder-box calendar front end. The cell holds a draft of four content fields
(image URL, video URL, message text, audio). On submit, it does one of two things:

- **Guest mode** (no signed-in user): it writes an entry into the calendar
  aggregate kept in device storage, at the cell's index of the sparse
  `dailyBoxes` array.
- **Signed-in mode**: it sends one request to the calendar's daily-boxes
  resource. Then it copies the response content back into the draft, or
  stores an error message.

The model treats the handler as a pure planner. `Submission.Submit` takes:

- the view state (draft, modal flag, error text);
- the cell's props;
- the environment: signed-in flag, stored access token, `calendarId` route
  parameter, `Date.now()`, and the date helpers `plusDay` and `formatDate`,
  which are left uninterpreted;
- device storage, already JSON-parsed;
- the server's reply: either a thrown error or an `ok` flag with the parsed body.

It returns the new view, the new storage, the ordered trace of effects and
whether the handler's promise settles or rejects. The effects are: close
modal, storage write, navigate, send request, and signal form validity.

JavaScript values that may be `undefined`, `null` or a string are
`JsValues.Nullable<string>`. So `x || ''` and `${x}` are modelled exactly,
on strings, `undefined` and `null`.
For example, a missing `dailyBoxId` is rendered into the item URL as
`undefined`.

Modules: `Wrappers` (Option/Result), `JsValues` (truthiness, `|| ''`, template
rendering), `Decimal` (`Date.now().toString()`), `SparseArray` (`a[n] = v` on a
sparse array), `Content` (draft, snapshot, normalisation, reconciliation,
hydration), `Requests` (endpoint, method and body), `Submission` (the
handler), `SubmissionProperties` (properties stated over whole submissions).

The model follows the code as written, including these behaviours:

- The code sends the full body to the collection URL when an id is known. It
  sends `{content}` to the item URL when no id is known. The dead
  `dailyBoxId ? 'PUT' : 'POST'` ternary at line 96 points to the reverse;
  this is the one departure from intent the model claims, and "## Findings"
  gives both the written and the corrected routing.
- In guest mode, a missing aggregate throws (`JSON.parse(null).dailyBoxes`).
  It is not treated as an empty aggregate.
- A missing token navigates to `/notfound` but does not stop the handler. The
  request is still sent, with `Bearer null`.
- A non-ok response navigates away, but the handler then still reads
  `data.content`. If content is present, it is copied into the draft and
  validity is signalled. If it is absent, the resulting TypeError is caught
  and its text becomes `error`.
- Hydration copies only the image and the text. Video and audio keep their
  state.

## Model

| member | source | states |
|---|---|---|
| JsValues.OrEmpty | src/components/DailyBox/DailyBox.jsx:62-65 | defaulting a cell to `''` yields the string itself when it is non-empty, and `''` exactly when the cell is undefined, null or empty |
| JsValues.Render | src/components/DailyBox/DailyBox.jsx:133 | a template literal renders a string as itself, undefined as `undefined`, null as `null` |
| Decimal.ToDecimal | src/components/DailyBox/DailyBox.jsx:75 | the rendering of `Date.now()` is a non-empty digit string with no leading zero |
| Decimal.ValueOfToDecimal | src/components/DailyBox/DailyBox.jsx:75 | reading back the rendered timestamp gives the timestamp |
| Decimal.ToDecimalInjective | src/components/DailyBox/DailyBox.jsx:75 | distinct timestamps give distinct guest entry ids |
| SparseArray.Write | src/components/DailyBox/DailyBox.jsx:80 | after `a[n] = v`, index n holds v, every other old index is unchanged, the new indices between the old end and n are holes, and the length is max(old length, n+1) |
| SparseArray.WriteMatchesReference | src/components/DailyBox/DailyBox.jsx:80 | the recursive write equals an element-wise reference definition |
| SparseArray.WriteOverwrites | src/components/DailyBox/DailyBox.jsx:80 | a second write at the same index replaces the first completely |
| SparseArray.WritesCommute | src/components/DailyBox/DailyBox.jsx:80 | writes at distinct indices commute |
| Content.InitialDraft | src/components/DailyBox/DailyBox.jsx:22-26 | a fresh cell has empty image and video, the placeholder message and a null audio |
| Content.Normalise | src/components/DailyBox/DailyBox.jsx:61-66 | every snapshot field is a string: the draft value when it is a non-empty string, `''` otherwise (both directions) |
| Content.InitialSnapshot | src/components/DailyBox/DailyBox.jsx:25 | submitting a fresh cell sends the placeholder and three empty strings; the null audio becomes `''` |
| Content.AsPayload | src/components/DailyBox/DailyBox.jsx:103 | a snapshot serialises to a content object whose four fields are all present strings |
| Content.Reconcile | src/components/DailyBox/DailyBox.jsx:120-125 | text, image, video and audio of the response replace message, image, video and audio one-to-one, with no defaulting |
| Content.EchoReconciles | src/components/DailyBox/DailyBox.jsx:155-160 | when the server echoes the snapshot it was sent, the reconciled draft normalises back to that snapshot |
| Content.ReconcileForgetsDraft | src/components/DailyBox/DailyBox.jsx:155-160 | the reconciled draft does not depend on the draft before it |
| Content.ReadError | src/components/DailyBox/DailyBox.jsx:44 | reading a field of missing content throws a TypeError with a non-empty message |
| Content.Hydrate | src/components/DailyBox/DailyBox.jsx:42-47 | with existing data, image and message become its image and text with `''` defaults while video and audio are kept; without data nothing changes; data without content throws |
| Content.HydrateIdempotent | src/components/DailyBox/DailyBox.jsx:42-47 | running the effect again on the same record changes nothing |
| Content.HydrateThenNormalise | src/components/DailyBox/DailyBox.jsx:42-47 | after hydration the snapshot's image and text come from the record, and its video and audio from the earlier draft |
| Requests.Route | src/components/DailyBox/DailyBox.jsx:92-142 | the method is always PUT; a truthy id gives the collection URL with `{date, content, isOpen: false}`; a falsy id gives the item URL with exactly `{content}`; the body is full if and only if the id is truthy |
| Requests.CollectionUrl | src/components/DailyBox/DailyBox.jsx:94 | the collection URL starts with the base URL and a slash and ends with `/daily-boxes`, with the rendered calendar id in between |
| Requests.ItemUrl | src/components/DailyBox/DailyBox.jsx:133 | the item URL is the collection URL, a slash, then exactly the rendered `dailyBoxId` (so `undefined` or `null` for a missing record) |
| Requests.Bearer | src/components/DailyBox/DailyBox.jsx:99 | the header is `Bearer ` followed by the rendered token, `null` when none is stored |
| Requests.RouteIntended | src/components/DailyBox/DailyBox.jsx:96 | corrected routing: a known id gets a PUT of `{content}` to its item URL; an unknown id gets a POST of the full body to the collection URL |
| Requests.RouteIgnoresKnownId | src/components/DailyBox/DailyBox.jsx:93-94 | as written, two different known ids produce the same request |
| Requests.RouteUnknownIdTargetsUndefined | src/components/DailyBox/DailyBox.jsx:132-135 | as written, an absent record leads to a PUT of `{content}` to `.../daily-boxes/undefined` |
| Requests.RouteIntendedSeparatesRecords | src/components/DailyBox/DailyBox.jsx:132-133 | with the corrected routing, distinct known ids reach distinct URLs |
| Requests.RoutingsShareContentAndCredential | src/components/DailyBox/DailyBox.jsx:92-142 | both routings carry the same content and credential but never target the same URL |
| Submission.Days | src/components/DailyBox/DailyBox.jsx:37-38 | a truthy anchor resolves through `plusDay(anchor, index)`; a falsy anchor passes through as itself |
| Submission.UserDays | src/components/DailyBox/DailyBox.jsx:37 | the signed-in date is `plusDay(startDate, index)` for a truthy `startDate`, else `startDate` itself |
| Submission.LocalDays | src/components/DailyBox/DailyBox.jsx:38 | the guest date is `plusDay(localStartDate, index)` for a truthy `localStartDate`, else `localStartDate` itself |
| Submission.DailyBoxId | src/components/DailyBox/DailyBox.jsx:40 | the id is the record's `_id` when a record exists, otherwise the falsy record value itself |
| Submission.ErrorText | src/components/DailyBox/DailyBox.jsx:163-167 | the shown error is never empty: it is the error's message when that is non-empty, otherwise the fixed default text |
| Submission.DestructureError | src/components/DailyBox/DailyBox.jsx:155 | destructuring a missing `data.content` throws a TypeError whose message is non-empty and differs from the default text |
| Submission.GuestEntry | src/components/DailyBox/DailyBox.jsx:74-79 | the guest entry's id is a digit string that reads back as `Date.now()`; its date is the device-anchored date, its content the snapshot, and `isOpen` is false |
| Submission.BoxesOf | src/components/DailyBox/DailyBox.jsx:73 | a guest write starts from the stored `dailyBoxes` array when there is one, else from `[]` |
| Submission.GuestWrite | src/components/DailyBox/DailyBox.jsx:72-82 | it fails exactly when no aggregate is stored; on success only that calendar's entry changes: its other keys are kept and its `dailyBoxes` is the sparse write at the index |
| Submission.GuestSubmit | src/components/DailyBox/DailyBox.jsx:70-84 | the guest branch keeps the view, emits only storage effects after closing the modal, keeps the set of stored calendars, rejects exactly when the calendar id is truthy and nothing is stored under it, and changes storage only in that calendar's case |
| Submission.Guard | src/components/DailyBox/DailyBox.jsx:87-89 | a missing or empty token adds exactly one `/notfound` navigate without state; a truthy token adds nothing |
| Submission.RequestFor | src/components/DailyBox/DailyBox.jsx:92-142 | under either routing the request carries the `Bearer` header of the token and the snapshot; its body is the full one exactly when the written routing meets a known id or the corrected routing an unknown one, and a full body is dated `formatDate(Date.now().toString())` and closed |
| Submission.Sent | src/components/DailyBox/DailyBox.jsx:86-107 | before the reply, the signed-in trace is close-modal, the token guard if any, then the request |
| Submission.Refusal | src/components/DailyBox/DailyBox.jsx:111-118 | a refusal navigate, carrying the reply's message and status, is emitted exactly when the reply is a non-ok response |
| Submission.Tail | src/components/DailyBox/DailyBox.jsx:109-126 | after the request: nothing when the call threw; otherwise exactly the refusal navigate if any, followed by the validity signal exactly when the reply carried content, and nothing else |
| Submission.Settle | src/components/DailyBox/DailyBox.jsx:120-168 | a thrown error sets `error` to its message or the default; a reply with content replaces the draft one-to-one; a reply without content sets `error` to the TypeError text; the modal flag is kept |
| Submission.UserSubmit | src/components/DailyBox/DailyBox.jsx:86-169 | the signed-in branch never touches storage and always settles; its trace is the sent prefix followed by the reply's tail, and its view is the settled view |
| Submission.Submit | src/components/DailyBox/DailyBox.jsx:58-170 | the modal is closed first and stays closed; guest mode sends nothing and keeps the draft and error; signed-in mode never touches storage and always settles |
| Submission.SubmitCorrected | src/components/DailyBox/DailyBox.jsx:92-142 | the handler with corrected routing: a known id gives an item-URL update with `{content}`, an unknown id gives a collection-URL POST with the full body |
| SubmissionProperties.GuestWriteShape | src/components/DailyBox/DailyBox.jsx:70-84 | index n of the stored `dailyBoxes` gets `{id: now, date: localDays, content: snapshot, isOpen: false}`; other indices, other aggregate keys and other calendars are unchanged; the length is max(old, n+1) |
| SubmissionProperties.GuestMissingAggregateRejects | src/components/DailyBox/DailyBox.jsx:72-73 | with no stored aggregate the handler rejects, storage is unchanged and only the modal has closed |
| SubmissionProperties.GuestWithoutCalendarIsNoop | src/components/DailyBox/DailyBox.jsx:71 | a guest without a calendar id only closes the modal |
| SubmissionProperties.GuestIgnoresReply | src/components/DailyBox/DailyBox.jsx:70-84 | guest mode does not depend on any server reply |
| SubmissionProperties.GuestIdsFresh | src/components/DailyBox/DailyBox.jsx:75 | guest submissions at different instants store different entry ids |
| SubmissionProperties.GuestResubmitOverwrites | src/components/DailyBox/DailyBox.jsx:80 | resubmitting a cell leaves the same storage as the second submission alone |
| SubmissionProperties.GuestCellsCommute | src/components/DailyBox/DailyBox.jsx:72-82 | guest submissions of two different cells of one calendar commute, at whatever instants each happens |
| SubmissionProperties.UserKnownIdRequest | src/components/DailyBox/DailyBox.jsx:92-106 | a truthy id sends a PUT to `/calendars/{calendarId}/daily-boxes` with `{formatDate(now), snapshot, false}` |
| SubmissionProperties.UserUnknownIdRequest | src/components/DailyBox/DailyBox.jsx:127-142 | a falsy id sends a PUT to `/calendars/{calendarId}/daily-boxes/{dailyBoxId}` with exactly `{content: snapshot}` |
| SubmissionProperties.MissingTokenDoesNotAbort | src/components/DailyBox/DailyBox.jsx:86-91 | a missing token navigates to `/notfound` and the request is still sent; with a token the request comes straight after closing the modal |
| SubmissionProperties.ContentReplyReconciles | src/components/DailyBox/DailyBox.jsx:109-126 | a reply with content overwrites the draft one-to-one and ends with the validity signal, even after a refusal navigate that carries the reply's message and status; the error text is kept |
| SubmissionProperties.ThrownErrorSetsMessage | src/components/DailyBox/DailyBox.jsx:163-168 | a thrown error sets the error text (its message, else the default), keeps the draft, and nothing happens after the request |
| SubmissionProperties.RefusedWithoutContent | src/components/DailyBox/DailyBox.jsx:144-155 | a refused reply without content navigates with its message and status, then the caught TypeError's text becomes the error; the draft is kept and no validity is signalled |
| SubmissionProperties.AcceptedWithoutContent | src/components/DailyBox/DailyBox.jsx:109-120 | an ok reply without content sets the error to the TypeError text, keeps the draft, signals no validity and ends the trace at the request |
| SubmissionProperties.AnchorsAreModeExclusive | src/components/DailyBox/DailyBox.jsx:37-38 | the account anchor never affects a submission; the device anchor never affects a signed-in submission |
| SubmissionProperties.KnownIdsIndistinguishable | src/components/DailyBox/DailyBox.jsx:92-107 | as written, cells whose records have different ids submit identically; with the corrected routing they do not |
| SubmissionProperties.CorrectionOnlyChangesRequest | src/components/DailyBox/DailyBox.jsx:92-142 | the corrected handler differs from the written one only in the sent request |
| SubmissionProperties.RoutingOnlyChangesRequest | src/components/DailyBox/DailyBox.jsx:92-142 | in the signed-in branch both routings give the same view, storage, status and trace length, and agree on every effect but the request |
| SubmissionProperties.GuestExample | src/components/DailyBox/DailyBox.jsx:70-84 | guest, calendar "cal1", index 2, text "hi", aggregate without `dailyBoxes`: the stored array is two holes, then the new entry with `{"", "", "hi", ""}` |

## Left out

- Rendering, the modal, labels, styles and `PREVIEW_IMG` (lines 172-241): these are presentation only.
- The `imageFile` state (lines 24, 203): it is filled from a file input but never read by any persistence path. The model has no field for it.
- `fetch`, `res.json()`, `localStorage` and JSON (de)serialisation are not modelled as I/O. Storage is a map from calendar id to the parsed aggregate; a missing key stands for `null`. The reply is an input. A failure of `fetch` and a failure of `res.json()` are one case, `Threw`, because the catch treats them alike. The request headers are reduced to the `Authorization` value.
- Stored values that parse to something other than an object, a `dailyBoxes` that is not an array, and response bodies that are not objects are not modelled. The stored array elements are entries or holes (`null` after a JSON round trip).
- The aggregate's keys other than `dailyBoxes` are opaque strings: the model only tracks that they are preserved. `status` in an error body is likewise kept as opaque text.
- `plusDay` and `formatDate` are uninterpreted functions passed in. `Date.now()` is a natural-number parameter.
- `localStorage.setItem` failures such as a full quota are not modelled. A guest write is a single atomic step.
- Content.Normalise: reply and record content fields are assumed to be strings, `null` or absent. A truthy non-string such as `audio: 3` passes through `|| ''` unchanged in the component, so there the snapshot is not always four strings; the model's "every field is a string" holds because of this assumption.
- `index` is a natural number. A negative or fractional index, which would set an ordinary property instead of an array element, is not modelled.
- The wording of TypeError messages depends on the engine; the model uses V8-style text. `Content.ReadError` and `Submission.DestructureError` promise only that the message is non-empty, and for the latter that it differs from the default text. These are the only facts the handler relies on.
- An uncaught rejection of the handler's promise and an exception thrown by the hydration effect are reported as results (`Rejected`, `Failure`). React's handling of them is not modelled.
- React hooks, context providers and routing are not modelled. `navigate` and `setIsDailyBoxesValid` appear only as effects in the trace. React's batching of state updates is collapsed into the final view.
- Async interleaving and races are not modelled: resubmitting while a request is in flight, or two cells writing the same aggregate. Each submission is one atomic step.

## Findings

| source | as written | input that shows it | evidently intended | confidence | as-written member | corrected member |
|---|---|---|---|---|---|---|
| src/components/DailyBox/DailyBox.jsx:92-142 | a known `dailyBoxId` sends the full body to the collection URL and never names the record; an unknown one sends `{content}` with PUT to the item URL, rendering the missing id | existing records with `_id` "a" and "b" give identical requests; `existingData` undefined gives PUT `.../daily-boxes/undefined` | a known id updates its item URL with `{content}`; an unknown id creates with POST of the full body on the collection URL, as the `dailyBoxId ? 'PUT' : 'POST'` ternary at line 96 indicates | medium; not executed | SubmissionProperties.KnownIdsIndistinguishable | Submission.SubmitCorrected |

`Submission.Submit` keeps the written routing. Every property in
`SubmissionProperties` describes the component as it behaves, except
`CorrectionOnlyChangesRequest`, `RoutingOnlyChangesRequest` and the second
conjunct of `KnownIdsIndistinguishable`, which are about the corrected handler.
`Submission.SubmitCorrected` is the same handler with `Requests.RouteIntended`
in place of `Requests.Route`. `SubmissionProperties.CorrectionOnlyChangesRequest`
proves that the sent request is the only difference between the two.
