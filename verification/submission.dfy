/** The submit handler of a day cell as a pure planner: from the view state,
    the cell's props, the environment (auth, token, route parameter, clock,
    date helpers), device storage and the server's reply, compute the new
    view, the new storage, the trace of effects and whether the handler's
    promise settles or rejects. */
module Submission {

  import opened Wrappers
  import opened JsValues
  import opened Decimal
  import opened SparseArray
  import opened Content
  import opened Requests

  /** Fallback text when a thrown error has no message. */
  const DefaultError: string := "입력 내용 저장 중 오류가 발생했습니다. 다시 시도해 주세요."

  const NotFoundPath: string := "/notfound"

  /** One stored day cell in the device-local aggregate. */
  datatype Entry = Entry(dailyBoxId: string, date: Nullable<string>, content: Snapshot, isOpen: bool)

  /** The calendar aggregate stored under a calendar id: its `dailyBoxes`
      array and, opaquely, every other key. */
  datatype Aggregate = Aggregate(dailyBoxes: Nullable<seq<Option<Entry>>>, others: map<string, string>)

  /** Device-local storage after JSON parsing; a missing key reads as `null`. */
  type Storage = map<string, Aggregate>

  datatype NavState = NavState(errorMessage: Nullable<string>, errorStatus: Nullable<string>)

  /** Effects the handler performs, in order. */
  datatype Effect =
    | CloseModal
    | StorageWrite(key: string, value: Aggregate)
    | Navigate(path: string, state: Option<NavState>)
    | Send(request: Request)
    | SignalValid

  /** The component state the handler reads and writes. */
  datatype View = View(draft: Draft, modalOpen: bool, error: string)

  datatype Props = Props(
    existingData: Nullable<Existing>,
    startDate: Nullable<string>,
    index: nat,
    localStartDate: Nullable<string>)

  /** What the handler reads from outside the component: whether a user is
      signed in, the stored access token, the `calendarId` route parameter,
      `Date.now()`, and the date helpers, which are left uninterpreted. */
  datatype Env = Env(
    user: bool,
    accessToken: Nullable<string>,
    calendarId: Nullable<string>,
    now: nat,
    plusDay: (string, nat) -> string,
    formatDate: string -> string)

  /** The parsed JSON body of a response. */
  datatype ResponseData = ResponseData(
    message: Nullable<string>,
    status: Nullable<string>,
    content: Nullable<Payload>)

  /** How the awaited `fetch` and `res.json()` end: a thrown error carrying
      its `message`, or a response with its `ok` flag and parsed body. */
  datatype Reply = Threw(message: Nullable<string>) | Answered(ok: bool, data: ResponseData)

  /** Whether the handler's promise settles or rejects with an uncaught error. */
  datatype Status = Settled | Rejected(reason: string)

  datatype Outcome = Outcome(view: View, storage: Storage, trace: seq<Effect>, status: Status)

  /** `anchor && plusDay(anchor, index)`: the anchor itself when falsy. */
  function Days(anchor: Nullable<string>, index: nat, plusDay: (string, nat) -> string): (r: Nullable<string>)
    ensures Truthy(anchor) ==> r == Val(plusDay(anchor.v, index))
    ensures !Truthy(anchor) ==> r == anchor
  {
    if Truthy(anchor) then Val(plusDay(anchor.v, index)) else anchor
  }

  /** The date shown to a signed-in user, from the account anchor. */
  function UserDays(p: Props, env: Env): (r: Nullable<string>)
    ensures Truthy(p.startDate) ==> r == Val(env.plusDay(p.startDate.v, p.index))
    ensures !Truthy(p.startDate) ==> r == p.startDate
  {
    Days(p.startDate, p.index, env.plusDay)
  }

  /** The date of a guest entry, from the device anchor. */
  function LocalDays(p: Props, env: Env): (r: Nullable<string>)
    ensures Truthy(p.localStartDate) ==> r == Val(env.plusDay(p.localStartDate.v, p.index))
    ensures !Truthy(p.localStartDate) ==> r == p.localStartDate
  {
    Days(p.localStartDate, p.index, env.plusDay)
  }

  /** `existingData && existingData._id` */
  function DailyBoxId(existing: Nullable<Existing>): (r: Nullable<string>)
    ensures existing.Val? ==> r == existing.v.id
    ensures existing == Undefined ==> r == Undefined
    ensures existing == Null ==> r == Null
  {
    match existing
    case Val(e) => e.id
    case Undefined => Undefined
    case Null => Null
  }

  /** `error.message || DEFAULT`: the text shown after a caught error. */
  function ErrorText(message: Nullable<string>): (r: string)
    ensures r != ""
    ensures Truthy(message) ==> r == message.v
    ensures !Truthy(message) ==> r == DefaultError
  {
    if Truthy(message) then message.v else DefaultError
  }

  /** Message of the TypeError thrown by destructuring a missing
      `data.content` (engine wording; only its being non-empty matters). */
  function DestructureError(content: Nullable<Payload>): (m: string)
    ensures m != "" && m != DefaultError
  {
    "Cannot destructure property 'text' of 'data.content' as it is "
      + (if content == Null then "null." else "undefined.")
  }

  /** The array a guest write starts from: `existingValue.dailyBoxes || []`. */
  function BoxesOf(a: Aggregate): (r: seq<Option<Entry>>)
    ensures a.dailyBoxes.Val? ==> r == a.dailyBoxes.v
    ensures !a.dailyBoxes.Val? ==> r == []
  {
    if a.dailyBoxes.Val? then a.dailyBoxes.v else []
  }

  /** Read the aggregate stored under `key`, write `entry` at `index` of its
      `dailyBoxes`, and store it back. A missing aggregate parses to `null`
      and reading `dailyBoxes` from it throws. */
  function GuestWrite(storage: Storage, key: string, index: nat, entry: Entry): (r: Result<Storage>)
    ensures key !in storage <==> r.Failure?
    ensures r.Failure? ==> r.error != ""
    ensures r.Success? ==>
      && r.value.Keys == storage.Keys
      && (forall k :: k in storage && k != key ==> r.value[k] == storage[k])
      && r.value[key].others == storage[key].others
      && r.value[key].dailyBoxes.Val?
      && var before := BoxesOf(storage[key]);
         var after := r.value[key].dailyBoxes.v;
         && |after| == Max(|before|, index + 1)
         && after[index] == Some(entry)
         && (forall i :: 0 <= i < |before| && i != index ==> after[i] == before[i])
         && (forall i :: |before| <= i < |after| && i != index ==> after[i] == None)
  {
    if key !in storage then
      Failure("Cannot read properties of null (reading 'dailyBoxes')")
    else
      var a := storage[key];
      Success(storage[key := a.(dailyBoxes := Val(Write(BoxesOf(a), index, entry)))])
  }

  /** A trace with no request, navigation or validity signal in it. */
  predicate Offline(trace: seq<Effect>) {
    forall i :: 0 <= i < |trace| ==> trace[i].CloseModal? || trace[i].StorageWrite?
  }

  /** The entry a guest submission writes: an id rendered from `Date.now()`,
      the device-anchored date, the snapshot and `isOpen` false. */
  function GuestEntry(content: Snapshot, p: Props, env: Env): (e: Entry)
    ensures AllDigits(e.dailyBoxId) && ValueOf(e.dailyBoxId) == env.now
    ensures e.date == LocalDays(p, env) && e.content == content && !e.isOpen
  {
    ValueOfToDecimal(env.now);
    Entry(ToDecimal(env.now), LocalDays(p, env), content, false)
  }

  /** Guest branch: only when `calendarId` is truthy, write a new entry into
      the stored aggregate. */
  function GuestSubmit(closed: View, p: Props, env: Env, storage: Storage, content: Snapshot): (o: Outcome)
    ensures o.view == closed
    ensures Offline(o.trace) && |o.trace| >= 1 && o.trace[0] == CloseModal
    ensures o.status.Rejected? <==> Truthy(env.calendarId) && env.calendarId.v !in storage
    ensures o.storage != storage ==> Truthy(env.calendarId) && env.calendarId.v in storage
    ensures o.storage.Keys == storage.Keys
  {
    if !Truthy(env.calendarId) then
      Outcome(closed, storage, [CloseModal], Settled)
    else
      var key := env.calendarId.v;
      match GuestWrite(storage, key, p.index, GuestEntry(content, p, env))
      case Failure(e) => Outcome(closed, storage, [CloseModal], Rejected(e))
      case Success(s) => Outcome(closed, s, [CloseModal, StorageWrite(key, s[key])], Settled)
  }

  /** Which routing the signed-in branch uses: the component's, or the
      corrected one of `RouteIntended`. */
  datatype Routing = AsWritten | Intended

  /** `navigate('/notfound')` when the token is missing; it does not return. */
  function Guard(env: Env): (g: seq<Effect>)
    ensures Truthy(env.accessToken) <==> g == []
    ensures !Truthy(env.accessToken) ==> g == [Navigate(NotFoundPath, None)]
  {
    if Truthy(env.accessToken) then [] else [Navigate(NotFoundPath, None)]
  }

  /** The request the signed-in branch sends under the given routing; a full
      body is dated with `formatDate(Date.now().toString())`. */
  function RequestFor(p: Props, env: Env, content: Snapshot, routing: Routing): (r: Request)
    ensures r.authorization == Bearer(env.accessToken) && r.body.content == content
    ensures r.body.Full? <==> (routing == AsWritten <==> Truthy(DailyBoxId(p.existingData)))
    ensures r.body.Full? ==> r.body.date == env.formatDate(ToDecimal(env.now)) && !r.body.isOpen
  {
    var date := env.formatDate(ToDecimal(env.now));
    match routing
    case AsWritten => Route(env.calendarId, DailyBoxId(p.existingData), env.accessToken, content, date)
    case Intended => RouteIntended(env.calendarId, DailyBoxId(p.existingData), env.accessToken, content, date)
  }

  /** The effects up to and including the request. */
  function Sent(p: Props, env: Env, content: Snapshot, routing: Routing): (s: seq<Effect>)
    ensures Truthy(env.accessToken) ==> s == [CloseModal, Send(RequestFor(p, env, content, routing))]
    ensures !Truthy(env.accessToken) ==>
      s == [CloseModal, Navigate(NotFoundPath, None), Send(RequestFor(p, env, content, routing))]
  {
    [CloseModal] + Guard(env) + [Send(RequestFor(p, env, content, routing))]
  }

  /** `navigate('/notfound', {state})` after a non-ok response, carrying the
      response's message and status; it does not return. */
  function Refusal(reply: Reply): (r: seq<Effect>)
    ensures r != [] <==> reply.Answered? && !reply.ok
    ensures r != [] ==> r == [Navigate(NotFoundPath, Some(NavState(reply.data.message, reply.data.status)))]
  {
    match reply
    case Answered(ok, data) =>
      if ok then [] else [Navigate(NotFoundPath, Some(NavState(data.message, data.status)))]
    case Threw(_) => []
  }

  /** The effects after the request: the refusal navigate, then the validity
      signal when the reply carried content. */
  function Tail(reply: Reply): (t: seq<Effect>)
    ensures SignalValid in t <==> reply.Answered? && reply.data.content.Val?
    ensures reply.Threw? ==> t == []
    ensures reply.Answered? ==>
      |t| >= |Refusal(reply)| && t[..|Refusal(reply)|] == Refusal(reply)
    ensures reply.Answered? && reply.data.content.Val? ==> t[|t| - 1] == SignalValid
    ensures reply.Answered? ==> |t| == |Refusal(reply)| + (if reply.data.content.Val? then 1 else 0)
  {
    match reply
    case Threw(_) => []
    case Answered(_, data) =>
      if data.content.Val? then Refusal(reply) + [SignalValid] else Refusal(reply)
  }

  /** The view once the awaited reply is handled: the reply's content copied
      into the draft, or the caught error's text in `error`. */
  function Settle(closed: View, reply: Reply): (v: View)
    ensures v.modalOpen == closed.modalOpen
    ensures reply.Threw? ==> v == closed.(error := ErrorText(reply.message))
    ensures reply.Answered? && reply.data.content.Val? ==>
      v == closed.(draft := Reconcile(closed.draft, reply.data.content.v))
    ensures reply.Answered? && !reply.data.content.Val? ==>
      v == closed.(error := ErrorText(Val(DestructureError(reply.data.content))))
  {
    match reply
    case Threw(m) => closed.(error := ErrorText(m))
    case Answered(_, data) =>
      match data.content
      case Val(payload) => closed.(draft := Reconcile(closed.draft, payload))
      case _ => closed.(error := ErrorText(Val(DestructureError(data.content))))
  }

  /** Signed-in branch: a missing token navigates away but does not stop the
      handler; the request is routed on `dailyBoxId`; a non-ok response
      navigates away with its message and status, and the handler still goes
      on to destructure `data.content`; anything thrown in the `try` lands in
      `error`. Storage is never touched and the promise always settles. */
  function UserSubmit(closed: View, p: Props, env: Env, storage: Storage, reply: Reply,
                      content: Snapshot, routing: Routing): (o: Outcome)
    ensures o.storage == storage && o.status == Settled
    ensures o.view == Settle(closed, reply)
    ensures var sent := Sent(p, env, content, routing);
      && |o.trace| >= |sent|
      && o.trace[..|sent|] == sent
      && o.trace[|sent|..] == Tail(reply)
  {
    var sent := Sent(p, env, content, routing);
    var o := Outcome(Settle(closed, reply), storage, sent + Tail(reply), Settled);
    assert o.trace[..|sent|] == sent;
    assert o.trace[|sent|..] == Tail(reply);
    o
  }

  /** `handleSubmit`: normalise the draft, close the modal, then take the
      guest or the signed-in branch. */
  function Submit(v: View, p: Props, env: Env, storage: Storage, reply: Reply): (o: Outcome)
    ensures !o.view.modalOpen
    ensures |o.trace| >= 1 && o.trace[0] == CloseModal
    ensures !env.user ==> Offline(o.trace) && o.view.draft == v.draft && o.view.error == v.error
    ensures env.user ==> o.storage == storage && o.status == Settled
  {
    var content := Normalise(v.draft);
    var closed := v.(modalOpen := false);
    if !env.user then GuestSubmit(closed, p, env, storage, content)
    else UserSubmit(closed, p, env, storage, reply, content, AsWritten)
  }

  /** `handleSubmit` with the create/update routing corrected: a known record
      is updated through its item URL, an unknown one is created with `POST`
      on the collection URL. Everything else is as in `Submit`. */
  function SubmitCorrected(v: View, p: Props, env: Env, storage: Storage, reply: Reply): (o: Outcome)
    ensures !o.view.modalOpen
    ensures env.user ==>
      var k := if Truthy(env.accessToken) then 1 else 2;
      var id := DailyBoxId(p.existingData);
      && |o.trace| > k
      && o.trace[k].Send?
      && (Truthy(id) ==>
            o.trace[k].request == Request(ItemUrl(env.calendarId, id), Put, Bearer(env.accessToken),
                                          ContentOnly(Normalise(v.draft))))
      && (!Truthy(id) ==>
            o.trace[k].request == Request(CollectionUrl(env.calendarId), Post, Bearer(env.accessToken),
                                          Full(env.formatDate(ToDecimal(env.now)), Normalise(v.draft), false)))
  {
    var content := Normalise(v.draft);
    var closed := v.(modalOpen := false);
    if !env.user then GuestSubmit(closed, p, env, storage, content)
    else UserSubmit(closed, p, env, storage, reply, content, Intended)
  }
}
