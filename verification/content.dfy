/** The day cell's data: the draft held in component state, the normalised
    content snapshot sent for persistence, the content payload that existing
    records and server responses carry, and the three operations that move
    values between them (normalisation, response reconciliation, hydration). */
module Content {

  import opened JsValues
  import opened Wrappers

  /** Placeholder shown in the message field of a fresh cell. */
  const PlaceholderMessage: string := "내용을 입력해주세요"

  /** The four edited state cells. `audio` starts as `null`; every other cell
      starts as a string. Reconciliation may store whatever the server sent. */
  datatype Draft = Draft(
    image: Nullable<string>,
    video: Nullable<string>,
    message: Nullable<string>,
    audio: Nullable<string>)

  /** A normalised snapshot: every field is a string. */
  datatype Snapshot = Snapshot(image: string, video: string, text: string, audio: string)

  /** A content object as JSON delivers it, each field possibly missing. */
  datatype Payload = Payload(
    image: Nullable<string>,
    video: Nullable<string>,
    text: Nullable<string>,
    audio: Nullable<string>)

  /** The state a freshly mounted cell starts from. */
  function InitialDraft(): (d: Draft)
    ensures d.image == Val("") && d.video == Val("")
    ensures d.message == Val(PlaceholderMessage)
    ensures d.audio == Null
  {
    Draft(Val(""), Val(""), Val(PlaceholderMessage), Null)
  }

  /** Build the content snapshot: each field defaulted with `|| ''`. */
  function Normalise(d: Draft): (c: Snapshot)
    ensures Truthy(d.image) ==> c.image == d.image.v
    ensures Truthy(d.video) ==> c.video == d.video.v
    ensures Truthy(d.message) ==> c.text == d.message.v
    ensures Truthy(d.audio) ==> c.audio == d.audio.v
    ensures c.image == "" <==> !Truthy(d.image)
    ensures c.video == "" <==> !Truthy(d.video)
    ensures c.text == "" <==> !Truthy(d.message)
    ensures c.audio == "" <==> !Truthy(d.audio)
  {
    Snapshot(OrEmpty(d.image), OrEmpty(d.video), OrEmpty(d.message), OrEmpty(d.audio))
  }

  /** A snapshot as the JSON object it serialises to. */
  function AsPayload(c: Snapshot): (p: Payload)
    ensures p.image == Val(c.image) && p.video == Val(c.video)
    ensures p.text == Val(c.text) && p.audio == Val(c.audio)
  {
    Payload(Val(c.image), Val(c.video), Val(c.text), Val(c.audio))
  }

  /** Copy the response's `text`, `image`, `video`, `audio` one-to-one into
      the message, image, video and audio cells, with no defaulting. */
  function Reconcile(d: Draft, p: Payload): (d': Draft)
    ensures d'.message == p.text && d'.image == p.image
    ensures d'.video == p.video && d'.audio == p.audio
  {
    Draft(p.image, p.video, p.text, p.audio)
  }

  /** A record already stored for this cell, as passed in `existingData`. */
  datatype Existing = Existing(id: Nullable<string>, content: Nullable<Payload>)

  /** Message of the TypeError thrown when reading `property` of a missing
      object (engine wording; only its being non-empty matters). */
  function ReadError(missing: Nullable<Payload>, property: string): (m: string)
    ensures m != ""
  {
    "Cannot read properties of " + (if missing == Null then "null" else "undefined")
      + " (reading '" + property + "')"
  }

  /** The hydration effect: when `existingData` is present, set the image and
      message cells from its content with `|| ''`; video and audio are not
      touched. A record without a content object throws. */
  function Hydrate(d: Draft, existing: Nullable<Existing>): (r: Result<Draft>)
    ensures !existing.Val? ==> r == Success(d)
    ensures existing.Val? && existing.v.content.Val? ==>
      && r.Success?
      && r.value.image == Val(OrEmpty(existing.v.content.v.image))
      && r.value.message == Val(OrEmpty(existing.v.content.v.text))
      && r.value.video == d.video
      && r.value.audio == d.audio
    ensures existing.Val? && !existing.v.content.Val? ==> r.Failure? && r.error != ""
  {
    match existing
    case Val(e) =>
      (match e.content
       case Val(p) =>
         Success(d.(image := Val(OrEmpty(p.image)), message := Val(OrEmpty(p.text))))
       case _ => Failure(ReadError(e.content, "image")))
    case _ => Success(d)
  }

  /** When the server echoes back the snapshot it was sent, the draft
      normalises to exactly that snapshot, whatever it held before. */
  lemma EchoReconciles(d: Draft, c: Snapshot)
    ensures Normalise(Reconcile(d, AsPayload(c))) == c
  {
  }

  /** Reconciliation forgets the previous draft entirely. */
  lemma ReconcileForgetsDraft(d1: Draft, d2: Draft, p: Payload)
    ensures Reconcile(d1, p) == Reconcile(d2, p)
  {
  }

  /** Re-running the hydration effect on the same record is harmless. */
  lemma HydrateIdempotent(d: Draft, e: Existing)
    requires e.content.Val?
    ensures Hydrate(Hydrate(d, Val(e)).value, Val(e)) == Hydrate(d, Val(e))
  {
  }

  /** After hydration, the snapshot's image and text are those of the record;
      its video and audio are still those of the draft before hydration. */
  lemma HydrateThenNormalise(d: Draft, e: Existing)
    requires e.content.Val?
    ensures var c := Normalise(Hydrate(d, Val(e)).value);
      && c.image == OrEmpty(e.content.v.image)
      && c.text == OrEmpty(e.content.v.text)
      && c.video == Normalise(d).video
      && c.audio == Normalise(d).audio
  {
  }

  /** A freshly mounted cell submits the placeholder and three empty fields;
      the `null` audio becomes `''`. */
  lemma InitialSnapshot()
    ensures Normalise(InitialDraft()) == Snapshot("", "", PlaceholderMessage, "")
  {
  }
}
