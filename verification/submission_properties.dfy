/** What one or several submissions guarantee, stated over `Submit`. */
module SubmissionProperties {

  import opened Wrappers
  import opened JsValues
  import opened Decimal
  import opened SparseArray
  import opened Content
  import opened Requests
  import opened Submission

  /** Guest mode with a calendar id and a stored aggregate: the aggregate's
      `dailyBoxes` gets the new entry at the cell's index, keeps every other
      index, grows to `max(oldLength, index + 1)` with holes, keeps the
      aggregate's other keys, and no other calendar is touched. */
  lemma GuestWriteShape(v: View, p: Props, env: Env, storage: Storage, reply: Reply)
    requires !env.user && Truthy(env.calendarId) && env.calendarId.v in storage
    ensures var o := Submit(v, p, env, storage, reply);
      var key := env.calendarId.v;
      var before := BoxesOf(storage[key]);
      var after := BoxesOf(o.storage[key]);
      && o.status == Settled
      && o.trace == [CloseModal, StorageWrite(key, o.storage[key])]
      && o.storage.Keys == storage.Keys
      && (forall k :: k in storage && k != key ==> o.storage[k] == storage[k])
      && o.storage[key].others == storage[key].others
      && |after| == Max(|before|, p.index + 1)
      && after[p.index] == Some(GuestEntry(Normalise(v.draft), p, env))
      && (forall i :: 0 <= i < |before| && i != p.index ==> after[i] == before[i])
      && (forall i :: |before| <= i < |after| && i != p.index ==> after[i] == None)
  {
  }

  /** Guest mode with a calendar id but nothing stored under it: the handler
      throws (reading `dailyBoxes` of `null`), storage is left as it was and
      only the modal has closed. */
  lemma GuestMissingAggregateRejects(v: View, p: Props, env: Env, storage: Storage, reply: Reply)
    requires !env.user && Truthy(env.calendarId) && env.calendarId.v !in storage
    ensures var o := Submit(v, p, env, storage, reply);
      && o.status.Rejected?
      && o.storage == storage
      && o.trace == [CloseModal]
      && o.view == v.(modalOpen := false)
  {
  }

  /** Guest mode without a calendar id does nothing but close the modal. */
  lemma GuestWithoutCalendarIsNoop(v: View, p: Props, env: Env, storage: Storage, reply: Reply)
    requires !env.user && !Truthy(env.calendarId)
    ensures Submit(v, p, env, storage, reply)
         == Outcome(v.(modalOpen := false), storage, [CloseModal], Settled)
  {
  }

  /** Guest mode ignores the server reply entirely. */
  lemma GuestIgnoresReply(v: View, p: Props, env: Env, storage: Storage, r1: Reply, r2: Reply)
    requires !env.user
    ensures Submit(v, p, env, storage, r1) == Submit(v, p, env, storage, r2)
  {
  }

  /** Two guest submissions of the same cell at different instants store
      entries with different identifiers. */
  lemma GuestIdsFresh(v: View, p: Props, env1: Env, env2: Env, storage: Storage, reply: Reply)
    requires !env1.user && Truthy(env1.calendarId) && env1.calendarId.v in storage
    requires env2 == env1.(now := env2.now) && env1.now != env2.now
    ensures var key := env1.calendarId.v;
      var a := BoxesOf(Submit(v, p, env1, storage, reply).storage[key]);
      var b := BoxesOf(Submit(v, p, env2, storage, reply).storage[key]);
      a[p.index].value.dailyBoxId != b[p.index].value.dailyBoxId
  {
    GuestWriteShape(v, p, env1, storage, reply);
    GuestWriteShape(v, p, env2, storage, reply);
    ToDecimalInjective(env1.now, env2.now);
  }

  /** Resubmitting a guest cell overwrites its previous entry: the storage
      after two submissions equals the storage after the second alone. */
  lemma GuestResubmitOverwrites(v1: View, v2: View, p: Props, env1: Env, env2: Env,
                                storage: Storage, reply: Reply)
    requires !env1.user && Truthy(env1.calendarId) && env1.calendarId.v in storage
    requires env2 == env1.(now := env2.now)
    ensures var first := Submit(v1, p, env1, storage, reply).storage;
      Submit(v2, p, env2, first, reply).storage == Submit(v2, p, env2, storage, reply).storage
  {
    var key := env1.calendarId.v;
    var a := storage[key];
    var first := Submit(v1, p, env1, storage, reply).storage;
    var e1 := GuestEntry(Normalise(v1.draft), p, env1);
    var e2 := GuestEntry(Normalise(v2.draft), p, env2);
    assert first == storage[key := a.(dailyBoxes := Val(Write(BoxesOf(a), p.index, e1)))];
    WriteOverwrites(BoxesOf(a), p.index, e1, e2);
  }

  /** Guest submissions of two different cells of one calendar commute,
      whatever instants each of them happens at. */
  lemma GuestCellsCommute(v1: View, v2: View, p1: Props, p2: Props, env1: Env, env2: Env,
                          storage: Storage, reply: Reply)
    requires !env1.user && Truthy(env1.calendarId) && env1.calendarId.v in storage
    requires env2 == env1.(now := env2.now)
    requires p1.index != p2.index
    ensures var s12 := Submit(v2, p2, env2, Submit(v1, p1, env1, storage, reply).storage, reply).storage;
      var s21 := Submit(v1, p1, env1, Submit(v2, p2, env2, storage, reply).storage, reply).storage;
      s12 == s21
  {
    var key := env1.calendarId.v;
    var a := storage[key];
    var e1 := GuestEntry(Normalise(v1.draft), p1, env1);
    var e2 := GuestEntry(Normalise(v2.draft), p2, env2);
    WritesCommute(BoxesOf(a), p1.index, e1, p2.index, e2);
  }

  /** Signed-in mode with a truthy `dailyBoxId`: a `PUT` of the full body to
      the collection URL. */
  lemma UserKnownIdRequest(v: View, p: Props, env: Env, storage: Storage, reply: Reply)
    requires env.user && Truthy(DailyBoxId(p.existingData))
    ensures var o := Submit(v, p, env, storage, reply);
      var k := if Truthy(env.accessToken) then 1 else 2;
      && |o.trace| > k
      && o.trace[k] == Send(Request(CollectionUrl(env.calendarId), Put, Bearer(env.accessToken),
                                     Full(env.formatDate(ToDecimal(env.now)), Normalise(v.draft), false)))
  {
  }

  /** Signed-in mode with a falsy `dailyBoxId`: a `PUT` of `{content}` only,
      to the item URL built from that falsy id. */
  lemma UserUnknownIdRequest(v: View, p: Props, env: Env, storage: Storage, reply: Reply)
    requires env.user && !Truthy(DailyBoxId(p.existingData))
    ensures var o := Submit(v, p, env, storage, reply);
      var k := if Truthy(env.accessToken) then 1 else 2;
      && |o.trace| > k
      && o.trace[k] == Send(Request(ItemUrl(env.calendarId, DailyBoxId(p.existingData)), Put,
                                     Bearer(env.accessToken), ContentOnly(Normalise(v.draft))))
  {
  }

  /** A missing token navigates to the not-found page without a state, and
      the request is sent anyway; with a token nothing precedes the request. */
  lemma MissingTokenDoesNotAbort(v: View, p: Props, env: Env, storage: Storage, reply: Reply)
    requires env.user
    ensures var o := Submit(v, p, env, storage, reply);
      && (!Truthy(env.accessToken) ==>
            |o.trace| >= 3 && o.trace[1] == Navigate(NotFoundPath, None) && o.trace[2].Send?)
      && (Truthy(env.accessToken) ==> |o.trace| >= 2 && o.trace[1].Send?)
  {
  }

  /** A response that carries `content` is copied into the draft and the
      form is told a cell is valid, even when the response was not ok and the
      handler has already navigated away carrying the response's message and
      status. The error text is left as it was. */
  lemma ContentReplyReconciles(v: View, p: Props, env: Env, storage: Storage,
                               ok: bool, data: ResponseData)
    requires env.user && data.content.Val?
    ensures var o := Submit(v, p, env, storage, Answered(ok, data));
      var c := data.content.v;
      && o.view.draft == Draft(c.image, c.video, c.text, c.audio)
      && o.view.error == v.error
      && o.trace[|o.trace| - 1] == SignalValid
      && (!ok ==> o.trace[|o.trace| - 2]
                    == Navigate(NotFoundPath, Some(NavState(data.message, data.status))))
      && (ok ==> o.trace[|o.trace| - 2].Send?)
  {
  }

  /** A thrown error sets `error` to its message when that is non-empty and
      to the default text otherwise; the draft is untouched and nothing after
      the request happens. */
  lemma ThrownErrorSetsMessage(v: View, p: Props, env: Env, storage: Storage, m: Nullable<string>)
    requires env.user
    ensures var o := Submit(v, p, env, storage, Threw(m));
      && o.view.draft == v.draft
      && o.view.error == (if Truthy(m) then m.v else DefaultError)
      && o.trace[|o.trace| - 1].Send?
  {
  }

  /** A refused response without `content` navigates away with the response's
      message and status; destructuring its missing content then throws, the
      catch stores that TypeError's text, and the draft stays as it was. */
  lemma RefusedWithoutContent(v: View, p: Props, env: Env, storage: Storage, data: ResponseData)
    requires env.user && !data.content.Val?
    ensures var o := Submit(v, p, env, storage, Answered(false, data));
      && o.view.draft == v.draft
      && o.view.error == DestructureError(data.content)
      && o.trace[|o.trace| - 1] == Navigate(NotFoundPath, Some(NavState(data.message, data.status)))
      && SignalValid !in o.trace
  {
  }

  /** An ok response without `content`: destructuring the missing content
      throws, the catch stores that TypeError's text, the draft stays as it
      was, and nothing follows the request. */
  lemma AcceptedWithoutContent(v: View, p: Props, env: Env, storage: Storage, data: ResponseData)
    requires env.user && !data.content.Val?
    ensures var o := Submit(v, p, env, storage, Answered(true, data));
      && o.view.draft == v.draft
      && o.view.error == DestructureError(data.content)
      && o.trace[|o.trace| - 1].Send?
      && SignalValid !in o.trace
  {
  }

  /** The two modes read disjoint anchors: the account anchor never reaches
      storage or a request, and the device anchor never reaches a request. */
  lemma AnchorsAreModeExclusive(v: View, p: Props, env: Env, storage: Storage, reply: Reply,
                                startDate: Nullable<string>, localStartDate: Nullable<string>)
    ensures Submit(v, p.(startDate := startDate), env, storage, reply)
         == Submit(v, p, env, storage, reply)
    ensures env.user ==>
      Submit(v, p.(localStartDate := localStartDate), env, storage, reply)
        == Submit(v, p, env, storage, reply)
  {
  }

  /** As written, submitting from two cells whose records have different ids
      gives the same outcome: the request does not say which record to
      update. With the corrected routing the two requests differ. */
  lemma KnownIdsIndistinguishable(v: View, p: Props, env: Env, storage: Storage, reply: Reply,
                                  a: string, b: string, content: Nullable<Payload>)
    requires env.user && a != "" && b != "" && a != b
    ensures var pa := p.(existingData := Val(Existing(Val(a), content)));
      var pb := p.(existingData := Val(Existing(Val(b), content)));
      && Submit(v, pa, env, storage, reply) == Submit(v, pb, env, storage, reply)
      && SubmitCorrected(v, pa, env, storage, reply) != SubmitCorrected(v, pb, env, storage, reply)
  {
    var pa := p.(existingData := Val(Existing(Val(a), content)));
    var pb := p.(existingData := Val(Existing(Val(b), content)));
    var k := if Truthy(env.accessToken) then 1 else 2;
    RouteIntendedSeparatesRecords(env.calendarId, a, b, env.accessToken, Normalise(v.draft),
                                  env.formatDate(ToDecimal(env.now)));
    assert SubmitCorrected(v, pa, env, storage, reply).trace[k]
        != SubmitCorrected(v, pb, env, storage, reply).trace[k];
  }

  /** The corrected routing changes the request and nothing else: the view,
      the storage, the status and every other effect are those of `Submit`. */
  lemma CorrectionOnlyChangesRequest(v: View, p: Props, env: Env, storage: Storage, reply: Reply)
    ensures var w := Submit(v, p, env, storage, reply);
      var c := SubmitCorrected(v, p, env, storage, reply);
      && c.view == w.view && c.storage == w.storage && c.status == w.status
      && |c.trace| == |w.trace|
      && (forall i :: 0 <= i < |w.trace| && !w.trace[i].Send? ==> c.trace[i] == w.trace[i])
      && (!env.user ==> c == w)
  {
    if env.user {
      RoutingOnlyChangesRequest(v.(modalOpen := false), p, env, storage, reply, Normalise(v.draft));
    }
  }

  /** In the signed-in branch the two routings yield the same view, storage,
      status and trace length, and agree on every effect but the request. */
  lemma RoutingOnlyChangesRequest(closed: View, p: Props, env: Env, storage: Storage, reply: Reply,
                                  content: Snapshot)
    ensures var w := UserSubmit(closed, p, env, storage, reply, content, AsWritten);
      var c := UserSubmit(closed, p, env, storage, reply, content, Intended);
      && c.view == w.view && c.storage == w.storage && c.status == w.status
      && |c.trace| == |w.trace|
      && (forall i :: 0 <= i < |w.trace| && !w.trace[i].Send? ==> c.trace[i] == w.trace[i])
  {
    var w := UserSubmit(closed, p, env, storage, reply, content, AsWritten);
    var c := UserSubmit(closed, p, env, storage, reply, content, Intended);
    var sw := Sent(p, env, content, AsWritten);
    var sc := Sent(p, env, content, Intended);
    assert |sw| == |sc|;
    forall i | 0 <= i < |w.trace| && !w.trace[i].Send?
      ensures c.trace[i] == w.trace[i]
    {
      if i < |sw| {
        assert w.trace[i] == sw[i];
        assert c.trace[i] == sc[i];
      } else {
        assert w.trace[i] == w.trace[|sw|..][i - |sw|];
        assert c.trace[i] == c.trace[|sc|..][i - |sc|];
      }
    }
  }

  /** The worked example: a guest cell at index 2 of calendar "cal1", whose
      stored aggregate has no `dailyBoxes` yet, submitting the text "hi"
      stores two holes followed by the new entry. */
  lemma GuestExample(env: Env, others: map<string, string>, reply: Reply)
    requires !env.user && env.calendarId == Val("cal1")
    ensures var v := View(Draft(Val(""), Val(""), Val("hi"), Null), true, "");
      var p := Props(Undefined, Undefined, 2, Val("2024-01-01"));
      var storage := map["cal1" := Aggregate(Undefined, others)];
      var o := Submit(v, p, env, storage, reply);
      o.storage["cal1"] == Aggregate(
        Val([None, None, Some(Entry(ToDecimal(env.now), Val(env.plusDay("2024-01-01", 2)),
                                    Snapshot("", "", "hi", ""), false))]),
        others)
  {
    var v := View(Draft(Val(""), Val(""), Val("hi"), Null), true, "");
    var p := Props(Undefined, Undefined, 2, Val("2024-01-01"));
    var storage := map["cal1" := Aggregate(Undefined, others)];
    GuestWriteShape(v, p, env, storage, reply);
    var o := Submit(v, p, env, storage, reply);
    var e := GuestEntry(Normalise(v.draft), p, env);
    assert o.storage["cal1"].dailyBoxes.Val?;
    var after := BoxesOf(o.storage["cal1"]);
    assert after == [None, None, Some(e)];
  }
}
