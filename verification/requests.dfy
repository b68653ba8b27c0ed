/** The request the authenticated branch sends: endpoint, method,
    authorization header and body, chosen by whether `dailyBoxId` is truthy. */
module Requests {

  import opened JsValues
  import opened Content

  const BaseInfoUrl: string := "http://localhost:3030/calendars"

  datatype Method = Put | Post

  /** `{date, content, isOpen}` or `{content}`. */
  datatype Body =
    | Full(date: string, content: Snapshot, isOpen: bool)
    | ContentOnly(content: Snapshot)

  datatype Request = Request(url: string, verb: Method, authorization: string, body: Body)

  /** `${BASE_INFO_URL}/${calendarId}/daily-boxes` */
  function CollectionUrl(calendarId: Nullable<string>): (u: string)
    ensures |u| == |BaseInfoUrl| + 1 + |Render(calendarId)| + |"/daily-boxes"|
    ensures u[..|BaseInfoUrl| + 1] == BaseInfoUrl + "/"
    ensures u[|BaseInfoUrl| + 1..|u| - |"/daily-boxes"|] == Render(calendarId)
    ensures u[|u| - |"/daily-boxes"|..] == "/daily-boxes"
  {
    BaseInfoUrl + "/" + Render(calendarId) + "/daily-boxes"
  }

  /** `${BASE_INFO_URL}/${calendarId}/daily-boxes/${dailyBoxId}` */
  function ItemUrl(calendarId: Nullable<string>, dailyBoxId: Nullable<string>): (u: string)
    ensures |u| == |CollectionUrl(calendarId)| + 1 + |Render(dailyBoxId)|
    ensures u[..|CollectionUrl(calendarId)| + 1] == CollectionUrl(calendarId) + "/"
    ensures u[|CollectionUrl(calendarId)| + 1..] == Render(dailyBoxId)
  {
    CollectionUrl(calendarId) + "/" + Render(dailyBoxId)
  }

  /** `Bearer ${accessToken}` */
  function Bearer(token: Nullable<string>): (h: string)
    ensures |h| == 7 + |Render(token)|
    ensures h[..7] == "Bearer " && h[7..] == Render(token)
  {
    "Bearer " + Render(token)
  }

  /** The routing as the component writes it: a truthy id sends the full
      body to the collection URL (the `PUT`/`POST` ternary is always `PUT`
      inside this branch); a falsy id sends `{content}` to the item URL,
      into which the falsy id itself is rendered. */
  function Route(calendarId: Nullable<string>, dailyBoxId: Nullable<string>,
                 token: Nullable<string>, content: Snapshot, date: string): (r: Request)
    ensures r.verb == Put
    ensures r.authorization == Bearer(token)
    ensures r.body.content == content
    ensures r.body.Full? <==> Truthy(dailyBoxId)
    ensures Truthy(dailyBoxId) ==>
      r.url == CollectionUrl(calendarId) && r.body == Full(date, content, false)
    ensures !Truthy(dailyBoxId) ==>
      r.url == ItemUrl(calendarId, dailyBoxId) && r.body == ContentOnly(content)
  {
    if Truthy(dailyBoxId) then
      Request(CollectionUrl(calendarId), if Truthy(dailyBoxId) then Put else Post,
              Bearer(token), Full(date, content, false))
    else
      Request(ItemUrl(calendarId, dailyBoxId), Put, Bearer(token), ContentOnly(content))
  }

  /** The routing the ternary and the request shapes point to: a known id
      updates that record through its item URL with `{content}`; an unknown
      id creates a record through the collection URL with `POST` and the
      full body. */
  function RouteIntended(calendarId: Nullable<string>, dailyBoxId: Nullable<string>,
                         token: Nullable<string>, content: Snapshot, date: string): (r: Request)
    ensures r.authorization == Bearer(token)
    ensures r.body.content == content
    ensures r.verb == Put <==> Truthy(dailyBoxId)
    ensures Truthy(dailyBoxId) ==>
      r.url == ItemUrl(calendarId, dailyBoxId) && r.body == ContentOnly(content)
    ensures !Truthy(dailyBoxId) ==>
      r.url == CollectionUrl(calendarId) && r.body == Full(date, content, false)
  {
    if Truthy(dailyBoxId) then
      Request(ItemUrl(calendarId, dailyBoxId), Put, Bearer(token), ContentOnly(content))
    else
      Request(CollectionUrl(calendarId), Post, Bearer(token), Full(date, content, false))
  }

  /** As written, the request for a known record does not depend on which
      record it is: two different ids give the very same request, so the
      server cannot tell which record to update. */
  lemma RouteIgnoresKnownId(calendarId: Nullable<string>, a: string, b: string,
                            token: Nullable<string>, content: Snapshot, date: string)
    requires a != "" && b != ""
    ensures Route(calendarId, Val(a), token, content, date)
         == Route(calendarId, Val(b), token, content, date)
  {
  }

  /** As written, a cell with no record never asks for creation: it sends a
      `PUT` of `{content}` to `.../daily-boxes/undefined`. */
  lemma RouteUnknownIdTargetsUndefined(calendarId: Nullable<string>, token: Nullable<string>,
                                       content: Snapshot, date: string)
    ensures var r := Route(calendarId, Undefined, token, content, date);
      && r.url == CollectionUrl(calendarId) + "/undefined"
      && r.verb == Put
      && !r.body.Full?
  {
  }

  /** With the intended routing, two different known ids reach two different
      resources. */
  lemma {:induction false} RouteIntendedSeparatesRecords(
      calendarId: Nullable<string>, a: string, b: string,
      token: Nullable<string>, content: Snapshot, date: string)
    requires a != "" && b != "" && a != b
    ensures RouteIntended(calendarId, Val(a), token, content, date).url
         != RouteIntended(calendarId, Val(b), token, content, date).url
  {
    var prefix := CollectionUrl(calendarId) + "/";
    var ua := RouteIntended(calendarId, Val(a), token, content, date).url;
    var ub := RouteIntended(calendarId, Val(b), token, content, date).url;
    assert ua == prefix + a;
    assert ub == prefix + b;
    assert ua[|prefix|..] == a;
    assert ub[|prefix|..] == b;
  }

  /** The two routings send the same content under the same credential,
      but never to the same URL. */
  lemma RoutingsShareContentAndCredential(calendarId: Nullable<string>, id: Nullable<string>,
                                   token: Nullable<string>, content: Snapshot, date: string)
    ensures var w := Route(calendarId, id, token, content, date);
      var i := RouteIntended(calendarId, id, token, content, date);
      && w.authorization == i.authorization
      && w.body.content == i.body.content
      && w.url != i.url
  {
  }
}
