/** `ManualsController#update`: how the end of `save!` (and of the
    `respond_to` that follows it) becomes an HTTP response. */
module ManualsController {
  import opened JsonTree
  import opened Paths
  import opened PublishingApi
  import opened Manuals

  /** What `render` produces: a status, a JSON body and, on success, a
      `Location` header. */
  datatype HttpResponse = HttpResponse(status: int, body: Json, location: Option<string>)

  /** How `update` ends: with a rendered response, or by letting an
      exception that neither `rescue` matches escape to the framework. */
  datatype Reply = Rendered(response: HttpResponse) | Propagated

  const NotAcceptableStatus := 406
  const UnprocessableStatus := 422
  const InvalidAcceptMessage := "Invalid Accept header"

  /** A list of messages as a JSON array of strings. */
  function Messages(xs: seq<string>): (r: Json)
    ensures r.Arr? && |r.items| == |xs|
    ensures forall i :: 0 <= i < |xs| ==> r.items[i] == Str(xs[i])
  {
    if xs == [] then Arr([]) else Arr([Str(xs[0])] + Messages(xs[1..]).items)
  }

  /** The texts of a JSON array of strings, as a client reads them back. */
  function Texts(v: Json): seq<string>
    decreases if v.Arr? then |v.items| else 0
  {
    if !v.Arr? || v.items == [] then []
    else
      var rest := Texts(Arr(v.items[1..]));
      if v.items[0].Str? then [v.items[0].text] + rest else rest
  }

  /** The error list of a rendered error body reads back as the messages
      that went in, in order. */
  lemma {:induction false} MessagesRoundTrip(xs: seq<string>)
    ensures Texts(Messages(xs)) == xs
  {
    if xs != [] {
      MessagesRoundTrip(xs[1..]);
      assert Messages(xs).items[1..] == Messages(xs[1..]).items;
    }
  }

  /** `{ status: "error", errors: ... }` */
  function ErrorBody(messages: seq<string>): Json {
    Obj(map["status" := Str("error"), "errors" := Messages(messages)])
  }

  /** `{ govuk_url: ... }` */
  function SuccessBody(govukUrl: string): Json {
    Obj(map["govuk_url" := Str(govukUrl)])
  }

  /** The `begin`/`rescue` of `update`. `saved` is how `save!` ended;
      `acceptsJson` is whether `respond_to` finds the `json` format, and
      raises `UnknownFormat` when it does not; `messages` is
      `manual.errors.full_messages` when the rescue reads them. */
  function Update(saved: SaveResult, acceptsJson: bool, govukUrl: string, messages: seq<string>): (r: Reply)
    ensures r.Rendered? <==> !saved.Crashed?
    ensures r.Rendered? && r.response.location.Some? <==> saved.Published? && acceptsJson
    ensures saved.Published? && acceptsJson ==>
      r.response.status == saved.response.code &&
      r.response.location == Some(govukUrl) &&
      r.response.body.Obj? && r.response.body.fields.Keys == {"govuk_url"} &&
      Lookup(r.response.body, "govuk_url") == Str(govukUrl)
    ensures saved.Published? && !acceptsJson ==>
      r.response.status == NotAcceptableStatus &&
      r.response.body.Obj? && r.response.body.fields.Keys == {"status", "errors"} &&
      Lookup(r.response.body, "status") == Str("error") &&
      Lookup(r.response.body, "errors") == Messages([InvalidAcceptMessage]) &&
      Texts(Lookup(r.response.body, "errors")) == [InvalidAcceptMessage]
    ensures saved.ValidationError? ==>
      r.response.status == UnprocessableStatus &&
      r.response.body.Obj? && r.response.body.fields.Keys == {"status", "errors"} &&
      Lookup(r.response.body, "status") == Str("error") &&
      Lookup(r.response.body, "errors") == Messages(messages) &&
      Texts(Lookup(r.response.body, "errors")) == messages
    ensures r.Rendered? && Lookup(r.response.body, "govuk_url") != Null ==> saved.Published?
  {
    MessagesRoundTrip(messages);
    MessagesRoundTrip([InvalidAcceptMessage]);
    match saved
    case Published(response) =>
      if acceptsJson then Rendered(HttpResponse(response.code, SuccessBody(govukUrl), Some(govukUrl)))
      else Rendered(HttpResponse(NotAcceptableStatus, ErrorBody([InvalidAcceptMessage]), None))
    case ValidationError(_) =>
      Rendered(HttpResponse(UnprocessableStatus, ErrorBody(messages), None))
    case Crashed => Propagated
  }

  /** A 406 is only ever rendered after `save!` went through, so the content
      item has already been put when the client is told its `Accept` header
      is wrong. */
  lemma NotAcceptableAfterPublish(saved: SaveResult, acceptsJson: bool, govukUrl: string, messages: seq<string>)
    requires Update(saved, acceptsJson, govukUrl, messages).Rendered?
    requires Update(saved, acceptsJson, govukUrl, messages).response.status == NotAcceptableStatus
    requires Update(saved, acceptsJson, govukUrl, messages).response.location.None?
    ensures saved.Published? && !acceptsJson
  {
  }

  /** The whole action: build the manual from the slug in the URL and the
      parsed body, `save!` it, then respond. At most one put, and exactly
      one when `save!` returned. */
  method HandleUpdate(id: string, body: Json, env: Collaborators, api: Client,
                      acceptsJson: bool, frontendBaseUrl: string) returns (r: Reply)
    modifies api
    ensures var saved := ManualSaveResult(id, body, env, api.respond);
      r == Update(saved, acceptsJson, GovukUrl(frontendBaseUrl, ManualBasePath(id)),
                  if saved.ValidationError? then saved.errors else [])
    ensures ManualSaveResult(id, body, env, api.respond).Published? ==>
      api.puts == old(api.puts) + [(ManualBasePath(id), ManualToH(id, body, env).value)]
    ensures !ManualSaveResult(id, body, env, api.respond).Published? ==> api.puts == old(api.puts)
  {
    var manual := new PublishingApiManual(id, body, env);
    var saved := manual.Save(api);
    var messages := if saved.ValidationError? then manual.errors else [];
    r := Update(saved, acceptsJson, manual.GovukUrlOf(frontendBaseUrl), messages);
  }
}
