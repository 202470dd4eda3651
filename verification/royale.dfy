/** `RoyaleAPI`: the client object, which holds the token and hands it to
    every Player it creates. */
module Royale {
  import opened Results
  import opened Errors
  import opened JsonBody
  import opened Fields
  import opened Request
  import opened Status
  import opened Players

  datatype RoyaleApi = RoyaleApi(apiToken: string)

  /** `get_player`: constructs a Player for tag with the client's own token. */
  function GetPlayer(api: RoyaleApi, tag: string, transport: HttpRequest -> HttpResponse): (r: Result<Player, ApiErrorKind>)
    ensures var resp := transport(PlayerRequest(tag, api.apiToken));
            r.Success? ==>
              && (r.value.jsonResponse.Some? <==> resp.status == StatusOk)
              && (resp.status == StatusOk ==> r.value.jsonResponse == Some(resp.body))
              && r.value.headers == AuthHeaders(api.apiToken)
              && r.value.cache == map[]
    ensures r.Success? ==> r.value.apiToken == api.apiToken
    ensures r.Success? ==> BearerToken(r.value.headers) == Some(api.apiToken)
    ensures r.Success? ==> r.value.playerTag == EncodeTag(tag)
    ensures var status := transport(PlayerRequest(tag, api.apiToken)).status;
            (r.Failure? <==> status in ErrorStatuses)
            && (r.Failure? ==> r.error == ErrorStatuses[status])
  {
    NewPlayer(tag, api.apiToken, transport)
  }

  /** After a 200 answer, every field of the Player `get_player` returns
      reads as the accessor applied to the body that was sent back, and
      `get_league_statistics` reads that body's `leagueStatistics`. */
  lemma GetPlayerReadsBody(api: RoyaleApi, tag: string, transport: HttpRequest -> HttpResponse, f: PlayerField)
    requires transport(PlayerRequest(tag, api.apiToken)).status == StatusOk
    ensures GetPlayer(api, tag, transport).Success?
    ensures var body := transport(PlayerRequest(tag, api.apiToken)).body;
            && Read(GetPlayer(api, tag, transport).value, f).0 == FieldValue(Some(body), f)
            && (GetLeagueStatistics(GetPlayer(api, tag, transport).value).Success? <==>
                  body.JObject? && "leagueStatistics" in body.fields && body.fields["leagueStatistics"].JObject?)
  {
  }

  /** The body of the worked example: a player with a clan. */
  function SampleBody(): Json {
    JObject(map[
      "name" := JString("Ash"),
      "expLevel" := JInt(13),
      "trophies" := JInt(6800),
      "clan" := JObject(map["tag" := JString("#ABC"), "name" := JString("Ash Fans"), "badgeId" := JInt(5)])])
  }

  /** The top-level fields of the example body, read without a cache:
      present keys convert and the absent role reads as "None". */
  lemma SampleTopLevelFields()
    ensures FieldValue(Some(SampleBody()), Name) == Success(Str("Ash"))
    ensures FieldValue(Some(SampleBody()), ExperienceLevel) == Success(Int(13))
    ensures FieldValue(Some(SampleBody()), Trophies) == Success(Int(6800))
    ensures FieldValue(Some(SampleBody()), ClanRole) == Success(Str("None"))
  {
  }

  /** The clan fields of the example body read as the clan object says. */
  lemma SampleNestedFields()
    ensures FieldValue(Some(SampleBody()), ClanTag) == Success(Str("#ABC"))
    ensures FieldValue(Some(SampleBody()), ClanBadgeId) == Success(Int(5))
  {
    var body := SampleBody().fields;
    assert "clan" in body && body["clan"].JObject?;
    var clan := body["clan"].fields;
    assert "tag" in clan && clan["tag"] == JString("#ABC");
    assert "badgeId" in clan && clan["badgeId"] == JInt(5);
    PresentNestedField(body, ClanTag);
    PresentNestedField(body, ClanBadgeId);
  }

  /** The example body has no arena, so the arena name raises TypeError. */
  lemma SampleAbsentArena()
    ensures FieldValue(Some(SampleBody()), CurrentArenaName) == Failure(TypeError)
  {
    var body := SampleBody().fields;
    assert "arena" !in body;
    AbsentClanOrArenaFails(body, CurrentArenaName);
  }

  /** A status 200 answer with the example body gives a Player whose fields
      read as the body says; the absent arena raises TypeError and the absent
      role reads as "None". */
  lemma SampleFetchSucceeds(api: RoyaleApi, tag: string, transport: HttpRequest -> HttpResponse)
    requires transport(PlayerRequest(tag, api.apiToken)) == HttpResponse(200, SampleBody())
    ensures GetPlayer(api, tag, transport).Success?
    ensures var p := GetPlayer(api, tag, transport).value;
            && Read(p, Name).0 == Success(Str("Ash"))
            && Read(p, ExperienceLevel).0 == Success(Int(13))
            && Read(p, Trophies).0 == Success(Int(6800))
            && Read(p, ClanTag).0 == Success(Str("#ABC"))
            && Read(p, ClanBadgeId).0 == Success(Int(5))
            && Read(p, CurrentArenaName).0 == Failure(TypeError)
            && Read(p, ClanRole).0 == Success(Str("None"))
  {
    var p := GetPlayer(api, tag, transport).value;
    assert p.jsonResponse == Some(SampleBody()) && p.cache == map[];
    SampleTopLevelFields();
    SampleNestedFields();
    SampleAbsentArena();
  }

  /** A request answered with status 403 raises InvalidAPIToken. */
  lemma FetchForbidden(api: RoyaleApi, tag: string, transport: HttpRequest -> HttpResponse)
    requires transport(PlayerRequest(tag, api.apiToken)).status == 403
    ensures GetPlayer(api, tag, transport) == Failure(InvalidAPIToken)
  {
  }
}
