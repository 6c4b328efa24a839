/** The `API` client: the region table and whitelists, construction, the query
    built by `get_resource`, classification of the response status, and the
    accessors, each of which validates its arguments and yields the request it
    would send. The transport is a function from request to response. */
module WowApi {
  import opened Wrappers
  import opened Strings
  import opened Routes

  /** The regions the client can be bound to, with their base URLs. */
  const Regions: map<string, string> := map[
    "US" := "https://us.api.battle.net/wow",
    "EU" := "https://eu.api.battle.net/wow",
    "KR" := "https://kr.api.battle.net/wow",
    "TW" := "https://tw.api.battle.net/wow"
  ]

  /** Detail fields accepted by the character accessor. */
  const CharacterFields: seq<string> := [
    "achievements", "appearance", "feed", "guild", "hunterPets", "items",
    "mounts", "pets", "petSlots", "progression", "pvp", "quests",
    "reputation", "statistics", "stats", "talents", "titles", "audit"
  ]

  /** Detail fields accepted by the guild accessor. */
  const GuildFields: seq<string> := ["achievements", "members", "news", "challenge"]

  const PvpBrackets: seq<string> := ["2v2", "3v3", "5v5", "rbg"]

  const DefaultRegion: string := "US"
  const DefaultLocale: string := "en_US"
  const DefaultPetLevel: int := 1
  const DefaultBreedId: int := 3
  const DefaultQualityId: int := 1

  /** A caller argument the client refuses; each case carries the offending value. */
  datatype Invalid =
    | UnknownRegion(region: string)
    | CharacterField(field: string)
    | GuildField(field: string)
    | PetLevel(level: int)
    | PetQuality(qualityId: int)
    | UnknownBracket(bracket: string)

  /** `ValueError` is raised before any request exists; `APIError` reports a
      response whose status was not 200. */
  datatype Error =
    | ValueError(invalid: Invalid)
    | APIError(statusCode: int, message: string)

  datatype ClientState = ClientState(apiKey: string, locale: string, region: string, baseUrl: string)

  /** The base URL is the region's table entry. */
  predicate Bound(c: ClientState) {
    c.region in Regions && c.baseUrl == Regions[c.region]
  }

  type Client = c: ClientState | Bound(c)
    witness ClientState("", DefaultLocale, DefaultRegion, "https://us.api.battle.net/wow")

  /** `API(apiKey, region, locale)`: refuses a region outside the table. */
  function NewClient(apiKey: string, region: string, locale: string): (r: Result<Client, Error>)
    ensures r.Success? <==> region == "US" || region == "EU" || region == "KR" || region == "TW"
    ensures r.Success? ==> r.value.apiKey == apiKey && r.value.locale == locale && r.value.region == region
    ensures r.Failure? ==> r.error == ValueError(UnknownRegion(region))
  {
    if region !in Regions then Failure(ValueError(UnknownRegion(region)))
    else Success(ClientState(apiKey, locale, region, Regions[region]))
  }

  /** `API(apiKey)` with the default arguments: a US client speaking en_US. */
  lemma DefaultArguments(apiKey: string)
    ensures NewClient(apiKey, DefaultRegion, DefaultLocale)
         == Success(ClientState(apiKey, "en_US", "US", "https://us.api.battle.net/wow"))
  {
  }

  /** The base URL of a client identifies its region. */
  lemma BaseUrlIdentifiesRegion(a: Client, b: Client)
    requires a.baseUrl == b.baseUrl
    ensures a.region == b.region
  {
  }

  /** A GET request: full URL and query parameters. */
  datatype Request = Request(url: string, params: map<string, string>)

  /** What the transport hands back: the status code and the raw body. */
  datatype Response = Response(status: int, body: string)

  /** The query every request starts from. */
  function DefaultQuery(c: Client): map<string, string> {
    map["locale" := c.locale, "apikey" := c.apiKey]
  }

  /** The caller's parameters, none when absent. */
  function Given(parameters: Option<map<string, string>>): map<string, string> {
    match parameters
    case Some(p) => p
    case None => map[]
  }

  /** The request `get_resource` sends: the path under the base URL, and the
      caller's parameters laid over the default query. */
  function Prepare(c: Client, path: string, parameters: Option<map<string, string>>): (req: Request)
    ensures req.url == c.baseUrl + path
    ensures req.params.Keys == {"locale", "apikey"} + Given(parameters).Keys
    ensures forall k :: k in Given(parameters) ==> req.params[k] == Given(parameters)[k]
    ensures "locale" !in Given(parameters) ==> req.params["locale"] == c.locale
    ensures "apikey" !in Given(parameters) ==> req.params["apikey"] == c.apiKey
  {
    Request(c.baseUrl + path, DefaultQuery(c) + Given(parameters))
  }

  /** An empty parameter mapping sends the same request as none at all. */
  lemma PrepareEmptyParameters(c: Client, path: string)
    ensures Prepare(c, path, Some(map[])) == Prepare(c, path, None)
  {
  }

  /** The resource a request asks the client's region for. */
  function ResourceOf(c: Client, req: Request): Option<Resource> {
    if |c.baseUrl| <= |req.url| && req.url[..|c.baseUrl|] == c.baseUrl
    then RouteOf(req.url[|c.baseUrl|..])
    else None
  }

  /** A prepared request names the resource whose path it was built from. */
  lemma ResourceOfPrepared(c: Client, r: Resource, parameters: Option<map<string, string>>)
    ensures Unambiguous(r) ==> ResourceOf(c, Prepare(c, Path(r), parameters)) == Some(r)
  {
    if Unambiguous(r) {
      var url := Prepare(c, Path(r), parameters).url;
      assert url[|c.baseUrl|..] == Path(r);
      RouteOfPath(r);
    }
  }

  /** Status 200 passes the body through; any other status becomes an `APIError`. */
  function Classify(resp: Response): (r: Result<string, Error>)
    ensures r.Success? <==> resp.status == 200
    ensures r.Success? ==> r.value == resp.body
    ensures r.Failure? ==> r.error == APIError(resp.status, resp.body)
  {
    if resp.status != 200 then Failure(APIError(resp.status, resp.body)) else Success(resp.body)
  }

  /** The string form of an `APIError`: `<status>: <body>`; `ErrorStringRoundTrip`
      reads both parts back. */
  function ErrorString(e: Error): (s: string)
    requires e.APIError?
    ensures |s| > |e.message| + 2 && s[|s| - |e.message|..] == e.message
    ensures s[|s| - |e.message| - 2..|s| - |e.message|] == ": "
    ensures ParseInt(s[..|s| - |e.message| - 2]) == Some(e.statusCode)
  {
    var code := IntToString(e.statusCode);
    IntToStringRoundTrip(e.statusCode);
    assert (code + ": " + e.message)[..|code|] == code;
    IntToString(e.statusCode) + ": " + e.message
  }

  /** Reads the status and the body back from an error's string form. */
  function ReadErrorString(s: string): Option<(int, string)> {
    match Cut(s, ':')
    case None => None
    case Some((code, rest)) =>
      if |rest| == 0 || rest[0] != ' ' then None
      else
        match ParseInt(code)
        case Some(status) => Some((status, rest[1..]))
        case None => None
  }

  /** The string form keeps the exact status and body, whatever the body contains. */
  lemma ErrorStringRoundTrip(e: Error)
    requires e.APIError?
    ensures ReadErrorString(ErrorString(e)) == Some((e.statusCode, e.message))
  {
    var code := IntToString(e.statusCode);
    assert ErrorString(e) == code + [':'] + (" " + e.message);
    IntToStringAvoids(e.statusCode, ':');
    CutConcat(code, " " + e.message, ':');
    IntToStringRoundTrip(e.statusCode);
    assert (" " + e.message)[1..] == e.message;
  }

  /** One accessor call: the requests that reached the transport, and what the
      caller gets back (the body, or the error raised). */
  datatype Exchange = Exchange(sent: seq<Request>, outcome: Result<string, Error>)

  /** Sends a request produced by an accessor, once; a refused call sends nothing. */
  function Send(prepared: Result<Request, Error>, transport: Request -> Response): (x: Exchange)
    ensures prepared.Failure? ==> x.sent == [] && x.outcome == Failure(prepared.error)
    ensures prepared.Success? ==> x.sent == [prepared.value]
    ensures prepared.Success? ==> (x.outcome.Success? <==> transport(prepared.value).status == 200)
    ensures prepared.Success? && x.outcome.Success? ==> x.outcome.value == transport(prepared.value).body
    ensures prepared.Success? && x.outcome.Failure? ==>
      x.outcome.error == APIError(transport(prepared.value).status, transport(prepared.value).body)
  {
    match prepared
    case Failure(e) => Exchange([], Failure(e))
    case Success(req) => Exchange([req], Classify(transport(req)))
  }

  /** `get_resource`: build the request, send it once, classify the response. */
  function GetResource(c: Client, path: string, parameters: Option<map<string, string>>,
                       transport: Request -> Response): (x: Exchange)
    ensures x.sent == [Prepare(c, path, parameters)]
    ensures x.outcome.Success? <==> transport(x.sent[0]).status == 200
    ensures x.outcome.Success? ==> x.outcome.value == transport(x.sent[0]).body
    ensures x.outcome.Failure? ==>
      x.outcome.error == APIError(transport(x.sent[0]).status, transport(x.sent[0]).body)
  {
    Send(Success(Prepare(c, path, parameters)), transport)
  }

  /** `get_resource(path)` with no extra parameters: what every accessor without
      a query of its own sends (the validating ones only after validation). */
  function ResourceRequest(c: Client, r: Resource): (req: Request)
    ensures req.params == DefaultQuery(c)
    ensures req.url == c.baseUrl + Path(r)
    ensures Unambiguous(r) ==> ResourceOf(c, req) == Some(r)
  {
    ResourceOfPrepared(c, r, None);
    Prepare(c, Path(r), None)
  }

  /** `zone(id)`: the zone listing when no id is given, else that zone. */
  function ZoneRequest(c: Client, id: Option<int>): (req: Request)
    ensures req.params == DefaultQuery(c)
    ensures id.None? ==> ResourceOf(c, req) == Some(Zones)
    ensures id.Some? ==> ResourceOf(c, req) == Some(Zone(id.value))
    ensures req.url == c.baseUrl + (if id.Some? then Path(Zone(id.value)) else Path(Zones))
  {
    match id
    case Some(n) => ResourceRequest(c, Zone(n))
    case None => ResourceRequest(c, Zones)
  }

  /** `boss(id)`: the boss listing when no id is given, else that boss. */
  function BossRequest(c: Client, id: Option<int>): (req: Request)
    ensures req.params == DefaultQuery(c)
    ensures id.None? ==> ResourceOf(c, req) == Some(Bosses)
    ensures id.Some? ==> ResourceOf(c, req) == Some(Boss(id.value))
    ensures req.url == c.baseUrl + (if id.Some? then Path(Boss(id.value)) else Path(Bosses))
  {
    match id
    case Some(n) => ResourceRequest(c, Boss(n))
    case None => ResourceRequest(c, Bosses)
  }

  /** `pvp_leaderboard(bracket)`: only the four known brackets are requested. */
  function PvpLeaderboardRequest(c: Client, bracket: string): (r: Result<Request, Error>)
    ensures r.Success? <==> bracket == "2v2" || bracket == "3v3" || bracket == "5v5" || bracket == "rbg"
    ensures r.Failure? ==> r.error == ValueError(UnknownBracket(bracket))
    ensures r.Success? ==> r.value.params == DefaultQuery(c)
    ensures r.Success? ==> ResourceOf(c, r.value) == Some(Leaderboard(bracket))
  {
    if bracket !in PvpBrackets then Failure(ValueError(UnknownBracket(bracket)))
    else Success(ResourceRequest(c, Leaderboard(bracket)))
  }

  /** The extra query of `battlepet_stats`, each number rendered with `str()`. */
  function PetStatsQuery(level: int, breedId: int, qualityId: int): map<string, string> {
    map[
      "level" := IntToString(level),
      "breedId" := IntToString(breedId),
      "qualityId" := IntToString(qualityId)
    ]
  }

  /** The stats request carries the client's defaults and the three numbers, readable back. */
  lemma PetStatsQueryCarries(c: Client, speciesId: int, level: int, breedId: int, qualityId: int)
    ensures var params := Prepare(c, Path(BattlePetStats(speciesId)), Some(PetStatsQuery(level, breedId, qualityId))).params;
      && params.Keys == {"locale", "apikey", "level", "breedId", "qualityId"}
      && params["locale"] == c.locale && params["apikey"] == c.apiKey
      && ParseInt(params["level"]) == Some(level)
      && ParseInt(params["breedId"]) == Some(breedId)
      && ParseInt(params["qualityId"]) == Some(qualityId)
  {
    IntToStringRoundTrip(level);
    IntToStringRoundTrip(breedId);
    IntToStringRoundTrip(qualityId);
  }

  /** `battlepet_stats`: level in 1..25 (checked first), quality in 0..6, breed unchecked. */
  function BattlePetStatsRequest(c: Client, speciesId: int, level: int, breedId: int, qualityId: int)
    : (r: Result<Request, Error>)
    ensures r.Success? <==> 1 <= level <= 25 && 0 <= qualityId <= 6
    ensures !(1 <= level <= 25) ==> r == Failure(ValueError(PetLevel(level)))
    ensures 1 <= level <= 25 && !(0 <= qualityId <= 6) ==> r == Failure(ValueError(PetQuality(qualityId)))
    ensures r.Success? ==> ResourceOf(c, r.value) == Some(BattlePetStats(speciesId))
    ensures r.Success? ==> r.value.url == c.baseUrl + Path(BattlePetStats(speciesId))
    ensures r.Success? ==> r.value.params == DefaultQuery(c) + PetStatsQuery(level, breedId, qualityId)
    ensures r.Success? ==> r.value.params.Keys == {"locale", "apikey", "level", "breedId", "qualityId"}
    ensures r.Success? ==> r.value.params["locale"] == c.locale && r.value.params["apikey"] == c.apiKey
    ensures r.Success? ==> ParseInt(r.value.params["level"]) == Some(level)
    ensures r.Success? ==> ParseInt(r.value.params["breedId"]) == Some(breedId)
    ensures r.Success? ==> ParseInt(r.value.params["qualityId"]) == Some(qualityId)
  {
    if level > 25 || level < 1 then Failure(ValueError(PetLevel(level)))
    else if qualityId > 6 || qualityId < 0 then Failure(ValueError(PetQuality(qualityId)))
    else
      var params := PetStatsQuery(level, breedId, qualityId);
      PetStatsQueryCarries(c, speciesId, level, breedId, qualityId);
      ResourceOfPrepared(c, BattlePetStats(speciesId), Some(params));
      Success(Prepare(c, Path(BattlePetStats(speciesId)), Some(params)))
  }

  /** Index of the first field outside `allowed`, in list order. */
  function FirstInvalid(fields: seq<string>, allowed: seq<string>): (i: Option<nat>)
    ensures i.None? <==> forall j :: 0 <= j < |fields| ==> fields[j] in allowed
    ensures i.Some? ==> i.value < |fields| && fields[i.value] !in allowed
    ensures i.Some? ==> forall j :: 0 <= j < i.value ==> fields[j] in allowed
  {
    if |fields| == 0 then None
    else if fields[0] !in allowed then Some(0)
    else
      match FirstInvalid(fields[1..], allowed)
      case None => None
      case Some(k) => Some(k + 1)
  }

  /** The extra query of a detail accessor: the comma-joined fields, if any were given. */
  function FieldsQuery(fields: Option<seq<string>>): map<string, string> {
    match fields
    case Some(fs) => map["fields" := Join(fs)]
    case None => map[]
  }

  lemma WhitelistsHaveNoCommas()
    ensures forall f :: f in CharacterFields ==> ',' !in f
    ensures forall f :: f in GuildFields ==> ',' !in f
  {
  }

  /** Whitelisted fields survive the trip through the comma-joined parameter. */
  lemma FieldsParameterRoundTrip(fields: Option<seq<string>>, allowed: seq<string>)
    requires forall f :: f in allowed ==> ',' !in f
    requires fields.Some? ==> forall j :: 0 <= j < |fields.value| ==> fields.value[j] in allowed
    ensures fields.Some? && |fields.value| > 0 ==> Split(Join(fields.value)) == fields.value
  {
    if fields.Some? && |fields.value| > 0 {
      SplitJoin(fields.value);
    }
  }

  /** A detail request's query: the defaults, plus `fields` exactly when fields were given. */
  lemma FieldsQueryCarries(c: Client, path: string, fields: Option<seq<string>>)
    ensures fields.None? ==> Prepare(c, path, Some(FieldsQuery(fields))).params == DefaultQuery(c)
    ensures fields.Some? ==>
      Prepare(c, path, Some(FieldsQuery(fields))).params == DefaultQuery(c)["fields" := Join(fields.value)]
  {
  }

  /** The first field outside a whitelist, when there is one. */
  function Offender(fields: Option<seq<string>>, allowed: seq<string>): (r: Option<string>)
    ensures r.None? <==> fields.None? || forall j :: 0 <= j < |fields.value| ==> fields.value[j] in allowed
    ensures r.Some? ==> fields.Some? && exists j :: (0 <= j < |fields.value| && fields.value[j] == r.value
      && r.value !in allowed && forall k :: 0 <= k < j ==> fields.value[k] in allowed)
  {
    match fields
    case None => None
    case Some(fs) =>
      match FirstInvalid(fs, allowed)
      case None => None
      case Some(i) => Some(fs[i])
  }

  /** `character(realm, characterName, fields)`. */
  function CharacterRequest(c: Client, realm: string, characterName: string, fields: Option<seq<string>>)
    : (r: Result<Request, Error>)
    ensures r.Success? <==> fields.None? || forall j :: 0 <= j < |fields.value| ==> fields.value[j] in CharacterFields
    ensures r.Failure? ==> fields.Some? && exists j :: (0 <= j < |fields.value| && fields.value[j] !in CharacterFields
      && r.error == ValueError(CharacterField(fields.value[j]))
      && forall k :: 0 <= k < j ==> fields.value[k] in CharacterFields)
    ensures r.Success? ==> r.value.url == c.baseUrl + Path(Character(realm, characterName))
    ensures r.Success? && '/' !in realm ==> ResourceOf(c, r.value) == Some(Character(realm, characterName))
    ensures r.Success? && fields.None? ==> r.value.params == DefaultQuery(c)
    ensures r.Success? && fields.Some? ==> r.value.params == DefaultQuery(c)["fields" := Join(fields.value)]
    ensures r.Success? && fields.Some? && |fields.value| > 0 ==> Split(r.value.params["fields"]) == fields.value
  {
    match Offender(fields, CharacterFields)
    case Some(field) => Failure(ValueError(CharacterField(field)))
    case None =>
      var path := Path(Character(realm, characterName));
      WhitelistsHaveNoCommas();
      FieldsParameterRoundTrip(fields, CharacterFields);
      FieldsQueryCarries(c, path, fields);
      ResourceOfPrepared(c, Character(realm, characterName), Some(FieldsQuery(fields)));
      Success(Prepare(c, path, Some(FieldsQuery(fields))))
  }

  /** `guild(realm, guildName, fields)`. */
  function GuildRequest(c: Client, realm: string, guildName: string, fields: Option<seq<string>>)
    : (r: Result<Request, Error>)
    ensures r.Success? <==> fields.None? || forall j :: 0 <= j < |fields.value| ==> fields.value[j] in GuildFields
    ensures r.Failure? ==> fields.Some? && exists j :: (0 <= j < |fields.value| && fields.value[j] !in GuildFields
      && r.error == ValueError(GuildField(fields.value[j]))
      && forall k :: 0 <= k < j ==> fields.value[k] in GuildFields)
    ensures r.Success? ==> r.value.url == c.baseUrl + Path(Guild(realm, guildName))
    ensures r.Success? && '/' !in realm ==> ResourceOf(c, r.value) == Some(Guild(realm, guildName))
    ensures r.Success? && fields.None? ==> r.value.params == DefaultQuery(c)
    ensures r.Success? && fields.Some? ==> r.value.params == DefaultQuery(c)["fields" := Join(fields.value)]
    ensures r.Success? && fields.Some? && |fields.value| > 0 ==> Split(r.value.params["fields"]) == fields.value
  {
    match Offender(fields, GuildFields)
    case Some(field) => Failure(ValueError(GuildField(field)))
    case None =>
      var path := Path(Guild(realm, guildName));
      WhitelistsHaveNoCommas();
      FieldsParameterRoundTrip(fields, GuildFields);
      FieldsQueryCarries(c, path, fields);
      ResourceOfPrepared(c, Guild(realm, guildName), Some(FieldsQuery(fields)));
      Success(Prepare(c, path, Some(FieldsQuery(fields))))
  }

  /* Scenarios: whole accessor calls against a transport. */

  /** Exactly the four table regions construct a client, each bound to its own URL. */
  lemma RegionScenarios(apiKey: string, locale: string)
    ensures NewClient(apiKey, "XX", locale) == Failure(ValueError(UnknownRegion("XX")))
    ensures forall region :: region in Regions ==>
      NewClient(apiKey, region, locale).Success? && NewClient(apiKey, region, locale).value.baseUrl == Regions[region]
  {
  }

  /** An unknown character field is refused, naming it, and nothing is sent. */
  lemma InvalidFieldSendsNothing(c: Client, realm: string, characterName: string, transport: Request -> Response)
    ensures var x := Send(CharacterRequest(c, realm, characterName, Some(["notAField"])), transport);
      x.sent == [] && x.outcome == Failure(ValueError(CharacterField("notAField")))
  {
    assert "notAField" !in CharacterFields;
  }

  /** A rejected key: every response is 403, so the first request raises exactly that. */
  lemma RejectedKeyRaises403(c: Client, body: string, transport: Request -> Response)
    requires forall req :: transport(req) == Response(403, body)
    ensures Send(Success(ResourceRequest(c, RealmStatus)), transport).outcome == Failure(APIError(403, body))
    ensures |Send(Success(ResourceRequest(c, RealmStatus)), transport).sent| == 1
  {
  }

  lemma BracketScenarios(c: Client)
    ensures PvpLeaderboardRequest(c, "6v6") == Failure(ValueError(UnknownBracket("6v6")))
    ensures PvpLeaderboardRequest(c, "3v3").Success?
  {
  }

  /** The default arguments pass validation; levels 0 and 26 do not. */
  lemma PetLevelScenarios(c: Client, speciesId: int)
    ensures BattlePetStatsRequest(c, speciesId, DefaultPetLevel, DefaultBreedId, DefaultQualityId).Success?
    ensures BattlePetStatsRequest(c, speciesId, 0, DefaultBreedId, DefaultQualityId) == Failure(ValueError(PetLevel(0)))
    ensures BattlePetStatsRequest(c, speciesId, 26, DefaultBreedId, DefaultQualityId) == Failure(ValueError(PetLevel(26)))
  {
  }

  /** The listing and a single zone or boss are never the same request. */
  lemma ListingIsNotSingle(c: Client, id: int)
    ensures ZoneRequest(c, None) != ZoneRequest(c, Some(id))
    ensures BossRequest(c, None) != BossRequest(c, Some(id))
  {
  }
}
