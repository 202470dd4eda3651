/** `Player`: the constructor that fetches and classifies the players
    response, the twenty-three memoized accessors over `json_response`, and
    `get_league_statistics`. */
module Players {
  import opened Results
  import opened Errors
  import opened JsonBody
  import opened Fields
  import opened Request
  import opened Status
  import Memo
  import League
  import Decimal

  datatype PlayerField =
    | Name
    | ExperienceLevel
    | Trophies
    | BestTrophies
    | Wins
    | Losses
    | BattleCount
    | ThreeCrownWins
    | ChallengeCardsWon
    | ChallengeMaxWin
    | TournamentCardsWon
    | TournamentBattleCount
    | ClanRole
    | ClanDonationsCurrently
    | ClanDonationsReceivedCurrently
    | ClanDonationsTotal
    | WarDayWinsCurrently
    | ClanCardsCollected
    | ClanTag
    | ClanName
    | ClanBadgeId
    | CurrentArenaId
    | CurrentArenaName

  /** Where each accessor reads and how it converts. */
  datatype Accessor = Accessor(path: Path, conversion: Conversion)

  function AccessorOf(f: PlayerField): Accessor {
    match f
    case Name => Accessor(TopLevel("name"), AsStr)
    case ExperienceLevel => Accessor(TopLevel("expLevel"), AsInt)
    case Trophies => Accessor(TopLevel("trophies"), AsInt)
    case BestTrophies => Accessor(TopLevel("bestTrophies"), AsInt)
    case Wins => Accessor(TopLevel("wins"), AsInt)
    case Losses => Accessor(TopLevel("losses"), AsInt)
    case BattleCount => Accessor(TopLevel("battleCount"), AsInt)
    case ThreeCrownWins => Accessor(TopLevel("threeCrownWins"), AsInt)
    case ChallengeCardsWon => Accessor(TopLevel("challengeCardsWon"), AsInt)
    case ChallengeMaxWin => Accessor(TopLevel("challengeMaxWin"), AsInt)
    case TournamentCardsWon => Accessor(TopLevel("tournamentCardsWon"), AsInt)
    case TournamentBattleCount => Accessor(TopLevel("tournamentBattleCount"), AsInt)
    case ClanRole => Accessor(TopLevel("role"), AsStr)
    case ClanDonationsCurrently => Accessor(TopLevel("donations"), AsInt)
    case ClanDonationsReceivedCurrently => Accessor(TopLevel("donationsReceived"), AsInt)
    case ClanDonationsTotal => Accessor(TopLevel("totalDonations"), AsInt)
    case WarDayWinsCurrently => Accessor(TopLevel("warDayWins"), AsInt)
    case ClanCardsCollected => Accessor(TopLevel("clanCardsCollected"), AsInt)
    case ClanTag => Accessor(Nested("clan", "tag"), AsStr)
    case ClanName => Accessor(Nested("clan", "name"), AsStr)
    case ClanBadgeId => Accessor(Nested("clan", "badgeId"), AsInt)
    case CurrentArenaId => Accessor(Nested("arena", "id"), AsInt)
    case CurrentArenaName => Accessor(Nested("arena", "name"), AsStr)
  }

  /** The object state after construction. jsonResponse is None when the
      status chain fell through and the attribute was never assigned. */
  datatype Player = Player(
    playerTag: string,
    apiToken: string,
    headers: map<string, string>,
    jsonResponse: Option<Json>,
    cache: map<PlayerField, Value>)

  /** `Player.__init__`: encodes the tag, builds the headers, issues the GET
      through transport and runs the status chain on the response. */
  function NewPlayer(tag: string, token: string, transport: HttpRequest -> HttpResponse): (r: Result<Player, ApiErrorKind>)
    ensures var resp := transport(PlayerRequest(tag, token));
            && (r.Failure? <==> resp.status in ErrorStatuses)
            && (r.Failure? ==> r.error == ErrorStatuses[resp.status])
            && (r.Success? ==> (r.value.jsonResponse.Some? <==> resp.status == StatusOk))
            && (r.Success? && resp.status == StatusOk ==> r.value.jsonResponse == Some(resp.body))
    ensures r.Success? ==>
              && r.value.playerTag == EncodeTag(tag)
              && '#' !in r.value.playerTag
              && r.value.apiToken == token
              && r.value.headers == AuthHeaders(token)
              && BearerToken(r.value.headers) == Some(token)
              && r.value.cache == map[]
  {
    var request := PlayerRequest(tag, token);
    var response := transport(request);
    var player := Player(EncodeTag(tag), token, request.headers, None, map[]);
    match Classify(response.status, response.body)
    case Loaded(body) => Success(player.(jsonResponse := Some(body)))
    case Raised(kind) => Failure(kind)
    case Unhandled => Success(player)
  }

  /** The accessor body without the cache. A Player without json_response
      raises AttributeError on every field. */
  function FieldValue(jsonResponse: Option<Json>, f: PlayerField): (r: Result<Value, Fault>)
    ensures jsonResponse.None? ==> r == Failure(AttributeError)
    ensures jsonResponse.Some? && !jsonResponse.value.JObject? ==> r == Failure(AttributeError)
    ensures r.Success? ==> (r.value.Str? <==> AccessorOf(f).conversion == AsStr)
    ensures jsonResponse.Some? && jsonResponse.value.JObject? && AccessorOf(f).path.TopLevel? ==>
              var fields := jsonResponse.value.fields;
              var key := AccessorOf(f).path.key;
              r == Convert(if key in fields then fields[key] else JNull, AccessorOf(f).conversion)
    ensures jsonResponse.Some? && jsonResponse.value.JObject? && AccessorOf(f).path.Nested? ==>
              var fields := jsonResponse.value.fields;
              var parent := AccessorOf(f).path.parent;
              var key := AccessorOf(f).path.key;
              if parent in fields && fields[parent].JObject? && key in fields[parent].fields
              then r == Convert(fields[parent].fields[key], AccessorOf(f).conversion)
              else r == Failure(if parent in fields && fields[parent].JObject? then KeyError else TypeError)
  {
    match jsonResponse
    case None => Failure(AttributeError)
    case Some(body) => Evaluate(body, AccessorOf(f).path, AccessorOf(f).conversion)
  }

  /** The cache holds only values the accessors compute. */
  ghost predicate ValidPlayer(p: Player) {
    Memo.Coherent(p.cache, f => FieldValue(p.jsonResponse, f))
  }

  /** Reads one field through the cache, as a `cached_property` does. Only the
      cache can change, and only at f. */
  function Read(p: Player, f: PlayerField): (r: (Result<Value, Fault>, Player))
    ensures r.1 == p.(cache := r.1.cache)
    ensures f in p.cache ==> r == (Success(p.cache[f]), p)
    ensures f !in p.cache ==> r.0 == FieldValue(p.jsonResponse, f)
    ensures r.1.cache.Keys == if r.0.Success? then p.cache.Keys + {f} else p.cache.Keys
    ensures r.0.Success? ==> r.1.cache[f] == r.0.value
    ensures forall g :: g in p.cache ==> r.1.cache[g] == p.cache[g]
  {
    var (v, cache) := Memo.Lookup(p.cache, f, g => FieldValue(p.jsonResponse, g));
    (v, p.(cache := cache))
  }

  /** Every Player the constructor returns starts valid. */
  lemma NewPlayerValid(tag: string, token: string, transport: HttpRequest -> HttpResponse)
    requires NewPlayer(tag, token, transport).Success?
    ensures ValidPlayer(NewPlayer(tag, token, transport).value)
  {
  }

  /** On a valid Player a read yields the accessor's value and keeps the
      Player valid; once it has succeeded, reading the same field again
      returns the identical value and changes nothing. */
  lemma ReadValid(p: Player, f: PlayerField)
    requires ValidPlayer(p)
    ensures Read(p, f).0 == FieldValue(p.jsonResponse, f)
    ensures ValidPlayer(Read(p, f).1)
    ensures Read(p, f).0.Success? ==> Read(Read(p, f).1, f) == Read(p, f)
  {
    Memo.LookupCoherent(p.cache, f, g => FieldValue(p.jsonResponse, g));
  }

  /** A status outside the chain raises nothing and stores no body, so every
      later field read raises AttributeError and so does
      `get_league_statistics`. */
  lemma UnhandledStatusReadsFail(tag: string, token: string, transport: HttpRequest -> HttpResponse, f: PlayerField)
    requires var status := transport(PlayerRequest(tag, token)).status;
             status != StatusOk && status !in ErrorStatuses
    ensures NewPlayer(tag, token, transport).Success?
    ensures Read(NewPlayer(tag, token, transport).value, f).0 == Failure(AttributeError)
    ensures GetLeagueStatistics(NewPlayer(tag, token, transport).value) == Failure(AttributeError)
  {
  }

  /** The fields under `clan` and `arena` raise TypeError when that object is
      absent from the body. */
  lemma AbsentClanOrArenaFails(body: map<string, Json>, f: PlayerField)
    requires || (f in {ClanTag, ClanName, ClanBadgeId} && "clan" !in body)
             || (f in {CurrentArenaId, CurrentArenaName} && "arena" !in body)
    ensures FieldValue(Some(JObject(body)), f) == Failure(TypeError)
  {
  }

  /** A top-level field whose key holds a JSON str or int reads it as its
      declared type: a str field yields the str itself or the int's decimal
      text, an int field yields the int itself or the str's parsed value. */
  lemma PresentTopLevelField(body: map<string, Json>, f: PlayerField)
    requires AccessorOf(f).path.TopLevel? && AccessorOf(f).path.key in body
    ensures var v := body[AccessorOf(f).path.key];
            && (v.JString? && AccessorOf(f).conversion == AsStr ==> FieldValue(Some(JObject(body)), f) == Success(Str(v.s)))
            && (v.JInt? && AccessorOf(f).conversion == AsInt ==> FieldValue(Some(JObject(body)), f) == Success(Int(v.n)))
            && (v.JInt? && AccessorOf(f).conversion == AsStr && Decimal.DigitCount(v.n) <= Decimal.MaxStrDigits ==>
                  FieldValue(Some(JObject(body)), f) == Success(Str(Decimal.IntToDecimal(v.n))))
            && (v.JString? && AccessorOf(f).conversion == AsInt && Decimal.IsDecimalLiteral(v.s) ==>
                  FieldValue(Some(JObject(body)), f) == Success(Int(Decimal.ParseDecimal(v.s).value)))
  {
    PresentTopLevelKey(body, AccessorOf(f).path.key, AccessorOf(f).conversion);
  }

  /** A field under `clan` or `arena` whose parent dict holds its key reads
      that value as its declared type; a parent dict without the key raises
      KeyError. */
  lemma PresentNestedField(body: map<string, Json>, f: PlayerField)
    requires AccessorOf(f).path.Nested?
    requires AccessorOf(f).path.parent in body && body[AccessorOf(f).path.parent].JObject?
    ensures var inner := body[AccessorOf(f).path.parent].fields;
            var key := AccessorOf(f).path.key;
            && (key in inner ==> FieldValue(Some(JObject(body)), f) == Convert(inner[key], AccessorOf(f).conversion))
            && (key in inner && inner[key].JString? && AccessorOf(f).conversion == AsStr ==>
                  FieldValue(Some(JObject(body)), f) == Success(Str(inner[key].s)))
            && (key in inner && inner[key].JInt? && AccessorOf(f).conversion == AsInt ==>
                  FieldValue(Some(JObject(body)), f) == Success(Int(inner[key].n)))
            && (key !in inner ==> FieldValue(Some(JObject(body)), f) == Failure(KeyError))
  {
    PresentParent(body, AccessorOf(f).path.parent, AccessorOf(f).path.key, AccessorOf(f).conversion);
  }

  /** A str field whose key is absent reads as the text "None" rather than
      failing; an int field whose key is absent raises TypeError. */
  lemma AbsentTopLevelField(body: map<string, Json>, f: PlayerField)
    requires AccessorOf(f).path.TopLevel? && AccessorOf(f).path.key !in body
    ensures AccessorOf(f).conversion == AsStr ==> FieldValue(Some(JObject(body)), f) == Success(Str("None"))
    ensures AccessorOf(f).conversion == AsInt ==> FieldValue(Some(JObject(body)), f) == Failure(TypeError)
  {
  }

  /** `get_league_statistics`: a fresh, uncached PlayerLeagueStatistics over
      `json_response.get("leagueStatistics")` on every call. */
  function GetLeagueStatistics(p: Player): (r: Result<League.LeagueStatistics, Fault>)
    ensures r.Success? <==>
              && p.jsonResponse.Some?
              && p.jsonResponse.value.JObject?
              && "leagueStatistics" in p.jsonResponse.value.fields
              && p.jsonResponse.value.fields["leagueStatistics"].JObject?
    ensures r.Failure? ==> r.error == AttributeError
    ensures r.Success? ==> r.value.cache == map[]
    ensures r.Success? ==> League.NewLeagueStatistics(p.jsonResponse.value.fields["leagueStatistics"]) == r
  {
    match p.jsonResponse
    case None => Failure(AttributeError)
    case Some(body) =>
      var stats :- Get(body, "leagueStatistics");
      League.NewLeagueStatistics(stats)
  }
}
