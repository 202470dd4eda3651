/** `PlayerLeagueStatistics`: three season objects taken from the
    `leagueStatistics` object, and seven memoized accessors over them. */
module League {
  import opened Results
  import opened JsonBody
  import opened Fields
  import Memo

  datatype Season = CurrentSeason | PreviousSeason | BestSeason

  datatype LeagueField =
    | CurrentSeasonTrophies
    | CurrentSeasonBestTrophies
    | PreviousSeasonId
    | PreviousSeasonTrophies
    | PreviousSeasonBestTrophies
    | BestSeasonId
    | BestSeasonTrophies

  /** The season object, key and conversion behind each accessor. */
  datatype LeagueAccessor = LeagueAccessor(season: Season, key: string, conversion: Conversion)

  function LeagueAccessorOf(f: LeagueField): LeagueAccessor {
    match f
    case CurrentSeasonTrophies => LeagueAccessor(CurrentSeason, "trophies", AsInt)
    case CurrentSeasonBestTrophies => LeagueAccessor(CurrentSeason, "bestTrophies", AsInt)
    case PreviousSeasonId => LeagueAccessor(PreviousSeason, "id", AsStr)
    case PreviousSeasonTrophies => LeagueAccessor(PreviousSeason, "trophies", AsInt)
    case PreviousSeasonBestTrophies => LeagueAccessor(PreviousSeason, "bestTrophies", AsInt)
    case BestSeasonId => LeagueAccessor(BestSeason, "id", AsStr)
    case BestSeasonTrophies => LeagueAccessor(BestSeason, "trophies", AsInt)
  }

  /** The object state: the three season values (None when absent) and the
      per-field cache of converted values. */
  datatype LeagueStatistics = LeagueStatistics(
    currentSeason: Json,
    previousSeason: Json,
    bestSeason: Json,
    cache: map<LeagueField, Value>)

  function SeasonOf(s: LeagueStatistics, season: Season): Json {
    match season
    case CurrentSeason => s.currentSeason
    case PreviousSeason => s.previousSeason
    case BestSeason => s.bestSeason
  }

  /** The constructor: `stats.get` three times, so anything but a dict raises
      AttributeError. */
  function NewLeagueStatistics(stats: Json): (r: Result<LeagueStatistics, Fault>)
    ensures r.Success? <==> stats.JObject?
    ensures r.Failure? ==> r.error == AttributeError
    ensures r.Success? ==> r.value.cache == map[]
    ensures r.Success? ==>
              && Get(stats, "currentSeason") == Success(r.value.currentSeason)
              && Get(stats, "previousSeason") == Success(r.value.previousSeason)
              && Get(stats, "bestSeason") == Success(r.value.bestSeason)
  {
    match stats
    case JObject(_) =>
      Success(LeagueStatistics(
        Get(stats, "currentSeason").value,
        Get(stats, "previousSeason").value,
        Get(stats, "bestSeason").value,
        map[]))
    case _ => Failure(AttributeError)
  }

  /** The accessor body without the cache: `int(season.get(key))` or
      `str(season.get(key))`. */
  function LeagueFieldValue(s: LeagueStatistics, f: LeagueField): (r: Result<Value, Fault>)
    ensures !SeasonOf(s, LeagueAccessorOf(f).season).JObject? ==> r == Failure(AttributeError)
    ensures r.Success? ==> (r.value.Str? <==> LeagueAccessorOf(f).conversion == AsStr)
    ensures SeasonOf(s, LeagueAccessorOf(f).season).JObject? ==>
              var season := SeasonOf(s, LeagueAccessorOf(f).season).fields;
              var key := LeagueAccessorOf(f).key;
              r == Convert(if key in season then season[key] else JNull, LeagueAccessorOf(f).conversion)
  {
    var a := LeagueAccessorOf(f);
    Evaluate(SeasonOf(s, a.season), TopLevel(a.key), a.conversion)
  }

  /** A season dict holding the key reads its value as the declared type:
      a JSON int as itself for the trophies fields, a JSON str as itself for
      the id fields. */
  lemma LeaguePresentField(s: LeagueStatistics, f: LeagueField)
    requires SeasonOf(s, LeagueAccessorOf(f).season).JObject?
    requires LeagueAccessorOf(f).key in SeasonOf(s, LeagueAccessorOf(f).season).fields
    ensures var v := SeasonOf(s, LeagueAccessorOf(f).season).fields[LeagueAccessorOf(f).key];
            && LeagueFieldValue(s, f) == Convert(v, LeagueAccessorOf(f).conversion)
            && (v.JInt? && LeagueAccessorOf(f).conversion == AsInt ==> LeagueFieldValue(s, f) == Success(Int(v.n)))
            && (v.JString? && LeagueAccessorOf(f).conversion == AsStr ==> LeagueFieldValue(s, f) == Success(Str(v.s)))
  {
  }

  /** A season dict without the key: the trophies fields raise TypeError
      (`int(None)`), the id fields read as the text "None". */
  lemma LeagueAbsentKey(s: LeagueStatistics, f: LeagueField)
    requires SeasonOf(s, LeagueAccessorOf(f).season).JObject?
    requires LeagueAccessorOf(f).key !in SeasonOf(s, LeagueAccessorOf(f).season).fields
    ensures f in {PreviousSeasonId, BestSeasonId} ==> LeagueFieldValue(s, f) == Success(Str("None"))
    ensures f !in {PreviousSeasonId, BestSeasonId} ==> LeagueFieldValue(s, f) == Failure(TypeError)
  {
  }

  /** The cache holds only values the accessors compute. */
  ghost predicate ValidLeague(s: LeagueStatistics) {
    Memo.Coherent(s.cache, f => LeagueFieldValue(s, f))
  }

  /** Reads one field through the cache. Only the cache can change. */
  function ReadLeague(s: LeagueStatistics, f: LeagueField): (r: (Result<Value, Fault>, LeagueStatistics))
    ensures r.1 == s.(cache := r.1.cache)
    ensures f in s.cache ==> r == (Success(s.cache[f]), s)
    ensures f !in s.cache ==> r.0 == LeagueFieldValue(s, f)
    ensures r.1.cache.Keys == if r.0.Success? then s.cache.Keys + {f} else s.cache.Keys
    ensures r.0.Success? ==> r.1.cache[f] == r.0.value
    ensures forall g :: g in s.cache ==> r.1.cache[g] == s.cache[g]
  {
    var (v, cache) := Memo.Lookup(s.cache, f, g => LeagueFieldValue(s, g));
    (v, s.(cache := cache))
  }

  /** On a valid object a read yields the accessor's value and keeps the
      object valid; a second read of the same field returns the same value. */
  lemma ReadLeagueValid(s: LeagueStatistics, f: LeagueField)
    requires ValidLeague(s)
    ensures ReadLeague(s, f).0 == LeagueFieldValue(s, f)
    ensures ValidLeague(ReadLeague(s, f).1)
    ensures ReadLeague(s, f).0.Success? ==> ReadLeague(ReadLeague(s, f).1, f) == ReadLeague(s, f)
  {
    var compute := g => LeagueFieldValue(s, g);
    Memo.LookupCoherent(s.cache, f, compute);
    var s' := ReadLeague(s, f).1;
    assert forall g :: LeagueFieldValue(s', g) == LeagueFieldValue(s, g);
  }

  /** A fresh object is valid. */
  lemma NewLeagueValid(stats: Json)
    requires stats.JObject?
    ensures ValidLeague(NewLeagueStatistics(stats).value)
  {
  }
}
