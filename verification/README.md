# ClashRoyaleAPI player client — a Dafny model

This project models the core of a small Python client for the Clash Royale
REST API (`api/api.py`): how `Player.__init__` turns a player tag and an API
token into a GET request for `https://api.clashroyale.com/v1/players/<tag>`,
how its `if/elif` chain turns the HTTP status into a stored body or one of the
four exceptions of `api/modules/errors.py`, and how the memoized accessors
(`functools.cached_property`) of `Player` and `PlayerLeagueStatistics` read and
convert fields of the parsed JSON body. `RoyaleAPI.get_player` forwards the
client's token to a new `Player`.

Modules, one per concept:

- `Results` — `Option` and `Result`, standing for Python's `None` and for raised exceptions.
- `Errors` — the four error kinds of `api/modules/errors.py`.
- `Decimal` — `str()` of an int and `int()` of a decimal str, with the round trip `int(str(n)) == n` and CPython's 4300-digit limit.
- `JsonBody` — the parsed body (`Json`) and the Python operations the accessors use: `dict.get`, `d[key]`, `str()`, `int()`, with the Python exception each raises (`Fault`).
- `Fields` — the one shape every accessor shares: a top-level key or a key nested under `clan`/`arena`, converted to `str` or `int`.
- `Memo` — `cached_property` as a per-object map from field to converted value; the first successful read fills an entry, a failed read stores nothing.
- `Request` — tag percent-encoding (`#` → `%23`), the players URL, the `Authorization`/`Accept` headers, and the inverse readings (decode a tag, recover it from a URL, recover the token from the headers).
- `Status` — the status chain as a total function onto `Loaded(body)`, `Raised(kind)` or `Unhandled`.
- `League` — `PlayerLeagueStatistics` and its seven accessors.
- `Players` — `Player`: construction, the twenty-three accessors, `get_league_statistics`.
- `Royale` — `RoyaleAPI.get_player` and a worked example.

The network is a parameter: a pure function `HttpRequest -> HttpResponse` that
receives the request `Player.__init__` builds and returns a status code and a
parsed body. This lets contracts say which request was sent.

The code has no `else` after its status chain. For any status other than 200,
400, 403, 429, 500 and 503, the constructor raises nothing and never assigns
`json_response`, so every later field read raises `AttributeError`. The model
keeps this as its own outcome, `Unhandled`.

Conversions between ints and decimal text follow CPython 3.11 and later,
where `int()` of a text with more than 4300 digits and `str()` of an int with
more than 4300 digits raise ValueError (`Decimal.MaxStrDigits`).

## Model

| member | source | states |
|---|---|---|
| Decimal.IntToDecimal | api/api.py:29 | the decimal text of an int is canonical: `-` exactly for negative numbers, then ASCII digits with no leading zero, "0" for zero, and as many digits as the number has |
| Decimal.StrOfInt | api/api.py:29 | `str()` of an int succeeds exactly when it has at most 4300 digits, and then yields the canonical decimal text |
| Decimal.ParseDecimal | api/api.py:21 | `int()` of a str succeeds exactly on an optional sign followed by 1 to 4300 ASCII digits; a negative result comes only from a leading `-`, and a leading `-` never gives a positive value |
| Decimal.DigitsRoundTrip | api/api.py:29 | reading back the decimal digits of a natural number gives that number |
| Decimal.LeadingNonZeroPositive | api/api.py:21 | a digit string that does not start with `0` has a positive value |
| Decimal.CanonicalDigits | api/api.py:21-29 | a digit string without leading zeros is the rendering of its own value |
| Decimal.DecimalRoundTrip | api/api.py:21-29 | `int(str(n)) == n` for every int of at most 4300 digits; beyond that both `str()` and `int()` raise ValueError |
| Decimal.CanonicalIsRendering | api/api.py:21-29 | the rendering of n is the only canonical text that `int()` reads as n |
| Decimal.DecimalInjective | api/api.py:29 | two ints with the same decimal text are equal |
| Decimal.PlusSignIgnored | api/api.py:21 | `int("+" + d) == int(d)` for every digit string d |
| Decimal.MinusSignNegates | api/api.py:21 | `int("-" + d)` succeeds exactly when `int(d)` does, and is its negation |
| Decimal.LeadingZeroValue | api/api.py:21 | a leading zero does not change the value of a digit string |
| Decimal.LeadingZeroIgnored | api/api.py:21 | `int("0" + d) == int(d)` while the padded text stays within 4300 digits; past that it raises ValueError |
| JsonBody.Get | api/api.py:84 | `dict.get` returns the value under the key, None for an absent key, and raises AttributeError on anything that is not a dict |
| JsonBody.Subscript | api/api.py:156 | `d[key]` succeeds exactly when d is a dict holding key; otherwise KeyError on a dict and TypeError on anything else, None included |
| JsonBody.ToStr | api/api.py:84 | `str()` of None is the text "None", of a str is that str, of an int is its canonical decimal text (which `int()` reads back as the same int) or ValueError past 4300 digits |
| JsonBody.ToInt | api/api.py:88 | `int()` keeps an int, raises TypeError on None and on a dict, and on a str succeeds exactly when it is a decimal literal of at most 4300 digits, with its value (ValueError otherwise) |
| JsonBody.GetVersusSubscript | api/api.py:84-156 | on a dict, `get` and `d[key]` agree on a present key, and on an absent key `get` yields None where `d[key]` raises KeyError |
| JsonBody.IntStrRoundTrip | api/api.py:84-88 | whenever `str()` renders a JSON int, `int()` of that text gives the same int |
| Fields.Resolve | api/api.py:154-172 | a body that is not a dict fails with AttributeError; on a dict a top-level key resolves to its value or None; a nested key resolves exactly when the parent is a dict holding the key, to that value, and otherwise fails with KeyError (parent dict) or TypeError (anything else) |
| Fields.Convert | api/api.py:82-172 | a `str` accessor yields a string exactly when `str()` succeeds, with that string; an `int` accessor yields an int exactly when `int()` succeeds, with that int; a failure is the conversion's own error |
| Fields.Evaluate | api/api.py:82-172 | an accessor fails with the lookup's error when the lookup fails, and otherwise is the conversion of the looked-up value, error included |
| Fields.PresentTopLevelKey | api/api.py:84-152 | a present top-level key converts its own value: a str as itself or its parsed int, an int as itself or its decimal text |
| Fields.PresentParent | api/api.py:154-172 | under a parent dict, a present key converts its value and an absent key raises KeyError |
| Fields.AbsentTopLevelKey | api/api.py:84-88 | an absent top-level key reads as "None" for a `str` field and raises TypeError for an `int` field |
| Fields.AbsentParentFails | api/api.py:156 | a nested field raises TypeError when its parent key is absent |
| Memo.Lookup | api/api.py:82-84 | a cached field returns its cached value and leaves the cache alone; an uncached field is computed and stored only on success; no other entry changes |
| Memo.LookupCoherent | api/api.py:82-84 | through a cache holding only computed values, a read yields exactly the computed value and the cache stays that way |
| Memo.RepeatedLookup | api/api.py:82-84 | after a successful read, reading the same field again gives the identical result and cache |
| Memo.CachedLookupIgnoresConversion | api/api.py:82-84 | the read of a cached field does not depend on the conversion at all: it is not run again |
| Request.EncodeTag | api/api.py:53 | the encoded tag holds no `#`, and a tag without `#` is returned unchanged |
| Request.EncodeTagLength | api/api.py:53 | the encoded tag is longer than the tag by twice its number of `#` |
| Request.EncodeTagAppend | api/api.py:53 | encoding distributes over concatenation |
| Request.EncodeTagChar | api/api.py:53 | a single `#` encodes as `%23` and any other character as itself, which with concatenation fixes the encoding of every tag |
| Request.EncodeHashPrefixedTag | api/api.py:53 | a tag `#` + rest, with no other `#`, is sent as `%23` + rest |
| Request.DecodeTag | api/api.py:53 | the decoding of an encoded path segment is never longer than the segment |
| Request.DecodeEncodedHash | api/api.py:53 | decoding turns a leading `%23` back into `#` |
| Request.DecodePlainChar | api/api.py:53 | decoding keeps a leading character other than `%` |
| Request.DecodeEncodeTag | api/api.py:53 | decoding the encoded tag gives the tag back when it holds no `%` |
| Request.PlayersUrl | api/api.py:60 | the request URL is the players endpoint followed by the encoded tag, holds no `#`, and is as long as the endpoint plus the tag plus two per `#` |
| Request.TagOfUrl | api/api.py:60 | a tag is recovered exactly from URLs that start with the players endpoint |
| Request.UrlRoundTrip | api/api.py:53-60 | the URL built for a tag without `%` names that tag |
| Request.UrlInjective | api/api.py:53-60 | different tags without `%` are sent to different URLs |
| Request.BearerToken | api/api.py:56 | a token is read only from an Authorization header of the form "Bearer " + token |
| Request.AuthHeaders | api/api.py:55-58 | exactly two headers: Accept is application/json and Authorization carries "Bearer " + the token |
| Request.PlayerRequest | api/api.py:53-60 | the GET goes to the players endpoint followed by the encoded tag, for every tag, so the URL holds no `#` and names the tag whenever the tag holds no `%`; it carries exactly the two headers, the token as bearer and JSON accepted |
| Status.Classify | api/api.py:62-79 | 200 loads the body, the statuses of the error table raise their kind, and every other status raises nothing and loads nothing |
| Status.RaisedExactly | api/api.py:65-79 | InvalidAPIToken exactly on 403, RateLimitExceeded exactly on 429, APIError exactly on 500 or 503, InvalidParameter exactly on 400 |
| Status.ErrorIgnoresBody | api/api.py:65-79 | for every status but 200 the body plays no part in the outcome |
| League.NewLeagueStatistics | api/api.py:14-17 | construction succeeds exactly on a dict, taking the three season values with `get` and an empty cache; anything else raises AttributeError |
| League.LeagueFieldValue | api/api.py:19-45 | a season accessor raises AttributeError when its season is absent or not a dict, and otherwise is the conversion of `season.get(key)`; it yields a str exactly for the id fields |
| League.LeaguePresentField | api/api.py:19-45 | a season dict holding the key reads its value: a JSON int as itself for the trophies fields, a JSON str as itself for the id fields |
| League.LeagueAbsentKey | api/api.py:19-45 | a season dict without the key: the id fields read "None" and the trophies fields raise TypeError |
| League.ReadLeague | api/api.py:19-45 | a memoized read changes only the cache, only at the read field, and only on success |
| League.ReadLeagueValid | api/api.py:19-45 | on a valid object a read yields the accessor's value, keeps the object valid, and a repeated read returns the identical value |
| League.NewLeagueValid | api/api.py:14-17 | a freshly built object is valid |
| Players.NewPlayer | api/api.py:52-79 | raises exactly on the error statuses, with their kind; otherwise stores the encoded tag, the token, exactly the Authorization and Accept headers, an empty cache, and the body exactly when the status is 200 |
| Players.FieldValue | api/api.py:82-172 | without a stored body, or with a body that is not a dict, every field raises AttributeError; a top-level field is the conversion of `get(key)`; a nested field is the conversion of `get(parent)[key]` when the parent is a dict holding the key, and otherwise raises KeyError (parent dict) or TypeError; a str exactly for the str fields |
| Players.PresentTopLevelField | api/api.py:82-152 | a top-level key holding a JSON str or int reads as the str itself or the int's decimal text for str fields, and as the int itself or the str's parsed value for int fields |
| Players.PresentNestedField | api/api.py:154-172 | under a `clan`/`arena` dict, a present key reads its value as the declared type, and an absent key raises KeyError |
| Players.Read | api/api.py:82-172 | a memoized read changes only the cache, only at the read field, and only on success; a cached field returns its cached value |
| Players.NewPlayerValid | api/api.py:52-79 | every constructed Player starts with a cache that holds only computed values |
| Players.ReadValid | api/api.py:82-172 | on a valid Player a read yields the accessor's value, keeps the Player valid, and a repeated read returns the identical value and changes nothing |
| Players.UnhandledStatusReadsFail | api/api.py:62-84 | a status outside the chain yields a Player on which every field read and `get_league_statistics` raise AttributeError |
| Players.AbsentClanOrArenaFails | api/api.py:154-172 | `clan_tag`, `clan_name`, `clan_badge_id` raise TypeError without `clan`, and the arena fields raise TypeError without `arena` |
| Players.AbsentTopLevelField | api/api.py:82-152 | an absent top-level key reads as "None" for `name` and `clan_role` and raises TypeError for the int fields |
| Players.GetLeagueStatistics | api/api.py:174-175 | succeeds exactly when the stored body is a dict whose `leagueStatistics` is a dict, with a fresh, empty cache every call; fails with AttributeError otherwise |
| Royale.GetPlayer | api/api.py:177-183 | the request carries the client's token; the call raises exactly on the error statuses sent back for it; otherwise the Player holds the encoded tag, the token, exactly the two headers, an empty cache, and the body exactly when the status is 200 |
| Royale.GetPlayerReadsBody | api/api.py:177-183 | after a 200 answer every field of the returned Player reads as the accessor applied to the body sent back, and `get_league_statistics` succeeds exactly when that body holds a `leagueStatistics` dict |
| Royale.SampleTopLevelFields | api/api.py:82-132 | for the example body, name is "Ash", experience level 13, trophies 6800, and the absent role reads "None" |
| Royale.SampleNestedFields | api/api.py:154-164 | for the example body, the clan tag is "#ABC" and the badge id 5 |
| Royale.SampleAbsentArena | api/api.py:170-172 | the example body has no arena, so the arena name raises TypeError |
| Royale.SampleFetchSucceeds | api/api.py:52-63 | a 200 answer with the example body gives a Player whose memoized reads return those values |
| Royale.FetchForbidden | api/api.py:65-67 | a 403 answer makes `get_player` raise InvalidAPIToken |

## Left out

- The HTTP transport: building `httpx.Client` with a 20-second timeout, the GET call, and `response.json()` (api/api.py:59-63). They are network I/O in a foreign library; the model takes the response as a parameter. Transport exceptions and JSON parse failures are not modelled.
- Exception messages (api/api.py:66-79, api/modules/errors.py:1-18): only the error kind is kept.
- `PlayerBadges` (api/api.py:47-49): it only stores its argument and nothing reads it.
- The demo under `__main__` and the `test_token` constant (api/api.py:11, 186-188): a demonstration and a credential, not behaviour.
- A response cache with expiry and the battle-log, chest and clan endpoints: they do not exist in api/api.py.
- JSON arrays, booleans and floats: `Json` has objects, ints, strings and null only.
- JsonBody.ToStr: `str()` of a dict yields ReprNotModelled where Python returns the dict's repr, because that text depends on insertion order, which a map does not keep.
- JsonBody.ToInt: `int()` of a str accepts only an optional sign followed by ASCII digits; Python also strips surrounding whitespace and accepts underscores between digits and non-ASCII digits, which the model reports as ValueError. The 4300-digit limit is CPython's default since 3.11 (and 3.7.14, 3.8.14, 3.9.14, 3.10.7); older interpreters have no limit, and a limit changed with `sys.set_int_max_str_digits` is not modelled.
- Decimal.ParseDecimal: the same restrictions as JsonBody.ToInt, the fixed 4300-digit limit included.
- Decimal.StrOfInt: the same fixed 4300-digit limit; JsonBody.ToStr inherits it.
- Request.DecodeEncodeTag: the round trip is stated only for tags without `%`, since a tag holding the text `%23` is indistinguishable from an encoded `#` after encoding.
- Memo.Lookup: deleting a cached attribute from the instance, which resets a `cached_property` in Python, is not modelled; the code never does it.
