# wowapi in Dafny

A model of the decision logic of `wowapi`, a Python client for the World of
Warcraft community web API, together with its currency helpers.

- **Client** (`client.dfy`, module `WowApi`). It covers:
  - the region table;
  - the character and guild field whitelists and the PvP bracket whitelist;
  - construction of an `API` client, which fails for an unknown region;
  - the query that `get_resource` builds, where caller parameters override the `locale`/`apikey` defaults;
  - classification of the response status, where anything but 200 becomes an `APIError`;
  - every accessor.

  An accessor is a pure function that returns either the `Request` it would send or the `ValueError` it would raise. `Send` hands a prepared request to a transport. The transport is a function from request to `Response(status, body)`. `Send` records which requests reached the transport. A refused call sends none, and an accepted call sends exactly one, with no retry.
- **Routes** (`routes.dfy`). This is the URL template of every accessor: one `Resource` value per template, rendered by `Path`. `RouteOf` reads a path back into the resource it names. The round trip holds for every resource except two kinds of ambiguity in the templates themselves:
  - A realm literally named `region` gives the same path as the region-wide challenge leaderboard.
  - A `/` inside a character or guild realm name moves the boundary between realm and name.

  Both are proved in both directions (`RouteOfPath`, `AmbiguousHasTwin`).
- **Currency** (`currency.dfy`). `convert_currency` splits copper into gold, silver and copper using the `CURRENCY_EXCHANGE` radices. `format_currency` renders that with its default template. The divisors are positive, so Dafny's `/` and `%` coincide with Python's `//` and `%`. Every property therefore holds for every integer, negative amounts included.
- **Strings** (`strings.dfy`) and **Wrappers** (`wrappers.dfy`) are support modules. Strings holds Python's `str()` on integers, `','.join`, `split(',')` and their inverses. Wrappers holds `Option` and `Result`.

Query parameter values are strings. `battlepet_stats` passes integers, and the HTTP library renders them with `str()`, which is what `PetStatsQuery` does.

## Model

| member | source | states |
|---|---|---|
| WowApi.NewClient | wowapi/__init__.py:61-69 | construction succeeds exactly for US, EU, KR and TW; the client keeps the given key, locale and region, and its type guarantees the base URL is that region's table entry; any other region fails with a ValueError naming it |
| WowApi.DefaultArguments | wowapi/__init__.py:61 | `API(apiKey)` with the default region and locale builds a US client speaking en_US, bound to the US base URL |
| WowApi.RegionScenarios | wowapi/__init__.py:4-9 | "XX" is refused; every region in the table constructs a client whose base URL is that region's entry |
| WowApi.BaseUrlIdentifiesRegion | wowapi/__init__.py:4-9 | the four base URLs are distinct, so a client's base URL determines its region |
| WowApi.Prepare | wowapi/__init__.py:71-78 | the URL is base URL + resource path; the query keys are locale, apikey and the caller's keys, nothing else; every caller key carries the caller's value, even over locale/apikey; a default the caller did not supply keeps the client's value |
| WowApi.PrepareEmptyParameters | wowapi/__init__.py:75-78 | passing an empty parameter mapping sends the same request as passing none |
| WowApi.Classify | wowapi/__init__.py:82-86 | the response succeeds exactly when the status is 200, yielding the body unchanged; otherwise the error is an APIError carrying exactly that status and the raw body |
| WowApi.ErrorString | wowapi/__init__.py:56-57 | the string form ends with the raw body, preceded by ": " and the status rendered with str(); its inverse is ReadErrorString, proved by ErrorStringRoundTrip |
| WowApi.ErrorStringRoundTrip | wowapi/__init__.py:56-57 | the string form "<status>: <body>" gives back the exact status and body, whatever the body contains |
| WowApi.Send | wowapi/__init__.py:80-86 | a call refused by validation sends nothing and returns its error; an accepted request is sent exactly once, and the outcome succeeds exactly when that single response has status 200, otherwise it is the APIError of that response |
| WowApi.GetResource | wowapi/__init__.py:71-86 | exactly one request is sent, the merged one Prepare describes; the result is that response's body when its status is 200, and otherwise an APIError carrying that response's status and raw body |
| WowApi.ResourceRequest | wowapi/__init__.py:88-255 | an accessor without a query of its own sends only the default query, to the base URL followed by its template, and that URL is read back as exactly the accessor's resource when the resource is unambiguous |
| WowApi.ResourceOfPrepared | wowapi/__init__.py:71-72 | a request built from a resource's path, with any parameters, is read back as that resource |
| WowApi.ZoneRequest | wowapi/__init__.py:257-264 | without an id the request names the zone listing (/zone/); with an id it names that zone, the URL being exactly the base URL + /zone/ + str(id); no extra parameters |
| WowApi.BossRequest | wowapi/__init__.py:266-273 | without an id the request names the boss listing (/boss/); with an id it names that boss, the URL being exactly the base URL + /boss/ + str(id); no extra parameters |
| WowApi.ListingIsNotSingle | wowapi/__init__.py:257-273 | the listing request never coincides with a single-zone or single-boss request |
| WowApi.PvpLeaderboardRequest | wowapi/__init__.py:174-180 | succeeds exactly for 2v2, 3v3, 5v5 and rbg and then names /leaderboard/<bracket> with only the default query; any other bracket fails with a ValueError carrying it |
| WowApi.BracketScenarios | wowapi/__init__.py:42-47 | "6v6" is refused, "3v3" yields a request |
| WowApi.BattlePetStatsRequest | wowapi/__init__.py:108-124 | succeeds exactly when level is in 1..25 and qualityId in 0..6, whatever breedId is; a bad level is reported even when the quality is also bad; on success the URL is exactly the base URL + /battlePet/stats/ + str(speciesId), read back as that species, and the query is the defaults overlaid with level, breedId and qualityId rendered with str(): exactly those five keys, each number read back from its parameter |
| WowApi.PetStatsQueryCarries | wowapi/__init__.py:116-124 | the stats query keeps the client's locale and key and carries level, breedId and qualityId so that each reads back as the given number |
| WowApi.PetLevelScenarios | wowapi/__init__.py:108-111 | the default arguments (level 1, breed 3, quality 1) pass; levels 0 and 26 fail with the level error |
| WowApi.FirstInvalid | wowapi/__init__.py:140-142 | finds no index exactly when every field is whitelisted; otherwise the index of a non-whitelisted field with every earlier field whitelisted, i.e. the first offender in list order |
| WowApi.Offender | wowapi/__init__.py:139-142 | an absent field list has no offender; otherwise the offender is the first field outside the whitelist, if any |
| WowApi.CharacterRequest | wowapi/__init__.py:136-148 | succeeds exactly when fields are absent or all in CHARACTER_FIELDS; a failure names the first offending field; on success the URL is /character/<realm>/<name> under the base URL, the query is the defaults alone when fields are absent and the defaults plus fields = comma-join when present, and a non-empty field list is recovered by splitting that parameter |
| WowApi.GuildRequest | wowapi/__init__.py:150-162 | the same as CharacterRequest, against GUILD_FIELDS and /guild/<realm>/<name> |
| WowApi.FieldsQueryCarries | wowapi/__init__.py:138-145 | a detail query adds the key fields exactly when fields were given, with the comma-joined value |
| WowApi.FieldsParameterRoundTrip | wowapi/__init__.py:143-145 | whitelisted fields contain no comma, so splitting the joined parameter gives back the caller's list in order |
| WowApi.InvalidFieldSendsNothing | wowapi/__init__.py:139-142 | character with fields ["notAField"] is refused with that field named, and no request reaches the transport |
| WowApi.RejectedKeyRaises403 | tests/test_wowapi.py:11-17 | when the service answers 403, realm_status sends one request and raises an APIError with status 403 and the body |
| Routes.Path | wowapi/__init__.py:88-273 | every accessor template is an absolute path appended to the base URL; its inverse is RouteOf, proved by RouteOfPath, and it is injective on unambiguous resources (PathInjective) |
| Routes.RouteOfPath | wowapi/__init__.py:88-273 | every accessor path outside the two ambiguities is read back as exactly its resource |
| Routes.PathInjective | wowapi/__init__.py:88-273 | two unambiguous resources never share a path |
| Routes.AmbiguousHasTwin | wowapi/__init__.py:126-162 | a challenge realm named "region", or a character or guild realm containing "/", shares its path with a different resource |
| Currency.ConvertCurrency | wowapi/utility.py:20-27 | gold*10000 + silver*100 + copper equals the amount; silver and copper lie in 0..99; gold is the floor of amount/10000, i.e. gold*10000 <= amount < (gold+1)*10000 |
| Currency.ConvertCurrencyUnique | wowapi/utility.py:20-27 | any triple with silver and copper in 0..99 worth the amount is the conversion's result, so the conversion is the unique such decomposition |
| Currency.ConvertToCopper | wowapi/utility.py:20-27 | converting what a normal triple is worth gives that triple back |
| Currency.ConvertNonNegative | wowapi/utility.py:23-26 | a non-negative amount yields three non-negative components |
| Currency.ExchangeRadices | wowapi/utility.py:3-7 | the exchange table has gold, silver and copper, with gold = 100 silver, silver = 100 copper, copper = 1 |
| Currency.ConvertExample | tests/test_wowapi_utility.py:4-8 | 7540984 copper converts to (754, 9, 84) |
| Currency.FormatCurrency | wowapi/utility.py:9-18 | the text is read back as exactly the converted coins, and the coin reader accepts only str(gold) + "g " + str(silver) + "s " + str(copper) + "c" (ReadCoinsCanonical), so the output is that rendering of the conversion; the amount is read back from it too |
| Currency.ReadRender | wowapi/utility.py:17-18 | any gold/silver/copper triple, normal or not, filled into the default template is read back as that triple |
| Currency.ReadCoinsCanonical | wowapi/utility.py:17-18 | text read back as some coins is exactly their default rendering, with unpadded str() of each coin |
| Currency.ParseRender | wowapi/utility.py:17-18 | any gold/silver/copper triple filled into the default template is read back as the copper it is worth |
| Currency.FormatCurrencyInjective | wowapi/utility.py:9-18 | two amounts with the same default rendering are equal |
| Currency.FormatExample | wowapi/utility.py:9-18 | 7540984 renders as "754g 9s 84c", without zero padding |
| Strings.IntToStringRoundTrip | wowapi/__init__.py:116-120 | the str() rendering of an integer, as sent for numeric parameters, reads back as that integer |
| Strings.ParseIntCanonical | wowapi/__init__.py:116-120 | the reader accepts only what str() writes: any string read back as n is exactly str(n), so zero padding or a sign on zero is refused |
| Strings.ParseIntRefusesNonCanonical | wowapi/__init__.py:116-120 | "007", "-0" and "+1" are not read as numbers; "0" and "-12" are |
| Strings.SplitJoin | wowapi/__init__.py:143-145 | splitting a comma-join of a non-empty list of comma-free strings gives back the list |

## Left out

- HTTP transport: `requests.get` is external I/O. It is a parameter of `Send` and `GetResource`, a function from request to response. Connection errors and timeouts are not modelled. Neither is percent-encoding: `requests` escapes the path as well as the query string, so a realm such as `Argent Dawn` goes out as `Argent%20Dawn`, while the model's URL holds the name unescaped. Reserved characters are not escaped either: a `?` or `#` in a realm, character or guild name would move the boundary between path and query or fragment on the wire, which the model's `url` string does not show.
- JSON decoding of the body: the successful outcome is the raw body, kept opaque. A malformed body's parse error is outside the model.
- Error-message wording: a `ValueError` carries only the offending value (region, field, level, quality or bracket). For instance, the level message says "0 to 25" while the check is 1..25, and the model follows the check.
- `retrieve_auctions` and the faction, gender, race and class formatters: `tests/test_wowapi.py` calls `retrieve_auctions`, but it is not defined in `wowapi/utility.py`. None of them is part of this model.
- `format_currency` with a caller-supplied template: this depends on Python's `str.format` mini-language. Only the default `{gold}g {silver}s {copper}c` template is modelled.
- Identifier types: numeric identifiers (achievement, item, quest, zone, boss, species, ...) are integers rendered with `str()`. Realm, character, guild and bracket names are strings. Python would format a value of any type into the template.
- `fields` given as a bare string: Python would iterate over its characters. `fields` is an optional list of strings here.
- Live-service tests, the API key taken from the environment, and `setup.py`, which is packaging metadata.
