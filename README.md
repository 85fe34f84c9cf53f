# Melanion speedrun.com client — Dafny model

This project models the request/response pipeline of Melanion, a read-only Ruby client for the
speedrun.com REST API. A caller asks for a game, a category, a user or a listing, either by
identifier or by handing back an object fetched before. The client then:

- resolves the request target: a relation link of the object, or a conventional path such as
  `games/{id}/categories`;
- builds the request URL under the base endpoint;
- fetches and parses the document and rewrites its hash keys from `kebab-case` to `snake_case`;
- builds model objects (`Game`, `Category`, `Leaderboard`, `Run`, `User`) from the `data` section;
- reports the outcome in an `ApiResult` envelope: a value, the shared empty result, or an error.

Two composite lookups build on the primitives. `find_category` fetches twice and matches names
case-insensitively. `main_category` picks the first full-game category, or simply the first.

## Modelling choices

- The transport (`URI.open` plus `JSON.parse`) is a parameter `fetch: string -> Outcome<Json>`.
  It returns a parsed tree or raises. `Retrieve` then normalizes the tree's keys, as `retrieve_data` does.
- The payload is a closed JSON datatype. A hash is a list of key/value pairs, and looking a key up
  finds its last binding (Ruby's hash semantics). Nil, and a key that is absent, both read as `JNull`.
- A Ruby model constructor fails when a keyword is missing. Beyond that, it stores what the
  payload holds without checking it, with two exceptions: `Run.new` maps `players` to their ids,
  and `Leaderboard.new` builds its runs, both when the object is built and raising on a malformed
  element. Any other malformed field only fails once a getter or `find_link` reads it. So the
  stored fields are `Json` values, and each constructor and getter returns an `Outcome`.
  `Outcome.Raised(message)` stands for a Ruby exception.
- The Ruby operations the source relies on are modelled with their failure cases: `hash[:key]`,
  `dig`, `empty?`, `map`, `find` and `first`. `map` and `find` over a hash yield `[key, value]` pairs,
  so a later `[:key]` on such a pair raises, as in Ruby.
- `ApiResult` keeps its two nilable attributes (`value`, `error`). Its four predicates are read off them.
- `SpeedrunClient` is a class whose one field is the base URI. Its constructor normalizes that URI.
  The operations are functions reading it. `FindCategory` is a method that updates its locals step
  by step, as the Ruby does. It also returns `fetched`, the URL of each listing it asks for, recorded
  as it asks, so that "the second fetch is not made" is part of its contract.
- In `find_category`, either fetch may return the empty result. Its value is then nil, and
  `nil + list` or `list + nil` raises out of the method, which has no rescue. The model returns
  `Raised` in that case. If the first fetch is empty and the second one fails, the second error is
  returned: line 83 runs before line 85.
- `Run.new(place: x, **record)`: when `record` has a `place` key of its own, its value wins,
  because the double splat is merged last. Otherwise the rank is `x`. `Run.new(**record)` defaults it to nil.

## Model

| member | source | states |
|---|---|---|
| `KeyNormalizer.Underscore` | lib/melanion/speedrun_client.rb:179 | a key keeps its length and every `-` becomes `_`, every other character unchanged |
| `KeyNormalizer.NormalizeShape` | lib/melanion/speedrun_client.rb:176-185 | normalizing keeps the node kind, array length and order, and hash pairs in order with each key rewritten and each value normalized; scalars (relation names included) unchanged |
| `KeyNormalizer.NormalizeCanonical` | lib/melanion/speedrun_client.rb:179 | no key of a normalized tree contains a hyphen |
| `KeyNormalizer.NormalizeCanonicalIdentity` | lib/melanion/speedrun_client.rb:176-185 | a tree whose keys contain no hyphen is returned equal |
| `KeyNormalizer.NormalizeIdempotent` | lib/melanion/speedrun_client.rb:176-185 | normalizing twice equals normalizing once |
| `KeyNormalizer.LookupAfterNormalize` | lib/melanion/speedrun_client.rb:179 | a field is found under its underscore spelling with its value normalized, unless another key folds to the same spelling |
| `UrlBuilder.DeleteLeadingSlash` | lib/melanion/speedrun_client.rb:166 | exactly one leading `/` is removed, if there is one |
| `UrlBuilder.BuildUrl` | lib/melanion/speedrun_client.rb:163-169 | every URL starts with the base; without parameters, a path already under the base is returned verbatim and any other is the base plus the path with at most one leading `/` removed |
| `UrlBuilder.BuildUrlQuery` | lib/melanion/speedrun_client.rb:164-168 | with parameters, the URL is the parameterless URL, then `?`, then the `k=v&k=v` text |
| `UrlBuilder.QueryTextEmpty` | lib/melanion/speedrun_client.rb:164-167 | the parameter text is empty exactly when there are no parameters, so nothing is appended then |
| `UrlBuilder.QueryTextAppend` | lib/melanion/speedrun_client.rb:164 | the text of two parameter lists is their texts joined by `&`: pairs keep the order supplied |
| `UrlBuilder.RelativeExample` | lib/melanion/speedrun_client.rb:166 | base `https://api.example.com/` and path `/games/abc` give `https://api.example.com/games/abc` |
| `UrlBuilder.QueryExample` | lib/melanion/speedrun_client.rb:164-168 | `games` with `name: "Foo Bar"` gives the base plus `games?name=Foo Bar` |
| `ApiResults.TriState` | lib/melanion/model/api_result.rb:12-26 | success iff no error, error is its negation, empty iff success with nil value, value iff success with a value; exactly one of error, empty and value holds |
| `ApiResults.Success` | lib/melanion/model/api_result.rb:28-30 | no error and the value given; empty iff that value is nil |
| `ApiResults.Error` | lib/melanion/model/api_result.rb:32-34 | no value; an exception stores its message and is an error; a plain value is stored as is; an error iff what is stored is non-nil |
| `ApiResults.Empty` | lib/melanion/model/api_result.rb:37 | the shared empty result is a success and empty, neither a value nor an error |
| `ApiResults.Forward` | lib/melanion/speedrun_client.rb:98 | a result without a value is handed back with the same error and a nil value |
| `HasLinks.FindIn` | lib/melanion/model/has_links.rb:6 | the uri of the earliest link whose `rel` matches; fails when no link matches; a success is always such an earliest match |
| `HasLinks.FindLink` | lib/melanion/model/has_links.rb:5-7 | the same over the object's link list (`Resolves`): the earliest match's uri, a failure when none matches or the link list is not a collection, and a success only as such a uri |
| `HasLinks.FindLinkNormalized` | lib/melanion/model/has_links.rb:6 | normalizing a payload changes neither whether a relation resolves nor its uri; `rel` values are not rewritten |
| `CategoryModel.New` | lib/melanion/model/category.rb:14-21 | succeeds iff the payload is a hash binding every keyword; each field is the payload's value, unchanged |
| `CategoryModel.ExtraKeyIgnored` | lib/melanion/model/category.rb:14 | an extra key does not change the category built |
| `CategoryModel.KindsExclusive` | lib/melanion/model/category.rb:9-30 | `full_game?` (`type == 'per-game'`) and `individual_level?` (`type == 'per-level'`) never both hold |
| `CategoryModel.Category.SelfApi` | lib/melanion/model/category.rb:32-34 | the uri of the earliest `self` link; fails when there is none or the link list is not a collection; a success is always such a link's uri |
| `CategoryModel.Category.GameApi` | lib/melanion/model/category.rb:36-38 | the uri of the earliest `game` link; fails when there is none or the link list is not a collection; a success is always such a link's uri |
| `CategoryModel.Category.RecordsApi` | lib/melanion/model/category.rb:40-42 | the uri of the earliest `records` link; fails when there is none or the link list is not a collection; a success is always such a link's uri |
| `RunModel.PlayerIds` | lib/melanion/model/run.rb:18 | one id per player record, same length and order; fails when a record is not a hash |
| `RunModel.New` | lib/melanion/model/run.rb:8-21 | succeeds iff every keyword is bound and the players map; `place` is the one supplied unless the record has its own; players are their ids; every other field unchanged |
| `RunModel.ExtraKeyIgnored` | lib/melanion/model/run.rb:9 | an extra key (other than `place`) does not change the run built |
| `RunModel.UnrankedHasNoPlace` | lib/melanion/model/run.rb:8-10 | a run built without a supplied place, from a record without one, has a nil place |
| `RunModel.Ranked` | lib/melanion/model/leaderboard.rb:19 | a `{place, run}` entry builds the entry's run record with the entry's place; a non-hash entry fails |
| `RunModel.Run.Video` | lib/melanion/model/run.rb:23-25 | the uri of the first video link; nil when the links are absent or empty; fails when `videos` is not a hash |
| `RunModel.VideoOfNilVideosFails` | lib/melanion/model/run.rb:24 | a run whose `videos` is nil raises when asked for its video |
| `RunModel.Run.Time` | lib/melanion/model/run.rb:27-29 | `times[:primary]`; fails when `times` is not a hash |
| `LeaderboardModel.New` | lib/melanion/model/leaderboard.rb:12-21 | one run per entry, in entry order, each being that entry ranked; the other fields unchanged |
| `LeaderboardModel.RunsFollowEntries` | lib/melanion/model/leaderboard.rb:19 | run `i` carries entry `i`'s run record id and entry `i`'s place |
| `LeaderboardModel.ExtraKeyIgnored` | lib/melanion/model/leaderboard.rb:12-13 | an extra key does not change the leaderboard built |
| `LeaderboardModel.Leaderboard.GameApi` | lib/melanion/model/leaderboard.rb:23-25 | the uri of the earliest `game` link; fails when there is none or the link list is not a collection; a success is always such a link's uri |
| `LeaderboardModel.Leaderboard.CategoryApi` | lib/melanion/model/leaderboard.rb:27-29 | the uri of the earliest `category` link; fails when there is none or the link list is not a collection; a success is always such a link's uri |
| `GameModel.New` | lib/melanion/model/game.rb:12-26 | succeeds iff every keyword is bound; each field unchanged (`release_date` read under its normalized key) |
| `GameModel.ExtraKeyIgnored` | lib/melanion/model/game.rb:14 | an extra key does not change the game built |
| `GameModel.Game.Name` | lib/melanion/model/game.rb:28-30 | `names[:international]` |
| `GameModel.Game.Logo` | lib/melanion/model/game.rb:32-34 | `assets.logo.uri`; nil when the logo entry is absent |
| `GameModel.Game.SelfApi` | lib/melanion/model/game.rb:36-38 | the uri of the earliest `self` link; fails when there is none or the link list is not a collection; a success is always such a link's uri |
| `GameModel.Game.CategoriesApi` | lib/melanion/model/game.rb:40-42 | the uri of the earliest `categories` link; fails when there is none or the link list is not a collection; a success is always such a link's uri |
| `GameModel.Game.RecordsApi` | lib/melanion/model/game.rb:44-46 | the uri of the earliest `records` link; fails when there is none or the link list is not a collection; a success is always such a link's uri |
| `UserModel.New` | lib/melanion/model/user.rb:11-23 | succeeds iff every keyword is bound; each field unchanged |
| `UserModel.ExtraKeyIgnored` | lib/melanion/model/user.rb:12 | an extra key does not change the user built |
| `UserModel.User.Name` | lib/melanion/model/user.rb:25-27 | `names[:international]` |
| `UserModel.User.Country` | lib/melanion/model/user.rb:29-31 | `location.country.names.international`; nil when a step below the location is missing; fails when the location is not a hash |
| `UserModel.User.Twitch` | lib/melanion/model/user.rb:33-35 | nil when the account is nil, its `uri` otherwise |
| `UserModel.User.Youtube` | lib/melanion/model/user.rb:37-39 | nil when the account is nil, its `uri` otherwise |
| `UserModel.User.Twitter` | lib/melanion/model/user.rb:41-43 | nil when the account is nil, its `uri` otherwise |
| `UserModel.User.Icon` | lib/melanion/model/user.rb:45-47 | `assets.icon.uri` |
| `UserModel.User.SelfApi` | lib/melanion/model/user.rb:49-51 | the uri of the earliest `self` link; fails when there is none or the link list is not a collection; a success is always such a link's uri |
| `UserModel.User.RunsApi` | lib/melanion/model/user.rb:53-55 | the uri of the earliest `runs` link; fails when there is none or the link list is not a collection; a success is always such a link's uri |
| `UserModel.User.PbsApi` | lib/melanion/model/user.rb:57-59 | the uri of the earliest `personal-bests` link, the hyphenated relation unchanged; fails when there is none or the link list is not a collection; a success is always such a link's uri |
| `Client.Retrieve` | lib/melanion/speedrun_client.rb:171-174 | a transport failure passes through with its message; otherwise the fetched tree normalized, which is canonical |
| `Client.Rescue` | lib/melanion/speedrun_client.rb:27-28 | a raised exception becomes an error result carrying its message; a returned result is kept |
| `Client.ListResult` | lib/melanion/speedrun_client.rb:64-70 | fetch failure gives an error with its message; a document not a hash, a `data` without `empty?` or a non-empty string `data` gives an error with that exception's message; empty iff `data` is an empty collection; a value is a non-empty list with one model per element in server order, and a non-empty array whose elements all build gives one; an element that fails to build gives an error carrying the message of the first failing element; an error never holds a value |
| `Client.SingleResult` | lib/melanion/speedrun_client.rb:24-28 | never empty; a value iff `data` builds a model, and then it is that model; fetch failure, a document that is not a hash, or a model that fails to build gives an error carrying that exception's message |
| `Client.FirstResult` | lib/melanion/speedrun_client.rb:35-40 | empty iff `data` is empty; a non-empty `data` whose first element builds gives exactly that model as the value, and a first element that fails gives an error with its message; a value is always the first element built; failures before the element (fetch, not a hash, no `empty?`, not iterable) carry their messages |
| `Client.FindByName` | lib/melanion/speedrun_client.rb:86 | the first category whose name equals the name up to case; none when every name differs; raises exactly when a name that is not a string is reached before any match (`nil.casecmp?`) |
| `Client.FindFullGame` | lib/melanion/speedrun_client.rb:100 | the first full-game category; none iff there is no full-game category |
| `Client.SpeedrunClient.constructor` | lib/melanion/speedrun_client.rb:14-17 | the base URI ends with `/`: unchanged if it did, otherwise exactly one `/` appended |
| `Client.SpeedrunClient.Locate` | lib/melanion/speedrun_client.rb:166 | a resolution failure stays a failure; a path that is not a string fails; a string path is built into a URL under the base |
| `Client.SpeedrunClient.GameUrl` | lib/melanion/speedrun_client.rb:23 | the game's `self` link, or `games/{id}` |
| `Client.SpeedrunClient.Game` | lib/melanion/speedrun_client.rb:22-29 | resolution failure gives an error; otherwise the single-resource outcome of that URL; never empty |
| `Client.SpeedrunClient.FindGame` | lib/melanion/speedrun_client.rb:34-41 | the first-element outcome of the games listing filtered by `name` |
| `Client.SpeedrunClient.CategoryUrl` | lib/melanion/speedrun_client.rb:47 | the category's `self` link, or `categories/{id}` |
| `Client.SpeedrunClient.Category` | lib/melanion/speedrun_client.rb:46-53 | resolution failure gives an error; otherwise the single-resource outcome; never empty |
| `Client.SpeedrunClient.CategoriesUrl` | lib/melanion/speedrun_client.rb:60-62 | the game's `categories` link or `games/{id}/categories`, with `miscellaneous=yes` or `=no` |
| `Client.SpeedrunClient.Categories` | lib/melanion/speedrun_client.rb:59-71 | resolution failure gives an error; otherwise the listing outcome built into categories; a result without a value holds a nil value |
| `Client.SpeedrunClient.FindCategory` | lib/melanion/speedrun_client.rb:77-90 | first fetch an error: that result, and only one URL fetched; second an error: that result; either empty: raises; otherwise the first name match over standard then miscellaneous categories, or the empty result, and it raises exactly when a name that is not a string is reached before any match |
| `Client.SpeedrunClient.MainCategory` | lib/melanion/speedrun_client.rb:96-102 | the categories result unchanged when it holds no value; with `fullGame` the first full-game category, empty when there is none; otherwise the first category |
| `Client.SpeedrunClient.RecordsUrl` | lib/melanion/speedrun_client.rb:109 | the category's `records` link, or `categories/{id}/records` |
| `Client.SpeedrunClient.CategoryRecords` | lib/melanion/speedrun_client.rb:108-118 | resolution failure gives an error; otherwise the listing outcome built into leaderboards |
| `Client.SpeedrunClient.UserUrl` | lib/melanion/speedrun_client.rb:124 | the user's `self` link, or `users/{id}` |
| `Client.SpeedrunClient.User` | lib/melanion/speedrun_client.rb:123-130 | resolution failure gives an error; otherwise the single-resource outcome; never empty |
| `Client.SpeedrunClient.UserRunsUrl` | lib/melanion/speedrun_client.rb:136 | the user's `runs` link, or `runs?user={id}` |
| `Client.Unranked` | lib/melanion/speedrun_client.rb:140 | builds iff every keyword is bound and the players map; the run has a nil place unless its record carries one |
| `Client.SpeedrunClient.UserRuns` | lib/melanion/speedrun_client.rb:135-144 | resolution failure gives an error; otherwise the listing outcome built into unranked runs |
| `Client.SpeedrunClient.UserPbsUrl` | lib/melanion/speedrun_client.rb:150 | the user's `personal-bests` link, or `users/{id}/personal-bests` |
| `Client.SpeedrunClient.UserPbs` | lib/melanion/speedrun_client.rb:149-159 | resolution failure gives an error; otherwise the listing outcome built into runs ranked by their entries |
| `Client.RelativePathJoined` | lib/melanion/speedrun_client.rb:14-17 | on a base that ends with `/`, a relative path is joined right after that slash, with its own leading `/` removed |
| `Client.FirstListingDecides` | lib/melanion/speedrun_client.rb:78-79 | the standard categories' result, and so `find_category` when it fails, depends only on what the transport returns for the first URL |
| `Client.EmptyIsNotError` | lib/melanion/speedrun_client.rb:64-70 | `{"data": []}` gives the empty result and not an error; a transport failure gives an error and not the empty result |
| `Client.RecordsWithoutLinkIsError` | lib/melanion/speedrun_client.rb:109-117 | a category without a `records` link makes `category_records` return an error result |
| `Client.FindByNameIgnoresCase` | lib/melanion/speedrun_client.rb:86 | searching `any%` among `Any%` and `100%` finds `Any%` |
| `Client.FullGameNotFirst` | lib/melanion/speedrun_client.rb:100 | the full-game search skips an individual-level category listed first; `first` does not |

## Left out

- Network I/O and JSON parsing (`URI.open`, `readlines`, `JSON.parse`): these are the `fetch` parameter.
- Ruby exception message texts: a raised exception carries only its class name as its message
  (for example `NoMethodError` for `nil.dig`, `TypeError` for a value without `dig` met half-way). A transport failure keeps the message the transport gives.
- Unicode case folding in `casecmp?`: `FoldCase` folds ASCII letters only.
- JSON numbers are `real`; floating-point rounding is not modelled.
- The String/Symbol distinction of hash keys: keys are strings.
- Object identity of `EmptyApiResult`: the empty result is a value, equal wherever it occurs.
- Key collisions during normalization: when two keys of one hash fold to the same spelling, Ruby
  keeps one entry. The model keeps both pairs and looks up the last one. Lookups agree, but `empty?`,
  `map` and `first` over such a hash may see an extra pair.
- `Category#il?` is an alias of `individual_level?` and is not a separate member.
- The attribute readers of the model classes are the datatypes' fields.
- `Client.SpeedrunClient.FindCategory`: the transport is a pure function, so "the second fetch
  is not made" is stated through `fetched`, the list of listing URLs the method records as it asks
  for them, and through `Client.FirstListingDecides`; a transport with side effects is not modelled.
- The keyword defaults `include_misc: false` of `categories` and `full_game: true` of
  `main_category` are not modelled: `Categories` and `MainCategory` always take the flag explicitly.
