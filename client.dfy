/**
 * `SpeedrunClient`: resolves what a caller asks for to a request URL, fetches and normalizes the
 * document, builds model objects from its `data` section and reports the outcome in an
 * `ApiResult`; every exception raised on the way becomes an error result.
 * The transport (opening the URL and parsing the JSON text) is a parameter.
 */
module Client {
  import opened Wrappers
  import opened JsonTree
  import KeyNormalizer
  import UrlBuilder
  import ApiResults
  import CategoryModel
  import HasLinks
  import GameModel
  import LeaderboardModel
  import RunModel
  import UserModel

  /** Opens a URL and parses the document it returns, or raises. */
  type Transport = string -> Outcome<Json>

  /** What an operation is asked about: a bare identifier, or a model object fetched before. */
  datatype Target<M> = ById(id: string) | ByModel(model: M)

  predicate EndsWithSlash(s: string) {
    |s| > 0 && s[|s| - 1] == '/'
  }

  /** The URLs a fetch was issued for: one when the URL could be built, none when building it raised. */
  function Requested(url: Outcome<string>): seq<string> {
    if url.Ok? then [url.value] else []
  }

  /** `retrieve_data`: the document the transport returns for `url`, with every hash key normalized. */
  function Retrieve(fetch: Transport, url: string): (r: Outcome<Json>)
    ensures fetch(url).Raised? ==> r == fetch(url)
    ensures fetch(url).Ok? ==> r == Ok(KeyNormalizer.Normalize(fetch(url).value))
    ensures r.Ok? ==> KeyNormalizer.Canonical(r.value)
  {
    var raw :- fetch(url);
    KeyNormalizer.NormalizeCanonical(raw);
    Ok(KeyNormalizer.Normalize(raw))
  }

  /** `rescue StandardError => e; ApiResult.error(e)` around an operation's body. */
  function Rescue<T>(body: Outcome<ApiResults.ApiResult<T>>): (r: ApiResults.ApiResult<T>)
    ensures body.Raised? ==> r.IsError() && r.value.None? && r.error == Some(body.message)
    ensures body.Ok? ==> r == body.value
  {
    match body
    case Raised(m) => ApiResults.Error(ApiResults.Exception(m))
    case Ok(result) => result
  }

  /** The response's `data` section is an empty collection (`data.empty?`). */
  predicate EmptyData(tree: Json) {
    tree.JObj? && EmptyCheck(Lookup(tree, "data")) == Ok(true)
  }

  /**
   * The failures of a listing before any element is built, each reported with its own message:
   * a document that is not a hash, a `data` without `empty?`, and a non-empty `data` that
   * cannot be iterated (a string).
   */
  predicate FailsAfterFetch<T>(tree: Json, r: ApiResults.ApiResult<T>) {
    && (!tree.JObj? ==> r.IsError() && r.error == Some(Index(tree, "data").message))
    && (tree.JObj? && EmptyCheck(Lookup(tree, "data")).Raised? ==>
          r.IsError() && r.error == Some(EmptyCheck(Lookup(tree, "data")).message))
    && (tree.JObj? && EmptyCheck(Lookup(tree, "data")) == Ok(false) && Elements(Lookup(tree, "data")).Raised? ==>
          r.IsError() && r.error == Some(Elements(Lookup(tree, "data")).message))
  }

  /**
   * The listing operations after the fetch: an empty `data` gives the shared empty result; a
   * non-empty one gives a success holding one model per element, built in server order; a
   * failure of the fetch, or of building any element, gives an error carrying its message.
   */
  function ListResult<M>(payload: Outcome<Json>, build: Json -> Outcome<M>): (r: ApiResults.ApiResult<seq<M>>)
    ensures payload.Raised? ==> r.IsError() && r.error == Some(payload.message)
    ensures r.IsEmpty() <==> payload.Ok? && EmptyData(payload.value)
    ensures r.HasValue() ==> && payload.Ok? && payload.value.JObj?
                             && Elements(Lookup(payload.value, "data")).Ok?
                             && var items := Elements(Lookup(payload.value, "data")).value;
                                && |r.value.value| == |items| > 0
                                && forall i :: 0 <= i < |items| ==> build(items[i]) == Ok(r.value.value[i])
    ensures (&& payload.Ok? && payload.value.JObj? && Lookup(payload.value, "data").JArr?
             && |Lookup(payload.value, "data").items| > 0
             && forall i :: 0 <= i < |Lookup(payload.value, "data").items| ==> build(Lookup(payload.value, "data").items[i]).Ok?)
            ==> r.HasValue()
    ensures r.IsError() ==> r.value.None?
    ensures payload.Ok? ==> FailsAfterFetch(payload.value, r)
    ensures (&& payload.Ok? && payload.value.JObj? && EmptyCheck(Lookup(payload.value, "data")) == Ok(false)
             && Elements(Lookup(payload.value, "data")).Ok?)
            ==> var items := Elements(Lookup(payload.value, "data")).value;
                (exists i :: 0 <= i < |items| && build(items[i]).Raised?) ==>
                  && r.IsError()
                  && exists i :: && 0 <= i < |items| && build(items[i]) == Raised(r.error.value)
                                 && forall j :: 0 <= j < i ==> build(items[j]).Ok?
  {
    Rescue(
      var tree :- payload;
      var data :- Index(tree, "data");
      var empty :- EmptyCheck(data);
      if empty then Ok(ApiResults.Empty()) else
      var items :- Elements(data);
      var models :- MapEach(items, build);
      Ok(ApiResults.Success(Some(models))))
  }

  /**
   * The single-resource operations after the fetch: a model built from `data` as a whole, or an
   * error; never the empty result.
   */
  function SingleResult<M>(payload: Outcome<Json>, build: Json -> Outcome<M>): (r: ApiResults.ApiResult<M>)
    ensures !r.IsEmpty()
    ensures payload.Raised? ==> r.IsError() && r.error == Some(payload.message)
    ensures r.HasValue() <==> payload.Ok? && payload.value.JObj? && build(Lookup(payload.value, "data")).Ok?
    ensures r.HasValue() ==> build(Lookup(payload.value, "data")) == Ok(r.value.value)
    ensures payload.Ok? && !payload.value.JObj? ==> r.IsError() && r.error == Some(Index(payload.value, "data").message)
    ensures payload.Ok? && payload.value.JObj? && build(Lookup(payload.value, "data")).Raised? ==>
              r.IsError() && r.error == Some(build(Lookup(payload.value, "data")).message)
  {
    Rescue(
      var tree :- payload;
      var data :- Index(tree, "data");
      var model :- build(data);
      Ok(ApiResults.Success(Some(model))))
  }

  /** `find_game` after the fetch: the empty result for an empty `data`, otherwise its first element built. */
  function FirstResult<M>(payload: Outcome<Json>, build: Json -> Outcome<M>): (r: ApiResults.ApiResult<M>)
    ensures payload.Raised? ==> r.IsError() && r.error == Some(payload.message)
    ensures r.IsEmpty() <==> payload.Ok? && EmptyData(payload.value)
    ensures r.HasValue() ==> && payload.Ok? && payload.value.JObj?
                             && Elements(Lookup(payload.value, "data")).Ok?
                             && var items := Elements(Lookup(payload.value, "data")).value;
                                |items| > 0 && build(items[0]) == Ok(r.value.value)
    ensures payload.Ok? ==> FailsAfterFetch(payload.value, r)
    ensures (&& payload.Ok? && payload.value.JObj? && EmptyCheck(Lookup(payload.value, "data")) == Ok(false)
             && Elements(Lookup(payload.value, "data")).Ok?)
            ==> var items := Elements(Lookup(payload.value, "data")).value;
                && |items| > 0
                && (build(items[0]).Ok? ==> r == ApiResults.Success(Some(build(items[0]).value)))
                && (build(items[0]).Raised? ==> r.IsError() && r.error == Some(build(items[0]).message))
  {
    Rescue(
      var tree :- payload;
      var data :- Index(tree, "data");
      var empty :- EmptyCheck(data);
      if empty then Ok(ApiResults.Empty()) else
      var items :- Elements(data);
      var model :- build(items[0]);
      Ok(ApiResults.Success(Some(model))))
  }

  /** ASCII case folding, standing for the Unicode folding of `casecmp?`. */
  function FoldCase(c: char): char {
    if 'A' <= c <= 'Z' then (c as int + 32) as char else c
  }

  /** `a.casecmp?(b)`. */
  predicate SameIgnoringCase(a: string, b: string) {
    |a| == |b| && forall i :: 0 <= i < |a| ==> FoldCase(a[i]) == FoldCase(b[i])
  }

  /** The category's name is a string equal to `name` up to case. */
  predicate NamedAs(c: CategoryModel.Category, name: string) {
    c.name.JStr? && SameIgnoringCase(c.name.s, name)
  }

  /** The category's name is a string other than `name` up to case: the search passes it over. */
  predicate NamedOtherwise(c: CategoryModel.Category, name: string) {
    c.name.JStr? && !SameIgnoringCase(c.name.s, name)
  }

  /** `cats[i]` is where the search stops with a match. */
  predicate FirstNamed(cats: seq<CategoryModel.Category>, name: string, i: int) {
    0 <= i < |cats| && NamedAs(cats[i], name) && forall j :: 0 <= j < i ==> NamedOtherwise(cats[j], name)
  }

  /** `cats[i]` is where the search stops by raising: its name is not a string, and no earlier name matched. */
  predicate FirstUnnamed(cats: seq<CategoryModel.Category>, name: string, i: int) {
    0 <= i < |cats| && !cats[i].name.JStr? && forall j :: 0 <= j < i ==> NamedOtherwise(cats[j], name)
  }

  /**
   * `cats.find { |cat| cat.name.casecmp?(name) }`: the first category named `name` up to case, or
   * none; a name that is not a string raises when the search reaches it.
   */
  function FindByName(cats: seq<CategoryModel.Category>, name: string): (r: Outcome<Option<CategoryModel.Category>>)
    ensures forall i :: FirstNamed(cats, name, i) ==> r == Ok(Some(cats[i]))
    ensures (forall i :: 0 <= i < |cats| ==> NamedOtherwise(cats[i], name)) ==> r == Ok(None)
    ensures r.Ok? && r.value.Some? ==> exists i :: FirstNamed(cats, name, i) && r.value.value == cats[i]
    ensures r.Raised? <==> exists i :: FirstUnnamed(cats, name, i)
  {
    if cats == [] then Ok(None)
    else if !cats[0].name.JStr? then
      assert FirstUnnamed(cats, name, 0);
      Raised(NoMethodError)
    else if SameIgnoringCase(cats[0].name.s, name) then
      assert FirstNamed(cats, name, 0);
      Ok(Some(cats[0]))
    else
      var r := FindByName(cats[1..], name);
      assert forall i :: FirstNamed(cats, name, i) ==> i > 0 && FirstNamed(cats[1..], name, i - 1);
      assert r.Ok? && r.value.Some? ==>
        exists i :: FirstNamed(cats[1..], name, i) && r.value.value == cats[1..][i] && FirstNamed(cats, name, i + 1);
      assert forall i :: FirstUnnamed(cats, name, i) ==> i > 0 && FirstUnnamed(cats[1..], name, i - 1);
      assert r.Raised? ==> exists i :: FirstUnnamed(cats[1..], name, i) && FirstUnnamed(cats, name, i + 1);
      r
  }

  /** `cats[i]` is the first full-game category. */
  predicate FirstFullGame(cats: seq<CategoryModel.Category>, i: int) {
    0 <= i < |cats| && cats[i].IsFullGame() && forall j :: 0 <= j < i ==> !cats[j].IsFullGame()
  }

  /** `cats.find(&:full_game?)`. */
  function FindFullGame(cats: seq<CategoryModel.Category>): (r: Option<CategoryModel.Category>)
    ensures forall i :: FirstFullGame(cats, i) ==> r == Some(cats[i])
    ensures r.None? <==> forall i :: 0 <= i < |cats| ==> !cats[i].IsFullGame()
  {
    if cats == [] then None
    else if cats[0].IsFullGame() then Some(cats[0])
    else
      var r := FindFullGame(cats[1..]);
      assert forall i :: FirstFullGame(cats, i) ==> i > 0 && FirstFullGame(cats[1..], i - 1);
      assert forall i :: 1 <= i < |cats| ==> cats[i] == cats[1..][i - 1];
      r
  }

  class SpeedrunClient {
    /** The base endpoint every relative path is appended to. */
    var baseUri: string

    /**
     * The constructor's promise that the base ends with `/`. Paths are appended to the base with at
     * most their own leading `/` removed, so this is what keeps a relative path a child of the base
     * (`RelativePathJoined`).
     */
    ghost predicate Valid()
      reads this
    {
      EndsWithSlash(baseUri)
    }

    /** `initialize`: the base URI is kept, with a `/` appended when it does not already end in one. */
    constructor (base: string)
      ensures Valid()
      ensures EndsWithSlash(base) ==> baseUri == base
      ensures !EndsWithSlash(base) ==> baseUri == base + "/"
    {
      baseUri := base;
      new;
      if !EndsWithSlash(baseUri) {
        baseUri := baseUri + "/";
      }
    }

    /**
     * `build_url(path, **query)` on a path computed before it: a link resolution that raised
     * stays raised, and a path that is not a string has no `start_with?`.
     */
    function Locate(path: Outcome<Json>, query: seq<(string, string)>): (r: Outcome<string>)
      reads this
      ensures path.Raised? ==> r.Raised?
      ensures path.Ok? && !path.value.JStr? ==> r.Raised?
      ensures path.Ok? && path.value.JStr? ==> r == Ok(UrlBuilder.BuildUrl(baseUri, path.value.s, query))
    {
      var p :- path;
      if p.JStr? then Ok(UrlBuilder.BuildUrl(baseUri, p.s, query)) else Raised(NoMethodError)
    }

    /** The URL `game` requests: the game's `self` link, or `games/{id}`. */
    function GameUrl(game: Target<GameModel.Game>): (r: Outcome<string>)
      reads this
      ensures game.ById? ==> r == Ok(UrlBuilder.BuildUrl(baseUri, "games/" + game.id, []))
      ensures game.ByModel? ==> r == Locate(game.model.SelfApi(), [])
    {
      match game
      case ById(id) => Locate(Ok(JStr("games/" + id)), [])
      case ByModel(g) => Locate(g.SelfApi(), [])
    }

    /** `game`: one game, or an error; never empty. */
    function Game(fetch: Transport, game: Target<GameModel.Game>): (r: ApiResults.ApiResult<GameModel.Game>)
      reads this
      requires Valid()
      ensures GameUrl(game).Raised? ==> r.IsError() && r.error == Some(GameUrl(game).message)
      ensures GameUrl(game).Ok? ==> r == SingleResult(Retrieve(fetch, GameUrl(game).value), GameModel.New)
      ensures !r.IsEmpty()
    {
      match GameUrl(game)
      case Raised(m) => Rescue(Raised(m))
      case Ok(url) => SingleResult(Retrieve(fetch, url), GameModel.New)
    }

    /** `find_game`: the first game the server lists for `name`, the empty result when it lists none. */
    function FindGame(fetch: Transport, name: string): (r: ApiResults.ApiResult<GameModel.Game>)
      reads this
      requires Valid()
      ensures var url := UrlBuilder.BuildUrl(baseUri, "games", [("name", name)]);
              r == FirstResult(Retrieve(fetch, url), GameModel.New)
    {
      FirstResult(Retrieve(fetch, UrlBuilder.BuildUrl(baseUri, "games", [("name", name)])), GameModel.New)
    }

    /** The URL `category` requests: the category's `self` link, or `categories/{id}`. */
    function CategoryUrl(category: Target<CategoryModel.Category>): (r: Outcome<string>)
      reads this
      ensures category.ById? ==> r == Ok(UrlBuilder.BuildUrl(baseUri, "categories/" + category.id, []))
      ensures category.ByModel? ==> r == Locate(category.model.SelfApi(), [])
    {
      match category
      case ById(id) => Locate(Ok(JStr("categories/" + id)), [])
      case ByModel(c) => Locate(c.SelfApi(), [])
    }

    /** `category`: one category, or an error; never empty. */
    function Category(fetch: Transport, category: Target<CategoryModel.Category>): (r: ApiResults.ApiResult<CategoryModel.Category>)
      reads this
      requires Valid()
      ensures CategoryUrl(category).Raised? ==> r.IsError() && r.error == Some(CategoryUrl(category).message)
      ensures CategoryUrl(category).Ok? ==> r == SingleResult(Retrieve(fetch, CategoryUrl(category).value), CategoryModel.New)
      ensures !r.IsEmpty()
    {
      match CategoryUrl(category)
      case Raised(m) => Rescue(Raised(m))
      case Ok(url) => SingleResult(Retrieve(fetch, url), CategoryModel.New)
    }

    /**
     * The URL `categories` requests: the game's `categories` link, or `games/{id}/categories`,
     * with `miscellaneous=yes` or `miscellaneous=no`.
     */
    function CategoriesUrl(game: Target<GameModel.Game>, includeMisc: bool): (r: Outcome<string>)
      reads this
      ensures game.ById? ==> r == Ok(UrlBuilder.BuildUrl(baseUri, "games/" + game.id + "/categories",
                                                         [("miscellaneous", if includeMisc then "yes" else "no")]))
      ensures game.ByModel? ==> r == Locate(game.model.CategoriesApi(),
                                            [("miscellaneous", if includeMisc then "yes" else "no")])
    {
      var query := [("miscellaneous", if includeMisc then "yes" else "no")];
      match game
      case ById(id) => Locate(Ok(JStr("games/" + id + "/categories")), query)
      case ByModel(g) => Locate(g.CategoriesApi(), query)
    }

    /** `categories`: a game's categories in server order, the empty result, or an error. */
    function Categories(fetch: Transport, game: Target<GameModel.Game>, includeMisc: bool)
      : (r: ApiResults.ApiResult<seq<CategoryModel.Category>>)
      reads this
      requires Valid()
      ensures CategoriesUrl(game, includeMisc).Raised? ==>
                r.IsError() && r.error == Some(CategoriesUrl(game, includeMisc).message)
      ensures CategoriesUrl(game, includeMisc).Ok? ==>
                r == ListResult(Retrieve(fetch, CategoriesUrl(game, includeMisc).value), CategoryModel.New)
      ensures !r.HasValue() ==> r.value.None?
    {
      match CategoriesUrl(game, includeMisc)
      case Raised(m) => Rescue(Raised(m))
      case Ok(url) => ListResult(Retrieve(fetch, url), CategoryModel.New)
    }

    /**
     * `find_category`: fetches the game's standard categories, then (unless that failed) its
     * miscellaneous ones too, and returns the first category of both lists, standard first, whose
     * name is `name` up to case. The method has no rescue: when either fetch found nothing, the
     * concatenation of nil raises out of it (`Raised`). `fetched` records, in order, the URL of
     * each listing the method asks for (none for a URL that could not be built).
     */
    method FindCategory(fetch: Transport, game: Target<GameModel.Game>, name: string)
      returns (r: Outcome<ApiResults.ApiResult<CategoryModel.Category>>, fetched: seq<string>)
      requires Valid()
      ensures var first := Categories(fetch, game, false);
              first.IsError() ==> r == Ok(ApiResults.Forward(first)) && fetched == Requested(CategoriesUrl(game, false))
      ensures !Categories(fetch, game, false).IsError() ==>
                fetched == Requested(CategoriesUrl(game, false)) + Requested(CategoriesUrl(game, true))
      ensures var first, second := Categories(fetch, game, false), Categories(fetch, game, true);
              !first.IsError() && second.IsError() ==> r == Ok(ApiResults.Forward(second))
      ensures var first, second := Categories(fetch, game, false), Categories(fetch, game, true);
              !first.IsError() && !second.IsError() && (first.IsEmpty() || second.IsEmpty()) ==> r.Raised?
      ensures var first, second := Categories(fetch, game, false), Categories(fetch, game, true);
              first.HasValue() && second.HasValue() ==>
                var all := first.value.value + second.value.value;
                && (forall i :: FirstNamed(all, name, i) ==> r == Ok(ApiResults.Success(Some(all[i]))))
                && ((forall i :: 0 <= i < |all| ==> NamedOtherwise(all[i], name)) ==> r == Ok(ApiResults.Empty()))
                && (r.Ok? && r.value.HasValue() ==> exists i :: FirstNamed(all, name, i) && r.value.value == Some(all[i]))
                && (r.Raised? <==> exists i :: FirstUnnamed(all, name, i))
    {
      fetched := Requested(CategoriesUrl(game, false));
      var categoryResult := Categories(fetch, game, false);
      if categoryResult.IsError() {
        r := Ok(ApiResults.Forward(categoryResult));
        return;
      }

      var allCategories := categoryResult.value;
      fetched := fetched + Requested(CategoriesUrl(game, true));
      categoryResult := Categories(fetch, game, true);
      if categoryResult.IsError() {
        r := Ok(ApiResults.Forward(categoryResult));
        return;
      }

      if allCategories.None? {
        r := Raised(NoMethodError);
        return;
      }
      if categoryResult.value.None? {
        r := Raised(TypeError);
        return;
      }
      var combined := allCategories.value + categoryResult.value.value;
      var found := FindByName(combined, name);
      match found
      case Raised(m) =>
        r := Raised(m);
      case Ok(None) =>
        r := Ok(ApiResults.Empty());
      case Ok(Some(c)) =>
        r := Ok(ApiResults.Success(Some(c)));
    }

    /**
     * `main_category`: the standard categories' result is handed back as it is when it holds no
     * value; otherwise the first full-game category (the empty result when there is none), or,
     * when `fullGame` is false, the first category of all.
     */
    function MainCategory(fetch: Transport, game: Target<GameModel.Game>, fullGame: bool)
      : (r: ApiResults.ApiResult<CategoryModel.Category>)
      reads this
      requires Valid()
      ensures var cats := Categories(fetch, game, false);
              !cats.HasValue() ==> r.error == cats.error && r.value.None?
      ensures var cats := Categories(fetch, game, false);
              cats.HasValue() && fullGame ==>
                && r.IsSuccess()
                && (forall i :: FirstFullGame(cats.value.value, i) ==> r.value == Some(cats.value.value[i]))
                && (r.IsEmpty() <==> forall i :: 0 <= i < |cats.value.value| ==> !cats.value.value[i].IsFullGame())
      ensures var cats := Categories(fetch, game, false);
              cats.HasValue() && !fullGame ==> |cats.value.value| > 0 && r == ApiResults.Success(Some(cats.value.value[0]))
    {
      var categoryResult := Categories(fetch, game, false);
      if !categoryResult.HasValue() then ApiResults.Forward(categoryResult)
      else
        var cats := categoryResult.value.value;
        ApiResults.Success(if fullGame then FindFullGame(cats) else First(cats))
    }

    /** The URL `category_records` requests: the category's `records` link, or `categories/{id}/records`. */
    function RecordsUrl(category: Target<CategoryModel.Category>): (r: Outcome<string>)
      reads this
      ensures category.ById? ==> r == Ok(UrlBuilder.BuildUrl(baseUri, "categories/" + category.id + "/records", []))
      ensures category.ByModel? ==> r == Locate(category.model.RecordsApi(), [])
    {
      match category
      case ById(id) => Locate(Ok(JStr("categories/" + id + "/records")), [])
      case ByModel(c) => Locate(c.RecordsApi(), [])
    }

    /** `category_records`: the category's leaderboards, the empty result, or an error. */
    function CategoryRecords(fetch: Transport, category: Target<CategoryModel.Category>)
      : (r: ApiResults.ApiResult<seq<LeaderboardModel.Leaderboard>>)
      reads this
      requires Valid()
      ensures RecordsUrl(category).Raised? ==> r.IsError() && r.error == Some(RecordsUrl(category).message)
      ensures RecordsUrl(category).Ok? ==> r == ListResult(Retrieve(fetch, RecordsUrl(category).value), LeaderboardModel.New)
    {
      match RecordsUrl(category)
      case Raised(m) => Rescue(Raised(m))
      case Ok(url) => ListResult(Retrieve(fetch, url), LeaderboardModel.New)
    }

    /** The URL `user` requests: the user's `self` link, or `users/{id}`. */
    function UserUrl(user: Target<UserModel.User>): (r: Outcome<string>)
      reads this
      ensures user.ById? ==> r == Ok(UrlBuilder.BuildUrl(baseUri, "users/" + user.id, []))
      ensures user.ByModel? ==> r == Locate(user.model.SelfApi(), [])
    {
      match user
      case ById(id) => Locate(Ok(JStr("users/" + id)), [])
      case ByModel(u) => Locate(u.SelfApi(), [])
    }

    /** `user`: one user, or an error; never empty. */
    function User(fetch: Transport, user: Target<UserModel.User>): (r: ApiResults.ApiResult<UserModel.User>)
      reads this
      requires Valid()
      ensures UserUrl(user).Raised? ==> r.IsError() && r.error == Some(UserUrl(user).message)
      ensures UserUrl(user).Ok? ==> r == SingleResult(Retrieve(fetch, UserUrl(user).value), UserModel.New)
      ensures !r.IsEmpty()
    {
      match UserUrl(user)
      case Raised(m) => Rescue(Raised(m))
      case Ok(url) => SingleResult(Retrieve(fetch, url), UserModel.New)
    }

    /** The URL `user_runs` requests: the user's `runs` link, or the runs listing filtered by `user`. */
    function UserRunsUrl(user: Target<UserModel.User>): (r: Outcome<string>)
      reads this
      ensures user.ById? ==> r == Ok(UrlBuilder.BuildUrl(baseUri, "runs", [("user", user.id)]))
      ensures user.ByModel? ==> r == Locate(user.model.RunsApi(), [])
    {
      match user
      case ById(id) => Locate(Ok(JStr("runs")), [("user", id)])
      case ByModel(u) => Locate(u.RunsApi(), [])
    }

    /** `user_runs`: the user's runs in server order, each without a rank; the empty result; or an error. */
    function UserRuns(fetch: Transport, user: Target<UserModel.User>): (r: ApiResults.ApiResult<seq<RunModel.Run>>)
      reads this
      requires Valid()
      ensures UserRunsUrl(user).Raised? ==> r.IsError() && r.error == Some(UserRunsUrl(user).message)
      ensures UserRunsUrl(user).Ok? ==> r == ListResult(Retrieve(fetch, UserRunsUrl(user).value), Unranked)
    {
      match UserRunsUrl(user)
      case Raised(m) => Rescue(Raised(m))
      case Ok(url) => ListResult(Retrieve(fetch, url), Unranked)
    }

    /** The URL `user_pbs` requests: the user's `personal-bests` link, or `users/{id}/personal-bests`. */
    function UserPbsUrl(user: Target<UserModel.User>): (r: Outcome<string>)
      reads this
      ensures user.ById? ==> r == Ok(UrlBuilder.BuildUrl(baseUri, "users/" + user.id + "/personal-bests", []))
      ensures user.ByModel? ==> r == Locate(user.model.PbsApi(), [])
    {
      match user
      case ById(id) => Locate(Ok(JStr("users/" + id + "/personal-bests")), [])
      case ByModel(u) => Locate(u.PbsApi(), [])
    }

    /** `user_pbs`: the user's personal bests, each ranked by its entry's place; the empty result; or an error. */
    function UserPbs(fetch: Transport, user: Target<UserModel.User>): (r: ApiResults.ApiResult<seq<RunModel.Run>>)
      reads this
      requires Valid()
      ensures UserPbsUrl(user).Raised? ==> r.IsError() && r.error == Some(UserPbsUrl(user).message)
      ensures UserPbsUrl(user).Ok? ==> r == ListResult(Retrieve(fetch, UserPbsUrl(user).value), RunModel.Ranked)
    {
      match UserPbsUrl(user)
      case Raised(m) => Rescue(Raised(m))
      case Ok(url) => ListResult(Retrieve(fetch, url), RunModel.Ranked)
    }
  }

  /** `Run.new(**run_hash)`: a run listed outside a ranking has no rank unless its record carries one. */
  function Unranked(h: Json): (r: Outcome<RunModel.Run>)
    ensures r.Ok? <==> HasAll(h, RunModel.Keywords) && RunModel.PlayerIds(Lookup(h, "players")).Ok?
    ensures r.Ok? && h.JObj? && !Has(h.members, "place") ==> r.value.place == JNull
    ensures r.Ok? && h.JObj? && Has(h.members, "place") ==> r.value.place == Lookup(h, "place")
  {
    RunModel.New(h, JNull)
  }

  /** `list.first`. */
  function First<T>(list: seq<T>): Option<T> {
    if |list| == 0 then None else Some(list[0])
  }

  /**
   * A relative path is appended to the base right after the base's own `/`: the URL is the base
   * followed by the path without its leading `/`, and the character joining them is the slash.
   */
  lemma RelativePathJoined(client: SpeedrunClient, path: string)
    requires client.Valid() && !UrlBuilder.StartsWith(path, client.baseUri)
    ensures var url := UrlBuilder.BuildUrl(client.baseUri, path, []);
            && url == client.baseUri + UrlBuilder.DeleteLeadingSlash(path)
            && url[|client.baseUri| - 1] == '/'
            && (path != [] && path[0] == '/' ==> url[|client.baseUri|..] == path[1..])
  {
  }

  /**
   * The standard categories' result depends on the transport only through the document it
   * returns for their URL: when that fetch fails, `find_category`'s outcome is the same whatever
   * the transport would return for the miscellaneous URL.
   */
  lemma FirstListingDecides(client: SpeedrunClient, fetch: Transport, other: Transport, game: Target<GameModel.Game>)
    requires client.Valid()
    requires client.CategoriesUrl(game, false).Ok? ==>
               fetch(client.CategoriesUrl(game, false).value) == other(client.CategoriesUrl(game, false).value)
    ensures client.Categories(fetch, game, false) == client.Categories(other, game, false)
  {
  }

  /** A response whose `data` is an empty array is the empty result; a transport failure is an error; never the other way round. */
  lemma EmptyIsNotError<M>(build: Json -> Outcome<M>, message: string)
    ensures ListResult(Ok(JObj([("data", JArr([]))])), build).IsEmpty()
    ensures !ListResult(Ok(JObj([("data", JArr([]))])), build).IsError()
    ensures ListResult(Raised(message), build).IsError()
    ensures !ListResult(Raised(message), build).IsEmpty()
  {
    assert Get([("data", JArr([]))], "data") == JArr([]);
  }

  /** A category whose links name no `records` relation makes `category_records` report an error, not escape. */
  lemma RecordsWithoutLinkIsError(client: SpeedrunClient, fetch: Transport, c: CategoryModel.Category)
    requires client.Valid() && HasLinks.NoLink(c.links, "records")
    ensures client.CategoryRecords(fetch, ByModel(c)).IsError()
  {
  }

  /** Searching `any%` among `Any%` and `100%` finds `Any%`. */
  lemma FindByNameIgnoresCase(anyPct: CategoryModel.Category, hundred: CategoryModel.Category)
    requires anyPct.name == JStr("Any%") && hundred.name == JStr("100%")
    ensures FindByName([anyPct, hundred], "any%") == Ok(Some(anyPct))
  {
    assert NamedAs(anyPct, "any%") by {
      assert FoldCase('A') == 'a';
    }
    assert FirstNamed([anyPct, hundred], "any%", 0);
  }

  /** The full-game search skips an individual-level category listed first. */
  lemma FullGameNotFirst(level: CategoryModel.Category, full: CategoryModel.Category)
    requires level.IsIndividualLevel() && full.IsFullGame()
    ensures FindFullGame([level, full]) == Some(full)
    ensures First([level, full]) == Some(level)
  {
    CategoryModel.KindsExclusive(level);
    assert FirstFullGame([level, full], 1);
  }
}
