/** `Game`: a game as the service describes it, built once from a normalized payload. */
module GameModel {
  import opened Wrappers
  import opened JsonTree
  import HasLinks

  /** The keyword arguments `Game.new` requires; any other key is ignored. */
  const Keywords: seq<string> :=
    ["id", "names", "abbreviation", "weblink", "released", "release_date", "platforms",
     "developers", "publishers", "assets", "links"]

  datatype Game = Game(id: Json, names: Json, abbreviation: Json, weblink: Json, released: Json,
                       releaseDate: Json, platforms: Json, developers: Json, publishers: Json,
                       assets: Json, links: Json) {

    /** `name`: `names[:international]`. */
    function Name(): (r: Outcome<Json>)
      ensures names.JObj? ==> r == Ok(Lookup(names, "international"))
      ensures !names.JObj? ==> r.Raised?
    {
      Index(names, "international")
    }

    /** `logo`: `assets.dig(:logo, :uri)`; nil when there is no logo entry. */
    function Logo(): (r: Outcome<Json>)
      ensures !assets.JObj? ==> r.Raised?
      ensures assets.JObj? && Lookup(assets, "logo") == JNull ==> r == Ok(JNull)
      ensures assets.JObj? && Lookup(assets, "logo").JObj? ==> r == Ok(Lookup(Lookup(assets, "logo"), "uri"))
    {
      Dig(assets, [Key("logo"), Key("uri")])
    }

    /** `self_api`: the uri of the earliest `self` link; fails when there is none or the link list is not a collection. */
    function SelfApi(): (r: Outcome<Json>)
      ensures HasLinks.Resolves(links, "self", r)
    {
      HasLinks.FindLink(links, "self")
    }

    /** `categories_api`: the uri of the earliest `categories` link; fails when there is none or the link list is not a collection. */
    function CategoriesApi(): (r: Outcome<Json>)
      ensures HasLinks.Resolves(links, "categories", r)
    {
      HasLinks.FindLink(links, "categories")
    }

    /** `records_api`: the uri of the earliest `records` link; fails when there is none or the link list is not a collection. */
    function RecordsApi(): (r: Outcome<Json>)
      ensures HasLinks.Resolves(links, "records", r)
    {
      HasLinks.FindLink(links, "records")
    }
  }

  /** `Game.new(**h)`: `h` must be a hash binding every keyword; each field is stored unchanged. */
  function New(h: Json): (r: Outcome<Game>)
    ensures r.Ok? <==> HasAll(h, Keywords)
    ensures r.Ok? ==> && r.value.id == Lookup(h, "id") && r.value.names == Lookup(h, "names")
                      && r.value.abbreviation == Lookup(h, "abbreviation") && r.value.weblink == Lookup(h, "weblink")
                      && r.value.released == Lookup(h, "released") && r.value.releaseDate == Lookup(h, "release_date")
                      && r.value.platforms == Lookup(h, "platforms") && r.value.developers == Lookup(h, "developers")
                      && r.value.publishers == Lookup(h, "publishers") && r.value.assets == Lookup(h, "assets")
                      && r.value.links == Lookup(h, "links")
  {
    if !h.JObj? then Raised(TypeError)
    else if !HasAll(h, Keywords) then Raised(ArgumentError)
    else Ok(Game(Lookup(h, "id"), Lookup(h, "names"), Lookup(h, "abbreviation"), Lookup(h, "weblink"),
                 Lookup(h, "released"), Lookup(h, "release_date"), Lookup(h, "platforms"),
                 Lookup(h, "developers"), Lookup(h, "publishers"), Lookup(h, "assets"), Lookup(h, "links")))
  }

  /** A key that is not one of the keywords changes nothing about the game built. */
  lemma ExtraKeyIgnored(ps: seq<(string, Json)>, extra: (string, Json))
    requires extra.0 !in Keywords
    ensures New(JObj(ps + [extra])) == New(JObj(ps))
  {
    ExtraKey(ps, extra, Keywords);
  }
}
