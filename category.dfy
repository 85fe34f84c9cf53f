/** `Category`: a game's category, built once from a normalized payload and never changed. */
module CategoryModel {
  import opened Wrappers
  import opened JsonTree
  import HasLinks

  const IndividualLevelType: string := "per-level"
  const FullGameType: string := "per-game"

  /** The keyword arguments `Category.new` requires; any other key is accepted and ignored. */
  const Keywords: seq<string> := ["id", "name", "weblink", "type", "rules", "links"]

  /** `kind` holds the payload's `type` field. */
  datatype Category = Category(id: Json, name: Json, weblink: Json, kind: Json, rules: Json, links: Json) {

    /** `individual_level?` (alias `il?`). */
    predicate IsIndividualLevel() {
      kind == JStr(IndividualLevelType)
    }

    /** `full_game?`. */
    predicate IsFullGame() {
      kind == JStr(FullGameType)
    }

    /** `self_api`: the uri of the earliest `self` link; fails when there is none or the link list is not a collection. */
    function SelfApi(): (r: Outcome<Json>)
      ensures HasLinks.Resolves(links, "self", r)
    {
      HasLinks.FindLink(links, "self")
    }

    /** `game_api`: the uri of the earliest `game` link; fails when there is none or the link list is not a collection. */
    function GameApi(): (r: Outcome<Json>)
      ensures HasLinks.Resolves(links, "game", r)
    {
      HasLinks.FindLink(links, "game")
    }

    /** `records_api`: the uri of the earliest `records` link; fails when there is none or the link list is not a collection. */
    function RecordsApi(): (r: Outcome<Json>)
      ensures HasLinks.Resolves(links, "records", r)
    {
      HasLinks.FindLink(links, "records")
    }
  }

  /**
   * `Category.new(**h)`: `h` must be a hash binding every keyword (a value may be nil); each
   * field is the value stored under its keyword, unchanged.
   */
  function New(h: Json): (r: Outcome<Category>)
    ensures r.Ok? <==> HasAll(h, Keywords)
    ensures r.Ok? ==> && r.value.id == Lookup(h, "id") && r.value.name == Lookup(h, "name")
                      && r.value.weblink == Lookup(h, "weblink") && r.value.kind == Lookup(h, "type")
                      && r.value.rules == Lookup(h, "rules") && r.value.links == Lookup(h, "links")
  {
    if !h.JObj? then Raised(TypeError)
    else if !HasAll(h, Keywords) then Raised(ArgumentError)
    else Ok(Category(Lookup(h, "id"), Lookup(h, "name"), Lookup(h, "weblink"),
                     Lookup(h, "type"), Lookup(h, "rules"), Lookup(h, "links")))
  }

  /** A category is never both a full-game and an individual-level category. */
  lemma KindsExclusive(c: Category)
    ensures !(c.IsFullGame() && c.IsIndividualLevel())
  {
  }

  /** A key that is not one of the keywords changes nothing about the category built. */
  lemma ExtraKeyIgnored(ps: seq<(string, Json)>, extra: (string, Json))
    requires extra.0 !in Keywords
    ensures New(JObj(ps + [extra])) == New(JObj(ps))
  {
    ExtraKey(ps, extra, Keywords);
  }
}
