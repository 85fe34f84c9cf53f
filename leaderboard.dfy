/** `Leaderboard`: the ranked runs of one game, category, level and platform. */
module LeaderboardModel {
  import opened Wrappers
  import opened JsonTree
  import HasLinks
  import RunModel

  /** The keyword arguments `Leaderboard.new` requires; any other key is ignored. */
  const Keywords: seq<string> := ["weblink", "game", "category", "level", "platform", "runs", "links"]

  datatype Leaderboard = Leaderboard(weblink: Json, game: Json, category: Json, level: Json,
                                     platform: Json, runs: seq<RunModel.Run>, links: Json) {

    /** `game_api`: the uri of the earliest `game` link; fails when there is none or the link list is not a collection. */
    function GameApi(): (r: Outcome<Json>)
      ensures HasLinks.Resolves(links, "game", r)
    {
      HasLinks.FindLink(links, "game")
    }

    /** `category_api`: the uri of the earliest `category` link; fails when there is none or the link list is not a collection. */
    function CategoryApi(): (r: Outcome<Json>)
      ensures HasLinks.Resolves(links, "category", r)
    {
      HasLinks.FindLink(links, "category")
    }
  }

  /**
   * `Leaderboard.new(**h)`: one run per `{place, run}` entry of `runs`, in the same order, each
   * ranked by its entry's place; the other fields are stored unchanged.
   */
  function New(h: Json): (r: Outcome<Leaderboard>)
    ensures r.Ok? <==> && HasAll(h, Keywords) && Elements(Lookup(h, "runs")).Ok?
                       && forall i :: 0 <= i < |Elements(Lookup(h, "runs")).value| ==>
                            RunModel.Ranked(Elements(Lookup(h, "runs")).value[i]).Ok?
    ensures r.Ok? ==> && |r.value.runs| == |Elements(Lookup(h, "runs")).value|
                      && forall i :: 0 <= i < |r.value.runs| ==>
                           RunModel.Ranked(Elements(Lookup(h, "runs")).value[i]) == Ok(r.value.runs[i])
    ensures r.Ok? ==> && r.value.weblink == Lookup(h, "weblink") && r.value.game == Lookup(h, "game")
                      && r.value.category == Lookup(h, "category") && r.value.level == Lookup(h, "level")
                      && r.value.platform == Lookup(h, "platform") && r.value.links == Lookup(h, "links")
  {
    if !h.JObj? then Raised(TypeError)
    else if !HasAll(h, Keywords) then Raised(ArgumentError)
    else
      var entries :- Elements(Lookup(h, "runs"));
      var runs :- MapEach(entries, RunModel.Ranked);
      Ok(Leaderboard(Lookup(h, "weblink"), Lookup(h, "game"), Lookup(h, "category"), Lookup(h, "level"),
                     Lookup(h, "platform"), runs, Lookup(h, "links")))
  }

  /**
   * Run `i` of a leaderboard is entry `i`'s run record, ranked by entry `i`'s place (unless the
   * record carries a place of its own).
   */
  lemma RunsFollowEntries(h: Json, i: int)
    requires New(h).Ok? && 0 <= i < |New(h).value.runs|
    ensures var entry := Elements(Lookup(h, "runs")).value[i];
            var run := New(h).value.runs[i];
            && entry.JObj?
            && run.id == Lookup(Lookup(entry, "run"), "id")
            && (!Has(Lookup(entry, "run").members, "place") ==> run.place == Lookup(entry, "place"))
  {
    var entry := Elements(Lookup(h, "runs")).value[i];
    assert RunModel.Ranked(entry) == Ok(New(h).value.runs[i]);
  }

  /** A key that is not one of the keywords changes nothing about the leaderboard built. */
  lemma ExtraKeyIgnored(ps: seq<(string, Json)>, extra: (string, Json))
    requires extra.0 !in Keywords
    ensures New(JObj(ps + [extra])) == New(JObj(ps))
  {
    ExtraKey(ps, extra, Keywords);
  }
}
