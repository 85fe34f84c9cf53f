/** `Run`: one submitted run, built once from a normalized payload, optionally with its rank. */
module RunModel {
  import opened Wrappers
  import opened JsonTree

  /** The keyword arguments `Run.new` requires; `place` is optional and defaults to nil. */
  const Keywords: seq<string> :=
    ["id", "weblink", "game", "level", "category", "videos", "comment", "players", "date", "times"]

  /** `players` holds the players' ids, not their records. */
  datatype Run = Run(place: Json, id: Json, weblink: Json, game: Json, level: Json, category: Json,
                     videos: Json, comment: Json, players: seq<Json>, date: Json, times: Json) {

    /**
     * `video`: `videos.dig(:links, 0, :uri)`, the uri of the first video link; nil when there are
     * no links. A run whose `videos` is nil fails: the dig has no receiver.
     */
    function Video(): (r: Outcome<Json>)
      ensures !videos.JObj? ==> r.Raised?
      ensures videos.JObj? && Lookup(videos, "links") == JNull ==> r == Ok(JNull)
      ensures videos.JObj? && Lookup(videos, "links") == JArr([]) ==> r == Ok(JNull)
      ensures (&& videos.JObj? && Lookup(videos, "links").JArr? && |Lookup(videos, "links").items| > 0
               && Lookup(videos, "links").items[0].JObj?)
              ==> r == Ok(Lookup(Lookup(videos, "links").items[0], "uri"))
    {
      Dig(videos, [Key("links"), At(0), Key("uri")])
    }

    /** `time`: `times[:primary]`. */
    function Time(): (r: Outcome<Json>)
      ensures times.JObj? ==> r == Ok(Lookup(times, "primary"))
      ensures !times.JObj? ==> r.Raised?
    {
      Index(times, "primary")
    }
  }

  /** `players.map { |player| player[:id] }`. */
  function PlayerIds(players: Json): (r: Outcome<seq<Json>>)
    ensures r.Ok? <==> Elements(players).Ok? && forall i :: 0 <= i < |Elements(players).value| ==> Elements(players).value[i].JObj?
    ensures r.Ok? ==> && |r.value| == |Elements(players).value|
                      && forall i :: 0 <= i < |r.value| ==> r.value[i] == Lookup(Elements(players).value[i], "id")
  {
    var es :- Elements(players);
    MapEach(es, (p: Json) => Index(p, "id"))
  }

  /**
   * `Run.new(place: place, **h)`: `h` must be a hash binding every keyword; the players become their
   * ids, in order; the other fields are stored unchanged. The rank is `place` unless `h` itself
   * has a `place` key, whose value then wins (the double splat is merged last).
   */
  function New(h: Json, place: Json): (r: Outcome<Run>)
    ensures r.Ok? <==> HasAll(h, Keywords) && PlayerIds(Lookup(h, "players")).Ok?
    ensures r.Ok? ==> r.value.players == PlayerIds(Lookup(h, "players")).value
    ensures r.Ok? && !Has(h.members, "place") ==> r.value.place == place
    ensures r.Ok? && Has(h.members, "place") ==> r.value.place == Lookup(h, "place")
    ensures r.Ok? ==> && r.value.id == Lookup(h, "id") && r.value.weblink == Lookup(h, "weblink")
                      && r.value.game == Lookup(h, "game") && r.value.level == Lookup(h, "level")
                      && r.value.category == Lookup(h, "category") && r.value.videos == Lookup(h, "videos")
                      && r.value.comment == Lookup(h, "comment") && r.value.date == Lookup(h, "date")
                      && r.value.times == Lookup(h, "times")
  {
    if !h.JObj? then Raised(TypeError)
    else if !HasAll(h, Keywords) then Raised(ArgumentError)
    else
      var players :- PlayerIds(Lookup(h, "players"));
      var rank := if Has(h.members, "place") then Lookup(h, "place") else place;
      Ok(Run(rank, Lookup(h, "id"), Lookup(h, "weblink"), Lookup(h, "game"), Lookup(h, "level"),
             Lookup(h, "category"), Lookup(h, "videos"), Lookup(h, "comment"), players,
             Lookup(h, "date"), Lookup(h, "times")))
  }

  /**
   * `Run.new(place: entry[:place], **entry[:run])`, how a leaderboard or a personal-bests listing
   * builds a ranked run from its `{place, run}` entry.
   */
  function Ranked(entry: Json): (r: Outcome<Run>)
    ensures !entry.JObj? ==> r.Raised?
    ensures entry.JObj? ==> r == New(Lookup(entry, "run"), Lookup(entry, "place"))
  {
    if entry.JObj? then New(Lookup(entry, "run"), Lookup(entry, "place"))
    else Index(entry, "place").PropagateFailure()
  }

  /** A run listed outside a ranking, built from a record with no `place` key, has no rank. */
  lemma UnrankedHasNoPlace(h: Json)
    requires New(h, JNull).Ok? && !Has(h.members, "place")
    ensures New(h, JNull).value.place == JNull
  {
  }

  /** A run whose `videos` is nil has no video to report: asking for it fails. */
  lemma VideoOfNilVideosFails(run: Run)
    requires run.videos == JNull
    ensures run.Video().Raised?
  {
  }

  /** A key that is neither a keyword nor `place` changes nothing about the run built. */
  lemma ExtraKeyIgnored(ps: seq<(string, Json)>, extra: (string, Json), place: Json)
    requires extra.0 !in Keywords && extra.0 != "place"
    ensures New(JObj(ps + [extra]), place) == New(JObj(ps), place)
  {
    ExtraKey(ps, extra, Keywords + ["place"]);
    assert Has(ps + [extra], "place") <==> Has(ps, "place") by {
      if Has(ps + [extra], "place") {
        var i :| 0 <= i < |ps + [extra]| && (ps + [extra])[i].0 == "place";
        assert i < |ps|;
      }
      if Has(ps, "place") {
        var i :| 0 <= i < |ps| && ps[i].0 == "place";
        assert (ps + [extra])[i].0 == "place";
      }
    }
  }
}
