/** `User`: a runner's public profile, built once from a normalized payload. */
module UserModel {
  import opened Wrappers
  import opened JsonTree
  import HasLinks

  /** The keyword arguments `User.new` requires; any other key is ignored. */
  const Keywords: seq<string> :=
    ["id", "names", "pronouns", "weblink", "location", "twitch", "youtube", "twitter", "assets", "links"]

  datatype User = User(id: Json, names: Json, pronouns: Json, weblink: Json, location: Json,
                       twitch: Json, youtube: Json, twitter: Json, assets: Json, links: Json) {

    /** `name`: `names[:international]`. */
    function Name(): (r: Outcome<Json>)
      ensures names.JObj? ==> r == Ok(Lookup(names, "international"))
      ensures !names.JObj? ==> r.Raised?
    {
      Index(names, "international")
    }

    /**
     * `country`: `location.dig(:country, :names, :international)`; nil as soon as a step below the
     * location is missing. A user whose `location` is nil fails: the dig has no receiver.
     */
    function Country(): (r: Outcome<Json>)
      ensures !location.JObj? ==> r.Raised?
      ensures location.JObj? && Lookup(location, "country") == JNull ==> r == Ok(JNull)
      ensures (&& location.JObj? && Lookup(location, "country").JObj?
               && Lookup(Lookup(location, "country"), "names") == JNull)
              ==> r == Ok(JNull)
      ensures (&& location.JObj? && Lookup(location, "country").JObj?
               && Lookup(Lookup(location, "country"), "names").JObj?)
              ==> r == Ok(Lookup(Lookup(Lookup(location, "country"), "names"), "international"))
    {
      Dig(location, [Key("country"), Key("names"), Key("international")])
    }

    /** `twitch`: nil when the account is nil, its `uri` otherwise. */
    function Twitch(): (r: Outcome<Json>)
      ensures twitch == JNull ==> r == Ok(JNull)
      ensures twitch.JObj? ==> r == Ok(Lookup(twitch, "uri"))
    {
      OptionalUri(twitch)
    }

    /** `youtube`: nil when the account is nil, its `uri` otherwise. */
    function Youtube(): (r: Outcome<Json>)
      ensures youtube == JNull ==> r == Ok(JNull)
      ensures youtube.JObj? ==> r == Ok(Lookup(youtube, "uri"))
    {
      OptionalUri(youtube)
    }

    /** `twitter`: nil when the account is nil, its `uri` otherwise. */
    function Twitter(): (r: Outcome<Json>)
      ensures twitter == JNull ==> r == Ok(JNull)
      ensures twitter.JObj? ==> r == Ok(Lookup(twitter, "uri"))
    {
      OptionalUri(twitter)
    }

    /** `icon`: `assets.dig(:icon, :uri)`. */
    function Icon(): (r: Outcome<Json>)
      ensures !assets.JObj? ==> r.Raised?
      ensures assets.JObj? && Lookup(assets, "icon") == JNull ==> r == Ok(JNull)
      ensures assets.JObj? && Lookup(assets, "icon").JObj? ==> r == Ok(Lookup(Lookup(assets, "icon"), "uri"))
    {
      Dig(assets, [Key("icon"), Key("uri")])
    }

    /** `self_api`: the uri of the earliest `self` link; fails when there is none or the link list is not a collection. */
    function SelfApi(): (r: Outcome<Json>)
      ensures HasLinks.Resolves(links, "self", r)
    {
      HasLinks.FindLink(links, "self")
    }

    /** `runs_api`: the uri of the earliest `runs` link; fails when there is none or the link list is not a collection. */
    function RunsApi(): (r: Outcome<Json>)
      ensures HasLinks.Resolves(links, "runs", r)
    {
      HasLinks.FindLink(links, "runs")
    }

    /**
     * `pbs_api`: the uri of the earliest `personal-bests` link; fails when there is none or the
     * link list is not a collection. The hyphen stays: normalization rewrites keys, not the
     * relation names stored as values.
     */
    function PbsApi(): (r: Outcome<Json>)
      ensures HasLinks.Resolves(links, "personal-bests", r)
    {
      HasLinks.FindLink(links, "personal-bests")
    }
  }

  /** `account&.dig(:uri)`: nil passes through, anything else is dug into. */
  function OptionalUri(account: Json): Outcome<Json> {
    if account == JNull then Ok(JNull) else Dig(account, [Key("uri")])
  }

  /** `User.new(**h)`: `h` must be a hash binding every keyword; each field is stored unchanged. */
  function New(h: Json): (r: Outcome<User>)
    ensures r.Ok? <==> HasAll(h, Keywords)
    ensures r.Ok? ==> && r.value.id == Lookup(h, "id") && r.value.names == Lookup(h, "names")
                      && r.value.pronouns == Lookup(h, "pronouns") && r.value.weblink == Lookup(h, "weblink")
                      && r.value.location == Lookup(h, "location") && r.value.twitch == Lookup(h, "twitch")
                      && r.value.youtube == Lookup(h, "youtube") && r.value.twitter == Lookup(h, "twitter")
                      && r.value.assets == Lookup(h, "assets") && r.value.links == Lookup(h, "links")
  {
    if !h.JObj? then Raised(TypeError)
    else if !HasAll(h, Keywords) then Raised(ArgumentError)
    else Ok(User(Lookup(h, "id"), Lookup(h, "names"), Lookup(h, "pronouns"), Lookup(h, "weblink"),
                 Lookup(h, "location"), Lookup(h, "twitch"), Lookup(h, "youtube"), Lookup(h, "twitter"),
                 Lookup(h, "assets"), Lookup(h, "links")))
  }

  /** A key that is not one of the keywords changes nothing about the user built. */
  lemma ExtraKeyIgnored(ps: seq<(string, Json)>, extra: (string, Json))
    requires extra.0 !in Keywords
    ensures New(JObj(ps + [extra])) == New(JObj(ps))
  {
    ExtraKey(ps, extra, Keywords);
  }
}
