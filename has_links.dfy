/**
 * `HasLinks#find_link`: the uri of the first link in an object's link list whose `rel` is the
 * relation asked for. A list without one makes the lookup fail (`nil[:uri]`).
 */
module HasLinks {
  import opened Wrappers
  import opened JsonTree
  import KeyNormalizer

  /** The block `link[:rel] == link_name` is true of `link`. */
  predicate Matches(link: Json, rel: string) {
    link.JObj? && Get(link.members, "rel") == JStr(rel)
  }

  /** A link the scan evaluates and passes over: a hash with another relation (anything else raises). */
  predicate PassedOver(link: Json, rel: string) {
    link.JObj? && Get(link.members, "rel") != JStr(rel)
  }

  /** `es[i]` is the link `find` stops at: it matches, and every link before it was passed over. */
  predicate FirstIn(es: seq<Json>, rel: string, i: int) {
    0 <= i < |es| && Matches(es[i], rel) && forall j :: 0 <= j < i ==> PassedOver(es[j], rel)
  }

  /** `links.find { |link| link[:rel] == rel }[:uri]`, over the elements of the link list. */
  function FindIn(es: seq<Json>, rel: string): (r: Outcome<Json>)
    ensures forall i :: FirstIn(es, rel, i) ==> r == Ok(Get(es[i].members, "uri"))
    ensures (forall i :: 0 <= i < |es| ==> !Matches(es[i], rel)) ==> r.Raised?
    ensures r.Ok? ==> exists i :: FirstIn(es, rel, i) && r.value == Get(es[i].members, "uri")
  {
    if es == [] then Raised(NoMethodError)
    else match Index(es[0], "rel")
      case Raised(m) => Raised(m)
      case Ok(v) =>
        if v == JStr(rel) then
          assert FirstIn(es, rel, 0);
          Index(es[0], "uri")
        else
          var r := FindIn(es[1..], rel);
          assert forall i :: FirstIn(es, rel, i) ==> i > 0 && FirstIn(es[1..], rel, i - 1);
          assert r.Ok? ==> exists i :: FirstIn(es[1..], rel, i) && r.value == Get(es[1..][i].members, "uri")
                                     && FirstIn(es, rel, i + 1);
          r
  }

  /** The link list names relation `rel` and its earliest such link is element `i`. */
  predicate FirstLink(links: Json, rel: string, i: int) {
    Elements(links).Ok? && FirstIn(Elements(links).value, rel, i)
  }

  /** The uri of element `i` of the link list. */
  function LinkUri(links: Json, i: int): Json {
    if Elements(links).Ok? && 0 <= i < |Elements(links).value|
    then Lookup(Elements(links).value[i], "uri") else JNull
  }

  /** No link of the list has relation `rel`. */
  predicate NoLink(links: Json, rel: string) {
    Elements(links).Ok? && forall i :: 0 <= i < |Elements(links).value| ==> !Matches(Elements(links).value[i], rel)
  }

  /**
   * What `find_link(rel)` promises of its outcome `r`: the uri of the earliest link with relation
   * `rel`, whatever links share it; a list with none, or a link list that is not a collection,
   * fails; and a success is always such an earliest link's uri.
   */
  ghost predicate Resolves(links: Json, rel: string, r: Outcome<Json>) {
    && (forall i :: FirstLink(links, rel, i) ==> r == Ok(LinkUri(links, i)))
    && (NoLink(links, rel) ==> r.Raised?)
    && (!links.JArr? && !links.JObj? ==> r.Raised?)
    && (r.Ok? ==> exists i :: FirstLink(links, rel, i) && r.value == LinkUri(links, i))
  }

  /** `find_link(rel)` on an object whose link list is `links`. */
  function FindLink(links: Json, rel: string): (r: Outcome<Json>)
    ensures Resolves(links, rel, r)
  {
    var es :- Elements(links);
    assert forall i :: FirstIn(es, rel, i) ==> FirstLink(links, rel, i) && LinkUri(links, i) == Get(es[i].members, "uri");
    FindIn(es, rel)
  }

  /** The relation and uri of a link survive normalization: `rel` and `uri` are spelled without hyphens. */
  lemma NormalizedLinkFields(link: Json, rel: string)
    requires link.JObj?
    ensures Matches(KeyNormalizer.Normalize(link), rel) <==> Matches(link, rel)
    ensures Get(KeyNormalizer.Normalize(link).members, "uri") == KeyNormalizer.Normalize(Get(link.members, "uri"))
  {
    var ps := link.members;
    forall key | key in ["rel", "uri"]
      ensures KeyNormalizer.Underscore(key) == key
      ensures forall i :: 0 <= i < |ps| && KeyNormalizer.Underscore(ps[i].0) == KeyNormalizer.Underscore(key) ==> ps[i].0 == key
    {
      KeyNormalizer.UnderscoreIdentity(key);
      forall i | 0 <= i < |ps| {
        KeyNormalizer.UnderscoreOnlyFromItself(ps[i].0, key);
      }
    }
    KeyNormalizer.LookupAfterNormalize(ps, "rel");
    KeyNormalizer.LookupAfterNormalize(ps, "uri");
    KeyNormalizer.NormalizeShape(Get(ps, "rel"));
  }

  function NormalizeEach(es: seq<Json>): (ns: seq<Json>)
    ensures |ns| == |es| && forall i :: 0 <= i < |es| ==> ns[i] == KeyNormalizer.Normalize(es[i])
  {
    seq(|es|, i requires 0 <= i < |es| => KeyNormalizer.Normalize(es[i]))
  }

  lemma {:induction false} FindInNormalized(es: seq<Json>, rel: string)
    ensures FindIn(NormalizeEach(es), rel).Ok? <==> FindIn(es, rel).Ok?
    ensures FindIn(es, rel).Ok? ==> FindIn(NormalizeEach(es), rel).value == KeyNormalizer.Normalize(FindIn(es, rel).value)
  {
    var ns := NormalizeEach(es);
    if es != [] {
      KeyNormalizer.NormalizeShape(es[0]);
      if es[0].JObj? {
        NormalizedLinkFields(es[0], rel);
        assert ns[1..] == NormalizeEach(es[1..]);
        FindInNormalized(es[1..], rel);
      }
    }
  }

  /**
   * Normalizing a payload never changes which link `find_link` resolves, nor whether it resolves
   * one: keys are rewritten but relation values such as `personal-bests` are not.
   */
  lemma FindLinkNormalized(links: Json, rel: string)
    ensures FindLink(KeyNormalizer.Normalize(links), rel).Ok? <==> FindLink(links, rel).Ok?
    ensures FindLink(links, rel).Ok? ==>
              FindLink(KeyNormalizer.Normalize(links), rel).value == KeyNormalizer.Normalize(FindLink(links, rel).value)
  {
    var n := KeyNormalizer.Normalize(links);
    KeyNormalizer.NormalizeShape(links);
    if links.JArr? {
      assert Elements(n).value == NormalizeEach(links.items);
      FindInNormalized(links.items, rel);
    } else if links.JObj? {
      var es, ns := Elements(links).value, Elements(n).value;
      assert es != [] ==> !es[0].JObj?;
      assert ns != [] ==> !ns[0].JObj?;
    }
  }
}
