/**
 * `symbolize_keys`: rewrites every hash key of a parsed payload, hyphens becoming underscores,
 * recursing into hash values and array items; every other value is returned as it is.
 */
module KeyNormalizer {
  import opened JsonTree

  /** `key.gsub('-', '_')`. */
  function Underscore(key: string): (r: string)
    ensures |r| == |key|
    ensures forall i :: 0 <= i < |key| ==> r[i] == (if key[i] == '-' then '_' else key[i])
  {
    if key == [] then [] else [if key[0] == '-' then '_' else key[0]] + Underscore(key[1..])
  }

  predicate NoHyphen(s: string) {
    forall i :: 0 <= i < |s| ==> s[i] != '-'
  }

  /** A tree in canonical form: no hash key anywhere in it contains a hyphen. */
  predicate Canonical(j: Json) {
    match j
    case JArr(items) => forall i :: 0 <= i < |items| ==> Canonical(items[i])
    case JObj(ps) => forall i :: 0 <= i < |ps| ==> NoHyphen(ps[i].0) && Canonical(ps[i].1)
    case _ => true
  }

  function Normalize(j: Json): Json {
    match j
    case JArr(items) =>
      JArr(seq(|items|, i requires 0 <= i < |items| => Normalize(items[i])))
    case JObj(ps) =>
      JObj(seq(|ps|, i requires 0 <= i < |ps| => (Underscore(ps[i].0), Normalize(ps[i].1))))
    case _ => j
  }

  /**
   * Normalization keeps the shape of the tree: the same kind of node, arrays of the same
   * length and order, hashes with the same pairs in the same order, each key rewritten and
   * each value normalized; strings, numbers, booleans and nil (a link's `rel` among them) are unchanged.
   */
  lemma NormalizeShape(j: Json)
    ensures j.JArr? <==> Normalize(j).JArr?
    ensures j.JObj? <==> Normalize(j).JObj?
    ensures j.JArr? ==> |Normalize(j).items| == |j.items|
                        && forall i :: 0 <= i < |j.items| ==> Normalize(j).items[i] == Normalize(j.items[i])
    ensures j.JObj? ==> |Normalize(j).members| == |j.members|
                        && forall i :: 0 <= i < |j.members| ==>
                             Normalize(j).members[i] == (Underscore(j.members[i].0), Normalize(j.members[i].1))
    ensures !j.JArr? && !j.JObj? ==> Normalize(j) == j
  {
  }

  lemma UnderscoreNoHyphen(key: string)
    ensures NoHyphen(Underscore(key))
  {
  }

  lemma UnderscoreIdentity(key: string)
    requires NoHyphen(key)
    ensures Underscore(key) == key
  {
  }

  /** A key spelled without `_` or `-` (such as "rel" or "uri") is only ever reached from itself. */
  lemma UnderscoreOnlyFromItself(key: string, t: string)
    requires forall i :: 0 <= i < |t| ==> t[i] != '_' && t[i] != '-'
    ensures Underscore(key) == t <==> key == t
  {
    if Underscore(key) == t {
      forall i | 0 <= i < |key| ensures key[i] == t[i] {
        assert Underscore(key)[i] == t[i];
      }
    }
  }

  /** Every normalized payload is canonical. */
  lemma {:induction false} NormalizeCanonical(j: Json)
    ensures Canonical(Normalize(j))
  {
    match j
    case JArr(items) =>
      forall i | 0 <= i < |items| ensures Canonical(Normalize(j).items[i]) {
        NormalizeCanonical(items[i]);
      }
    case JObj(ps) =>
      forall i | 0 <= i < |ps|
        ensures NoHyphen(Normalize(j).members[i].0) && Canonical(Normalize(j).members[i].1)
      {
        UnderscoreNoHyphen(ps[i].0);
        NormalizeCanonical(ps[i].1);
      }
    case _ =>
  }

  /** A canonical tree is left exactly as it is. */
  lemma {:induction false} NormalizeCanonicalIdentity(j: Json)
    requires Canonical(j)
    ensures Normalize(j) == j
  {
    match j
    case JArr(items) =>
      forall i | 0 <= i < |items| ensures Normalize(j).items[i] == items[i] {
        NormalizeCanonicalIdentity(items[i]);
      }
    case JObj(ps) =>
      forall i | 0 <= i < |ps| ensures Normalize(j).members[i] == ps[i] {
        UnderscoreIdentity(ps[i].0);
        NormalizeCanonicalIdentity(ps[i].1);
      }
    case _ =>
  }

  /** Normalizing twice is normalizing once. */
  lemma NormalizeIdempotent(j: Json)
    ensures Normalize(Normalize(j)) == Normalize(j)
  {
    NormalizeCanonical(j);
    NormalizeCanonicalIdentity(Normalize(j));
  }

  /**
   * A field is found under its underscore spelling, its value normalized, provided no other key of
   * the hash folds to the same spelling (`release-date` is read as `release_date`).
   */
  lemma {:induction false} LookupAfterNormalize(ps: seq<(string, Json)>, key: string)
    requires forall i :: 0 <= i < |ps| && Underscore(ps[i].0) == Underscore(key) ==> ps[i].0 == key
    ensures Lookup(Normalize(JObj(ps)), Underscore(key)) == Normalize(Get(ps, key))
    decreases |ps|
  {
    var qs := Normalize(JObj(ps)).members;
    if |ps| > 0 {
      var n := |ps| - 1;
      var init := ps[..n];
      assert Normalize(JObj(init)).members == qs[..n];
      if ps[n].0 != key {
        assert qs[n].0 != Underscore(key);
        LookupAfterNormalize(init, key);
      }
    }
  }
}
