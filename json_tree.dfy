/**
 * The parsed JSON tree the client works on, with the Ruby operations the source applies to it:
 * `hash[:key]`, `dig`, `empty?`, and the elements `map`/`find` iterate over.
 * Ruby's nil is `JNull`, an absent hash key reads as nil.
 */
module JsonTree {
  import opened Wrappers

  /** A hash is its key/value pairs in insertion order; looking a key up finds its last binding. */
  datatype Json =
    | JNull
    | JBool(b: bool)
    | JNum(n: real)
    | JStr(s: string)
    | JArr(items: seq<Json>)
    | JObj(members: seq<(string, Json)>)

  /** The value bound to `key` in a hash: the last binding wins, nil when there is none. */
  function Get(members: seq<(string, Json)>, key: string): Json
    decreases |members|
  {
    if |members| == 0 then JNull
    else if members[|members| - 1].0 == key then members[|members| - 1].1
    else Get(members[..|members| - 1], key)
  }

  /** `members` binds `key` (as a keyword argument `**hash` would supply it). */
  predicate Has(members: seq<(string, Json)>, key: string) {
    exists i :: 0 <= i < |members| && members[i].0 == key
  }

  /** The value under `key` when `j` is a hash, nil otherwise (for use in contracts). */
  function Lookup(j: Json, key: string): Json {
    if j.JObj? then Get(j.members, key) else JNull
  }

  /** `j` is a hash that binds every key in `keys`. */
  predicate HasAll(j: Json, keys: seq<string>) {
    j.JObj? && forall k :: k in keys ==> Has(j.members, k)
  }

  /** Ruby `j[:key]`: a lookup on a hash; nil, strings, numbers, booleans and arrays raise. */
  function Index(j: Json, key: string): (r: Outcome<Json>)
    ensures j.JObj? ==> r == Ok(Lookup(j, key))
    ensures !j.JObj? ==> r.Raised?
  {
    match j
    case JObj(ps) => Ok(Get(ps, key))
    case JNull => Raised(NoMethodError)
    case JBool(_) => Raised(NoMethodError)
    case _ => Raised(TypeError)
  }

  /**
   * What `map` and `find` iterate over: an array's items, or a hash's `[key, value]` pairs.
   * Any other value has no such method.
   */
  function Elements(j: Json): (r: Outcome<seq<Json>>)
    ensures j.JArr? ==> r == Ok(j.items)
    ensures j.JObj? ==> r.Ok? && |r.value| == |j.members|
                        && forall i :: 0 <= i < |r.value| ==> r.value[i].JArr?
    ensures !j.JArr? && !j.JObj? ==> r.Raised?
  {
    match j
    case JArr(items) => Ok(items)
    case JObj(ps) => Ok(seq(|ps|, i requires 0 <= i < |ps| => JArr([JStr(ps[i].0), ps[i].1])))
    case _ => Raised(NoMethodError)
  }

  /** Ruby `j.empty?`: defined on arrays, hashes and strings only. */
  function EmptyCheck(j: Json): (r: Outcome<bool>)
    ensures r == Ok(true) <==> j == JArr([]) || j == JObj([]) || j == JStr([])
    ensures r.Raised? <==> !(j.JArr? || j.JObj? || j.JStr?)
    ensures r == Ok(false) ==> (j.JArr? ==> |j.items| > 0) && (j.JObj? ==> |j.members| > 0)
  {
    match j
    case JArr(items) => Ok(|items| == 0)
    case JObj(ps) => Ok(|ps| == 0)
    case JStr(s) => Ok(|s| == 0)
    case _ => Raised(NoMethodError)
  }

  /**
   * Ruby `es.map { |e| f(e) }` with a block that may raise: the results in order, or the first
   * exception raised.
   */
  function MapEach<M>(es: seq<Json>, f: Json -> Outcome<M>): (r: Outcome<seq<M>>)
    ensures r.Ok? <==> forall i :: 0 <= i < |es| ==> f(es[i]).Ok?
    ensures r.Ok? ==> |r.value| == |es| && forall i :: 0 <= i < |es| ==> f(es[i]) == Ok(r.value[i])
    ensures r.Raised? ==> exists i :: 0 <= i < |es| && f(es[i]) == Raised(r.message)
                                     && forall j :: 0 <= j < i ==> f(es[j]).Ok?
  {
    if es == [] then Ok([])
    else
      var head :- f(es[0]);
      var tail := MapEach(es[1..], f);
      assert forall i :: 1 <= i < |es| ==> es[i] == es[1..][i - 1];
      if tail.Raised? then
        assert exists i :: 0 <= i < |es| - 1 && f(es[1..][i]) == Raised(tail.message)
                           && (forall j :: 0 <= j < i ==> f(es[1..][j]).Ok?)
                           && f(es[i + 1]) == Raised(tail.message)
                           && forall j :: 0 <= j < i + 1 ==> f(es[j]).Ok?;
        tail.PropagateFailure()
      else
        Ok([head] + tail.value)
  }

  /** One argument of `dig`: a hash key or an array index. */
  datatype Step = Key(key: string) | At(index: nat)

  /** A value that responds to `dig`: a hash or an array. */
  predicate Diggable(j: Json) {
    j.JObj? || j.JArr?
  }

  /** One step of `dig` on a hash or an array; an array indexed by a key raises. */
  function DigStep(j: Json, step: Step): Outcome<Json>
    requires Diggable(j)
  {
    match j
    case JObj(ps) => if step.Key? then Ok(Get(ps, step.key)) else Ok(JNull)
    case JArr(items) =>
      if step.At? then Ok(if step.index < |items| then items[step.index] else JNull)
      else Raised(TypeError)
  }

  /**
   * Ruby `j.dig(s1, ..., sn)`: stops at the first nil, otherwise digs on into the value found. A
   * receiver without `dig` has no such method; a value found on the way without `dig` is a
   * type error of `dig` itself.
   */
  function Dig(j: Json, path: seq<Step>): Outcome<Json>
    requires |path| > 0
    decreases |path|
  {
    if !Diggable(j) then Raised(NoMethodError)
    else
      var v :- DigStep(j, path[0]);
      if |path| == 1 || v.JNull? then Ok(v)
      else if !Diggable(v) then Raised(TypeError)
      else Dig(v, path[1..])
  }

  /** Extra keyword arguments never change a lookup of a different key. */
  lemma {:induction false} GetOtherKey(members: seq<(string, Json)>, extra: (string, Json), key: string)
    requires extra.0 != key
    ensures Get(members + [extra], key) == Get(members, key)
  {
    assert (members + [extra])[..|members|] == members;
  }

  /** A binding for a key outside `keys` changes neither which of `keys` are bound nor their values. */
  lemma ExtraKey(ps: seq<(string, Json)>, extra: (string, Json), keys: seq<string>)
    requires extra.0 !in keys
    ensures HasAll(JObj(ps + [extra]), keys) <==> HasAll(JObj(ps), keys)
    ensures forall k :: k in keys ==> Lookup(JObj(ps + [extra]), k) == Lookup(JObj(ps), k)
  {
    var qs := ps + [extra];
    forall k | k in keys ensures (Has(qs, k) <==> Has(ps, k)) && Get(qs, k) == Get(ps, k) {
      if Has(qs, k) {
        var i :| 0 <= i < |qs| && qs[i].0 == k;
        assert i < |ps| && ps[i].0 == k;
      }
      if Has(ps, k) {
        var i :| 0 <= i < |ps| && ps[i].0 == k;
        assert qs[i].0 == k;
      }
      GetOtherKey(ps, extra, k);
    }
  }
}
