/**
 * `build_url`: the request URL for a path that is either a link the server issued (already under
 * the base endpoint) or a relative path, followed by `?k=v&k=v` for the query parameters given.
 */
module UrlBuilder {

  predicate StartsWith(s: string, prefix: string) {
    prefix <= s
  }

  /** `path.delete_prefix('/')`: removes one leading slash, and only one. */
  function DeleteLeadingSlash(path: string): (r: string)
    ensures |path| > 0 && path[0] == '/' ==> r == path[1..]
    ensures !(|path| > 0 && path[0] == '/') ==> r == path
  {
    if |path| > 0 && path[0] == '/' then path[1..] else path
  }

  /** `"#{k}=#{v}"`, with no escaping. */
  function Param(p: (string, string)): string {
    p.0 + "=" + p.1
  }

  /** The parameters as `k=v` joined by `&`, in the order given. */
  function QueryText(query: seq<(string, string)>): string
    decreases |query|
  {
    if |query| == 0 then ""
    else if |query| == 1 then Param(query[0])
    else Param(query[0]) + "&" + QueryText(query[1..])
  }

  /** Only the empty parameter list has an empty text: every `k=v` holds at least its `=`. */
  lemma {:induction false} QueryTextEmpty(query: seq<(string, string)>)
    ensures QueryText(query) == "" <==> query == []
  {
    if |query| > 0 {
      assert Param(query[0])[|query[0].0|] == '=';
      if |query| > 1 {
        assert |QueryText(query)| >= |Param(query[0])|;
      }
    }
  }

  /** Splitting the parameters splits the text at an `&`: the pairs keep the order they were given in. */
  lemma {:induction false} QueryTextAppend(q1: seq<(string, string)>, q2: seq<(string, string)>)
    requires q1 != [] && q2 != []
    ensures QueryText(q1 + q2) == QueryText(q1) + "&" + QueryText(q2)
    decreases |q1|
  {
    if |q1| == 1 {
      assert (q1 + q2)[1..] == q2;
    } else {
      assert (q1 + q2)[1..] == q1[1..] + q2;
      QueryTextAppend(q1[1..], q2);
    }
  }

  function BuildUrl(base: string, path: string, query: seq<(string, string)>): (url: string)
    ensures StartsWith(url, base)
    ensures StartsWith(path, base) && query == [] ==> url == path
    ensures !StartsWith(path, base) && query == [] ==> url == base + DeleteLeadingSlash(path)
  {
    QueryTextEmpty(query);
    var text := QueryText(query);
    var url := if StartsWith(path, base) then path else base + DeleteLeadingSlash(path);
    if text == "" then url else url + "?" + text
  }

  /** With parameters, the URL is the parameterless one followed by `?` and the `k=v&k=v` text; without, nothing is appended. */
  lemma BuildUrlQuery(base: string, path: string, query: seq<(string, string)>)
    requires query != []
    ensures BuildUrl(base, path, query) == BuildUrl(base, path, []) + "?" + QueryText(query)
  {
    QueryTextEmpty(query);
    QueryTextEmpty([]);
  }

  /** A relative path with a leading slash is appended to the base endpoint without it. */
  lemma RelativeExample()
    ensures BuildUrl("https://api.example.com/", "/games/abc", []) == "https://api.example.com/games/abc"
  {
    assert !StartsWith("/games/abc", "https://api.example.com/") by {
      assert "/games/abc"[0] != "https://api.example.com/"[0];
    }
  }

  /** One query parameter is appended after a `?`, its value substituted literally. */
  lemma QueryExample(base: string)
    requires StartsWith(base, "https://")
    ensures BuildUrl(base, "games", [("name", "Foo Bar")]) == base + "games?name=Foo Bar"
  {
    assert !StartsWith("games", base) by {
      assert "games"[0] != base[0];
    }
  }
}
