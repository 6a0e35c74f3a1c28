/** Fetching from the Gerrit REST API: the anti-XSSI prefix Gerrit puts in
    front of every JSON body, the error for a failed response, and request
    URLs with repeated query parameters. */
module GerritFetch {

  import opened Wrappers
  import opened Strings
  import opened Json
  import opened UrlEncoding

  /** Gerrit starts every JSON body with this line so that the body cannot
      be run as a script. */
  const XssiPrefix := ")]}'\n"

  /** The body with one leading prefix removed, if it has one. */
  function StripXssi(text: string): (r: string)
    ensures StartsWith(text, XssiPrefix) ==> XssiPrefix + r == text
    ensures !StartsWith(text, XssiPrefix) ==> r == text
  {
    if StartsWith(text, XssiPrefix) then text[|XssiPrefix|..] else text
  }

  lemma StripPrefixed(s: string)
    ensures StripXssi(XssiPrefix + s) == s
  {
    assert (XssiPrefix + s)[..|XssiPrefix|] == XssiPrefix;
  }

  /** Only one copy is removed. */
  lemma DoublePrefixKeepsOne(s: string)
    ensures StripXssi(XssiPrefix + XssiPrefix + s) == XssiPrefix + s
  {
    assert XssiPrefix + XssiPrefix + s == XssiPrefix + (XssiPrefix + s);
    StripPrefixed(XssiPrefix + s);
  }

  /** The text changes exactly when it starts with the prefix. */
  lemma StripChangesIffPrefixed(text: string)
    ensures StripXssi(text) == text <==> !StartsWith(text, XssiPrefix)
  {
  }

  /** What `fetch` gives back: `response.ok`, the status line and the body. */
  datatype Response = Response(ok: bool, status: int, statusText: string, body: string)

  function ApiError(response: Response, url: string): Thrown {
    ErrorObject("Gerrit API error: " + IntToDecimal(response.status) + " " + response.statusText + " for " + url)
  }

  /** `gerritFetch(url)`: `fetch` is the network, `parse` is `JSON.parse`. */
  function GerritFetch(url: string, fetch: string -> Outcome<Response>, parse: string -> Outcome<Json>): (r: Outcome<Json>)
    ensures fetch(url).Returned? && !fetch(url).value.ok ==> r == Threw(ApiError(fetch(url).value, url))
    ensures r.Returned? ==> fetch(url).Returned? && fetch(url).value.ok && r == parse(StripXssi(fetch(url).value.body))
  {
    match fetch(url)
    case Threw(e) => Threw(e)
    case Returned(response) =>
      if !response.ok then Threw(ApiError(response, url))
      else parse(StripXssi(response.body))
  }

  /** `gerritFetchRaw(url)`: the body as it is. */
  function GerritFetchRaw(url: string, fetch: string -> Outcome<Response>): (r: Outcome<string>)
    ensures r.Returned? <==> fetch(url).Returned? && fetch(url).value.ok
    ensures r.Returned? ==> r.value == fetch(url).value.body
  {
    match fetch(url)
    case Threw(e) => Threw(e)
    case Returned(response) =>
      if !response.ok then Threw(ApiError(response, url)) else Returned(response.body)
  }

  /** A failed response throws the same error from both functions, and the
      body is not parsed. */
  lemma NotOkThrows(url: string, fetch: string -> Outcome<Response>, parse: string -> Outcome<Json>, parse': string -> Outcome<Json>)
    requires fetch(url).Returned? && !fetch(url).value.ok
    ensures GerritFetch(url, fetch, parse) == GerritFetch(url, fetch, parse')
    ensures GerritFetch(url, fetch, parse) == Threw(ApiError(fetch(url).value, url))
    ensures GerritFetchRaw(url, fetch) == Threw(ApiError(fetch(url).value, url))
  {
  }

  /** The error names the status code and the URL. */
  lemma ApiErrorNamesStatusAndUrl(response: Response, url: string)
    ensures var m := ApiError(response, url).message;
      EndsWith(m, " for " + url) && m[18..18 + |IntToDecimal(response.status)|] == IntToDecimal(response.status)
  {
    var m := ApiError(response, url).message;
    var head := "Gerrit API error: " + IntToDecimal(response.status) + " " + response.statusText;
    assert m == head + (" for " + url);
    assert m[|head|..] == " for " + url;
  }

  /** A prefixed body parses as the payload after the prefix, and the raw
      fetch keeps the prefix. */
  lemma PrefixedBody(url: string, fetch: string -> Outcome<Response>, parse: string -> Outcome<Json>, payload: string)
    requires fetch(url).Returned? && fetch(url).value.ok
    requires fetch(url).value.body == XssiPrefix + payload
    ensures GerritFetch(url, fetch, parse) == parse(payload)
    ensures GerritFetchRaw(url, fetch) == Returned(XssiPrefix + payload)
  {
    StripPrefixed(payload);
  }

  /** Every value of a parameter, each paired with its name. */
  function Expand(name: string, values: seq<string>): (r: seq<(string, string)>)
    ensures |r| == |values|
    ensures forall j :: 0 <= j < |values| ==> r[j] == (name, values[j])
  {
    seq(|values|, j requires 0 <= j < |values| => (name, values[j]))
  }

  /** All query pairs, parameter by parameter and value by value. */
  function Pairs(params: seq<(string, seq<string>)>): seq<(string, string)> {
    if params == [] then []
    else Pairs(params[..|params| - 1]) + Expand(params[|params| - 1].0, params[|params| - 1].1)
  }

  /** `name=value`, both form-encoded. */
  function PairText(p: (string, string)): string {
    FormEncode(p.0) + "=" + FormEncode(p.1)
  }

  /** `URLSearchParams.toString()` */
  function Serialize(pairs: seq<(string, string)>): string {
    Join(seq(|pairs|, i requires 0 <= i < |pairs| => PairText(pairs[i])), "&")
  }

  /** The URL's text once the pairs are appended to its (empty) query. */
  function UrlText(base: string, pairs: seq<(string, string)>): string {
    if pairs == [] then base else base + "?" + Serialize(pairs)
  }

  /** `buildUrl(host, path, params)` */
  method BuildUrl(host: string, path: string, params: Option<seq<(string, seq<string>)>>) returns (url: string)
    ensures url == UrlText("https://" + host + path, Pairs(params.GetOr([])))
  {
    var search: seq<(string, string)> := [];
    if params.Some? {
      var entries := params.value;
      for i := 0 to |entries|
        invariant search == Pairs(entries[..i])
      {
        var (name, values) := entries[i];
        for j := 0 to |values|
          invariant search == Pairs(entries[..i]) + Expand(name, values[..j])
        {
          search := search + [(name, values[j])];
        }
        assert values[..|values|] == values;
        assert entries[..i + 1][..i] == entries[..i];
      }
      assert entries[..|entries|] == entries;
    }
    url := UrlText("https://" + host + path, search);
  }

  /** Parameters contribute their pairs in order ... */
  lemma {:induction false} PairsAppend(a: seq<(string, seq<string>)>, b: seq<(string, seq<string>)>)
    ensures Pairs(a + b) == Pairs(a) + Pairs(b)
    decreases |b|
  {
    if b == [] {
      assert a + b == a;
    } else {
      var b' := b[..|b| - 1];
      assert (a + b)[..|a + b| - 1] == a + b';
      PairsAppend(a, b');
    }
  }

  /** ... and one parameter contributes each of its values, repeats
      included. */
  lemma PairsOfOne(name: string, values: seq<string>)
    ensures Pairs([(name, values)]) == Expand(name, values)
  {
    assert [(name, values)][..0] == [];
  }

  /** Splitting the query on `&` gives back one piece per appended value, in
      order. */
  lemma SerializeSplit(pairs: seq<(string, string)>)
    requires pairs != []
    ensures Split(Serialize(pairs), '&') == seq(|pairs|, i requires 0 <= i < |pairs| => PairText(pairs[i]))
  {
    var parts := seq(|pairs|, i requires 0 <= i < |pairs| => PairText(pairs[i]));
    forall k | 0 <= k < |parts|
      ensures '&' !in parts[k]
    {
      FormEncodeDelimiters(pairs[k].0);
      FormEncodeDelimiters(pairs[k].1);
    }
    JoinSplit(parts, '&');
  }

  /** Each piece splits on `=` into the encoded name and value. */
  lemma PairTextSplit(p: (string, string))
    ensures Split(PairText(p), '=') == [FormEncode(p.0), FormEncode(p.1)]
  {
    FormEncodeDelimiters(p.0);
    FormEncodeDelimiters(p.1);
    SplitAfterPiece(FormEncode(p.0), '=', FormEncode(p.1));
    SplitNoSeparator(FormEncode(p.1), '=');
  }
}
