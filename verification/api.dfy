/** The HTTP client of src/services/api.ts: request headers, the response envelope and how
    it settles a call, the query strings of the list and statistics endpoints, and the
    error-code predicates the screens use. The transport itself is a parameter: a call's
    outcome is the pair (`res.ok`, `res.status`) plus the parsed body, if any. */
module Api {
  import opened Wrappers
  import opened Domain
  import opened Text
  import opened UrlEncoding
  import Decimal

  const DefaultBase: string := "https://quote-service-p3fq.onrender.com"

  /** The API origin: the configured value when present (even an empty one, since the
      source uses `??`), otherwise the hosted service. */
  function Base(configured: Option<string>): (r: string)
    ensures configured.Some? ==> r == configured.value
    ensures configured.None? ==> r == DefaultBase
  {
    configured.GetOr(DefaultBase)
  }

  /** The names of a list of name/value pairs, in order. */
  function Keys(ps: seq<(string, string)>): seq<string> {
    seq(|ps|, i requires 0 <= i < |ps| => ps[i].0)
  }

  /** Request headers in order: the JSON content type, then a bearer token when the
      session has a non-empty one. */
  function Headers(token: Option<string>): (r: seq<(string, string)>)
    ensures |r| >= 1 && r[0] == ("Content-Type", "application/json")
    ensures "Authorization" in Keys(r) <==> TruthyOpt(token)
    ensures TruthyOpt(token) ==> r[1] == ("Authorization", "Bearer " + token.value)
  {
    var r := [("Content-Type", "application/json")]
      + (if TruthyOpt(token) then [("Authorization", "Bearer " + token.value)] else []);
    assert Keys(r) == ["Content-Type"] + (if TruthyOpt(token) then ["Authorization"] else []);
    r
  }

  /** The JSON envelope every endpoint answers with. */
  datatype Envelope<D> = Envelope(success: bool, data: Option<D>, error: Option<string>, message: Option<string>)

  /** The fallback error text for an HTTP status. */
  function FailedText(status: int): (r: string)
    ensures |r| > 17 && r[..16] == "Request failed (" && r[|r| - 1] == ')'
    ensures r[16..|r| - 1] == Decimal.Show(status)
  {
    Decimal.ShowInjective(status, status);
    "Request failed (" + Decimal.Show(status) + ")"
  }

  /** Different statuses give different fallback texts. */
  lemma FailedTextNamesStatus(m: int, n: int)
    ensures FailedText(m) == FailedText(n) ==> m == n
  {
    Decimal.ShowInjective(m, n);
  }

  /** How `req` settles: the envelope's data when the response is OK and the envelope says
      `success`; otherwise an `Error` whose message is the envelope's `error`, else its
      `message`, else the status text, and whose code is the envelope's `error`. A body
      that is not JSON yields a code-less error. */
  function Settle<D>(ok: bool, status: int, body: Option<Envelope<D>>): (r: Result<Option<D>, Thrown>)
    ensures r.Success? <==> ok && body.Some? && body.value.success
    ensures r.Success? ==> r.value == body.value.data
    ensures r.Failure? ==> r.error.ErrorValue?
    ensures r.Failure? && body.None? ==> r.error.code.None?
    ensures r.Failure? && body.None? ==> (ok <==> r.error.message == "Invalid response")
    ensures r.Failure? && body.None? ==>
      r.error.message == (if ok then "Invalid response" else FailedText(status))
    ensures r.Failure? && body.Some? ==> r.error.code == body.value.error
    ensures r.Failure? && body.Some? ==>
      r.error.message == body.value.error.GetOr(body.value.message.GetOr(FailedText(status)))
  {
    match body
    case None =>
      Failure(ErrorValue(None, if ok then "Invalid response" else FailedText(status)))
    case Some(json) =>
      if !ok || !json.success then
        Failure(ErrorValue(json.error, json.error.GetOr(json.message.GetOr(FailedText(status)))))
      else Success(json.data)
  }

  /** `isFreeTierLimitError`. */
  predicate IsFreeTierLimitError(e: Thrown) {
    HasCode(e, "free_tier_limit")
  }

  /** `isProRequiredError`. */
  predicate IsProRequiredError(e: Thrown) {
    HasCode(e, "pro_required")
  }

  /** A failure is a free-tier-limit error exactly when the server's envelope said so; the
      same for pro-required; and no failure is both. */
  lemma SettledErrorKinds<D>(ok: bool, status: int, body: Option<Envelope<D>>)
    ensures var r := Settle(ok, status, body);
      r.Failure? ==>
        && (IsFreeTierLimitError(r.error) <==> body.Some? && body.value.error == Some("free_tier_limit"))
        && (IsProRequiredError(r.error) <==> body.Some? && body.value.error == Some("pro_required"))
        && !(IsFreeTierLimitError(r.error) && IsProRequiredError(r.error))
  {
  }

  /** A non-Error thrown value is never mistaken for either kind. */
  lemma ErrorKindsNeedError(e: Thrown)
    ensures e.OtherValue? ==> !IsFreeTierLimitError(e) && !IsProRequiredError(e)
  {
  }

  /** The path of `dashboardApi.getStats`. */
  function StatsPath(currency: Option<string>): (r: string)
    ensures r == "/dashboard" <==> !TruthyOpt(currency)
    ensures TruthyOpt(currency) ==>
      |r| > 20 && r[..20] == "/dashboard?currency="
      && Decode(r[20..]) == currency.value
      && '&' !in r[20..]
  {
    if TruthyOpt(currency) then
      var e := Encode(UriComponent, currency.value);
      DecodeEncode(UriComponent, currency.value);
      var r := "/dashboard?currency=" + e;
      assert r[20..] == e;
      assert '&' !in "&=?#"[..0] + e by {
        assert "&=?#"[0] == '&';
      }
      r
    else "/dashboard"
  }

  /** The parameters `quotesApi.list` sets, in order: a status unless it is empty or
      `all`, then a currency unless it is empty. */
  function ListParams(status: Option<string>, currency: Option<string>): (r: seq<(string, string)>)
    ensures |r| <= 2
    ensures "status" in Keys(r) <==> TruthyOpt(status) && status.value != "all"
    ensures "currency" in Keys(r) <==> TruthyOpt(currency)
  {
    var byStatus := TruthyOpt(status) && status.value != "all";
    var r := (if byStatus then [("status", status.value)] else [])
      + (if TruthyOpt(currency) then [("currency", currency.value)] else []);
    assert Keys(r) == (if byStatus then ["status"] else []) + (if TruthyOpt(currency) then ["currency"] else []);
    r
  }

  /** One `key=value` pair as `URLSearchParams` writes it. */
  function EncodePair(p: (string, string)): string {
    Encode(FormUrlEncoded, p.0) + "=" + Encode(FormUrlEncoded, p.1)
  }

  /** The encoded `key=value` pieces of a parameter list, in order. */
  function Pieces(ps: seq<(string, string)>): (r: seq<string>)
    ensures |r| == |ps|
    ensures forall i :: 0 <= i < |ps| ==> r[i] == EncodePair(ps[i])
  {
    seq(|ps|, i requires 0 <= i < |ps| => EncodePair(ps[i]))
  }

  /** `URLSearchParams.toString()`. */
  function BuildQuery(ps: seq<(string, string)>): string {
    Join(Pieces(ps), '&')
  }

  /** One `key=value` piece back to a pair (a piece without `=` has an empty value). */
  function ParsePair(piece: string): (string, string) {
    var i := Find(piece, '=');
    if i >= 0 then (Decode(piece[..i]), Decode(piece[i + 1..])) else (Decode(piece), "")
  }

  /** Reading a query string back into its pairs, as the server does. */
  function ParseQuery(qs: string): seq<(string, string)> {
    if qs == "" then []
    else
      var pieces := Split(qs, '&');
      seq(|pieces|, i requires 0 <= i < |pieces| => ParsePair(pieces[i]))
  }

  lemma ParseEncodedPair(p: (string, string))
    ensures ParsePair(EncodePair(p)) == p
  {
    var k := Encode(FormUrlEncoded, p.0);
    var v := Encode(FormUrlEncoded, p.1);
    var piece := EncodePair(p);
    assert piece == k + "=" + v;
    assert '=' !in k by {
      assert "&=?#"[1] == '=';
    }
    assert piece[..|k|] == k;
    FindAt(piece, '=', |k|);
    assert piece[|k| + 1..] == v;
    DecodeEncode(FormUrlEncoded, p.0);
    DecodeEncode(FormUrlEncoded, p.1);
  }

  /** No encoded piece holds `&`, so the pieces are exactly what `&` separates. */
  lemma PiecesHaveNoAmpersand(ps: seq<(string, string)>)
    ensures forall k :: 0 <= k < |ps| ==> '&' !in Pieces(ps)[k]
  {
  }

  /** Every piece holds at least its `=`, so a non-empty list never builds an empty query. */
  lemma BuildQueryNonEmpty(ps: seq<(string, string)>)
    requires |ps| > 0
    ensures BuildQuery(ps) != ""
  {
  }

  /** The query string loses nothing: parsing it gives back exactly the pairs, in order. */
  lemma ParseBuildQuery(ps: seq<(string, string)>)
    ensures ParseQuery(BuildQuery(ps)) == ps
    ensures BuildQuery(ps) == "" <==> |ps| == 0
  {
    if |ps| > 0 {
      var pieces := Pieces(ps);
      var qs := BuildQuery(ps);
      PiecesHaveNoAmpersand(ps);
      SplitJoin(pieces, '&');
      BuildQueryNonEmpty(ps);
      assert Split(qs, '&') == pieces;
      forall i | 0 <= i < |ps| ensures ParseQuery(qs)[i] == ps[i] {
        ParseEncodedPair(ps[i]);
      }
    }
  }

  /** A one-pair query whose key and value are plain letters and digits reads back as that
      pair. */
  lemma SinglePairQuery(k: string, v: string)
    requires Alphanumeric(k) && Alphanumeric(v)
    ensures ParseQuery(k + "=" + v) == [(k, v)]
  {
    AlphanumericUnchanged(FormUrlEncoded, k);
    AlphanumericUnchanged(FormUrlEncoded, v);
    ParseEncodedPair((k, v));
    NoAmpersand(k, v);
    OnePieceQuery(k + "=" + v, (k, v));
  }

  lemma NoAmpersand(k: string, v: string)
    requires Alphanumeric(k) && Alphanumeric(v)
    ensures '&' !in k + "=" + v
  {
  }

  lemma OnePieceQuery(s: string, p: (string, string))
    requires '&' !in s && s != "" && ParsePair(s) == p
    ensures ParseQuery(s) == [p]
  {
  }

  /** The path of `quotesApi.list`: bare `/quotes` when no filter applies, otherwise a
      query that reads back as exactly the filter parameters. */
  function QuotesListPath(status: Option<string>, currency: Option<string>): (r: string)
    ensures |r| >= 7 && r[..7] == "/quotes"
    ensures r == "/quotes" <==> |ListParams(status, currency)| == 0
    ensures r != "/quotes" ==> |r| > 8 && r[7] == '?' && ParseQuery(r[8..]) == ListParams(status, currency)
  {
    var ps := ListParams(status, currency);
    ParseBuildQuery(ps);
    WithQuery("/quotes", BuildQuery(ps))
  }

  /** A path with `?` and the query appended when the query is not empty. */
  function WithQuery(path: string, qs: string): (r: string)
    ensures |r| >= |path| && r[..|path|] == path
    ensures r == path <==> qs == ""
    ensures qs != "" ==> |r| > |path| + 1 && r[|path|] == '?' && r[|path| + 1..] == qs
  {
    var r := path + (if qs != "" then "?" + qs else "");
    assert qs != "" ==> r[|path| + 1..] == qs;
    r
  }

  /** Asking for `all` statuses is the same request as asking for none. */
  lemma AllStatusesIsUnfiltered(currency: Option<string>)
    ensures QuotesListPath(Some("all"), currency) == QuotesListPath(None, currency)
  {
  }
}
