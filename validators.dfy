/**
 * The reusable Joi builders: the route-id rule (a Mongo ObjectId written as
 * 24 hexadecimal digits) and the pagination query with its bounds and
 * defaults.
 */
module Validators {
  import opened Common
  import opened Validation

  predicate IsHexDigit(c: char)
  {
    ('0' <= c <= '9') || ('a' <= c <= 'f') || ('A' <= c <= 'F')
  }

  /** The anchored pattern `^[0-9a-fA-F]{n}$`, matched one character at a time. */
  predicate MatchHexRun(s: string, n: nat)
  {
    if n == 0 then s == []
    else s != [] && IsHexDigit(s[0]) && MatchHexRun(s[1..], n - 1)
  }

  /** The counted repetition matches exactly the strings of n hex digits. */
  lemma {:induction false} HexRunIff(s: string, n: nat)
    ensures MatchHexRun(s, n) <==> |s| == n && forall i :: 0 <= i < |s| ==> IsHexDigit(s[i])
  {
    if n > 0 && s != [] {
      HexRunIff(s[1..], n - 1);
      assert forall i :: 1 <= i < |s| ==> s[i] == s[1..][i - 1];
    }
  }

  const IdLength := 24

  /** `idParam`: a non-empty string that matches the ObjectId pattern. */
  function IdParam(s: string): (ok: bool)
    ensures ok <==> |s| == IdLength && forall i :: 0 <= i < |s| ==> IsHexDigit(s[i])
  {
    HexRunIff(s, IdLength);
    s != "" && MatchHexRun(s, IdLength)
  }

  datatype Page = Page(page: int, limit: int)

  const DefaultPage := 1
  const DefaultLimit := 10
  const MaxLimit := 100

  const PaginationSchema: Schema := map[
    "page" := Rule(Integer(1, None), false),
    "limit" := Rule(Integer(1, Some(MaxLimit)), false)]

  /** A present number that is an integer within [least, most]. */
  predicate IntegerIn(query: Body, key: string, least: int, most: Option<int>)
  {
    key in query && query[key].JNumber? && SafeNumber(query[key].n) && IsInteger(query[key].n)
    && least as real <= query[key].n && (most.None? || query[key].n <= most.value as real)
  }

  /** The value of an integer field, or the default when the field is absent. */
  function IntegerOr(query: Body, key: string, default: int): int
  {
    if key in query && query[key].JNumber? then query[key].n.Floor else default
  }

  /**
   * `pagination`: no key but page and limit; page an integer of at least 1,
   * 1 by default; limit an integer in [1, 100], 10 by default.
   */
  function Pagination(query: Body): (r: Option<Page>)
    ensures r.Some? <==>
      && (forall k :: k in query ==> k == "page" || k == "limit")
      && ("page" in query ==> IntegerIn(query, "page", 1, None))
      && ("limit" in query ==> IntegerIn(query, "limit", 1, Some(MaxLimit)))
    ensures r.Some? ==> 1 <= r.value.page && 1 <= r.value.limit <= MaxLimit
    ensures r.Some? && "page" !in query ==> r.value.page == DefaultPage
    ensures r.Some? && "limit" !in query ==> r.value.limit == DefaultLimit
    ensures r.Some? && "page" in query ==> r.value.page as real == query["page"].n
    ensures r.Some? && "limit" in query ==> r.value.limit as real == query["limit"].n
  {
    if Accepts(PaginationSchema, query, NoEmail) then
      Some(Page(IntegerOr(query, "page", DefaultPage), IntegerOr(query, "limit", DefaultLimit)))
    else
      None
  }
}
