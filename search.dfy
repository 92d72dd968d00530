/**
 * Message search: the local validation that runs before any call, the
 * full search, and the simple search that keeps only the messages.
 */
module Search {
  import opened Wrappers
  import opened QueryTypes
  import opened Endpoints

  /** An offset combined with a sort or a cursor. */
  predicate OffsetConflict(req: SearchRequest) {
    req.offset != 0 && (|req.sort| > 0 || req.next != "")
  }

  /** Free text combined with message filters. */
  predicate QueryConflict(req: SearchRequest) {
    req.query != "" && |req.messageFilters| != 0
  }

  /**
   * Validation of a search request. It fails exactly when a rule is broken;
   * the offset rule is checked first, so it is the one reported when both
   * are broken.
   */
  function ValidateSearch(req: SearchRequest): (r: Outcome<SearchViolation>)
    ensures r.Pass? <==> !OffsetConflict(req) && !QueryConflict(req)
    ensures OffsetConflict(req) ==> r == Fail(OffsetWithNextOrSort)
    ensures !OffsetConflict(req) && QueryConflict(req) ==> r == Fail(QueryWithMessageFilters)
    ensures OffsetConflict(req) ==> r.error.Text() == "cannot use Offset with Next or Sort parameters"
    ensures !OffsetConflict(req) && QueryConflict(req) ==>
      r.error.Text() == "can only specify Query or MessageFilters, not both"
  {
    if req.offset != 0 && (|req.sort| > 0 || req.next != "") then
      Fail(OffsetWithNextOrSort)
    else if req.query != "" && |req.messageFilters| != 0 then
      Fail(QueryWithMessageFilters)
    else
      Pass
  }

  /**
   * With a zero offset the offset rule never fires, whatever the sort and
   * the cursor hold: validation does not depend on them.
   */
  lemma ZeroOffsetIgnoresSortAndNext(req: SearchRequest, sort: seq<SortOption>, next: string)
    requires req.offset == 0
    ensures ValidateSearch(req.(sort := sort, next := next)) == ValidateSearch(req)
    ensures ValidateSearch(req) != Fail(OffsetWithNextOrSort)
  {
  }

  /** The channel filters and the limit never cause a rejection. */
  lemma ValidationIgnoresFiltersAndLimit(req: SearchRequest, filters: Filter, limit: int)
    ensures ValidateSearch(req.(filters := filters, limit := limit)) == ValidateSearch(req)
  {
  }

  /**
   * The full search. A request that fails validation returns the
   * validation error; otherwise the request is sent as the `payload`
   * parameter of a GET to "search" and the transport's error, or else its
   * decoded response, is returned.
   */
  function SearchWithFullResponse(req: SearchRequest,
                                  makeRequest: Request -> Reply<SearchResponse>): (r: Result<SearchResponse, Error>)
    ensures ValidateSearch(req).Fail? ==> r == Failure(Invalid(ValidateSearch(req).error))
    ensures ValidateSearch(req).Pass? ==>
      var reply := makeRequest(Request(Get, "search", Some(SearchPayload(req)), None));
      && (reply.err.Some? ==> r == Failure(reply.err.value))
      && (reply.err.None? ==> r == Success(reply.decoded))
  {
    match ValidateSearch(req)
    case Fail(violation) => Failure(Invalid(violation))
    case Pass =>
      var reply := makeRequest(SearchCall(req));
      if reply.err.Some? then Failure(reply.err.value) else Success(reply.decoded)
  }

  /**
   * A rejected request never reaches the transport: the result is the
   * same whatever the transport would have answered.
   */
  lemma RejectedSearchNeverSent(req: SearchRequest,
                                f: Request -> Reply<SearchResponse>,
                                g: Request -> Reply<SearchResponse>)
    requires ValidateSearch(req).Fail?
    ensures SearchWithFullResponse(req, f) == SearchWithFullResponse(req, g)
    ensures SearchWithFullResponse(req, f).Failure? && SearchWithFullResponse(req, f).error.Invalid?
  {
  }

  /** The JSON keys of a search request. */
  datatype SearchKey = QueryKey | FiltersKey | MessageFiltersKey | LimitKey | OffsetKey | NextKey | SortKey
  {
    /** The key's name on the wire. */
    function Name(): string {
      match this
      case QueryKey => "query"
      case FiltersKey => "filter_conditions"
      case MessageFiltersKey => "message_filter_conditions"
      case LimitKey => "limit"
      case OffsetKey => "offset"
      case NextKey => "next"
      case SortKey => "sort"
    }
  }

  /** No two fields of a search request share a wire name. */
  lemma SearchKeyNamesDistinct(a: SearchKey, b: SearchKey)
    requires a != b
    ensures a.Name() != b.Name()
  {
  }

  /**
   * Whether the encoder writes key `k` for request `req`: the query and the
   * two filter maps always, the paging and sort fields only when they are
   * not empty or zero.
   */
  predicate SearchEmits(req: SearchRequest, k: SearchKey) {
    match k
    case QueryKey => true
    case FiltersKey => true
    case MessageFiltersKey => true
    case LimitKey => req.limit != 0
    case OffsetKey => req.offset != 0
    case NextKey => req.next != ""
    case SortKey => |req.sort| != 0
  }

  /**
   * A search payload would carry an offset together with a cursor or a
   * sort exactly when validation rejects the request with the offset error,
   * so no payload that is sent carries that combination.
   */
  lemma OffsetKeysIffOffsetError(req: SearchRequest)
    ensures SearchEmits(req, OffsetKey) && (SearchEmits(req, NextKey) || SearchEmits(req, SortKey))
        <==> ValidateSearch(req) == Fail(OffsetWithNextOrSort)
  {
  }

  /**
   * The simple search: the message of each result of the full search, in
   * order, without the cursors; a failed full search yields its error.
   */
  method Search(req: SearchRequest, makeRequest: Request -> Reply<SearchResponse>)
    returns (r: Result<seq<Message>, Error>)
    ensures SearchWithFullResponse(req, makeRequest).Failure? ==>
      r == Failure(SearchWithFullResponse(req, makeRequest).error)
    ensures SearchWithFullResponse(req, makeRequest).Success? ==>
      var results := SearchWithFullResponse(req, makeRequest).value.results;
      && r.Success?
      && |r.value| == |results|
      && forall i | 0 <= i < |results| :: r.value[i] == results[i].message
  {
    var full := SearchWithFullResponse(req, makeRequest);
    if full.Failure? {
      return Failure(full.error);
    }
    var results := full.value.results;
    var messages: seq<Message> := [];
    for i := 0 to |results|
      invariant |messages| == i
      invariant forall j | 0 <= j < i :: messages[j] == results[j].message
    {
      messages := messages + [results[i].message];
    }
    return Success(messages);
  }
}
