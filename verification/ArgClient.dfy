/** Querying the resource graph: pages fetched by skip token, inside the retry policy. The request
    object is shared by both loops and its token is changed in place. */
module ArgClient {
  import opened GoErrors
  import opened Contracts
  import opened JsonCodec
  import opened RetryPolicy

  type Token = Option<string>

  /** What one call of `Resources` gives: an error, a response without total or data, data that is not
      a list of objects, or a page and the token of the next one. */
  datatype Response =
    | Failure(err: Error)
    | Incomplete
    | NotAList
    | Page(rows: seq<Json>, next: Token)

  /** The service: call number `i` with a token. Numbering the calls lets it answer the same token
      differently each time. */
  type Service = (nat, Token) -> Response

  const EMPTY_RESULT_RETRIES: ShouldRetry := e => Is(e, EmptyArgResult)

  /** The chain of tokens that starts with a call ends within `pages` pages. */
  predicate Ends(service: Service, i: nat, token: Token, pages: nat)
    decreases pages
  {
    && pages > 0
    && var r := service(i, token);
       r.Page? && r.next.Some? ==> Ends(service, i + 1, r.next, pages - 1)
  }

  /** `EmptyArgResult` belongs to this client: the service does not return it. */
  ghost predicate OwnSentinel(service: Service) {
    forall i: nat, token :: service(i, token).Failure? ==> Cause(service(i, token).err) != EmptyArgResult
  }

  ghost predicate FiniteChains(service: Service, pages: nat) {
    forall i: nat :: Ends(service, i, None, pages)
  }

  /** A run of `fetchAllResults`: the tokens sent, the rows gathered, the error, and the token left in
      the request. */
  datatype Fetch = Fetch(tokens: seq<Token>, rows: seq<Json>, err: Err, left: Token)

  function PageError(r: Response): Err {
    match r
    case Failure(e) => Some(Wrapped("Resources", e))
    case Incomplete => Some(Plain("nil data"))
    case NotAList => Some(Plain("not a list"))
    case Page(_, _) => None
  }

  function FetchFrom(service: Service, i: nat, token: Token, pages: nat): (f: Fetch)
    requires Ends(service, i, token, pages)
    ensures |f.tokens| > 0
    decreases pages
  {
    var r := service(i, token);
    if !r.Page? then Fetch([token], [], PageError(r), token)
    else if r.next.None? then Fetch([token], r.rows, None, None)
    else
      var rest := FetchFrom(service, i + 1, r.next, pages - 1);
      Fetch([token] + rest.tokens, if rest.err.Some? then [] else r.rows + rest.rows, rest.err, rest.left)
  }

  /** The client of the service: it numbers the calls by recording the tokens sent. */
  class ARGBaseClient {
    const service: Service
    var sent: seq<Token>

    constructor (service: Service)
      ensures this.service == service && sent == []
    {
      this.service := service;
      sent := [];
    }

    method Resources(skipToken: Token) returns (r: Response)
      modifies this
      ensures r == service(|old(sent)|, skipToken) && sent == old(sent) + [skipToken]
    {
      r := service(|sent|, skipToken);
      sent := sent + [skipToken];
    }
  }

  class QueryRequest {
    var skipToken: Token

    constructor InitDefaultQueryRequest()
      ensures skipToken == None
    {
      skipToken := None;
    }
  }

  /** Where a fetch stands before its next call: after the tokens `sent` and the rows gathered, what
      is still to come completes the run `f`. */
  predicate Ahead(service: Service, before: seq<Token>, sent: seq<Token>, rows: seq<Json>, token: Token,
      left: nat, f: Fetch) {
    && Ends(service, |sent|, token, left)
    && var rest := FetchFrom(service, |sent|, token, left);
       && sent + rest.tokens == before + f.tokens && rest.err == f.err && rest.left == f.left
       && (f.err.None? ==> rows + rest.rows == f.rows)
  }

  predicate Finished(before: seq<Token>, sent: seq<Token>, rows: seq<Json>, f: Fetch) {
    sent == before + f.tokens && f.err.None? && f.left.None? && rows == f.rows
  }

  lemma NextPage(service: Service, before: seq<Token>, sent: seq<Token>, rows: seq<Json>, token: Token,
      left: nat, f: Fetch)
    requires Ahead(service, before, sent, rows, token, left, f)
    ensures var r := service(|sent|, token);
      if !r.Page? then sent + [token] == before + f.tokens && f.err == PageError(r) && f.left == token
      else if r.next.None? then Finished(before, sent + [token], rows + r.rows, f)
      else left > 0 && Ahead(service, before, sent + [token], rows + r.rows, r.next, left - 1, f)
  {
  }

  method FetchAllResults(client: ARGBaseClient, request: QueryRequest,
      ghost pages: nat) returns (total: Slice<Json>, err: Err)
    requires Ends(client.service, |client.sent|, request.skipToken, pages)
    modifies client, request
    ensures var f := FetchFrom(client.service, |old(client.sent)|, old(request.skipToken), pages);
      && client.sent == old(client.sent) + f.tokens && request.skipToken == f.left && err == f.err
      && total == if err.Some? then NilSlice else Slice(f.rows)
  {
    ghost var f := FetchFrom(client.service, |client.sent|, request.skipToken, pages);
    ghost var before, left := client.sent, pages;
    total := NilSlice;
    while total.NilSlice? || request.skipToken.Some?
      invariant if total.NilSlice? || request.skipToken.Some?
                then Ahead(client.service, before, client.sent, Elems(total), request.skipToken, left, f)
                else Finished(before, client.sent, total.elems, f) && request.skipToken.None?
      decreases left, if total.NilSlice? || request.skipToken.Some? then 1 else 0
    {
      NextPage(client.service, before, client.sent, Elems(total), request.skipToken, left, f);
      hide Ahead, Finished, FetchFrom, Ends;
      var response := client.Resources(request.skipToken);
      if !response.Page? {
        return NilSlice, PageError(response);
      }
      if total.NilSlice? {
        total := Slice([]);
      }
      total := Slice(total.elems + response.rows);
      request.skipToken := response.next;
      left := if left > 0 then left - 1 else 0;
    }
    err := None;
  }

  /** A fetch fails exactly when its last call gives no usable page, and then with that call's error, whose
      cause it keeps; when it succeeds it leaves no token behind. */
  lemma {:induction false} FetchOutcome(service: Service, i: nat, token: Token, pages: nat)
    requires Ends(service, i, token, pages)
    ensures var f := FetchFrom(service, i, token, pages);
      && f.err == PageError(service(i + |f.tokens| - 1, f.tokens[|f.tokens| - 1]))
      && (f.err.None? <==> service(i + |f.tokens| - 1, f.tokens[|f.tokens| - 1]).Page?)
      && (service(i + |f.tokens| - 1, f.tokens[|f.tokens| - 1]).Failure? ==>
            Cause(f.err.value) == Cause(service(i + |f.tokens| - 1, f.tokens[|f.tokens| - 1]).err))
      && (f.err.None? ==> f.left.None?) && (f.err.Some? ==> f.rows == [])
    decreases pages
  {
    var r := service(i, token);
    if r.Page? && r.next.Some? {
      FetchOutcome(service, i + 1, r.next, pages - 1);
      hide PageError, Ends;
      var rest, f := FetchFrom(service, i + 1, r.next, pages - 1), FetchFrom(service, i, token, pages);
      assert f.tokens[|f.tokens| - 1] == rest.tokens[|rest.tokens| - 1] && i + |f.tokens| == i + 1 + |rest.tokens|;
    }
  }

  /** The tokens of a fetch form a chain from the given one, each taken from the page before. */
  lemma {:induction false} FetchLinks(service: Service, i: nat, token: Token, pages: nat)
    requires Ends(service, i, token, pages)
    ensures var f := FetchFrom(service, i, token, pages);
      f.tokens[0] == token && forall j :: 0 <= j < |f.tokens| - 1 ==> IsLink(service, i, f.tokens, j)
    decreases pages
  {
    var r := service(i, token);
    if r.Page? && r.next.Some? {
      var rest, f := FetchFrom(service, i + 1, r.next, pages - 1), FetchFrom(service, i, token, pages);
      FetchLinks(service, i + 1, r.next, pages - 1);
      forall j | 0 <= j < |f.tokens| - 1 ensures IsLink(service, i, f.tokens, j) {
        assert j > 0 ==> IsLink(service, i + 1, rest.tokens, j - 1);
      }
    }
  }

  /** A successful fetch returns the rows of all its pages, in the order they were fetched. */
  lemma {:induction false} FetchConcatenates(service: Service, i: nat, token: Token, pages: nat)
    requires Ends(service, i, token, pages)
    ensures var f := FetchFrom(service, i, token, pages);
      f.err.None? ==> f.rows == Concat(Rows(service, i, f.tokens))
    decreases pages
  {
    var r := service(i, token);
    if r.Page? {
      var rest := if r.next.None? then [] else FetchFrom(service, i + 1, r.next, pages - 1).tokens;
      RowsCons(service, i, token, rest);
      if r.next.Some? {
        FetchConcatenates(service, i + 1, r.next, pages - 1);
      } else {
        assert Rows(service, i + 1, rest) == [] && r.rows + [] == r.rows && [token] + rest == [token];
      }
    }
  }

  lemma RowsCons(service: Service, i: nat, token: Token, rest: seq<Token>)
    ensures var r := service(i, token);
      Concat(Rows(service, i, [token] + rest)) == (if r.Page? then r.rows else []) + Concat(Rows(service, i + 1, rest))
  {
    assert Rows(service, i, [token] + rest)[1..] == Rows(service, i + 1, rest);
  }

  /** Call `j` of a fetch answered a page, and the next call sent the token of that page. */
  predicate IsLink(service: Service, i: nat, tokens: seq<Token>, j: nat)
    requires j < |tokens| - 1
  {
    var r := service(i + j, tokens[j]);
    r.Page? && r.next.Some? && tokens[j + 1] == r.next
  }

  /** The rows on the pages that a sequence of tokens fetches, page by page. */
  function Rows(service: Service, i: nat, tokens: seq<Token>): seq<seq<Json>> {
    seq(|tokens|, j requires 0 <= j < |tokens| =>
      var r := service(i + j, tokens[j]); if r.Page? then r.rows else [])
  }

  function Concat(lists: seq<seq<Json>>): seq<Json> {
    if lists == [] then [] else lists[0] + Concat(lists[1..])
  }

  /** The tokens sent by the first `k` attempts, each of which starts from the first page. */
  function Sent(service: Service, first: nat, pages: nat, k: nat): seq<Token>
    requires FiniteChains(service, pages)
  {
    if k == 0 then []
    else
      var before := Sent(service, first, pages, k - 1);
      before + FetchFrom(service, first + |before|, None, pages).tokens
  }

  lemma NothingSent(service: Service, first: nat, pages: nat)
    requires FiniteChains(service, pages)
    ensures Sent(service, first, pages, 0) == []
  {
  }

  function AttemptAt(service: Service, first: nat, pages: nat, k: nat): Fetch
    requires FiniteChains(service, pages)
  {
    FetchFrom(service, first + |Sent(service, first, pages, k)|, None, pages)
  }

  function QueryAction(service: Service, first: nat, pages: nat): Action<Slice<Json>>
    requires FiniteChains(service, pages)
  {
    (k: nat) => AttemptOf(AttemptAt(service, first, pages, k))
  }

  function AttemptOf(f: Fetch): Attempt<Slice<Json>> {
    if f.err.Some? then Attempt(NilSlice, f.err)
    else Attempt(Slice(f.rows), if f.rows == [] then Some(EmptyArgResult) else None)
  }

  /** The rows that `QueryResources` keeps are those of its last attempt. */
  function QueryResult(service: Service, first: nat, pages: nat, retryAttempts: int): Attempt<Slice<Json>>
    requires FiniteChains(service, pages)
  {
    var action := QueryAction(service, first, pages);
    var calls := Calls(action, EMPTY_RESULT_RETRIES, retryAttempts);
    var err := Retried(action, EMPTY_RESULT_RETRIES, retryAttempts, NilSlice).err;
    if err.Some? && !Is(err.value, EmptyArgResult) then Attempt(NilSlice, err)
    else if calls == 0 || action(calls - 1).value.NilSlice? then Attempt(NilSlice, Some(Plain("nil error")))
    else Attempt(action(calls - 1).value, None)
  }

  /** Only an attempt that went through all its pages is retried, so the token it leaves in the shared
      request is nil and the next attempt starts from the first page. */
  lemma RetriedAttemptIsComplete(service: Service, first: nat, pages: nat, k: nat)
    requires FiniteChains(service, pages) && OwnSentinel(service)
    ensures var f := AttemptAt(service, first, pages, k);
      && QueryAction(service, first, pages)(k) == AttemptOf(f)
      && (Retryable(AttemptOf(f), EMPTY_RESULT_RETRIES) <==> f.err.None? && f.rows == [])
      && (f.err.None? ==> f.left.None?)
      && Sent(service, first, pages, k + 1) == Sent(service, first, pages, k) + f.tokens
  {
    var i := first + |Sent(service, first, pages, k)|;
    FetchOutcome(service, i, None, pages);
    var f := FetchFrom(service, i, None, pages);
    if f.err.Some? {
      NotTheSentinel(service, i + |f.tokens| - 1, f.tokens[|f.tokens| - 1]);
    }
  }

  lemma NotTheSentinel(service: Service, i: nat, token: Token)
    requires OwnSentinel(service) && !service(i, token).Page?
    ensures !Is(PageError(service(i, token)).value, EmptyArgResult)
  {
    IsMeansCause(PageError(service(i, token)).value, EmptyArgResult);
  }

  /** `QueryResources`, with the loop of the retry policy around an action that changes the request. */
  method QueryResources(client: ARGBaseClient, retryAttempts: int,
      ghost pages: nat) returns (total: Slice<Json>, err: Err)
    requires FiniteChains(client.service, pages) && OwnSentinel(client.service)
    modifies client
    ensures Attempt(total, err) == QueryResult(client.service, |old(client.sent)|, pages, retryAttempts)
    ensures client.sent == old(client.sent) + Sent(client.service, |old(client.sent)|, pages,
              Calls(QueryAction(client.service, |old(client.sent)|, pages), EMPTY_RESULT_RETRIES, retryAttempts))
  {
    total, err := RetryFetch(client, retryAttempts, pages);
    if err.Some? && !Is(err.value, EmptyArgResult) {
      return NilSlice, err;
    }
    if total.NilSlice? {
      return NilSlice, Some(Plain("nil error"));
    }
    err := None;
  }

  method RetryFetch(client: ARGBaseClient, retryAttempts: int, ghost pages: nat) returns (total: Slice<Json>, err: Err)
    requires FiniteChains(client.service, pages) && OwnSentinel(client.service)
    modifies client
    ensures var first := |old(client.sent)|;
            var action := QueryAction(client.service, first, pages);
            var calls := Calls(action, EMPTY_RESULT_RETRIES, retryAttempts);
      && err == Retried(action, EMPTY_RESULT_RETRIES, retryAttempts, NilSlice).err
      && total == (if calls == 0 then NilSlice else action(calls - 1).value)
      && client.sent == old(client.sent) + Sent(client.service, first, pages, calls)
  {
    hide FetchFrom, Ends, OwnSentinel, Sent;
    var request := new QueryRequest.InitDefaultQueryRequest();
    ghost var before, first, calls := client.sent, |client.sent|, 0;
    ghost var action, n := QueryAction(client.service, first, pages), Tries(retryAttempts);
    var retryCount := 1;
    total, err := NilSlice, None;
    assert client.sent == before + [] == before + Sent(client.service, first, pages, 0) by {
      NothingSent(client.service, first, pages);
    }
    while retryCount <= retryAttempts
      invariant calls == retryCount - 1 && calls <= n
      invariant forall k :: 0 <= k < calls ==> Retryable(action(k), EMPTY_RESULT_RETRIES)
      invariant request.skipToken.None? && fresh(request)
      invariant client.sent == before + Sent(client.service, first, pages, calls)
      invariant err == if calls == 0 then None else action(calls - 1).err
      invariant total == if calls == 0 then NilSlice else action(calls - 1).value
    {
      RetriedAttemptIsComplete(client.service, first, pages, calls);
      total, err := FetchAllResults(client, request, pages);
      if err.None? && |total.elems| == 0 {
        err := Some(EmptyArgResult);
      }
      calls := calls + 1;
      if err.None? || !EMPTY_RESULT_RETRIES(err.value) {
        FailuresUnique(action, EMPTY_RESULT_RETRIES, n, calls - 1);
        return;
      }
      retryCount := retryCount + 1;
    }
    FailuresUnique(action, EMPTY_RESULT_RETRIES, n, calls);
    err := Wrap(err, AfterTries(retryCount));
  }

  /** Retry over pagination, with at least one attempt: all attempts before the last found no row; an
      error on any page of the last one is the result, not retried and with its cause kept; otherwise
      the result is the non-nil list of the last attempt's rows, empty only if every allowed attempt
      was empty. */
  lemma QueryMeans(service: Service, first: nat, pages: nat, retryAttempts: int)
    requires FiniteChains(service, pages) && OwnSentinel(service) && retryAttempts >= 1
    ensures var r := QueryResult(service, first, pages, retryAttempts);
            var last := Calls(QueryAction(service, first, pages), EMPTY_RESULT_RETRIES, retryAttempts) - 1;
            var f := AttemptAt(service, first, pages, last);
      && 0 <= last < retryAttempts
      && (forall k :: 0 <= k < last ==> AttemptAt(service, first, pages, k).err.None? && AttemptAt(service, first, pages, k).rows == [])
      && (f.err.Some? ==> r.value == NilSlice && r.err.Some? && Cause(r.err.value) == Cause(f.err.value))
      && (f.err.None? ==> r == Attempt(Slice(f.rows), None) && (f.rows == [] ==> last == retryAttempts - 1))
  {
    hide FetchFrom, Ends, OwnSentinel, Sent;
    var action := QueryAction(service, first, pages);
    RetriedMeans(action, EMPTY_RESULT_RETRIES, retryAttempts, NilSlice);
    var last := Calls(action, EMPTY_RESULT_RETRIES, retryAttempts) - 1;
    RetriedAttemptIsComplete(service, first, pages, last);
    forall k: nat | k < last
      ensures AttemptAt(service, first, pages, k).err.None? && AttemptAt(service, first, pages, k).rows == []
    {
      assert Retryable(action(k), EMPTY_RESULT_RETRIES);
      RetriedAttemptIsComplete(service, first, pages, k);
    }
    var err := Retried(action, EMPTY_RESULT_RETRIES, retryAttempts, NilSlice).err;
    if err.Some? {
      IsMeansCause(err.value, EmptyArgResult);
      IsMeansCause(action(last).err.value, EmptyArgResult);
    }
  }

  /** With no attempt configured every query fails with an error that names no cause. */
  lemma QueryWithoutAttempts(service: Service, first: nat, pages: nat, retryAttempts: int)
    requires FiniteChains(service, pages) && retryAttempts <= 0
    ensures QueryResult(service, first, pages, retryAttempts) == Attempt(NilSlice, Some(Plain("nil error")))
  {
  }
}
