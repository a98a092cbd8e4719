// api/sync-ml.js: the serverless endpoint that reads one page of a seller's Mercado Libre
// orders. Its `normalizeMLOrder` is the shared normaliser with status `nuevo`
// (Normalizer.NormalizeMLWith). The search and token calls are I/O: their answers come
// in as parameters, and the handler reports the calls it made.
module SyncMlApi {
  import opened Wrappers
  import opened Text
  import opened OrderModel
  import opened Raw
  import Normalizer

  datatype Body = Body(accessToken: Option<string>, sellerId: Option<string>, limit: Option<int>, offset: Option<int>)

  /** `refreshMLToken`'s result. */
  datatype Tokens = Tokens(accessToken: string, refreshToken: string, expiresIn: int)

  /** An orders search: its results, or a failure with the HTTP status if there was one. */
  datatype SearchReply = Results(results: Option<seq<MLOrder>>) | SearchFailed(status: Option<int>)

  datatype RefreshReply = Refreshed(tokens: Tokens) | RefreshFailed

  /** The calls made to Mercado Libre, in order. */
  datatype Call = Search(bearer: string, limit: int, offset: int) | Refresh

  datatype Response =
    | Refused(status: int, error: string)
    | Synced(orders: seq<Order>, total: nat, newTokens: Option<Tokens>)

  function NormalizeAll(orders: seq<MLOrder>): (r: seq<Order>)
    ensures |r| == |orders|
    ensures forall i :: 0 <= i < |orders| ==> r[i] == Normalizer.NormalizeMLWith(orders[i], Nuevo)
  {
    if orders == [] then [] else [Normalizer.NormalizeMLWith(orders[0], Nuevo)] + NormalizeAll(orders[1..])
  }

  function ResultsOf(reply: SearchReply): seq<MLOrder>
    requires reply.Results?
  {
    if reply.results.Some? then reply.results.value else []
  }

  /** `handler`. `first` answers the search made with the caller's token; after a 401,
      `refresh` answers the token refresh and `retry` the second search. An OPTIONS
      request is refused 405 by the first check, so the preflight branch after it is
      never taken; the token is refreshed at most once and only after a 401, and a
      failed retry is not retried again. */
  method Handle(verb: string, body: Body, first: SearchReply, refresh: RefreshReply, retry: SearchReply)
    returns (r: Response, calls: seq<Call>)
    ensures verb != "POST" ==> r == Refused(405, "Method not allowed") && calls == []
    ensures verb == "POST" && (!Truthy(body.accessToken) || !Truthy(body.sellerId)) ==>
      r == Refused(400, "Faltan credenciales de Mercado Libre") && calls == []
    ensures r.Synced? ==> r.total == |r.orders|
    ensures |calls| <= 3
    ensures verb == "POST" && Truthy(body.accessToken) && Truthy(body.sellerId) ==> calls != []
    ensures forall i :: 0 <= i < |calls| ==> (calls[i] == Refresh <==> i == 1)
    ensures Refresh in calls <==> calls != [] && first == SearchFailed(Some(401))
    ensures r.Synced? && r.newTokens.Some? <==> r.Synced? && Refresh in calls
    ensures r.Synced? && Refresh !in calls ==> first.Results? && r.orders == NormalizeAll(ResultsOf(first))
    ensures r.Synced? && Refresh in calls ==>
      refresh.Refreshed? && retry.Results? && r.newTokens == Some(refresh.tokens)
      && r.orders == NormalizeAll(ResultsOf(retry))
      && calls[|calls| - 1].Search? && calls[|calls| - 1].bearer == refresh.tokens.accessToken
    ensures calls != [] ==> calls[0].Search? && calls[0].bearer == body.accessToken.value
  {
    calls := [];
    if verb != "POST" {
      return Refused(405, "Method not allowed"), calls;
    }
    if verb == "OPTIONS" {
      return Refused(200, ""), calls;
    }
    if !Truthy(body.accessToken) || !Truthy(body.sellerId) {
      return Refused(400, "Faltan credenciales de Mercado Libre"), calls;
    }
    var limit := if body.limit.Some? then body.limit.value else 50;
    var offset := if body.offset.Some? then body.offset.value else 0;
    var accessToken := body.accessToken.value;
    var newTokens: Option<Tokens> := None;

    var firstCall := Search(accessToken, limit, offset);
    calls := calls + [firstCall];
    assert calls == [firstCall];
    if first.Results? {
      var orders := NormalizeAll(ResultsOf(first));
      return Synced(orders, |orders|, None), calls;
    }
    if first.status == Some(401) {
      calls := calls + [Refresh];
      assert calls == [firstCall, Refresh];
      if refresh.RefreshFailed? {
        return Refused(500, "Error al sincronizar Mercado Libre"), calls;
      }
      newTokens := Some(refresh.tokens);
      accessToken := refresh.tokens.accessToken;
      var retryCall := Search(accessToken, limit, offset);
      calls := calls + [retryCall];
      assert calls == [firstCall, Refresh, retryCall];
      if retry.Results? {
        var orders := NormalizeAll(ResultsOf(retry));
        return Synced(orders, |orders|, newTokens), calls;
      }
    }
    return Refused(500, "Error al sincronizar Mercado Libre"), calls;
  }
}
