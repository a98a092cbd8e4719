// The Mercado Libre request with the refresh-and-retry-once rule used by the
// scripts and endpoints: a 401 answer triggers one token refresh and one repeat of
// the request with the new token; a second 401, like any other non-OK status, throws.
module MLApi {
  import opened Wrappers

  /** The HTTP status and parsed body of one answer. */
  datatype Reply<T> = Reply(status: nat, body: T)

  predicate Ok(status: nat) { 200 <= status <= 299 }

  datatype Fetched<T> = Got(value: T) | Threw

  /** One call: its result, the access token in force afterwards and the number of
      requests made to the resource (refreshes are counted apart). */
  datatype Call<T> = Call(result: Fetched<T>, token: string, requests: nat, refreshes: nat)

  /** `fetchX(id, retry)`: `api(token)` is the answer the resource gives to a token;
      `refresh` is the token the OAuth endpoint hands out, None when it fails (which
      throws); `canRefresh` is the extra guard some callers add (a refresh token is
      configured). */
  function Fetch<T>(api: string -> Reply<T>, token: string, refresh: Option<string>, canRefresh: bool, retry: bool): (c: Call<T>)
    ensures 1 <= c.requests <= 2 && c.refreshes <= 1
    ensures c.refreshes == 1 <==> retry && canRefresh && api(token).status == 401
    ensures c.requests == 2 <==> retry && canRefresh && api(token).status == 401 && refresh.Some?
    ensures c.refreshes == 0 ==> c.token == token
    ensures c.result.Got? ==> Ok(api(c.token).status) && c.result.value == api(c.token).body
    decreases retry
  {
    var res := api(token);
    if res.status == 401 && retry && canRefresh then
      if refresh.None? then Call(Threw, token, 1, 1)
      else
        var again := Fetch(api, refresh.value, refresh, canRefresh, false);
        Call(again.result, again.token, again.requests + 1, again.refreshes + 1)
    else if !Ok(res.status) then Call(Threw, token, 1, 0)
    else Call(Got(res.body), token, 1, 0)
  }

  /** The retry happens at most once: even if the refreshed token is refused as well,
      the call throws after two requests and one refresh. */
  lemma RetryOnce<T>(api: string -> Reply<T>, token: string, renewed: string, canRefresh: bool)
    requires canRefresh && api(token).status == 401 && api(renewed).status == 401
    ensures var c := Fetch(api, token, Some(renewed), canRefresh, true);
      c.result == Threw && c.requests == 2 && c.refreshes == 1 && c.token == renewed
  {
  }

  /** With a token the resource accepts, exactly one request is made and nothing is refreshed. */
  lemma AcceptedToken<T>(api: string -> Reply<T>, token: string, refresh: Option<string>, canRefresh: bool)
    requires Ok(api(token).status)
    ensures Fetch(api, token, refresh, canRefresh, true) == Call(Got(api(token).body), token, 1, 0)
  {
  }

  /** A refused token that can be refreshed into an accepted one succeeds on the retry. */
  lemma RefreshedToken<T>(api: string -> Reply<T>, token: string, renewed: string)
    requires api(token).status == 401 && Ok(api(renewed).status)
    ensures Fetch(api, token, Some(renewed), true, true) == Call(Got(api(renewed).body), renewed, 2, 1)
  {
  }
}
