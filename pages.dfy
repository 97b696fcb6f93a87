/**
 * The two paged listings as GetOptions sees them: for a query and a page
 * cursor, the body APIRequest returns or the error it gives. The contract
 * and market-data phases are stated over any such fetcher; the one the
 * client uses is the request loop on the listing's URL.
 */
module Pages {
  import opened Wrappers
  import opened Errors
  import opened Urls
  import opened Request

  /** The body of one page of a listing, or why it could not be fetched. */
  type PageFetcher = (OptionQuery, string) -> Result<string, Error>

  /** Like Get, a fetcher only succeeds with a JSON object (or null) and never reports the timeout. */
  ghost predicate FetchesLikeGet(rt: Library.Runtime, fetch: PageFetcher)
  {
    forall q, token ::
      && (fetch(q, token).Success? ==> BodyObject(rt, fetch(q, token).value).Some?)
      && (fetch(q, token).Failure? ==> !fetch(q, token).error.OperationTimedOut?)
  }

  /** The two listings GetOptions reads. */
  datatype Api = Api(contracts: PageFetcher, snapshots: PageFetcher)

  /** Both listings behave like Get. */
  ghost predicate ApiLikeGet(rt: Library.Runtime, api: Api)
  {
    FetchesLikeGet(rt, api.contracts) && FetchesLikeGet(rt, api.snapshots)
  }

  /** Each page of either listing is what APIRequest returns for that page's URL. */
  ghost predicate Serves(env: Env, api: Api)
  {
    && ApiLikeGet(env.rt, api)
    && (forall q, token {:trigger Get(env, ContractsUrl(q, token))} ::
          HasBounds(q) ==> api.contracts(q, token) == Get(env, ContractsUrl(q, token)))
    && (forall q, token {:trigger Get(env, SnapshotsUrl(q, token))} ::
          HasBounds(q) ==> api.snapshots(q, token) == Get(env, SnapshotsUrl(q, token)))
  }

  /** The listings of the client: APIRequest on the contracts and snapshots URLs. */
  function ApiOf(env: Env): (api: Api)
    ensures Serves(env, api)
  {
    Api((q, token) => if HasBounds(q) then Get(env, ContractsUrl(q, token)) else Failure(RequestNotBuilt),
        (q, token) => if HasBounds(q) then Get(env, SnapshotsUrl(q, token)) else Failure(RequestNotBuilt))
  }
}
