/** The errors the client reports, one constructor per distinct failure. */
module Errors {

  datatype Error =
    /** APIKeyID or APISecretKey is empty. */
    | CredentialsMissing
    /** http.NewRequest rejected the URL. */
    | RequestNotBuilt
    /** The transport failed on send number `attempt` (0 is the first send, k the k-th retry). */
    | TransportFailed(attempt: nat)
    /** The twelfth send was made; `status` is the status it received. */
    | MaxRetriesReached(status: int)
    /** Reading the body of a 200 response failed. */
    | BodyUnreadable
    /** A 200 response with an empty body. */
    | EmptyResponse
    /** A body that json.Unmarshal rejects. */
    | InvalidJson
    /** A 200 response whose JSON carries a non-empty "message" string. */
    | ApiMessage(message: string)
    /** A 200 response whose "option_contracts" key is present and null. */
    | NullContracts
    /** A DateRange entry that is not a valid full-date. */
    | InvalidDate(date: string)
    /** A contracts page without an "option_contracts" array. */
    | MalformedContractsPage
    /** The five-minute deadline passed; `fetched` options had been collected. */
    | OperationTimedOut(fetched: nat)
    /** A snapshots page without a "snapshots" object. */
    | NoSnapshots
    /** MergeRequests' wrapping of the error of one query. */
    | QueryFailed(cause: Error)
}
