/**
 * APIRequest: one authenticated GET, re-sent while the response is not a
 * 200, followed by the checks made on the body of the 200 response.
 */
module Request {
  import opened Wrappers
  import opened Json
  import opened Library
  import opened Errors
  import opened Extract

  /** The outcome of reading a response body with io.ReadAll. */
  datatype BodyRead = BodyText(text: string) | ReadFailed

  /** The outcome of one http.DefaultClient.Do. */
  datatype SendOutcome = TransportError | Response(status: int, body: BodyRead)

  /** The process-wide APIKeyID and APISecretKey. */
  datatype Credentials = Credentials(keyId: string, secretKey: string)

  /** The outcomes of the successive sends of the request for each URL. */
  type Network = string -> nat -> SendOutcome

  /** Everything a request depends on besides its URL. */
  datatype Env = Env(rt: Runtime, creds: Credentials, net: Network)

  /** maxRetry: the retry counter starts at 1 and the request fails once it reaches 12. */
  const MaxSends: nat := 12

  predicate CredentialsSet(c: Credentials)
  {
    c.keyId != "" && c.secretKey != ""
  }

  /** A send after which the request stops re-sending: a transport error or a 200. */
  predicate Settled(o: SendOutcome)
  {
    o.TransportError? || o.status == 200
  }

  /** The JSON object (or null, as an empty map) a body decodes to: json.Unmarshal into map[string]interface{}. */
  function BodyObject(rt: Runtime, text: string): Option<map<string, Json>>
  {
    AsTopObject(rt.parseJson(text))
  }

  /** The checks on the body of a 200 response. */
  function CheckBody(rt: Runtime, body: BodyRead): (r: Result<string, Error>)
    ensures r.Success? ==> body.BodyText? && r.value == body.text && r.value != "" && BodyObject(rt, r.value).Some?
    ensures r.Failure? ==> r.error in {BodyUnreadable, EmptyResponse, InvalidJson, NullContracts} || r.error.ApiMessage?
  {
    match body
    case ReadFailed => Failure(BodyUnreadable)
    case BodyText(text) =>
      if |text| == 0 then Failure(EmptyResponse)
      else match BodyObject(rt, text)
        case None => Failure(InvalidJson)
        case Some(m) =>
          var message := Lookup(m, "message");
          if message.Str? && message.s != "" then Failure(ApiMessage(message.s))
          else if "option_contracts" in m && m["option_contracts"] == Null then Failure(NullContracts)
          else Success(text)
  }

  /**
   * A 200 body is accepted exactly when it was read, is not empty, decodes
   * to a JSON object (or null), carries no non-empty "message" string and
   * does not map "option_contracts" to null; an accepted body is returned
   * unchanged.
   */
  lemma CheckBodyAccepts(rt: Runtime, body: BodyRead)
    ensures var r := CheckBody(rt, body);
      && (r.Success? <==>
            && body.BodyText?
            && body.text != ""
            && BodyObject(rt, body.text).Some?
            && !(Lookup(BodyObject(rt, body.text).value, "message").Str? && Lookup(BodyObject(rt, body.text).value, "message").s != "")
            && !("option_contracts" in BodyObject(rt, body.text).value && BodyObject(rt, body.text).value["option_contracts"] == Null))
      && (r.Success? ==> r.value == body.text)
      && (body.ReadFailed? ==> r == Failure(BodyUnreadable))
      && (body.BodyText? && body.text == "" ==> r == Failure(EmptyResponse))
  {
  }

  /**
   * The first send from `from` on that settles the request, looking only
   * below MaxSends - 1; MaxSends - 1 when none of them does.
   */
  function FirstSettled(sends: nat -> SendOutcome, from: nat): (k: nat)
    requires from <= MaxSends - 1
    ensures from <= k <= MaxSends - 1
    ensures k < MaxSends - 1 ==> Settled(sends(k))
    ensures forall j :: from <= j < k ==> !Settled(sends(j))
    decreases MaxSends - 1 - from
  {
    if from == MaxSends - 1 then from
    else if Settled(sends(from)) then from
    else FirstSettled(sends, from + 1)
  }

  /** A request's result together with the number of sends it made. */
  datatype Exchange = Exchange(result: Result<string, Error>, sends: nat)

  /**
   * What APIRequest returns for `url` when its successive sends have the
   * outcomes `sends`. The twelfth send (index MaxSends - 1) fails the
   * request whatever its status.
   */
  function Fetch(rt: Runtime, creds: Credentials, url: string, sends: nat -> SendOutcome): (x: Exchange)
    ensures x.result.Success? ==> BodyObject(rt, x.result.value).Some?
    ensures x.result.Failure? ==> !x.result.error.OperationTimedOut?
  {
    if !CredentialsSet(creds) then Exchange(Failure(CredentialsMissing), 0)
    else if !rt.urlAccepted(url) then Exchange(Failure(RequestNotBuilt), 0)
    else
      var k := FirstSettled(sends, 0);
      if k < MaxSends - 1 then
        match sends(k)
        case TransportError => Exchange(Failure(TransportFailed(k)), k + 1)
        case Response(_, body) => Exchange(CheckBody(rt, body), k + 1)
      else
        match sends(MaxSends - 1)
        case TransportError => Exchange(Failure(TransportFailed(MaxSends - 1)), MaxSends)
        case Response(status, _) => Exchange(Failure(MaxRetriesReached(status)), MaxSends)
  }

  /**
   * The cursor of a paged listing: "next_page_token" when it is a string,
   * "" when it is absent or of another kind; "" ends the listing.
   */
  function NextPageToken(m: map<string, Json>): (t: string)
    ensures Lookup(m, "next_page_token").Str? ==> t == Lookup(m, "next_page_token").s
    ensures !Lookup(m, "next_page_token").Str? ==> t == ""
  {
    GetString(Lookup(m, "next_page_token"))
  }

  /** The body APIRequest returns for `url` in `env`, or its error. */
  function Get(env: Env, url: string): (r: Result<string, Error>)
    ensures r.Success? ==> BodyObject(env.rt, r.value).Some?
    ensures r.Failure? ==> !r.error.OperationTimedOut?
  {
    Fetch(env.rt, env.creds, url, env.net(url)).result
  }

  /** FirstSettled is the unique settling index: nothing before it settles. */
  lemma {:induction false} FirstSettledAt(sends: nat -> SendOutcome, from: nat, k: nat)
    requires from <= k <= MaxSends - 1
    requires forall j :: from <= j < k ==> !Settled(sends(j))
    requires k < MaxSends - 1 ==> Settled(sends(k))
    ensures FirstSettled(sends, from) == k
    decreases k - from
  {
    if from < k {
      FirstSettledAt(sends, from + 1, k);
    }
  }

  /** Two send sequences that agree up to where the first one settles settle at the same index. */
  lemma {:induction false} FirstSettledAgree(s1: nat -> SendOutcome, s2: nat -> SendOutcome, from: nat)
    requires from <= MaxSends - 1
    requires forall j :: from <= j <= FirstSettled(s1, from) ==> s1(j) == s2(j)
    ensures FirstSettled(s1, from) == FirstSettled(s2, from)
    decreases MaxSends - 1 - from
  {
    if from < MaxSends - 1 && !Settled(s1(from)) {
      FirstSettledAgree(s1, s2, from + 1);
    }
  }

  /**
   * A request depends only on the sends it makes: outcomes after the last
   * send cannot change its result.
   */
  lemma FetchReadsOnlyItsSends(rt: Runtime, creds: Credentials, url: string, s1: nat -> SendOutcome, s2: nat -> SendOutcome)
    requires forall j :: 0 <= j < Fetch(rt, creds, url, s1).sends ==> s1(j) == s2(j)
    ensures Fetch(rt, creds, url, s1) == Fetch(rt, creds, url, s2)
  {
    if CredentialsSet(creds) && rt.urlAccepted(url) {
      var k := FirstSettled(s1, 0);
      assert Fetch(rt, creds, url, s1).sends == k + 1;
      assert forall j :: 0 <= j <= k ==> s1(j) == s2(j);
      FirstSettledAgree(s1, s2, 0);
      assert s1(k) == s2(k);
    }
  }

  /**
   * The retry policy: at most MaxSends sends; missing credentials send
   * nothing; success needs a 200 within the first MaxSends - 1 sends, every
   * earlier send having been answered with another status; a transport
   * error ends the request at once; and MaxSends non-200 answers end it
   * with the status of the last one.
   */
  lemma RetryPolicy(rt: Runtime, creds: Credentials, url: string, sends: nat -> SendOutcome)
    ensures var x := Fetch(rt, creds, url, sends);
      && x.sends <= MaxSends
      && (!CredentialsSet(creds) ==> x.result == Failure(CredentialsMissing) && x.sends == 0)
      && (x.result.Success? ==>
            && 0 < x.sends < MaxSends
            && sends(x.sends - 1).Response? && sends(x.sends - 1).status == 200
            && forall j :: 0 <= j < x.sends - 1 ==> sends(j).Response? && sends(j).status != 200)
      && (x.result.Failure? && x.result.error.TransportFailed? ==>
            && x.sends == x.result.error.attempt + 1
            && sends(x.result.error.attempt).TransportError?
            && forall j :: 0 <= j < x.result.error.attempt ==> sends(j).Response? && sends(j).status != 200)
      && (CredentialsSet(creds) && rt.urlAccepted(url)
          && (forall j :: 0 <= j < MaxSends ==> sends(j).Response? && sends(j).status != 200)
          ==> x.result == Failure(MaxRetriesReached(sends(MaxSends - 1).status)) && x.sends == MaxSends)
  {
    if CredentialsSet(creds) && rt.urlAccepted(url) {
      var k := FirstSettled(sends, 0);
      if k == MaxSends - 1 && (forall j :: 0 <= j < MaxSends ==> sends(j).Response? && sends(j).status != 200) {
        assert sends(MaxSends - 1).Response?;
      }
    }
  }

  /**
   * APIRequest: the request is sent once and re-sent while the response is
   * not a 200; a transport error ends it at once, and the re-send that
   * brings the counter to 12 ends it with an error whatever its status.
   * `sent` is the number of sends made.
   */
  method ApiRequest(rt: Runtime, creds: Credentials, url: string, sends: nat -> SendOutcome)
    returns (result: Result<string, Error>, sent: nat)
    ensures Exchange(result, sent) == Fetch(rt, creds, url, sends)
  {
    if !CredentialsSet(creds) {
      return Failure(CredentialsMissing), 0;
    }
    if !rt.urlAccepted(url) {
      return Failure(RequestNotBuilt), 0;
    }
    var res := sends(0);
    sent := 1;
    if res.TransportError? {
      FirstSettledAt(sends, 0, 0);
      return Failure(TransportFailed(0)), sent;
    }
    var retryNr := 1;
    while res.status != 200
      invariant 1 <= retryNr < MaxSends && sent == retryNr
      invariant res == sends(retryNr - 1) && res.Response?
      invariant forall j :: 0 <= j < retryNr - 1 ==> !Settled(sends(j))
      decreases MaxSends - retryNr
    {
      res := sends(retryNr);
      sent := sent + 1;
      if res.TransportError? {
        FirstSettledAt(sends, 0, retryNr);
        return Failure(TransportFailed(retryNr)), sent;
      }
      retryNr := retryNr + 1;
      if retryNr >= MaxSends {
        FirstSettledAt(sends, 0, MaxSends - 1);
        return Failure(MaxRetriesReached(res.status)), sent;
      }
    }
    FirstSettledAt(sends, 0, retryNr - 1);
    result := CheckBody(rt, res.body);
  }
}
