/**
 * GetOptions, which runs the date validation, the contract phase and the
 * market-data phase for one query, and MergeRequests, which runs a list of
 * queries one after another.
 */
module Client {
  import opened Wrappers
  import opened Records
  import opened Errors
  import opened Dates
  import opened Urls
  import opened Request
  import opened Contracts
  import opened Market
  import opened Pages

  /** The cap that nMax == -1 stands for. */
  const DefaultCap: int := 10000

  /**
   * The cap GetOptions works with: -1 means DefaultCap and any other value
   * is kept, so the cap is positive exactly when nMax is positive or -1.
   */
  function NormaliseCap(nMax: int): (cap: int)
    ensures cap > 0 <==> nMax > 0 || nMax == -1
    ensures nMax > 0 ==> cap == nMax
    ensures nMax == -1 ==> cap == DefaultCap
  {
    if nMax == -1 then DefaultCap else nMax
  }

  /**
   * What GetOptions needs of its caller: once the dates are valid it reads
   * two strike bounds and two date bounds, and once the contract phase has
   * completed its market-data loop only ends if the snapshots listing does
   * (within `pages` requests).
   */
  ghost predicate Callable(rt: Library.Runtime, api: Api, q: OptionQuery, nMax: int, timeoutAfter: nat, pages: nat)
  {
    && ApiLikeGet(rt, api)
    && (AllValidDates(q.dateRange) ==>
          && HasBounds(q)
          && (ContractsPhase(rt, api.contracts, q, ContractDecoder(rt), NormaliseCap(nMax), "", [], {}, timeoutAfter).Collected? ==>
                ListingEndsWithin(rt, api.snapshots, q, "", pages)))
  }

  /**
   * The result of GetOptions: the options, the market-data failure its log
   * text reports (if any), and its error.
   */
  datatype Reply = Reply(options: seq<OptionRecord>, logged: Option<Error>, err: Option<Error>)

  /** GetOptions for a query, a raw nMax and a deadline that lets `timeoutAfter` ticks through. */
  function GetOptionsSpec(rt: Library.Runtime, api: Api, q: OptionQuery, nMax: int, timeoutAfter: nat, pages: nat): (r: Reply)
    requires Callable(rt, api, q, nMax, timeoutAfter, pages)
    ensures !AllValidDates(q.dateRange) ==> r.err.Some? && r.err.value.InvalidDate? && r.options == []
    ensures r.logged.Some? ==> r.err.None?
  {
    FirstInvalidIsFirst(q.dateRange);
    match FirstInvalid(q.dateRange)
    case Some(d) => Reply([], None, Some(InvalidDate(d)))
    case None =>
      match ContractsPhase(rt, api.contracts, q, ContractDecoder(rt), NormaliseCap(nMax), "", [], {}, timeoutAfter)
      case Aborted(e) => Reply([], None, Some(e))
      case TimedOut(collected) => Reply(collected, None, Some(OperationTimedOut(|collected|)))
      case Collected(collected) =>
        var merged := MarketPhase(rt, api.snapshots, q, collected, Index(collected), "", {}, pages);
        Reply(merged.options, merged.failure, None)
  }

  /**
   * The error policy of GetOptions: an invalid date is reported before any
   * request; an error other than the timeout comes with no options; the
   * timeout comes with the options collected so far and their count; and a
   * market-data failure is only logged, never an error.
   */
  lemma GetOptionsErrorPolicy(rt: Library.Runtime, api: Api, q: OptionQuery, nMax: int, timeoutAfter: nat, pages: nat)
    requires Callable(rt, api, q, nMax, timeoutAfter, pages)
    ensures var r := GetOptionsSpec(rt, api, q, nMax, timeoutAfter, pages);
      && (!AllValidDates(q.dateRange) ==> r.err == Some(InvalidDate(FirstInvalid(q.dateRange).value)))
      && (r.err.Some? && !r.err.value.OperationTimedOut? ==> r.options == [])
      && (r.err.Some? && r.err.value.OperationTimedOut? ==> r.err.value.fetched == |r.options|)
      && (r.logged.Some? ==> r.err.None?)
  {
    FirstInvalidIsFirst(q.dateRange);
    var r := GetOptionsSpec(rt, api, q, nMax, timeoutAfter, pages);
    if FirstInvalid(q.dateRange).Some? {
      assert r == Reply([], None, Some(InvalidDate(FirstInvalid(q.dateRange).value)));
    } else {
      var phase := ContractsPhase(rt, api.contracts, q, ContractDecoder(rt), NormaliseCap(nMax), "", [], {}, timeoutAfter);
      if phase.Collected? {
        assert r.err.None?;
      } else if phase.TimedOut? {
        assert r == Reply(phase.options, None, Some(OperationTimedOut(|phase.options|)));
      } else {
        assert r == Reply([], None, Some(phase.error));
      }
    }
  }

  /** No two options GetOptions returns share an id, whether it completed or timed out. */
  lemma GetOptionsIdsUnique(rt: Library.Runtime, api: Api, q: OptionQuery, nMax: int, timeoutAfter: nat, pages: nat)
    requires Callable(rt, api, q, nMax, timeoutAfter, pages)
    ensures NoDupIds(GetOptionsSpec(rt, api, q, nMax, timeoutAfter, pages).options)
  {
    FirstInvalidIsFirst(q.dateRange);
    if FirstInvalid(q.dateRange).None? {
      var cap := NormaliseCap(nMax);
      PhaseKeepsIdsUnique(rt, api.contracts, q, ContractDecoder(rt), cap, "", [], {}, timeoutAfter);
      var phase := ContractsPhase(rt, api.contracts, q, ContractDecoder(rt), cap, "", [], {}, timeoutAfter);
      if phase.Collected? {
        var collected := phase.options;
        PhasePreservesIdentity(rt, api.snapshots, q, collected, Index(collected), "", {}, pages);
        var merged := MarketPhase(rt, api.snapshots, q, collected, Index(collected), "", {}, pages);
        forall i, j | 0 <= i < j < |merged.options|
          ensures merged.options[i].info.id != merged.options[j].info.id
        {
          assert merged.options[i].info == collected[i].info;
          assert merged.options[j].info == collected[j].info;
        }
      }
    }
  }

  /**
   * The symbols the snapshots listing of a GetOptions call lists: none
   * unless the dates are valid and the contract phase completes.
   */
  ghost function ListedFor(rt: Library.Runtime, api: Api, q: OptionQuery, nMax: int, timeoutAfter: nat, pages: nat): set<string>
    requires Callable(rt, api, q, nMax, timeoutAfter, pages)
  {
    if AllValidDates(q.dateRange)
       && ContractsPhase(rt, api.contracts, q, ContractDecoder(rt), NormaliseCap(nMax), "", [], {}, timeoutAfter).Collected?
    then ListedSymbols(rt, api.snapshots, q, "", pages)
    else {}
  }

  /**
   * A contract GetOptions returns whose symbol no snapshots page lists keeps
   * the all-zero market data it was decoded with; after a timeout, every
   * option returned does.
   */
  lemma GetOptionsUnlistedZeroMarket(rt: Library.Runtime, api: Api, q: OptionQuery, nMax: int, timeoutAfter: nat, pages: nat)
    requires Callable(rt, api, q, nMax, timeoutAfter, pages)
    ensures var r := GetOptionsSpec(rt, api, q, nMax, timeoutAfter, pages);
      forall i :: 0 <= i < |r.options| && r.options[i].info.symbol !in ListedFor(rt, api, q, nMax, timeoutAfter, pages) ==>
        r.options[i].market == ZeroMarket
  {
    FirstInvalidIsFirst(q.dateRange);
    var r := GetOptionsSpec(rt, api, q, nMax, timeoutAfter, pages);
    if FirstInvalid(q.dateRange).None? {
      var cap := NormaliseCap(nMax);
      var decode := ContractDecoder(rt);
      ContractDecoderZeroMarket(rt);
      PhaseKeepsZeroMarket(rt, api.contracts, q, decode, cap, "", [], {}, timeoutAfter);
      var phase := ContractsPhase(rt, api.contracts, q, decode, cap, "", [], {}, timeoutAfter);
      if phase.Collected? {
        var collected := phase.options;
        var listed := ListedSymbols(rt, api.snapshots, q, "", pages);
        var merged := MarketPhase(rt, api.snapshots, q, collected, Index(collected), "", {}, pages);
        assert r.options == merged.options;
        assert ListedFor(rt, api, q, nMax, timeoutAfter, pages) == listed;
        PhasePreservesIdentity(rt, api.snapshots, q, collected, Index(collected), "", {}, pages);
        PhaseTouchesOnlyListed(rt, api.snapshots, q, collected, Index(collected), "", {}, pages);
        forall i | 0 <= i < |r.options| && r.options[i].info.symbol !in listed
          ensures r.options[i].market == ZeroMarket
        {
          assert merged.options[i].info == collected[i].info;
          assert merged.options[i] == collected[i];
        }
      } else if phase.TimedOut? {
        assert r.options == phase.options;
      } else {
        assert r.options == [];
      }
    }
  }

  /**
   * With a positive cap (nMax > 0, or nMax == -1 for DefaultCap) GetOptions
   * never returns more options than the cap; any other nMax imposes none.
   */
  lemma GetOptionsCapped(rt: Library.Runtime, api: Api, q: OptionQuery, nMax: int, timeoutAfter: nat, pages: nat)
    requires Callable(rt, api, q, nMax, timeoutAfter, pages)
    requires nMax > 0 || nMax == -1
    ensures |GetOptionsSpec(rt, api, q, nMax, timeoutAfter, pages).options| <= NormaliseCap(nMax)
    ensures nMax == -1 ==> |GetOptionsSpec(rt, api, q, nMax, timeoutAfter, pages).options| <= 10000
  {
    FirstInvalidIsFirst(q.dateRange);
    if FirstInvalid(q.dateRange).None? {
      var cap := NormaliseCap(nMax);
      PhaseRespectsCap(rt, api.contracts, q, ContractDecoder(rt), cap, "", [], {}, timeoutAfter);
      var phase := ContractsPhase(rt, api.contracts, q, ContractDecoder(rt), cap, "", [], {}, timeoutAfter);
      if phase.Collected? {
        PhasePreservesIdentity(rt, api.snapshots, q, phase.options, Index(phase.options), "", {}, pages);
      }
    }
  }

  /**
   * GetOptions: validation, then the contract loop, then the market-data
   * loop. What it guarantees is proved of GetOptionsSpec by the lemmas
   * above.
   */
  method GetOptions(env: Env, ghost api: Api, q: OptionQuery, nMax: int, timeoutAfter: nat, ghost pages: nat)
    returns (options: seq<OptionRecord>, logged: Option<Error>, err: Option<Error>)
    requires Serves(env, api) && Callable(env.rt, api, q, nMax, timeoutAfter, pages)
    ensures Reply(options, logged, err) == GetOptionsSpec(env.rt, api, q, nMax, timeoutAfter, pages)
  {
    var bad := FirstInvalidDate(q.dateRange);
    if bad.Some? {
      return [], None, Some(InvalidDate(bad.value));
    }
    var cap := if nMax == -1 then DefaultCap else nMax;
    var phase := CollectContracts(env, api, q, cap, timeoutAfter);
    match phase
    case Aborted(e) =>
      return [], None, Some(e);
    case TimedOut(collected) =>
      return collected, None, Some(OperationTimedOut(|collected|));
    case Collected(collected) =>
      var merged := MergeMarketData(env, api, q, collected, pages);
      return merged.options, merged.failure, None;
  }

  /** A deadline and a listing bound for each query of a batch. */
  predicate BatchShaped(queries: seq<OptionQuery>, timeouts: seq<nat>, pages: seq<nat>)
  {
    |timeouts| == |queries| && |pages| == |queries|
  }

  /**
   * The queries from the i-th on can be run as far as the batch gets: each
   * one up to and including the first that fails.
   */
  ghost predicate CallableFrom(rt: Library.Runtime, api: Api, queries: seq<OptionQuery>, nMax: int, timeouts: seq<nat>,
                               pages: seq<nat>, i: nat)
    requires BatchShaped(queries, timeouts, pages)
    decreases |queries| - i
  {
    i < |queries| ==>
      && Callable(rt, api, queries[i], nMax, timeouts[i], pages[i])
      && (GetOptionsSpec(rt, api, queries[i], nMax, timeouts[i], pages[i]).err.None? ==>
            CallableFrom(rt, api, queries, nMax, timeouts, pages, i + 1))
  }

  /**
   * What MergeRequests needs of its caller: nothing beyond the shape when
   * the credentials are missing, since it then returns at once; otherwise
   * that the queries it reaches can be run.
   */
  ghost predicate BatchCallable(creds: Credentials, rt: Library.Runtime, api: Api, queries: seq<OptionQuery>, nMax: int,
                                timeouts: seq<nat>, pages: seq<nat>)
  {
    && BatchShaped(queries, timeouts, pages)
    && (CredentialsSet(creds) ==> CallableFrom(rt, api, queries, nMax, timeouts, pages, 0))
  }

  /**
   * What GetOptions returns for the queries from the i-th on, in order, up
   * to and including the first that fails.
   */
  function RepliesFrom(rt: Library.Runtime, api: Api, queries: seq<OptionQuery>, nMax: int, timeouts: seq<nat>,
                       pages: seq<nat>, i: nat): (r: seq<Reply>)
    requires BatchShaped(queries, timeouts, pages) && CallableFrom(rt, api, queries, nMax, timeouts, pages, i)
    requires i <= |queries|
    decreases |queries| - i
  {
    if i == |queries| then []
    else
      CallableFromHead(rt, api, queries, nMax, timeouts, pages, i);
      var reply := GetOptionsSpec(rt, api, queries[i], nMax, timeouts[i], pages[i]);
      if reply.err.Some? then [reply]
      else [reply] + RepliesFrom(rt, api, queries, nMax, timeouts, pages, i + 1)
  }

  /** The i-th query of a batch can be run, and the next ones too once it succeeds. */
  lemma CallableFromHead(rt: Library.Runtime, api: Api, queries: seq<OptionQuery>, nMax: int,
                         timeouts: seq<nat>, pages: seq<nat>, i: nat)
    requires BatchShaped(queries, timeouts, pages) && CallableFrom(rt, api, queries, nMax, timeouts, pages, i)
    requires i < |queries|
    ensures Callable(rt, api, queries[i], nMax, timeouts[i], pages[i])
    ensures GetOptionsSpec(rt, api, queries[i], nMax, timeouts[i], pages[i]).err.None? ==>
              CallableFrom(rt, api, queries, nMax, timeouts, pages, i + 1)
  {
  }

  /**
   * The replies of a batch of n queries: every reply before the last
   * succeeded, and replies that stop early stop at a failed reply.
   */
  predicate Shaped(replies: seq<Reply>, n: nat)
  {
    && (forall k :: 0 <= k < |replies| - 1 ==> replies[k].err.None?)
    && (|replies| < n ==> |replies| > 0 && replies[|replies| - 1].err.Some?)
  }

  /** A succeeding reply put in front of the replies of n queries gives those of n + 1 queries. */
  lemma PrependSucceeded(reply: Reply, rest: seq<Reply>, n: nat)
    requires reply.err.None? && |rest| <= n && Shaped(rest, n)
    ensures Shaped([reply] + rest, n + 1)
  {
    if |rest| > 0 {
      assert ([reply] + rest)[|rest|] == rest[|rest| - 1];
    }
  }

  /**
   * One step of a batch: the i-th query can be run; a failing reply ends the
   * replies, and a succeeding one is followed by those of the next queries.
   */
  lemma RepliesFromStep(rt: Library.Runtime, api: Api, queries: seq<OptionQuery>, nMax: int,
                        timeouts: seq<nat>, pages: seq<nat>, i: nat)
    requires BatchShaped(queries, timeouts, pages) && CallableFrom(rt, api, queries, nMax, timeouts, pages, i)
    requires i < |queries|
    ensures Callable(rt, api, queries[i], nMax, timeouts[i], pages[i])
    ensures var reply := GetOptionsSpec(rt, api, queries[i], nMax, timeouts[i], pages[i]);
      && (reply.err.Some? ==> RepliesFrom(rt, api, queries, nMax, timeouts, pages, i) == [reply])
      && (reply.err.None? ==>
            && CallableFrom(rt, api, queries, nMax, timeouts, pages, i + 1)
            && RepliesFrom(rt, api, queries, nMax, timeouts, pages, i)
               == [reply] + RepliesFrom(rt, api, queries, nMax, timeouts, pages, i + 1))
  {
  }

  /**
   * The replies of the queries a batch reaches: every reply before the last
   * succeeded, and a batch that stops early stops at a failed reply.
   */
  lemma {:induction false} RepliesFromShape(rt: Library.Runtime, api: Api, queries: seq<OptionQuery>, nMax: int,
                                            timeouts: seq<nat>, pages: seq<nat>, i: nat)
    requires BatchShaped(queries, timeouts, pages) && CallableFrom(rt, api, queries, nMax, timeouts, pages, i)
    requires i <= |queries|
    ensures |RepliesFrom(rt, api, queries, nMax, timeouts, pages, i)| <= |queries| - i
    ensures Shaped(RepliesFrom(rt, api, queries, nMax, timeouts, pages, i), |queries| - i)
    decreases |queries| - i
  {
    if i < |queries| {
      RepliesFromStep(rt, api, queries, nMax, timeouts, pages, i);
      var reply := GetOptionsSpec(rt, api, queries[i], nMax, timeouts[i], pages[i]);
      if reply.err.None? {
        var rest := RepliesFrom(rt, api, queries, nMax, timeouts, pages, i + 1);
        RepliesFromShape(rt, api, queries, nMax, timeouts, pages, i + 1);
        PrependSucceeded(reply, rest, |queries| - (i + 1));
      }
    }
  }

  /** The reply RepliesFrom gives for the j-th query is GetOptions' reply to it. */
  lemma {:induction false} RepliesFromInOrder(rt: Library.Runtime, api: Api, queries: seq<OptionQuery>, nMax: int,
                                             timeouts: seq<nat>, pages: seq<nat>, i: nat, j: nat)
    requires BatchShaped(queries, timeouts, pages) && CallableFrom(rt, api, queries, nMax, timeouts, pages, i)
    requires i <= j < |queries| && j - i < |RepliesFrom(rt, api, queries, nMax, timeouts, pages, i)|
    ensures Callable(rt, api, queries[j], nMax, timeouts[j], pages[j])
    ensures RepliesFrom(rt, api, queries, nMax, timeouts, pages, i)[j - i]
         == GetOptionsSpec(rt, api, queries[j], nMax, timeouts[j], pages[j])
    decreases j - i
  {
    RepliesFromStep(rt, api, queries, nMax, timeouts, pages, i);
    var reply := GetOptionsSpec(rt, api, queries[i], nMax, timeouts[i], pages[i]);
    var all := RepliesFrom(rt, api, queries, nMax, timeouts, pages, i);
    if i == j {
      assert j - i == 0;
      assert all[j - i] == reply;
    } else {
      assert |all| != |[reply]|;
      assert reply.err.None?;
      var rest := RepliesFrom(rt, api, queries, nMax, timeouts, pages, i + 1);
      RepliesFromInOrder(rt, api, queries, nMax, timeouts, pages, i + 1, j);
      AfterFirstReply(all, reply, rest, j - i);
    }
    assert all[j - i] == GetOptionsSpec(rt, api, queries[j], nMax, timeouts[j], pages[j]);
  }

  /** Past the first reply, the replies are those that follow it. */
  lemma AfterFirstReply(all: seq<Reply>, reply: Reply, rest: seq<Reply>, n: nat)
    requires all == [reply] + rest && 0 < n <= |rest|
    ensures all[n] == rest[n - 1]
  {
  }

  /** The options of the replies concatenated in order, or the first error, wrapped. */
  function Combine(replies: seq<Reply>): (r: Result<seq<OptionRecord>, Error>)
    ensures r.Failure? ==> r.error.QueryFailed?
  {
    if |replies| == 0 then Success([])
    else if replies[0].err.Some? then Failure(QueryFailed(replies[0].err.value))
    else match Combine(replies[1..])
      case Success(rest) => Success(replies[0].options + rest)
      case Failure(e) => Failure(e)
  }

  /**
   * The queries from the i-th on, run in order: the first error, wrapped,
   * or all their options concatenated.
   */
  function MergeFrom(rt: Library.Runtime, api: Api, queries: seq<OptionQuery>, nMax: int, timeouts: seq<nat>, pages: seq<nat>, i: nat)
    : (r: Result<seq<OptionRecord>, Error>)
    requires BatchShaped(queries, timeouts, pages) && CallableFrom(rt, api, queries, nMax, timeouts, pages, i)
    requires i <= |queries|
    ensures r.Failure? ==> r.error.QueryFailed?
    decreases |queries| - i
  {
    if i == |queries| then Success([])
    else
      var reply := GetOptionsSpec(rt, api, queries[i], nMax, timeouts[i], pages[i]);
      if reply.err.Some? then Failure(QueryFailed(reply.err.value))
      else AfterPrefix(reply.options, MergeFrom(rt, api, queries, nMax, timeouts, pages, i + 1))
  }

  /**
   * MergeRequests: the credentials are checked once up front, then the
   * queries run in order; every error but the credentials' is a query's.
   */
  function MergeSpec(creds: Credentials, rt: Library.Runtime, api: Api, queries: seq<OptionQuery>, nMax: int,
                     timeouts: seq<nat>, pages: seq<nat>): (r: Result<seq<OptionRecord>, Error>)
    requires BatchCallable(creds, rt, api, queries, nMax, timeouts, pages)
    ensures !CredentialsSet(creds) ==> r == Failure(CredentialsMissing)
    ensures CredentialsSet(creds) && r.Failure? ==> r.error.QueryFailed?
  {
    if !CredentialsSet(creds) then Failure(CredentialsMissing)
    else MergeFrom(rt, api, queries, nMax, timeouts, pages, 0)
  }

  /**
   * Running the queries one by one is combining the replies of those it
   * reaches, so CombineAllOrNothing describes MergeRequests.
   */
  lemma {:induction false} MergeFromCombines(rt: Library.Runtime, api: Api, queries: seq<OptionQuery>, nMax: int,
                                            timeouts: seq<nat>, pages: seq<nat>, i: nat)
    requires BatchShaped(queries, timeouts, pages) && CallableFrom(rt, api, queries, nMax, timeouts, pages, i)
    requires i <= |queries|
    ensures MergeFrom(rt, api, queries, nMax, timeouts, pages, i) == Combine(RepliesFrom(rt, api, queries, nMax, timeouts, pages, i))
    decreases |queries| - i
  {
    if i < |queries| {
      var reply := GetOptionsSpec(rt, api, queries[i], nMax, timeouts[i], pages[i]);
      if reply.err.None? {
        var rest := RepliesFrom(rt, api, queries, nMax, timeouts, pages, i + 1);
        MergeFromCombines(rt, api, queries, nMax, timeouts, pages, i + 1);
        assert ([reply] + rest)[1..] == rest;
      }
    }
  }

  /**
   * A batch succeeds exactly when every query succeeds (a timed-out query
   * counts as failed), and then it holds exactly the options of all the
   * queries; otherwise its error is the first failing query's error,
   * wrapped, and no options are returned.
   */
  lemma {:induction false} CombineAllOrNothing(replies: seq<Reply>)
    ensures var m := Combine(replies);
      && (m.Success? <==> forall j :: 0 <= j < |replies| ==> replies[j].err.None?)
      && (m.Success? ==> forall o :: o in m.value <==> exists j :: 0 <= j < |replies| && o in replies[j].options)
      && (m.Failure? ==>
            exists j :: && 0 <= j < |replies|
                        && (forall k :: 0 <= k < j ==> replies[k].err.None?)
                        && replies[j].err.Some? && m.error == QueryFailed(replies[j].err.value))
    decreases |replies|
  {
    if |replies| > 0 {
      var tail := replies[1..];
      CombineAllOrNothing(tail);
      assert forall j :: 0 <= j < |tail| ==> tail[j] == replies[j + 1];
      var m := Combine(replies);
      if replies[0].err.Some? {
        assert m.error == QueryFailed(replies[0].err.value);
      } else if Combine(tail).Failure? {
        var j :| 0 <= j < |tail| && (forall k :: 0 <= k < j ==> tail[k].err.None?)
                 && tail[j].err.Some? && Combine(tail).error == QueryFailed(tail[j].err.value);
        assert replies[j + 1] == tail[j];
      } else {
        forall o ensures o in m.value <==> exists j :: 0 <= j < |replies| && o in replies[j].options {
          if o in replies[0].options {
            assert o in m.value;
          } else if exists j :: 0 <= j < |tail| && o in tail[j].options {
            var j :| 0 <= j < |tail| && o in tail[j].options;
            assert replies[j + 1] == tail[j];
          } else {
            forall j | 0 <= j < |replies| ensures o !in replies[j].options {
              if j > 0 { assert replies[j] == tail[j - 1]; }
            }
          }
        }
      }
    }
  }

  /** A batch result with `prefix` put in front of its options. */
  function AfterPrefix(prefix: seq<OptionRecord>, m: Result<seq<OptionRecord>, Error>): Result<seq<OptionRecord>, Error>
  {
    match m
    case Success(rest) => Success(prefix + rest)
    case Failure(e) => Failure(e)
  }

  /** Putting `b` and then `a` in front is putting `a + b` in front. */
  lemma AfterPrefixAssociates(a: seq<OptionRecord>, b: seq<OptionRecord>, m: Result<seq<OptionRecord>, Error>)
    ensures AfterPrefix(a, AfterPrefix(b, m)) == AfterPrefix(a + b, m)
  {
    if m.Success? {
      assert a + (b + m.value) == (a + b) + m.value;
    }
  }

  /** Before any query has run, nothing is in front of the batch's result. */
  lemma CombineFromStart(replies: seq<Reply>)
    ensures Combine(replies) == AfterPrefix([], Combine(replies[0..]))
  {
    assert replies[0..] == replies;
    if Combine(replies).Success? {
      assert [] + Combine(replies).value == Combine(replies).value;
    }
  }

  /** A succeeding i-th reply moves its options in front of the rest. */
  lemma CombineFromSucceeded(collected: seq<OptionRecord>, replies: seq<Reply>, i: nat)
    requires i < |replies| && replies[i].err.None?
    ensures AfterPrefix(collected, Combine(replies[i..]))
         == AfterPrefix(collected + replies[i].options, Combine(replies[i + 1..]))
  {
    assert replies[i..][0] == replies[i];
    assert replies[i..][1..] == replies[i + 1..];
    AfterPrefixAssociates(collected, replies[i].options, Combine(replies[i + 1..]));
  }

  /** A failing i-th reply is the batch's error, whatever came before it. */
  lemma CombineFromFailed(collected: seq<OptionRecord>, replies: seq<Reply>, i: nat)
    requires i < |replies| && replies[i].err.Some?
    ensures AfterPrefix(collected, Combine(replies[i..])) == Failure(QueryFailed(replies[i].err.value))
  {
    assert replies[i..][0] == replies[i];
  }

  /**
   * What MergeRequests' loop needs of the replies of a batch: their shape,
   * and that combining them is the batch's result.
   */
  lemma BatchReplies(rt: Library.Runtime, api: Api, queries: seq<OptionQuery>, nMax: int, timeouts: seq<nat>,
                     pages: seq<nat>) returns (replies: seq<Reply>)
    requires BatchShaped(queries, timeouts, pages) && CallableFrom(rt, api, queries, nMax, timeouts, pages, 0)
    ensures replies == RepliesFrom(rt, api, queries, nMax, timeouts, pages, 0)
    ensures |replies| <= |queries| && Shaped(replies, |queries|)
    ensures MergeFrom(rt, api, queries, nMax, timeouts, pages, 0) == AfterPrefix([], Combine(replies[0..]))
  {
    replies := RepliesFrom(rt, api, queries, nMax, timeouts, pages, 0);
    RepliesFromShape(rt, api, queries, nMax, timeouts, pages, 0);
    MergeFromCombines(rt, api, queries, nMax, timeouts, pages, 0);
    CombineFromStart(replies);
  }

  /** Once every reply is in, what is in front is the whole result. */
  lemma CombineFromEnd(collected: seq<OptionRecord>, replies: seq<Reply>)
    ensures AfterPrefix(collected, Combine(replies[|replies|..])) == Success(collected)
  {
    assert collected + [] == collected;
  }

  /**
   * MergeRequests: the credentials check, then a loop that appends each
   * query's options; the first error ends the batch and discards what was
   * collected.
   */
  method MergeRequests(env: Env, ghost api: Api, queries: seq<OptionQuery>, nMax: int, timeouts: seq<nat>,
                       ghost pages: seq<nat>) returns (result: Result<seq<OptionRecord>, Error>)
    requires Serves(env, api) && BatchCallable(env.creds, env.rt, api, queries, nMax, timeouts, pages)
    ensures result == MergeSpec(env.creds, env.rt, api, queries, nMax, timeouts, pages)
  {
    if !CredentialsSet(env.creds) {
      return Failure(CredentialsMissing);
    }
    var collected: seq<OptionRecord> := [];
    ghost var replies := BatchReplies(env.rt, api, queries, nMax, timeouts, pages);
    for i := 0 to |queries|
      invariant i <= |replies|
      invariant forall k :: 0 <= k < i ==> replies[k].err.None?
      invariant MergeFrom(env.rt, api, queries, nMax, timeouts, pages, 0) == AfterPrefix(collected, Combine(replies[i..]))
    {
      RepliesFromInOrder(env.rt, api, queries, nMax, timeouts, pages, 0, i);
      var options, logged, err := GetOptions(env, api, queries[i], nMax, timeouts[i], pages[i]);
      if err.Some? {
        CombineFromFailed(collected, replies, i);
        return Failure(QueryFailed(err.value));
      }
      CombineFromSucceeded(collected, replies, i);
      collected := collected + options;
    }
    CombineFromEnd(collected, replies);
    result := Success(collected);
  }
}
