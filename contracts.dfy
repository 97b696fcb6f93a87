/**
 * The contract phase of GetOptions: the paged listing of option contracts,
 * deduplicated by id and cut off at the cap, under a deadline.
 */
module Contracts {
  import opened Wrappers
  import opened Json
  import opened Extract
  import opened Records
  import opened Errors
  import opened Urls
  import opened Request
  import opened Pages

  /** The ids of a list of options. */
  function IdSet(options: seq<OptionRecord>): set<string>
  {
    set i | 0 <= i < |options| :: options[i].info.id
  }

  /** No two options of the list share an id. */
  predicate NoDupIds(options: seq<OptionRecord>)
  {
    forall i, j :: 0 <= i < j < |options| ==> options[i].info.id != options[j].info.id
  }

  /**
   * How one entry of "option_contracts" becomes an option. The phase is
   * stated for any decoder; GetOptions uses ContractDecoder.
   */
  type Decoder = map<string, Json> -> OptionRecord

  /** The decoder gives each option the id the entry carries as a string. */
  ghost predicate KeepsId(decode: Decoder)
  {
    forall c :: decode(c).info.id == GetString(Lookup(c, "id"))
  }

  /** Every option of the list still has the all-zero market data it was decoded with. */
  predicate AllZeroMarket(options: seq<OptionRecord>)
  {
    forall i :: 0 <= i < |options| ==> options[i].market == ZeroMarket
  }

  /** The decoder gives every option all-zero market data. */
  ghost predicate DecodesZeroMarket(decode: Decoder)
  {
    forall c :: decode(c).market == ZeroMarket
  }

  /** The page dialect with all-zero market data, as the contract loop builds each Option. */
  function ContractDecoder(rt: Library.Runtime): (decode: Decoder)
    ensures KeepsId(decode)
    ensures forall c :: decode(c) == DecodeContract(rt, c)
  {
    c => DecodeContract(rt, c)
  }

  /** The options and the processed ids after a page, and whether the cap was reached. */
  datatype Scan = Scan(options: seq<OptionRecord>, seen: set<string>, capped: bool)

  /**
   * The loop over one page's "option_contracts": non-objects are skipped,
   * an id already processed is skipped, any other entry is recorded and
   * appended, and the scan stops as soon as a positive cap is reached.
   */
  function ScanItems(decode: Decoder, items: seq<Json>, options: seq<OptionRecord>, seen: set<string>, cap: int): (r: Scan)
    decreases |items|
  {
    if |items| == 0 then Scan(options, seen, false)
    else if !items[0].Obj? then ScanItems(decode, items[1..], options, seen, cap)
    else
      var c := items[0].fields;
      var id := GetString(Lookup(c, "id"));
      if id in seen then ScanItems(decode, items[1..], options, seen, cap)
      else
        var more := options + [decode(c)];
        if cap > 0 && |more| >= cap then Scan(more, seen + {id}, true)
        else ScanItems(decode, items[1..], more, seen + {id}, cap)
  }

  /**
   * A scan keeps what was collected and adds at most one option per entry,
   * only adds to the processed ids, and reports the cap only when a positive
   * cap has been reached.
   */
  lemma {:induction false} ScanBounds(decode: Decoder, items: seq<Json>, options: seq<OptionRecord>, seen: set<string>, cap: int)
    ensures var r := ScanItems(decode, items, options, seen, cap);
      && options <= r.options
      && |r.options| <= |options| + |items|
      && seen <= r.seen
      && (r.capped ==> cap > 0 && |r.options| >= cap)
    decreases |items|
  {
    if |items| > 0 {
      if !items[0].Obj? {
        ScanBounds(decode, items[1..], options, seen, cap);
      } else {
        var c := items[0].fields;
        var id := GetString(Lookup(c, "id"));
        var more := options + [decode(c)];
        if id in seen {
          ScanBounds(decode, items[1..], options, seen, cap);
        } else if !(cap > 0 && |more| >= cap) {
          ScanBounds(decode, items[1..], more, seen + {id}, cap);
        }
      }
    }
  }

  /** The contract loop's decoder gives every option all-zero market data. */
  lemma ContractDecoderZeroMarket(rt: Library.Runtime)
    ensures DecodesZeroMarket(ContractDecoder(rt))
  {
    var decode := ContractDecoder(rt);
    forall c ensures decode(c).market == ZeroMarket {
      assert decode(c) == DecodeContract(rt, c);
    }
  }

  /** A scan with a decoder that gives zero market data only adds options with zero market data. */
  lemma ScanKeepsZeroMarket(decode: Decoder, items: seq<Json>, options: seq<OptionRecord>, seen: set<string>, cap: int)
    requires DecodesZeroMarket(decode) && AllZeroMarket(options)
    ensures AllZeroMarket(ScanItems(decode, items, options, seen, cap).options)
  {
    ScanAppendsDecoded(decode, items, options, seen, cap);
    var r := ScanItems(decode, items, options, seen, cap);
    forall i | 0 <= i < |r.options|
      ensures r.options[i].market == ZeroMarket
    {
      if i < |options| {
        assert r.options[i] == r.options[..|options|][i];
      } else {
        var k :| 0 <= k < |items| && items[k].Obj? && r.options[i] == decode(items[k].fields);
      }
    }
  }

  /**
   * A scan keeps the processed ids equal to the ids of the options, appends
   * only to the end of the list, and so never appends a second option with
   * an id already present, within a page or from an earlier one.
   */
  lemma {:induction false} ScanKeepsIdsUnique(decode: Decoder, items: seq<Json>, options: seq<OptionRecord>, seen: set<string>, cap: int)
    requires KeepsId(decode)
    requires seen == IdSet(options) && NoDupIds(options)
    ensures var r := ScanItems(decode, items, options, seen, cap);
      r.seen == IdSet(r.options) && NoDupIds(r.options) && options <= r.options
    decreases |items|
  {
    if |items| > 0 && items[0].Obj? {
      var c := items[0].fields;
      var id := GetString(Lookup(c, "id"));
      if id !in seen {
        var more := options + [decode(c)];
        assert more[|options|].info.id == id;
        assert IdSet(more) == seen + {id} by {
          forall x | x in IdSet(more) ensures x in seen + {id} {
            var i :| 0 <= i < |more| && more[i].info.id == x;
            if i < |options| { assert options[i].info.id == x; }
          }
          forall x | x in seen + {id} ensures x in IdSet(more) {
            if x in seen {
              var i :| 0 <= i < |options| && options[i].info.id == x;
              assert more[i].info.id == x;
            }
          }
        }
        assert NoDupIds(more) by {
          forall i, j | 0 <= i < j < |more| ensures more[i].info.id != more[j].info.id {
            if j == |options| {
              assert options[i].info.id in IdSet(options);
            } else {
              assert more[i] == options[i] && more[j] == options[j];
            }
          }
        }
        if !(cap > 0 && |more| >= cap) {
          ScanKeepsIdsUnique(decode, items[1..], more, seen + {id}, cap);
        }
      } else {
        ScanKeepsIdsUnique(decode, items[1..], options, seen, cap);
      }
    } else if |items| > 0 {
      ScanKeepsIdsUnique(decode, items[1..], options, seen, cap);
    }
  }

  /**
   * With a positive cap not yet reached, a scan never exceeds it and reports
   * the cap exactly when the list reaches it; a cap of 0 or less never stops it.
   */
  lemma {:induction false} ScanRespectsCap(decode: Decoder, items: seq<Json>, options: seq<OptionRecord>, seen: set<string>, cap: int)
    requires cap > 0 ==> |options| < cap
    ensures var r := ScanItems(decode, items, options, seen, cap);
      && (cap > 0 ==> |r.options| <= cap && (r.capped <==> |r.options| == cap))
      && (cap <= 0 ==> !r.capped)
    decreases |items|
  {
    if |items| > 0 {
      if items[0].Obj? && GetString(Lookup(items[0].fields, "id")) !in seen {
        var c := items[0].fields;
        var more := options + [decode(c)];
        if !(cap > 0 && |more| >= cap) {
          ScanRespectsCap(decode, items[1..], more, seen + {GetString(Lookup(c, "id"))}, cap);
        }
      } else {
        ScanRespectsCap(decode, items[1..], options, seen, cap);
      }
    }
  }

  /** Unless the cap stopped it, a scan processes the id of every object entry of the page. */
  lemma {:induction false} ScanProcessesPage(decode: Decoder, items: seq<Json>, options: seq<OptionRecord>, seen: set<string>, cap: int)
    ensures var r := ScanItems(decode, items, options, seen, cap);
      && seen <= r.seen
      && (!r.capped ==> forall k :: 0 <= k < |items| && items[k].Obj? ==> GetString(Lookup(items[k].fields, "id")) in r.seen)
    decreases |items|
  {
    var r := ScanItems(decode, items, options, seen, cap);
    if |items| > 0 {
      var tail := items[1..];
      var id := if items[0].Obj? then GetString(Lookup(items[0].fields, "id")) else "";
      if items[0].Obj? && id !in seen {
        var more := options + [decode(items[0].fields)];
        if !(cap > 0 && |more| >= cap) {
          ScanProcessesPage(decode, tail, more, seen + {id}, cap);
        }
      } else {
        ScanProcessesPage(decode, tail, options, seen, cap);
      }
      if !r.capped {
        forall k | 0 <= k < |items| && items[k].Obj?
          ensures GetString(Lookup(items[k].fields, "id")) in r.seen
        {
          if k > 0 { assert items[k] == tail[k - 1]; }
        }
      }
    }
  }

  /**
   * A scan only appends, and every option it appends is the page-dialect
   * decoding of one of the page's object entries.
   */
  lemma {:induction false} ScanAppendsDecoded(decode: Decoder, items: seq<Json>, options: seq<OptionRecord>, seen: set<string>, cap: int)
    ensures var r := ScanItems(decode, items, options, seen, cap);
      && |options| <= |r.options| && r.options[..|options|] == options
      && forall i :: |options| <= i < |r.options| ==>
           exists k :: 0 <= k < |items| && items[k].Obj? && r.options[i] == decode(items[k].fields)
    decreases |items|
  {
    var r := ScanItems(decode, items, options, seen, cap);
    if |items| > 0 {
      var tail := items[1..];
      var id := if items[0].Obj? then GetString(Lookup(items[0].fields, "id")) else "";
      var appended := items[0].Obj? && id !in seen;
      var start := if appended then options + [decode(items[0].fields)] else options;
      var seen' := if appended then seen + {id} else seen;
      if appended && cap > 0 && |start| >= cap {
        assert r.options == start;
      } else {
        assert r == ScanItems(decode, tail, start, seen', cap);
        ScanAppendsDecoded(decode, tail, start, seen', cap);
        forall i | |options| <= i < |r.options|
          ensures exists k :: 0 <= k < |items| && items[k].Obj? && r.options[i] == decode(items[k].fields)
        {
          if i < |start| {
            assert r.options[i] == start[i] == decode(items[0].fields);
          } else {
            var k :| 0 <= k < |tail| && tail[k].Obj? && r.options[i] == decode(tail[k].fields);
            assert items[k + 1] == tail[k];
          }
        }
      }
    }
  }

  /**
   * The loop over one page: `processed` plays the processedIDs map, and the
   * method returns as soon as a positive cap is reached.
   */
  method ScanPage(decode: Decoder, items: seq<Json>, options: seq<OptionRecord>, seen: set<string>, cap: int)
    returns (collected: seq<OptionRecord>, processed: set<string>, capped: bool)
    ensures Scan(collected, processed, capped) == ScanItems(decode, items, options, seen, cap)
  {
    collected, processed, capped := options, seen, false;
    var i := 0;
    while i < |items|
      invariant 0 <= i <= |items|
      invariant ScanItems(decode, items, options, seen, cap) == ScanItems(decode, items[i..], collected, processed, cap)
    {
      assert items[i..][1..] == items[i + 1..];
      if items[i].Obj? {
        var c := items[i].fields;
        var id := GetString(Lookup(c, "id"));
        if id !in processed {
          processed := processed + {id};
          collected := collected + [decode(c)];
          if cap > 0 && |collected| >= cap {
            return collected, processed, true;
          }
        }
      }
      i := i + 1;
    }
  }

  /** How the contract phase ends. */
  datatype Phase =
    /** The listing ended or the cap was reached. */
    | Collected(options: seq<OptionRecord>)
    /** A page could not be fetched or had no "option_contracts" array. */
    | Aborted(error: Error)
    /** The deadline won the select before the listing ended. */
    | TimedOut(options: seq<OptionRecord>)

  /** What one contracts request yields: a failure, or a page's entries and the next cursor. */
  datatype ContractsReply = ContractsFailed(error: Error) | ContractsPage(items: seq<Json>, next: string)

  /**
   * One contracts request: an APIRequest failure, or a body without an
   * "option_contracts" array, ends the phase.
   */
  function FetchContracts(rt: Library.Runtime, fetch: PageFetcher, q: OptionQuery, token: string): (r: ContractsReply)
    requires FetchesLikeGet(rt, fetch)
    ensures r.ContractsFailed? ==> !r.error.OperationTimedOut?
  {
    match fetch(q, token)
    case Failure(e) => ContractsFailed(e)
    case Success(body) =>
      var m := BodyObject(rt, body).value;
      var contracts := Lookup(m, "option_contracts");
      if contracts.Arr? then ContractsPage(contracts.items, NextPageToken(m))
      else ContractsFailed(MalformedContractsPage)
  }

  /**
   * The contract phase from the page with cursor `token`, with `ticksLeft`
   * pages that may still be fetched before the deadline.
   */
  function ContractsPhase(rt: Library.Runtime, fetch: PageFetcher, q: OptionQuery, decode: Decoder, cap: int,
                          token: string, options: seq<OptionRecord>, seen: set<string>, ticksLeft: nat): (r: Phase)
    requires FetchesLikeGet(rt, fetch)
    ensures r.Aborted? ==> !r.error.OperationTimedOut?
    decreases ticksLeft
  {
    if ticksLeft == 0 then TimedOut(options)
    else match FetchContracts(rt, fetch, q, token)
      case ContractsFailed(e) => Aborted(e)
      case ContractsPage(items, next) =>
        var scan := ScanItems(decode, items, options, seen, cap);
        if scan.capped || next == "" then Collected(scan.options)
        else ContractsPhase(rt, fetch, q, decode, cap, next, scan.options, scan.seen, ticksLeft - 1)
  }

  /**
   * The contract phase keeps ids unique across pages, and what it returns
   * (collected or timed out) extends what it started with.
   */
  lemma {:induction false} PhaseKeepsIdsUnique(rt: Library.Runtime, fetch: PageFetcher, q: OptionQuery, decode: Decoder,
                                              cap: int, token: string, options: seq<OptionRecord>, seen: set<string>, ticksLeft: nat)
    requires FetchesLikeGet(rt, fetch) && KeepsId(decode)
    requires seen == IdSet(options) && NoDupIds(options)
    ensures var r := ContractsPhase(rt, fetch, q, decode, cap, token, options, seen, ticksLeft);
      !r.Aborted? ==> NoDupIds(r.options) && options <= r.options
    decreases ticksLeft
  {
    var r := ContractsPhase(rt, fetch, q, decode, cap, token, options, seen, ticksLeft);
    if ticksLeft > 0 && FetchContracts(rt, fetch, q, token).ContractsPage? {
      var page := FetchContracts(rt, fetch, q, token);
      ScanKeepsIdsUnique(decode, page.items, options, seen, cap);
      var scan := ScanItems(decode, page.items, options, seen, cap);
      if scan.capped || page.next == "" {
        assert r == Collected(scan.options);
      } else {
        assert r == ContractsPhase(rt, fetch, q, decode, cap, page.next, scan.options, scan.seen, ticksLeft - 1);
        PhaseKeepsIdsUnique(rt, fetch, q, decode, cap, page.next, scan.options, scan.seen, ticksLeft - 1);
      }
    }
  }

  /**
   * With a decoder that gives zero market data, whatever the contract phase
   * returns (collected or timed out) has zero market data throughout.
   */
  lemma {:induction false} PhaseKeepsZeroMarket(rt: Library.Runtime, fetch: PageFetcher, q: OptionQuery, decode: Decoder,
                                               cap: int, token: string, options: seq<OptionRecord>, seen: set<string>, ticksLeft: nat)
    requires FetchesLikeGet(rt, fetch) && DecodesZeroMarket(decode) && AllZeroMarket(options)
    ensures var r := ContractsPhase(rt, fetch, q, decode, cap, token, options, seen, ticksLeft);
      !r.Aborted? ==> AllZeroMarket(r.options)
    decreases ticksLeft
  {
    var r := ContractsPhase(rt, fetch, q, decode, cap, token, options, seen, ticksLeft);
    if ticksLeft > 0 && FetchContracts(rt, fetch, q, token).ContractsPage? {
      var page := FetchContracts(rt, fetch, q, token);
      ScanKeepsZeroMarket(decode, page.items, options, seen, cap);
      var scan := ScanItems(decode, page.items, options, seen, cap);
      if scan.capped || page.next == "" {
        assert r == Collected(scan.options);
      } else {
        assert r == ContractsPhase(rt, fetch, q, decode, cap, page.next, scan.options, scan.seen, ticksLeft - 1);
        PhaseKeepsZeroMarket(rt, fetch, q, decode, cap, page.next, scan.options, scan.seen, ticksLeft - 1);
      }
    }
  }

  /** With a positive cap not yet reached, the contract phase never returns more options than the cap. */
  lemma {:induction false} PhaseRespectsCap(rt: Library.Runtime, fetch: PageFetcher, q: OptionQuery, decode: Decoder,
                                           cap: int, token: string, options: seq<OptionRecord>, seen: set<string>, ticksLeft: nat)
    requires FetchesLikeGet(rt, fetch)
    requires cap > 0 && |options| < cap
    ensures var r := ContractsPhase(rt, fetch, q, decode, cap, token, options, seen, ticksLeft);
      !r.Aborted? ==> |r.options| <= cap
    decreases ticksLeft
  {
    var r := ContractsPhase(rt, fetch, q, decode, cap, token, options, seen, ticksLeft);
    if ticksLeft > 0 && FetchContracts(rt, fetch, q, token).ContractsPage? {
      var page := FetchContracts(rt, fetch, q, token);
      ScanRespectsCap(decode, page.items, options, seen, cap);
      var scan := ScanItems(decode, page.items, options, seen, cap);
      if scan.capped || page.next == "" {
        assert r == Collected(scan.options);
      } else {
        assert r == ContractsPhase(rt, fetch, q, decode, cap, page.next, scan.options, scan.seen, ticksLeft - 1);
        PhaseRespectsCap(rt, fetch, q, decode, cap, page.next, scan.options, scan.seen, ticksLeft - 1);
      }
    }
  }

  /** One iteration's request: APIRequest on the contracts URL, then the "option_contracts" and cursor lookups. */
  method RequestContracts(env: Env, ghost api: Api, q: OptionQuery, token: string) returns (reply: ContractsReply)
    requires HasBounds(q) && Serves(env, api)
    ensures reply == FetchContracts(env.rt, api.contracts, q, token)
  {
    var url := ContractsUrl(q, token);
    var body, _ := ApiRequest(env.rt, env.creds, url, env.net(url));
    assert Get(env, url) == body;
    if body.Failure? {
      return ContractsFailed(body.error);
    }
    var page := BodyObject(env.rt, body.value).value;
    var contracts := Lookup(page, "option_contracts");
    if !contracts.Arr? {
      return ContractsFailed(MalformedContractsPage);
    }
    reply := ContractsPage(contracts.items, NextPageToken(page));
  }

  /**
   * The contract loop of GetOptions. Each iteration is one tick of the
   * select; `ticksLeft` counts the ticks that still win over the deadline.
   */
  method CollectContracts(env: Env, ghost api: Api, q: OptionQuery, cap: int, timeoutAfter: nat) returns (phase: Phase)
    requires HasBounds(q) && Serves(env, api)
    ensures phase == ContractsPhase(env.rt, api.contracts, q, ContractDecoder(env.rt), cap, "", [], {}, timeoutAfter)
  {
    ghost var fetch := api.contracts;
    var decode := ContractDecoder(env.rt);
    var options: seq<OptionRecord> := [];
    var processed: set<string> := {};
    var token := "";
    var ticksLeft := timeoutAfter;
    ghost var goal := ContractsPhase(env.rt, fetch, q, decode, cap, "", [], {}, timeoutAfter);
    while ticksLeft > 0
      invariant goal == ContractsPhase(env.rt, fetch, q, decode, cap, token, options, processed, ticksLeft)
      decreases ticksLeft
    {
      var reply := RequestContracts(env, api, q, token);
      if reply.ContractsFailed? {
        return Aborted(reply.error);
      }
      var capped;
      options, processed, capped := ScanPage(decode, reply.items, options, processed, cap);
      if capped || reply.next == "" {
        return Collected(options);
      }
      token := reply.next;
      ticksLeft := ticksLeft - 1;
    }
    phase := TimedOut(options);
  }
}
