/**
 * The market-data phase of GetOptions: the paged snapshots listing, spliced
 * into the collected options through a symbol index.
 */
module Market {
  import opened Wrappers
  import opened Json
  import opened Records
  import opened Errors
  import opened Urls
  import opened Request
  import opened Pages

  /**
   * optionMap: each symbol maps to the position of the LAST option carrying
   * it, since later assignments overwrite earlier ones.
   */
  function Index(options: seq<OptionRecord>): (index: map<string, nat>)
    ensures forall s :: s in index ==> index[s] < |options| && options[index[s]].info.symbol == s
    ensures forall i :: 0 <= i < |options| ==>
      options[i].info.symbol in index && i <= index[options[i].info.symbol]
  {
    if |options| == 0 then map[]
    else
      var last := |options| - 1;
      Index(options[..last])[options[last].info.symbol := last]
  }

  /** The loop that fills optionMap. */
  method BuildIndex(options: seq<OptionRecord>) returns (index: map<string, nat>)
    ensures index == Index(options)
  {
    index := map[];
    for i := 0 to |options|
      invariant index == Index(options[..i])
    {
      assert options[..i + 1][..i] == options[..i];
      index := index[options[i].info.symbol := i];
    }
    assert options[..|options|] == options;
  }

  /** Every entry of the index points at an option carrying that symbol. */
  predicate IndexInto(index: map<string, nat>, options: seq<OptionRecord>)
  {
    forall s :: s in index ==> index[s] < |options| && options[index[s]].info.symbol == s
  }

  /** The option at position i after one page: spliced if the page's snapshot for its symbol is an object and i is the indexed option. */
  function UpdatedAt(rt: Library.Runtime, options: seq<OptionRecord>, index: map<string, nat>,
                     snaps: map<string, Json>, i: nat): (r: OptionRecord)
    requires i < |options|
    ensures r.info == options[i].info
    ensures r != options[i] ==>
      var s := options[i].info.symbol; s in index && index[s] == i && s in snaps && snaps[s].Obj?
  {
    var s := options[i].info.symbol;
    if s in index && index[s] == i && s in snaps && snaps[s].Obj?
    then ApplySnapshot(rt, options[i], snaps[s].fields)
    else options[i]
  }

  /**
   * The options after one snapshots page. Stated position by position, it
   * does not depend on the order in which the page's symbols are visited.
   */
  function PageUpdated(rt: Library.Runtime, options: seq<OptionRecord>, index: map<string, nat>,
                       snaps: map<string, Json>): (r: seq<OptionRecord>)
    ensures |r| == |options|
    ensures forall i :: 0 <= i < |options| ==> r[i] == UpdatedAt(rt, options, index, snaps, i)
  {
    seq(|options|, i requires 0 <= i < |options| => UpdatedAt(rt, options, index, snaps, i))
  }

  /**
   * A page changes only the options its snapshots map to, writes each
   * matched object snapshot into exactly its option, and never changes any
   * option's identity.
   */
  lemma PageTouchesOnlyMatched(rt: Library.Runtime, options: seq<OptionRecord>, index: map<string, nat>,
                               snaps: map<string, Json>)
    requires IndexInto(index, options)
    ensures var r := PageUpdated(rt, options, index, snaps);
      && (forall i :: 0 <= i < |options| ==> r[i].info == options[i].info)
      && (forall i :: 0 <= i < |options| && r[i] != options[i] ==>
            options[i].info.symbol in snaps && index[options[i].info.symbol] == i)
      && (forall s :: s in snaps && s in index && snaps[s].Obj? ==>
            r[index[s]] == ApplySnapshot(rt, options[index[s]], snaps[s].fields))
  {
  }

  /** Applying the same page twice is the same as applying it once. */
  lemma PageIdempotent(rt: Library.Runtime, options: seq<OptionRecord>, index: map<string, nat>,
                       snaps: map<string, Json>)
    requires IndexInto(index, options)
    ensures PageUpdated(rt, PageUpdated(rt, options, index, snaps), index, snaps)
         == PageUpdated(rt, options, index, snaps)
  {
    var once := PageUpdated(rt, options, index, snaps);
    var twice := PageUpdated(rt, once, index, snaps);
    forall i | 0 <= i < |options| ensures twice[i] == once[i] {
      var s := options[i].info.symbol;
      if s in index && index[s] == i && s in snaps && snaps[s].Obj? {
        SpliceIdempotent(rt, options[i], snaps[s].fields);
      }
    }
  }

  /**
   * The loop over one page's snapshots, visiting the symbols in an arbitrary
   * order as Go's map iteration does. An unmatched symbol is added to
   * `unmatched`; a matched one whose snapshot is an object is spliced into
   * its option through the index.
   */
  method ApplyPage(rt: Library.Runtime, options: seq<OptionRecord>, index: map<string, nat>,
                   snaps: map<string, Json>, unmatched: set<string>)
    returns (updated: seq<OptionRecord>, unmatched': set<string>)
    requires IndexInto(index, options)
    ensures updated == PageUpdated(rt, options, index, snaps)
    ensures unmatched' == unmatched + (snaps.Keys - index.Keys)
  {
    updated, unmatched' := options, unmatched;
    var remaining := snaps.Keys;
    while remaining != {}
      invariant remaining <= snaps.Keys
      invariant |updated| == |options|
      invariant forall i :: 0 <= i < |options| ==>
        updated[i] == (if options[i].info.symbol in remaining then options[i] else UpdatedAt(rt, options, index, snaps, i))
      invariant forall s :: s in unmatched' <==> s in unmatched || (s in snaps && s !in remaining && s !in index)
      decreases |remaining|
    {
      var symbol :| symbol in remaining;
      ghost var before := updated;
      remaining := remaining - {symbol};
      if symbol !in index {
        unmatched' := unmatched' + {symbol};
      } else if snaps[symbol].Obj? {
        var i := index[symbol];
        updated := updated[i := ApplySnapshot(rt, updated[i], snaps[symbol].fields)];
      }
      forall j | 0 <= j < |options|
        ensures updated[j] == (if options[j].info.symbol in remaining then options[j] else UpdatedAt(rt, options, index, snaps, j))
      {
        if options[j].info.symbol != symbol {
          assert updated[j] == before[j];
        } else if symbol in index && index[symbol] == j && snaps[symbol].Obj? {
          assert before[j] == options[j];
        } else {
          assert updated[j] == before[j] == options[j];
        }
      }
    }
  }

  /** What one snapshots request yields: a failure, or a page of snapshots and the next cursor. */
  datatype SnapshotReply = SnapshotsFailed(error: Error) | SnapshotPage(snaps: map<string, Json>, next: string)

  /**
   * One snapshots request: an APIRequest failure, or a body without a
   * "snapshots" object, ends the phase.
   */
  function FetchSnapshots(rt: Library.Runtime, fetch: PageFetcher, q: OptionQuery, token: string): (r: SnapshotReply)
    requires FetchesLikeGet(rt, fetch)
    ensures fetch(q, token).Failure? ==> r == SnapshotsFailed(fetch(q, token).error)
    ensures fetch(q, token).Success? && r.SnapshotsFailed? ==> r.error == NoSnapshots
  {
    match fetch(q, token)
    case Failure(e) => SnapshotsFailed(e)
    case Success(body) =>
      var m := BodyObject(rt, body).value;
      var snapshots := Lookup(m, "snapshots");
      if snapshots.Obj? then SnapshotPage(snapshots.fields, NextPageToken(m))
      else SnapshotsFailed(NoSnapshots)
  }

  /**
   * A successful snapshots request ends the phase exactly when its body has
   * no "snapshots" object; otherwise the page is that object, with the
   * body's cursor.
   */
  lemma SnapshotsPageShape(rt: Library.Runtime, fetch: PageFetcher, q: OptionQuery, token: string)
    requires FetchesLikeGet(rt, fetch) && fetch(q, token).Success?
    ensures var m := BodyObject(rt, fetch(q, token).value).value;
      var r := FetchSnapshots(rt, fetch, q, token);
      && (r.SnapshotsFailed? <==> !Lookup(m, "snapshots").Obj?)
      && (r.SnapshotPage? ==> r.snaps == Lookup(m, "snapshots").fields && r.next == NextPageToken(m))
  {
  }

  /**
   * The snapshots listing starting at `token` ends within `pages` requests.
   * The source loops until it ends; this is the assumption that it does.
   */
  ghost predicate ListingEndsWithin(rt: Library.Runtime, fetch: PageFetcher, q: OptionQuery, token: string, pages: nat)
    requires FetchesLikeGet(rt, fetch)
    decreases pages
  {
    && pages > 0
    && match FetchSnapshots(rt, fetch, q, token)
       case SnapshotsFailed(_) => true
       case SnapshotPage(_, next) => next == "" || ListingEndsWithin(rt, fetch, q, next, pages - 1)
  }

  /**
   * The outcome of the phase: the updated options, the symbols that matched
   * no option, and the failure that ended it early, if any (the source
   * reports it only in its log text, never as an error).
   */
  datatype Merged = Merged(options: seq<OptionRecord>, unmatched: set<string>, failure: Option<Error>)

  /** The market-data phase from the page with cursor `token`. */
  function MarketPhase(rt: Library.Runtime, fetch: PageFetcher, q: OptionQuery, options: seq<OptionRecord>,
                       index: map<string, nat>, token: string, unmatched: set<string>, pages: nat): (r: Merged)
    requires FetchesLikeGet(rt, fetch) && ListingEndsWithin(rt, fetch, q, token, pages)
    ensures |r.options| == |options| && unmatched <= r.unmatched
    decreases pages
  {
    match FetchSnapshots(rt, fetch, q, token)
    case SnapshotsFailed(e) => Merged(options, unmatched, Some(e))
    case SnapshotPage(snaps, next) =>
      var updated := PageUpdated(rt, options, index, snaps);
      var unmatched' := unmatched + (snaps.Keys - index.Keys);
      if next == "" then Merged(updated, unmatched', None)
      else MarketPhase(rt, fetch, q, updated, index, next, unmatched', pages - 1)
  }

  /**
   * The phase keeps every option in place with its identity, leaves alone
   * every option the index does not point at (an earlier one sharing its
   * symbol with a later one), and records as unmatched only symbols that no
   * option carries.
   */
  lemma {:induction false} PhasePreservesIdentity(rt: Library.Runtime, fetch: PageFetcher, q: OptionQuery,
                                                 options: seq<OptionRecord>, index: map<string, nat>, token: string,
                                                 unmatched: set<string>, pages: nat)
    requires FetchesLikeGet(rt, fetch) && ListingEndsWithin(rt, fetch, q, token, pages)
    requires IndexInto(index, options)
    ensures var r := MarketPhase(rt, fetch, q, options, index, token, unmatched, pages);
      && |r.options| == |options|
      && (forall i :: 0 <= i < |options| ==> r.options[i].info == options[i].info)
      && (forall i :: 0 <= i < |options| && options[i].info.symbol in index && index[options[i].info.symbol] != i ==>
            r.options[i] == options[i])
      && r.unmatched - unmatched <= r.unmatched - index.Keys
    decreases pages
  {
    match FetchSnapshots(rt, fetch, q, token)
    case SnapshotsFailed(_) =>
    case SnapshotPage(snaps, next) =>
      var updated := PageUpdated(rt, options, index, snaps);
      assert IndexInto(index, updated);
      if next != "" {
        PhasePreservesIdentity(rt, fetch, q, updated, index, next, unmatched + (snaps.Keys - index.Keys), pages - 1);
      }
  }

  /**
   * The symbols of the snapshots pages read from `token` on: every page up
   * to the last one, or up to the first request that fails.
   */
  ghost function ListedSymbols(rt: Library.Runtime, fetch: PageFetcher, q: OptionQuery, token: string, pages: nat): set<string>
    requires FetchesLikeGet(rt, fetch) && ListingEndsWithin(rt, fetch, q, token, pages)
    decreases pages
  {
    match FetchSnapshots(rt, fetch, q, token)
    case SnapshotsFailed(_) => {}
    case SnapshotPage(snaps, next) =>
      snaps.Keys + (if next == "" then {} else ListedSymbols(rt, fetch, q, next, pages - 1))
  }

  /**
   * An option whose symbol no page lists leaves the phase unchanged, and
   * the unmatched set ends up holding exactly the listed symbols that no
   * option carries.
   */
  lemma {:induction false} PhaseTouchesOnlyListed(rt: Library.Runtime, fetch: PageFetcher, q: OptionQuery,
                                                 options: seq<OptionRecord>, index: map<string, nat>, token: string,
                                                 unmatched: set<string>, pages: nat)
    requires FetchesLikeGet(rt, fetch) && ListingEndsWithin(rt, fetch, q, token, pages)
    ensures var r := MarketPhase(rt, fetch, q, options, index, token, unmatched, pages);
      var listed := ListedSymbols(rt, fetch, q, token, pages);
      && (forall i :: 0 <= i < |options| && options[i].info.symbol !in listed ==> r.options[i] == options[i])
      && r.unmatched == unmatched + (listed - index.Keys)
    decreases pages
  {
    match FetchSnapshots(rt, fetch, q, token)
    case SnapshotsFailed(_) =>
    case SnapshotPage(snaps, next) =>
      var updated := PageUpdated(rt, options, index, snaps);
      if next != "" {
        PhaseTouchesOnlyListed(rt, fetch, q, updated, index, next, unmatched + (snaps.Keys - index.Keys), pages - 1);
      }
  }

  /** One iteration's request: APIRequest on the snapshots URL, then the "snapshots" and cursor lookups. */
  method RequestSnapshots(env: Env, ghost api: Api, q: OptionQuery, token: string) returns (reply: SnapshotReply)
    requires HasBounds(q) && Serves(env, api)
    ensures reply == FetchSnapshots(env.rt, api.snapshots, q, token)
  {
    var url := SnapshotsUrl(q, token);
    var body, _ := ApiRequest(env.rt, env.creds, url, env.net(url));
    assert Get(env, url) == body;
    if body.Failure? {
      return SnapshotsFailed(body.error);
    }
    var page := BodyObject(env.rt, body.value).value;
    var snapshots := Lookup(page, "snapshots");
    if !snapshots.Obj? {
      return SnapshotsFailed(NoSnapshots);
    }
    reply := SnapshotPage(snapshots.fields, NextPageToken(page));
  }

  /**
   * The market-data loop of GetOptions. `pages` is a ghost bound on the
   * length of the listing; an APIRequest failure or a body without
   * snapshots ends the loop with the options as they stand.
   */
  method MergeMarketData(env: Env, ghost api: Api, q: OptionQuery, options: seq<OptionRecord>, ghost pages: nat)
    returns (merged: Merged)
    requires HasBounds(q) && Serves(env, api) && ListingEndsWithin(env.rt, api.snapshots, q, "", pages)
    ensures merged == MarketPhase(env.rt, api.snapshots, q, options, Index(options), "", {}, pages)
  {
    ghost var fetch := api.snapshots;
    var index := BuildIndex(options);
    var updated := options;
    var unmatched: set<string> := {};
    var token := "";
    ghost var left := pages;
    while true
      invariant IndexInto(index, updated) && ListingEndsWithin(env.rt, fetch, q, token, left)
      invariant MarketPhase(env.rt, fetch, q, options, index, "", {}, pages)
             == MarketPhase(env.rt, fetch, q, updated, index, token, unmatched, left)
      decreases left
    {
      var reply := RequestSnapshots(env, api, q, token);
      if reply.SnapshotsFailed? {
        return Merged(updated, unmatched, Some(reply.error));
      }
      updated, unmatched := ApplyPage(env.rt, updated, index, reply.snaps, unmatched);
      token := reply.next;
      if token == "" {
        return Merged(updated, unmatched, None);
      }
      left := left - 1;
    }
  }
}
