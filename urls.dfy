/** The option query and the two endpoint URLs built from it. */
module Urls {
  import opened Extract

  /**
   * OptionURLReq: the underlying ticker, "call" or "put", the strike bounds
   * and the expiration-date bounds. Its unused ApiKey field is omitted.
   */
  datatype OptionQuery = OptionQuery(
    ticker: string, contractType: string, strikeRange: seq<int>, dateRange: seq<string>)

  /** GetOptions reads StrikeRange[0..1] and DateRange[0..1] without checking their length. */
  predicate HasBounds(q: OptionQuery)
  {
    |q.strikeRange| >= 2 && |q.dateRange| >= 2
  }

  const ContractsBase: string := "https://paper-api.alpaca.markets/v2/options/contracts"
  const SnapshotsBase: string := "https://data.alpaca.markets/v1beta1/options/snapshots/"
  const ContractsTail: string := "&limit=1000"

  /** The contracts URL up to and including "page_token=". */
  function ContractsHead(q: OptionQuery): string
    requires HasBounds(q)
  {
    ContractsBase + "?underlying_symbols=" + q.ticker + ContractsFilters(q)
  }

  /** The filters of the contracts URL that follow the ticker, up to and including "page_token=". */
  function ContractsFilters(q: OptionQuery): string
    requires HasBounds(q)
  {
    "&show_deliverables=false&expiration_date_gte=" + q.dateRange[0]
    + "&expiration_date_lte=" + q.dateRange[1]
    + "&type=" + q.contractType
    + "&strike_price_gte=" + IntToDecimal(q.strikeRange[0])
    + "&strike_price_lte=" + IntToDecimal(q.strikeRange[1])
    + "&page_token="
  }

  /** One page of the contracts listing, fetched with `token` as its page_token. */
  function ContractsUrl(q: OptionQuery, token: string): (url: string)
    requires HasBounds(q)
    ensures ContractsBase + "?underlying_symbols=" + q.ticker <= url
    ensures |url| >= |ContractsTail| && url[|url| - |ContractsTail|..] == ContractsTail
  {
    ConcatStartsWith(ContractsBase + "?underlying_symbols=" + q.ticker, ContractsFilters(q), token, ContractsTail);
    ConcatEndsWith(ContractsHead(q) + token, ContractsTail);
    ContractsHead(q) + token + ContractsTail
  }

  /** A concatenation starts with its leftmost part. */
  lemma ConcatStartsWith(a: string, b: string, c: string, d: string)
    ensures a <= a + b + c + d
  {
    assert a + b + c + d == a + (b + c + d);
  }

  /** A concatenation ends with its right part. */
  lemma ConcatEndsWith(a: string, b: string)
    ensures |a + b| >= |b| && (a + b)[|a + b| - |b|..] == b
  {
    assert |a + b| - |b| == |a|;
  }

  /** The snapshots URL after the page token. */
  function SnapshotsTail(q: OptionQuery): string
    requires HasBounds(q)
  {
    "&strike_price_gte=" + IntToDecimal(q.strikeRange[0])
    + "&strike_price_lte=" + IntToDecimal(q.strikeRange[1])
    + "&expiration_date_gte=" + q.dateRange[0]
    + "&expiration_date_lte=" + q.dateRange[1]
    + "&type=" + q.contractType
  }

  /** The snapshots URL up to and including "page_token=". */
  function SnapshotsHead(q: OptionQuery): string
  {
    SnapshotsBase + q.ticker + "?feed=indicative&limit=1000&page_token="
  }

  /** One page of the snapshots listing, fetched with `token` as its page_token. */
  function SnapshotsUrl(q: OptionQuery, token: string): (url: string)
    requires HasBounds(q)
    ensures SnapshotsBase + q.ticker <= url
  {
    SnapshotsHead(q) + token + SnapshotsTail(q)
  }

  /**
   * Inserting a token between a fixed head and tail: the result is the
   * token-less string with the token spliced in at |head|, and it is
   * injective in the token.
   */
  lemma {:induction false} SpliceAt(head: string, tail: string, t1: string, t2: string)
    ensures head + t1 + tail == (head + "" + tail)[..|head|] + t1 + (head + "" + tail)[|head|..]
    ensures head + t1 + tail == head + t2 + tail <==> t1 == t2
  {
    var first := head + "" + tail;
    assert first[..|head|] == head;
    assert first[|head|..] == tail;
    if head + t1 + tail == head + t2 + tail {
      var u := head + t1 + tail;
      assert |t1| == |t2|;
      assert t1 == u[|head|..|head| + |t1|];
      assert t2 == (head + t2 + tail)[|head|..|head| + |t2|];
    }
  }

  /**
   * The URL of a later page is the first page's URL with the token inserted
   * verbatim right after "page_token=".
   */
  lemma ContractsTokenVerbatim(q: OptionQuery, token: string)
    requires HasBounds(q)
    ensures var first, k := ContractsUrl(q, ""), |ContractsHead(q)|;
      k <= |first| && ContractsUrl(q, token) == first[..k] + token + first[k..]
  {
    SpliceAt(ContractsHead(q), ContractsTail, token, token);
  }

  /** Different tokens give different contracts URLs, and equal tokens equal ones. */
  lemma ContractsUrlInjective(q: OptionQuery, t1: string, t2: string)
    requires HasBounds(q)
    ensures ContractsUrl(q, t1) == ContractsUrl(q, t2) <==> t1 == t2
  {
    SpliceAt(ContractsHead(q), ContractsTail, t1, t2);
  }

  /** The same holds of the snapshots URL. */
  lemma SnapshotsTokenVerbatim(q: OptionQuery, token: string)
    requires HasBounds(q)
    ensures var first, k := SnapshotsUrl(q, ""), |SnapshotsHead(q)|;
      k <= |first| && SnapshotsUrl(q, token) == first[..k] + token + first[k..]
  {
    SpliceAt(SnapshotsHead(q), SnapshotsTail(q), token, token);
  }

  /** Different tokens give different snapshots URLs. */
  lemma SnapshotsUrlInjective(q: OptionQuery, t1: string, t2: string)
    requires HasBounds(q)
    ensures SnapshotsUrl(q, t1) == SnapshotsUrl(q, t2) <==> t1 == t2
  {
    SpliceAt(SnapshotsHead(q), SnapshotsTail(q), t1, t2);
  }
}
