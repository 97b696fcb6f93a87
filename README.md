# Alpaca option-chain client, modelled in Dafny

This project models the fetch-and-merge engine of `alpacaApiClient.go`, a Go
client for the Alpaca brokerage API that collects an option chain in two phases:

- **Contract phase.** It pages through the contracts endpoint
  (`/v2/options/contracts`) under a five-minute deadline.
  - Contracts are deduplicated by id.
  - Collection stops at a cap `nMax`.
- **Market-data phase.** It pages through the snapshots endpoint
  (`/v1beta1/options/snapshots/<ticker>`).
  - Each snapshot is spliced into the option with the same symbol, one sub-object
    at a time.

Around these phases sit several further operations:

- the validation of the query's expiration dates as RFC 3339 full-dates
  (sections 5.6 and 5.7 of RFC 3339);
- `APIRequest`, an authenticated GET that re-sends non-200 responses and then
  checks the body of the 200;
- `MergeRequests`, which runs several queries in turn;
- `JsonToOptions`, which decodes a saved result set;
- the typed JSON getters (`getString`, `getInt`, `getFloat64`, `getBool`) and
  the parsers `parseInt` and `parseFloat64`;
- `parseBar`, `stndrdth` and `buildSymbolsList`.

Module by module:

- `Json` holds the values `encoding/json` produces when it decodes into
  `interface{}`.
- `Library` holds the parts of Go's standard library that are not modelled:
  - the JSON text parser;
  - `strconv.ParseFloat`;
  - `time.Parse`;
  - the URL check inside `http.NewRequest`.

  They are function-valued fields of a `Runtime`, so the theorems hold for any
  library, except where a lemma names the library facts it assumes. The
  assumptions come in two kinds:
  - `Sound` says that "" is neither a number for `strconv.ParseFloat` nor a
    timestamp for `time.Parse`;
  - each round-trip lemma requires that the parser reads back the text it is
    given.
- `Extract` has the getters and parsers. A value of the wrong kind yields the
  zero value.
- `Records` has the option record and the two decoding dialects:
  - in the contracts-page dialect, numbers arrive as strings;
  - in the file dialect, numbers are JSON numbers.

  It also has the per-sub-object snapshot splice.
- `Request` is `APIRequest`. The network is a function giving, for each URL,
  the outcome of its k-th send.
- `Urls` builds the two endpoint URLs.
- `Pages` presents each listing as a function from a query and a page cursor
  to a body or an error.
- `Contracts` and `Market` are the two phases. Each one has:
  - a specification function that recurses over pages;
  - a method whose loop is proved equal to it;
  - lemmas about what the phase guarantees.
- `Client` has `GetOptions` and `MergeRequests`.
- `Dates` has the full-date validation.
- `FileOptions` has `JsonToOptions`.
- `Helpers` has `stndrdth` and `buildSymbolsList`.

The deadline is modelled as `timeoutAfter`, a number of loop ticks. The timer
wins the `select` once those ticks are used up, so every schedule of the timer is
covered. The market-data loop has no deadline in Go, so its method takes a ghost
bound on the length of the snapshots listing.

`APIRequest` is modelled on its code: a request makes at most 12 sends, that is,
the first send and up to 11 re-sends. The twelfth send fails the request
whatever its status, so success needs a 200 within the first 11 sends.

## Model

| member | source | states |
|---|---|---|
| Json.Lookup | alpacaApiClient.go:542 | a missing key of a decoded map reads as nil (JSON null); a present key reads as its value |
| Json.AsTopObject | alpacaApiClient.go:990-993 | unmarshalling into a map succeeds exactly for an object (its fields) or a top-level null (an empty map) |
| Extract.GetString | alpacaApiClient.go:369-374 | a JSON string yields its text; anything else yields "" |
| Extract.GetFloat64 | alpacaApiClient.go:355-360 | a JSON number yields its value; anything else yields 0 |
| Extract.GetInt | alpacaApiClient.go:362-367 | a number is truncated toward zero (magnitude within 1, sign kept); anything else yields 0 |
| Extract.Truncate | alpacaApiClient.go:364 | Go's int(f) rounds toward zero: the magnitude drops by less than 1 and the sign is kept |
| Extract.GetBool | alpacaApiClient.go:1129-1135 | the result is true exactly for the JSON value true |
| Extract.IntToDecimal | alpacaApiClient.go:498-499 | %v rendering of an int: non-empty, with a leading '-' exactly for negative values |
| Extract.NatToDecimal | alpacaApiClient.go:498-499 | the decimal digits of a natural number, without leading zeros, whose value is the number |
| Extract.ParseInt | alpacaApiClient.go:908-914 | strconv.Atoi with errors as 0: the signed value of a well-formed 64-bit integer text, otherwise 0 |
| Extract.ParseIntRoundTrip | alpacaApiClient.go:908-914 | parseInt reads back every 64-bit int that %v prints |
| Extract.ParseFloat64 | alpacaApiClient.go:899-905 | strconv.ParseFloat's value when it parses, otherwise 0 |
| Extract.ParseTimestamp | alpacaApiClient.go:885 | time.Parse with the error dropped: the parsed instant, or the zero time on failure |
| Extract.WrongKindYieldsZero | alpacaApiClient.go:355-374 | every getter yields its zero value on a value of the wrong kind, and parse-of-getString of a non-string is 0 |
| Dates.DaysInMonth | alpacaApiClient.go:473 | every month has 28 to 31 days, and February has 29 exactly in leap years |
| Dates.ParseFullDate | alpacaApiClient.go:473-476 | time.Parse("2006-01-02") accepts only the DDDD-DD-DD shape with a valid month and day, and returns the date the digits spell |
| Dates.FormatFullDate | alpacaApiClient.go:473 | the full-date text of a valid date has the DDDD-DD-DD shape |
| Dates.FormatThenParse | alpacaApiClient.go:473-476 | every valid date is read back from its full-date text |
| Dates.ParseThenFormat | alpacaApiClient.go:473-476 | every accepted text is exactly the full-date text of the date it parsed to |
| Dates.DigitsRoundTrip | alpacaApiClient.go:473 | a run of digits is reproduced by zero-padding its value to its width |
| Dates.MonthThirteenRejected | alpacaApiClient.go:473-476 | a month of 13 is rejected |
| Dates.FirstInvalid | alpacaApiClient.go:472-477 | there is no invalid entry exactly when every DateRange entry parses |
| Dates.FirstInvalidIsFirst | alpacaApiClient.go:472-477 | the entry reported is an entry that does not parse, and every entry before it parses |
| Dates.FirstInvalidDate | alpacaApiClient.go:472-477 | the validation loop returns the first unparseable entry, or none exactly when all entries parse |
| Records.ParseBar | alpacaApiClient.go:884-896 | parseBar reads the timestamp as RFC3339Nano and every other field as the snapshot bar decoding does |
| Records.DecodeBar | alpacaApiClient.go:754-765 | an empty object gives the zero bar (when "" is not a timestamp), and a timestamp that does not parse gives the zero time |
| Records.DecodeGreeks | alpacaApiClient.go:794-800 | an empty greeks object gives all-zero greeks |
| Records.DecodeQuote | alpacaApiClient.go:806-816 | an empty quote object gives the zero quote (when "" is not a timestamp) |
| Records.DecodeTrade | alpacaApiClient.go:819-826 | an empty trade object gives the zero trade (when "" is not a timestamp) |
| Records.PageInfo | alpacaApiClient.go:550-569 | the contracts-page dialect is the file dialect with its five numbers parsed from strings |
| Records.FileInfo | alpacaApiClient.go:195-214 | an object that carries every field of a contract, numbers as JSON numbers, decodes to exactly that contract |
| Records.DecodeContract | alpacaApiClient.go:549-627 | a new contract carries the entry's id and symbol and non-nil, all-zero market data |
| Records.ApplySnapshot | alpacaApiClient.go:754-826 | a snapshot never changes the option's identity fields (the market data it writes is stated by SnapshotSplicesMarket) |
| Records.DecodeFileOption | alpacaApiClient.go:194-346 | an option read from the file has exactly the file-dialect identity of its object (its market data is stated by FileOptionRoundTrip) |
| Records.SplicePerSubObject | alpacaApiClient.go:754-826 | each object sub-object overwrites its whole struct, and an absent or non-object one leaves it untouched; impliedVolatility is always reassigned, to 0 when missing |
| Records.SpliceIdempotent | alpacaApiClient.go:754-826 | applying the same snapshot twice equals applying it once |
| Records.PageNumbersMustBeStrings | alpacaApiClient.go:562-567 | in the contracts-page dialect a numeric field sent as a JSON number decodes to 0 |
| Records.PageInfoRoundTrip | alpacaApiClient.go:550-569 | a contracts-page object with numbers as decimal strings decodes back to every field exactly |
| Records.PageDialectZeroesJsonNumbers | alpacaApiClient.go:562-567 | a contract sent with JSON numbers gets all five numeric fields 0 and every other field exact |
| Records.BarRoundTrip | alpacaApiClient.go:884-896 | a bar in the endpoint's JSON form decodes back to itself whenever its timestamp parses back |
| Records.GreeksRoundTrip | alpacaApiClient.go:794-800 | each greek is read from its own key (delta, gamma, rho, theta, vega), so the greeks the endpoint sends are read back |
| Records.QuoteRoundTrip | alpacaApiClient.go:806-816 | each quote field is read from its own key (ap, as, ax, bp, bs, bx, c, and t as RFC3339Nano), so a quote is read back whenever its timestamp is |
| Records.TradeRoundTrip | alpacaApiClient.go:819-826 | each trade field is read from its own key (c, p, s, x, and t as RFC3339Nano), so a trade is read back whenever its timestamp is |
| Records.SnapshotSplicesMarket | alpacaApiClient.go:754-826 | a snapshot carrying the encoded market data replaces the option's whole market data with it, whatever was there, when the bar timestamps read back as RFC3339 and the quote and trade timestamps as RFC3339Nano |
| Records.SnapshotRoundTrip | alpacaApiClient.go:754-826 | the merge's splice reads back every encoded snapshot under those timestamp layouts |
| Records.FileOptionRoundTrip | alpacaApiClient.go:194-346 | a file object carrying a contract's fields and its encoded market data decodes to exactly that option |
| FileOptions.ObjectsOf | alpacaApiClient.go:188-192 | skipping non-object entries never yields more entries than the array has |
| FileOptions.SavedOptions | alpacaApiClient.go:164-185 | empty text gives nothing; there is an options array exactly when the text is a JSON object (or null) with an "options" array, and it is that array |
| FileOptions.JsonToOptions | alpacaApiClient.go:164-351 | empty text, non-JSON text or a missing "options" array gives no options; otherwise one option per object entry, in order, each decoded in the file dialect |
| Request.CheckBodyAccepts | alpacaApiClient.go:973-1014 | a 200 body is accepted exactly when it is readable, non-empty, a JSON object or null with no non-empty "message" and no null "option_contracts"; an accepted body is returned unchanged |
| Request.CheckBody | alpacaApiClient.go:973-1008 | an accepted body is the non-empty body text itself and decodes to a JSON object or null; a rejection is one of the body errors |
| Request.FirstSettled | alpacaApiClient.go:946-970 | the first send that ends the retry loop (a transport error or a 200) among the first 11; every earlier send was neither |
| Request.Fetch | alpacaApiClient.go:916-1015 | a successful request returns a JSON object or null and never reports the timeout |
| Request.Get | alpacaApiClient.go:916-1015 | a successful request returns a JSON object or null and never reports the timeout |
| Request.NextPageToken | alpacaApiClient.go:647-649 | a string under "next_page_token" is returned as it is; an absent or non-string cursor gives "" |
| Request.FirstSettledAt | alpacaApiClient.go:946-970 | an index before which nothing settles, and at which the request settles, is the settling index |
| Request.FirstSettledAgree | alpacaApiClient.go:946-970 | send sequences that agree up to the settling send settle at the same index |
| Request.FetchReadsOnlyItsSends | alpacaApiClient.go:940-970 | the result depends only on the outcomes of the sends actually made |
| Request.RetryPolicy | alpacaApiClient.go:919-970 | at most 12 sends; missing credentials send nothing; success needs a 200 within the first 11 sends with every earlier send non-200; a transport error ends the request at once; 12 non-200 answers fail with the last status |
| Request.ApiRequest | alpacaApiClient.go:916-1015 | the retry loop and body checks return exactly Fetch's result and number of sends |
| Urls.SpliceAt | alpacaApiClient.go:657-664 | inserting a token between a fixed head and tail splices it in at the head's length, injectively |
| Urls.ContractsUrl | alpacaApiClient.go:493-500 | the contracts URL starts with the endpoint and the ticker filter and ends with "&limit=1000" |
| Urls.SnapshotsUrl | alpacaApiClient.go:685-693 | the snapshots URL starts with the endpoint followed by the ticker |
| Urls.ContractsTokenVerbatim | alpacaApiClient.go:657-664 | a later contracts URL is the first one with the token inserted verbatim after "page_token=" |
| Urls.ContractsUrlInjective | alpacaApiClient.go:657-664 | two contracts URLs are equal exactly when their tokens are |
| Urls.SnapshotsTokenVerbatim | alpacaApiClient.go:850-858 | a later snapshots URL is the first one with the token inserted verbatim after "page_token=" |
| Urls.SnapshotsUrlInjective | alpacaApiClient.go:850-858 | two snapshots URLs are equal exactly when their tokens are |
| Pages.ApiOf | alpacaApiClient.go:518 | each page of either listing is what APIRequest returns for that page's URL |
| Contracts.ContractDecoder | alpacaApiClient.go:549-627 | each entry becomes the contract it decodes to, and that contract carries the entry's id |
| Contracts.ScanBounds | alpacaApiClient.go:536-643 | a page scan (ScanItems, the loop over one page's "option_contracts") keeps what was collected as a prefix, adds at most one option per entry, only adds to the processed ids, and reports the cap only when a positive cap is reached |
| Contracts.ScanKeepsIdsUnique | alpacaApiClient.go:536-547 | processing a page keeps the processed ids equal to the collected ids, only appends, and never appends a second option with an id already present |
| Contracts.ScanRespectsCap | alpacaApiClient.go:636-642 | with a positive cap the list never exceeds it and the scan stops exactly when the list reaches it; a cap of 0 or less never stops it |
| Contracts.ScanProcessesPage | alpacaApiClient.go:536-547 | unless the cap stopped it, a scan records the id of every object entry of the page |
| Contracts.ScanAppendsDecoded | alpacaApiClient.go:536-629 | a scan keeps the earlier options as a prefix, and every appended option is the decoding of an object entry of the page |
| Contracts.ContractDecoderZeroMarket | alpacaApiClient.go:549-627 | every option the contract loop decodes starts with all-zero market data |
| Contracts.ScanKeepsZeroMarket | alpacaApiClient.go:536-643 | a page scan only adds options with all-zero market data |
| Contracts.ScanPage | alpacaApiClient.go:536-643 | the per-page loop computes exactly the scan's options, processed ids and cap flag |
| Contracts.FetchContracts | alpacaApiClient.go:518-533 | a failed contracts request never reports the timeout |
| Contracts.ContractsPhase | alpacaApiClient.go:512-666 | an aborted contract phase never carries the timeout error |
| Contracts.PhaseKeepsIdsUnique | alpacaApiClient.go:512-666 | across pages the contract phase returns options with distinct ids, extending what it started with, whether it completed or timed out |
| Contracts.PhaseKeepsZeroMarket | alpacaApiClient.go:512-666 | every option the contract phase returns, collected or timed out, has all-zero market data |
| Contracts.PhaseRespectsCap | alpacaApiClient.go:636-642 | with a positive cap the contract phase never returns more options than the cap |
| Contracts.RequestContracts | alpacaApiClient.go:518-533 | one iteration's request yields exactly the page's entries and cursor, or its failure |
| Contracts.CollectContracts | alpacaApiClient.go:502-666 | the contract loop ends exactly as the contract phase specifies |
| Market.Index | alpacaApiClient.go:675-681 | every symbol maps to an option carrying it, and to the last such option |
| Market.BuildIndex | alpacaApiClient.go:675-681 | the loop builds exactly that index |
| Market.UpdatedAt | alpacaApiClient.go:733-826 | an option keeps its identity, and changes only if the page has an object snapshot for its symbol and the index points at it |
| Market.PageUpdated | alpacaApiClient.go:733-832 | the options after a page are, position by position, spliced only where the page's snapshot targets them; no visiting order is involved |
| Market.PageTouchesOnlyMatched | alpacaApiClient.go:733-826 | a page changes only the options its snapshots map to, writes each matched object snapshot into exactly its option, and keeps every identity |
| Market.PageIdempotent | alpacaApiClient.go:754-826 | applying the same page twice equals applying it once |
| Market.ApplyPage | alpacaApiClient.go:733-832 | visiting a page's symbols in any order gives the order-independent update, and adds to the unmatched set exactly the page's symbols that no option has |
| Market.FetchSnapshots | alpacaApiClient.go:701-716 | a request failure ends the phase with its own error, and a successful request that ends it does so with NoSnapshots |
| Market.SnapshotsPageShape | alpacaApiClient.go:701-716 | a successful request ends the phase exactly when the body has no "snapshots" object; otherwise the page is that object with the body's cursor |
| Market.MarketPhase | alpacaApiClient.go:700-859 | the market phase keeps the number of options and only adds to the unmatched symbols |
| Market.PhasePreservesIdentity | alpacaApiClient.go:700-859 | the market phase keeps every option in place with its identity, leaves alone options shadowed by a later one with the same symbol, and records as unmatched only symbols no option has |
| Market.PhaseTouchesOnlyListed | alpacaApiClient.go:733-752 | an option whose symbol no snapshots page lists leaves the phase unchanged (so a new contract keeps its zero market data), and the unmatched set is exactly the listed symbols no option carries |
| Market.RequestSnapshots | alpacaApiClient.go:701-716 | one iteration's request yields exactly the page's snapshots and cursor, or its failure |
| Market.MergeMarketData | alpacaApiClient.go:668-859 | the market-data loop ends exactly as the market phase specifies |
| Client.NormaliseCap | alpacaApiClient.go:488-490 | the cap is positive exactly when nMax is positive or -1; a positive nMax is kept and -1 becomes 10000 |
| Client.GetOptionsSpec | alpacaApiClient.go:466-872 | an invalid date gives its error and no options; a logged market-data failure never comes with an error |
| Client.GetOptionsErrorPolicy | alpacaApiClient.go:472-716 | an invalid date is reported first; any error but the timeout comes with no options; the timeout comes with the options so far and their count; a market-data failure is only logged, never an error |
| Client.GetOptionsIdsUnique | alpacaApiClient.go:536-547 | no two options GetOptions returns share an id |
| Client.GetOptionsUnlistedZeroMarket | alpacaApiClient.go:512-859 | an option GetOptions returns whose symbol no snapshots page lists keeps all-zero market data; after a timeout every option returned does |
| Client.GetOptionsCapped | alpacaApiClient.go:488-490 | with nMax > 0, or nMax == -1 standing for 10000, GetOptions never returns more options than the cap |
| Client.GetOptions | alpacaApiClient.go:466-872 | validation, contract loop and market-data loop return exactly the specified reply |
| Client.RepliesFromShape | alpacaApiClient.go:1046-1050 | the replies of the queries the batch reaches (RepliesFrom): at most one per query, every reply before the last succeeded, and a batch that stops early stops at a failed reply |
| Client.RepliesFromInOrder | alpacaApiClient.go:1046-1047 | the reply for each query the batch reaches is GetOptions' reply to that query, in query order |
| Client.Combine | alpacaApiClient.go:1048-1053 | a combined batch fails only with a wrapped query error |
| Client.MergeFrom | alpacaApiClient.go:1046-1055 | running the queries in turn fails only with a wrapped query error |
| Client.CombineFromSucceeded | alpacaApiClient.go:1047-1053 | once a query succeeds, its options go after those already collected and the later queries' options follow them |
| Client.CombineFromFailed | alpacaApiClient.go:1047-1050 | a failing query makes the batch result its wrapped error, and the options collected before it are dropped |
| Client.MergeSpec | alpacaApiClient.go:1034-1057 | missing credentials give the credentials error; with credentials every error is a wrapped query error |
| Client.MergeFromCombines | alpacaApiClient.go:1046-1055 | running the queries one by one combines their replies in order |
| Client.CombineAllOrNothing | alpacaApiClient.go:1046-1056 | a batch succeeds exactly when every query succeeds, and then holds exactly their options; otherwise it fails with the first failing query's error |
| Client.MergeRequests | alpacaApiClient.go:1034-1057 | missing credentials fail at once; otherwise the loop returns exactly the combined batch result |
| Helpers.GoMod | alpacaApiClient.go:1018 | math.Mod on integers: the remainder has the sign of the dividend and a magnitude below the divisor |
| Helpers.OrdinalSuffix | alpacaApiClient.go:1017-1028 | the suffix is st, nd, rd or th, and anything but th needs n >= 0 with a last digit of 1, 2 or 3 |
| Helpers.OrdinalSuffixByLastDigit | alpacaApiClient.go:1017-1028 | for n >= 0 the suffix is st, nd or rd exactly when n mod 10 is 1, 2 or 3, and th otherwise (so 11 gives "st"); every negative n gives "th" |
| Helpers.OrdinalSuffixPeriodic | alpacaApiClient.go:1017-1028 | the suffix of a non-negative number repeats every ten |
| Helpers.Join | alpacaApiClient.go:880 | joining no parts gives ""; otherwise the join starts with the first part |
| Helpers.BuildSymbolsList | alpacaApiClient.go:875-881 | no options give ""; otherwise the list starts with the first option's symbol |
| Helpers.Split | alpacaApiClient.go:880 | the inverse of the comma join yields at least one piece |
| Helpers.JoinFront | alpacaApiClient.go:880 | text put in front of the first part comes out in front of the join |
| Helpers.SplitAfterPiece | alpacaApiClient.go:880 | a separator-free piece followed by more text is the start of the first piece of the split |
| Helpers.JoinSplit | alpacaApiClient.go:880 | joining the pieces of a split gives back the string |
| Helpers.SplitJoin | alpacaApiClient.go:880 | splitting the join of separator-free parts gives back the parts |
| Helpers.Symbols | alpacaApiClient.go:876-879 | one symbol per option, in order |
| Helpers.SymbolsListReadsBack | alpacaApiClient.go:875-881 | no options give ""; otherwise, with no comma inside a symbol, the list splits back into the options' symbols |

## Left out

- Console and file I/O is not modelled: `main`, `loadConfig`, `handleApiKeyInit`, `WriteJson`, `LoadJson`, the progress printing, the debug output and the unmatched-symbol warnings. `JsonToOptions` is modelled from the loaded text on.
- The `log` text of `GetOptions` is not modelled. The model keeps only whether a market-data failure was logged (`Reply.logged`), which `MergeRequests` discards as the source does.
- The HTTP transport is not modelled: `http.DefaultClient.Do`, `io.ReadAll`, the request headers and the 5-second waits between sends. Each send is an outcome that the environment's network returns for the URL.
- The wall-clock deadline and the one-second tick are replaced by `timeoutAfter`, the number of ticks before the deadline wins, which covers every timing.
- The JSON text parser, `strconv.ParseFloat`, RFC 3339 timestamp parsing and `http.NewRequest`'s URL check are not modelled. They are uninterpreted functions of a `Runtime`.
- `time.Parse` with the layout "2006-01-02" is modelled exactly, except for years above 9999, which the layout cannot produce.
- Float64 values are reals and are only copied, never computed with.
- Extract.GetInt: Go's conversion of a float64 beyond the int64 range is implementation-specific; the model truncates exactly instead.
- Extract.Truncate: exact truncation of a real, with no int64 range limit.
- Helpers.OrdinalSuffix: takes the remainder of the exact integer, whereas Go first converts n to float64, which rounds numbers beyond 2^53.
- The credentials are a field of the environment, checked where `APIRequest` and `MergeRequests` check them, instead of the process-wide globals set by `ProvideApiKey`.
- `SingleQuote`, the latest-stock-quote request, is not modelled. It is a separate network call that the option-chain engine never uses.
- `URLoption`, the unused `ApiKey` field of the query and `Option.Print` are not modelled: they have no behaviour to state.
- The second `json.Unmarshal` in each loop is not modelled as a separate failure. `APIRequest` has already checked that the same body is a JSON object or null, so it cannot fail.
- `Market.MergeMarketData`, `Client.GetOptions`, `Client.MergeRequests`: the market-data loop of the source never ends if the snapshots listing never does. These methods therefore require a ghost bound within which the listing ends, and only for a query whose contract phase completes.
- The network gives the send outcomes of a URL as a function of that URL alone. Two requests for the same URL therefore see the same outcomes, for example a query repeated in one batch, whereas the real API may answer them differently.
- `Client.GetOptions` and `Client.MergeRequests` are proved equal to the specification functions `GetOptionsSpec` and `MergeSpec`. What the source guarantees is proved of those functions by the `Client` lemmas.
- `Pages.ApiOf`: a query with fewer than two strike or date bounds makes Go panic, because it indexes them without checking. The model requires both bounds (`HasBounds`) of a query whose dates are valid, which are the queries that reach URL building. `MergeRequests` requires them only of the queries it reaches. The fetcher gives a query without bounds `RequestNotBuilt`.
