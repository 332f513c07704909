# Identity fetcher: merge and provider adapters

This project models the identity lookup in `fetcher/identity.go`. `FetchIdentity` starts three
provider adapters for one address: the Context aggregator, the Superrare profile endpoint and the
POAP attendance scanner. It then receives exactly `IdentityApiCount` (3) entries and folds the
successful ones into one `IdentityEntryList`: one list per identity kind plus a single ENS name.

The model has six modules, one per file:

- `IdentityTypes` (`identity_types.dfy`): the records, the per-adapter `IdentityEntry` and the
  aggregate `IdentityList`. An external request's outcome is a `Response<T>`: the fetch failed,
  the decode failed, or it decoded to a value.
- `Merge` (`merge.dfy`): the fold as a specification, `Absorb` for one entry and `MergeAll` for
  the arrival sequence. Lemmas state:
  - each list is the in-order concatenation of what the successful entries carry;
  - the ENS name is last-writer-wins;
  - failed entries are invisible;
  - the multiset of every list does not depend on arrival order, while the ENS name can.
- `ContextAdapter` (`context_adapter.dfy`): `processContext`. The ENS lookup, then the nested loop
  over sub-profiles, whose `switch` on the contract address overwrites one field per known kind.
  `ProcessContext` is the imperative loop, proved equal to the function `ContextEntry`.
- `SuperrareAdapter` (`superrare_adapter.dfy`): `processSuperrare`. The nine-field record is
  attached only when some field is non-empty.
- `PoapAdapter` (`poap_adapter.dfy`): `processPoap`. One record per token. Each record gets one
  recommendation per token of its event that the subgraph returns. Processing stops at the first
  failed enrichment request. `ProcessPoap` keeps the source's loops and early returns and is
  proved equal to the function `PoapEntry`.
- `Fetcher` (`fetcher.dfy`): `FetchIdentity`. It runs the three adapters, receives their entries
  in a given arrival order and merges them with the source's chain of `if` statements. Lemmas
  describe the aggregate the whole call returns.

The stage labels written to `Msg` are modelled. So are the outcomes of each request: two kinds
of failure (the fetch failed, the decode failed) and one success. The Superrare decode label keeps the source's spelling ("failednti").

In four places the code does less, or other, than a natural reading of its purpose suggests.
The model follows the code:

- When an enrichment request fails, `processPoap` returns an entry that still holds the events
  enriched before the failure (fetcher/identity.go:265-279). A natural reading would discard them
  there; the code does not. They are discarded one level up: the entry carries an error, so the merge skips the whole entry
  (`Fetcher.FetchDiscardsPoapOnEnrichmentFailure`).
- Recommendations list every token of the event, the queried address's own token included. A
  natural reading would list only the other holders; the code does not filter
  (`PoapAdapter.RecommendationsKeepEveryHolder`).
- Enrichment is done once per token, not once per distinct event. Two tokens of the same event
  send two identical queries, and the two answers can differ: the model takes one outcome per
  request, by token position (`PoapAdapter.SameEventSecondRequestFails`).
- The merge is not order-free as a whole. The list contents are order-free, but the ENS name is
  last-writer-wins (`Merge.EnsDependsOnOrder`). In this system only the Context adapter ever
  writes an ENS name, so the returned name does not depend on arrival order (`Fetcher.FetchEns`).

## Model

| member | source | states |
|---|---|---|
| Merge.MergeLists | fetcher/identity.go:29-62 | After any arrival sequence, each of the nine lists holds exactly the records of that kind carried by the successful entries, in arrival order; Twitter records are stored with the converted handle |
| Merge.AbsorbLists | fetcher/identity.go:31-62 | Receiving one entry extends every list by that entry's contribution of its kind (nothing for a failed entry) and changes no list otherwise |
| Merge.MergeSkipsFailed | fetcher/identity.go:31-34 | An entry whose error is set, wherever it arrives, leaves the aggregate exactly as it would have been without it |
| Merge.MergeOfFailuresIsEmpty | fetcher/identity.go:29-34 | When every entry failed, the aggregate is the empty list with an empty ENS name |
| Merge.LastEnsWriter | fetcher/identity.go:63-65 | Characterises the last successful entry carrying an ENS name: it writes one, and no later entry does |
| Merge.MergeEnsLastWriter | fetcher/identity.go:63-65 | The aggregate's ENS name is that of the last successful entry carrying one, and empty when there is none |
| Merge.MergeOrderFree | fetcher/identity.go:29-62 | Two arrival sequences that are permutations of each other give every list the same multiset of records |
| Merge.EnsDependsOnOrder | fetcher/identity.go:63-65 | Two successful entries with different ENS names give different ENS results in the two arrival orders |
| Fetcher.AbsorbFirst | fetcher/identity.go:35-50 | The OpenSea, Twitter (handle converted), Superrare, Rarible and Context `if` statements append each present record to its list and leave the other fields unchanged |
| Fetcher.AbsorbSecond | fetcher/identity.go:51-65 | The Zora, Foundation and Showtime `if` statements append each present record; the POAP records are appended; a present ENS name replaces the previous one |
| Fetcher.Receive | fetcher/identity.go:29-66 | The receive loop takes IdentityApiCount entries, skips failed ones and ends with exactly the fold `MergeAll` of the arrivals |
| Fetcher.FetchIdentity | fetcher/identity.go:15-69 | Whatever the arrival order of the three adapters' entries, the call returns the fold of those entries and a nil error |
| Fetcher.ArrivalsPermute | fetcher/identity.go:18-30 | The entries received are exactly the entries the three adapters sent, each once |
| Fetcher.ArrivalOrderCovers | fetcher/identity.go:29-30 | In any arrival order every adapter's entry is received |
| Fetcher.FetchEns | fetcher/identity.go:93-98 | The returned ENS name is the Context response's entry for the address, and empty when that adapter failed or the address is not in its ENS map, in every arrival order |
| Fetcher.FetchSingleSourceLists | fetcher/identity.go:35-62 | OpenSea, Rarible, Context, Zora and Foundation hold exactly the Context adapter's record; Twitter and Showtime stay empty; the POAP list is exactly the POAP adapter's records; all in every arrival order |
| Fetcher.FetchSuperrare | fetcher/identity.go:42-44 | The Superrare list holds the Context adapter's and the Superrare adapter's records, each when present, in either order |
| Fetcher.FetchDiscardsPoapOnEnrichmentFailure | fetcher/identity.go:265-279 | If any token's enrichment request fails, the returned POAP list is empty, not only short of that event |
| ContextAdapter.Classify | fetcher/identity.go:102-141 | The switch selects a kind only when the contract equals that kind's constant, and selects none exactly when the contract equals no constant |
| ContextAdapter.LastMatch | fetcher/identity.go:100-143 | Characterises the last visited sub-profile that the switch sends to a kind, or none |
| ContextAdapter.MatchedByContract | fetcher/identity.go:100-143 | With distinct constants, a kind's slot is filled iff some sub-profile carries its contract, and it holds the last such sub-profile |
| ContextAdapter.ContextDemux | fetcher/identity.go:100-143 | For each of the six kinds, the decoded entry holds a record iff some sub-profile carries that contract; the record is built from the last such sub-profile, and the Context record takes the response's follower count |
| ContextAdapter.UnknownContractIgnored | fetcher/identity.go:140-141 | A sub-profile with an unknown contract, anywhere in the visit order, changes no kind's slot |
| ContextAdapter.ContextIgnoresUnknown | fetcher/identity.go:140-141 | Removing a sub-profile with an unknown contract from the response leaves the whole entry unchanged |
| ContextAdapter.DemuxedSnoc | fetcher/identity.go:102-141 | One visited sub-profile overwrites only the slot of the first case its contract matches |
| ContextAdapter.Dispatch | fetcher/identity.go:102-141 | The switch on one sub-profile, as the chain of comparisons in case order, takes the entry built from the sub-profiles visited so far to the entry built with this one visited too |
| ContextAdapter.ContextEntry | fetcher/identity.go:71-147 | Fetch or decode failure: an error, the stage label and no identity field. Otherwise: no error, ENS present iff the address is a key of the ENS map (tagged CONTEXT), every record tagged CONTEXT, and Twitter, Showtime and POAP never set |
| ContextAdapter.ProcessContext | fetcher/identity.go:71-147 | The nested loop with its if-chain of contract comparisons returns exactly `ContextEntry` |
| SuperrareAdapter.PresenceIsSomeField | fetcher/identity.go:185-187 | The nine-way `||` guard holds exactly when some of the nine profile fields is non-empty |
| SuperrareAdapter.ProcessSuperrare | fetcher/identity.go:149-192 | Fetch or decode failure: an error, the stage label and no record. Otherwise: no error, and the Superrare record is attached iff some field is non-empty, carrying all nine fields, an empty homepage and the SUPERRARE tag; nothing else is set |
| PoapAdapter.Recommendations | fetcher/identity.go:281-289 | One recommendation per token in the subgraph's answer, in order, with that token's id and owner and the event id |
| PoapAdapter.RecommendationsKeepEveryHolder | fetcher/identity.go:283-289 | An address appears among the recommendations iff it owns a token of the event; the queried address is not filtered out |
| PoapAdapter.FirstFailure | fetcher/identity.go:218-279 | Characterises the position of the first token whose enrichment request fails: every earlier token's request succeeded |
| PoapAdapter.PoapEntry | fetcher/identity.go:194-297 | Only POAP records are ever set. Scan failure: the scan's error, its stage label, no record. Otherwise the entry fails iff some token's enrichment request fails. Its records are exactly one per token before the first failed request (all tokens when none fails), in input order, each enriched with that request's holders. After a failure it carries that request's error and the label of the failed stage (fetch or parse of the recommendations). Without an error the label is empty |
| PoapAdapter.SameEventSecondRequestFails | fetcher/identity.go:259-279 | Two tokens of one event send separate requests: when the first succeeds and the second fails, the entry fails with the fetch label and keeps only the first token's record |
| PoapAdapter.ProcessPoap | fetcher/identity.go:194-297 | The token loop with its inner recommendation loop and early returns returns exactly `PoapEntry` |

## Left out

- Goroutines and the channel: `FetchIdentity` takes the arrival order as a parameter, a permutation of the three adapters. Which order occurs is decided by the scheduler, which is not modelled.
- HTTP requests, URL and GraphQL query formatting, and `json.Marshal` of the query: each request's outcome is an input (`Response`). The subgraph answers are a function from the token's position to the outcome of the request sent for that token; the query text, which depends only on the event id, is not modelled.
- JSON decoding with `encoding/json` and `fastjson`: the model takes already-decoded values. fastjson's lenient accessors are not modelled. A missing key or a non-array body decodes to a zero value or an empty list; the model receives whatever the decoder produced.
- `zap` logging of failed entries: a side effect only.
- `convertTwitterHandle` is not part of this model. It is a parameter `string -> string` and nothing is assumed about it. No adapter in fetcher/identity.go produces a Twitter record, so it only matters for entries in general (`Merge`).
- The values of the six contract-address constants and of the DataSource tags are defined outside fetcher/identity.go and not modelled. The constants are a `ContractIds` parameter, with the switch taken in case order. Lemmas that need them distinct (as Go requires of constant switch cases) say so with `Distinct()`.
- The Showtime and Twitter record types are defined outside fetcher/identity.go and not modelled in full. Twitter keeps the handle, the one field the merge rewrites. The merge copies Showtime records whole, so the `username` field of `ShowtimeIdentity` is a placeholder.
- Go's distinction between a nil slice and an empty slice is not modelled: both are the empty sequence. Appending an empty POAP list is therefore the same as not appending it.
- `ContextAppResp.Profiles` is visited in the order given by the input sequence. If the Go type is a map, the runtime iteration order is not modelled; the lemmas hold for every order.
- The test file's SYBIL-tagged Twitter source is produced by no adapter in fetcher/identity.go.
