# mooncli core in Dafny

A verified model of the core of `mooncli`. The tool reads the Moonbeam
parachain-staking pallet and ranks the collator candidates by counted stake.
It also projects, round by round over the revoke window (the snapshot round
up to the snapshot round plus the bond-less delay), how each collator's
counted stake and rank change as scheduled delegation revokes and decreases
take effect.

Modules follow the Go files:

- `Collators`, `Revokes` and `PoolFetch` model `internal/client/collators.go`:
  - the candidate pool and ranks;
  - the fetch list;
  - the collator comparator;
  - `RevokeAt`;
  - `computeRevokes` (an in-place projection over an `array<CollatorInfo>`);
  - `FetchCollatorPool`.
- `Delegator` models `delegator.go`.
- `Token` models `token.go`: amounts and their JSON codec.
- `Snap` models `snap.go`: snapshot target resolution.
- `Client` models `client.go`: round boundary blocks, cache keys and TTL tiers, and the `getStorage` read-through over a `StorageCache` class.
- `Data` models `internal/server/data.go`: the published `ChainData` class with `Update` and its queries.
- `Httpd` models `internal/server/httpd.go`: health and per-address routes.
- Smaller modules cover:
  - `account.go`, `balance.go` and `codec.go`;
  - `async/result.go`;
  - `config/client.go` and `config/display.go`;
  - `tools/math.go` and `tools/text.go`.
- Helpers:
  - `GoInts`: `uint32`/`uint64` wrap-around and truncating division;
  - `GoStrings`: `EqualFold`, `Split` and `Trim`;
  - `Decimal`: big-integer decimal text;
  - `Sorting`: `sort.Slice` as a sort over a total preorder that returns the permutation;
  - `Wrappers`: `Option`/`Outcome`.

Modelling conventions:

- Every remote read (storage, block hash, round info, the per-collator fetch, the clock) is a parameter or a function-typed field.
- `big.Int` is `int`. A nil `*TokenAmount` is `None`.
- Goroutine fan-out is a sequential loop in fetch-list order.
- Go map iteration is a nondeterministic choice (`:|`), or an explicit iteration order when the result depends on it.

Two behaviours of the code are easy to misread:

- The collator comparator (collators.go:212-220) puts collators whose `Counted` is nil first. `Collators.CountedOrder` orders nil first, then by non-increasing counted stake.
- `RevokeAt` does not return the latest entry for a round past every key (see Findings).

## Model

| member | source | states |
|---|---|---|
| GoInts.U32 | internal/client/client.go:128-130 | `uint32(x)` lies in range, is x when x is in range, and differs from x by a multiple of 2^32 |
| GoInts.U64 | internal/client/snap.go:76 | the same for `uint64` |
| GoInts.I64 | internal/server/httpd.go:94 | an `int64` result: in range, unchanged in range, and congruent modulo 2^64 |
| GoInts.Quo | internal/server/data.go:173 | Go's truncating integer division: the remainder has the dividend's sign and is smaller than the divisor |
| GoInts.U32Congruent | internal/client/client.go:128-130 | integers congruent modulo 2^32 wrap to the same `uint32` |
| GoStrings.FoldChar | internal/server/data.go:241 | ASCII upper case maps to lower case; every other character is unchanged |
| GoStrings.Fold | internal/server/data.go:241 | folding keeps the length and folds each character |
| GoStrings.EqualFoldIsFoldEquality | internal/server/data.go:241 | `EqualFold(a, b)` holds exactly when the folded strings are equal |
| GoStrings.EqualFoldTransitive | internal/server/data.go:217 | case-insensitive equality is transitive |
| GoStrings.Split | internal/server/httpd.go:55 | `strings.Split` on one character gives one more part than separators, and no part contains the separator |
| GoStrings.JoinSplit | internal/server/httpd.go:55 | joining the parts with the separator gives back the input |
| GoStrings.CountAppend | internal/server/httpd.go:55-56 | separators of a concatenation are the sum of both parts' separators |
| GoStrings.CountZero | internal/server/httpd.go:55-56 | zero separators exactly when the separator does not occur |
| GoStrings.SplitNoSeparator | internal/server/httpd.go:55-57 | a string without separator splits into itself |
| GoStrings.SplitAtFirst | internal/server/httpd.go:55-57 | the text before the first separator is the first part, and the rest splits on its own |
| GoStrings.TrimQuotes | internal/client/token.go:52 | `strings.Trim(s, "\"")` result is no longer, neither starts nor ends with a quote, and is s itself when s has no quote |
| GoStrings.TrimLeftQuotes | internal/client/token.go:52 | the leading trim is a suffix of s that does not start with a quote |
| GoStrings.TrimRightQuotes | internal/client/token.go:52 | the trailing trim is a prefix of s that does not end with a quote |
| Decimal.DigitChar | internal/client/token.go:44 | a digit below ten maps to the character with that value |
| Decimal.DigitValue | internal/client/token.go:52 | a digit character's value is below ten |
| Decimal.NatText | internal/client/token.go:44 | decimal text of a natural number: digits only, no leading zero |
| Decimal.IntText | internal/client/token.go:44 | `big.Int.String()`: digits, with a leading '-' for a negative value |
| Decimal.ParseInt | internal/client/token.go:52 | a parsed text is non-empty, and all-digit text parses to a non-negative value |
| Decimal.NatTextValue | internal/client/token.go:44 | the digits of `NatText(n)` have value n |
| Decimal.IntTextRoundTrip | internal/client/token.go:44-57 | `SetString(x.String(), 10)` gives back x for every integer |
| Decimal.IntTextHasNoQuote | internal/client/token.go:52 | decimal text holds no quote, so trimming quotes leaves it alone |
| Token.Cmp | internal/client/token.go:26-28 | `Cmp` is -1, 0 or 1 exactly when the amount is below, equal to or above the other |
| Token.CmpAntisymmetric | internal/client/token.go:26-28 | swapping the operands negates the comparison |
| Token.AsBalance | internal/client/token.go:36-41 | the balance holds the amount and the given token info |
| Token.MarshalJSON | internal/client/token.go:43-45 | a present amount marshals to text that parses back to it; nil marshals to text that does not parse |
| Token.DecodeAmount | internal/client/token.go:47-58 | `null` leaves the amount untouched; text that parses after trimming quotes gives that value; anything else is the "not a valid big integer" error naming the input |
| Token.TrimQuotedText | internal/client/token.go:52 | trimming the quotes off a quoted quote-free text gives the text |
| Token.IntTextNotNull | internal/client/token.go:48-50 | no marshalled amount is the `null` literal |
| Token.AmountRoundTrip | internal/client/token.go:43-57 | decoding a marshalled amount, bare or quoted, gives the amount back |
| Token.TokenAmountCell.constructor | internal/client/token.go:22-24 | a new cell holds the given amount |
| Token.TokenAmountCell.UnmarshalJSON | internal/client/token.go:47-58 | `null` keeps the cell and returns nil; a parsed value replaces the amount; invalid text keeps the amount and returns the error |
| Token.UnmarshalMarshalled | internal/client/token.go:43-57 | unmarshalling a cell from `MarshalJSON(x)` stores x with no error |
| Async.SuccessResult | internal/async/result.go:12-17 | a success result holds the value and is not an error |
| Async.ErrorResult | internal/async/result.go:19-23 | an error result carries the error and the zero value |
| Async.ResultFrom | internal/async/result.go:25-27 | the result holds both values and is an error exactly when the error is non-nil |
| Async.ResultFromExamples | internal/async/result_test.go:8-17 | the test's value and error cases |
| Tools.Min | internal/tools/math.go:9-14 | the minimum is at most both arguments and is one of them |
| Tools.MinExample | internal/tools/math_test.go:5-9 | `Min(123, 13) == 13` |
| Tools.ToAscii | internal/tools/text.go:8-16 | the result is no longer and holds only characters up to 127 |
| Tools.ToAsciiMembers | internal/tools/text.go:8-16 | a character survives exactly when it occurs and is ASCII |
| Tools.ToAsciiAppend | internal/tools/text.go:8-16 | filtering distributes over concatenation, so order is kept |
| Tools.ToAsciiKeepsAscii | internal/tools/text.go:8-16 | an all-ASCII string is unchanged |
| Tools.ToAsciiIdempotent | internal/tools/text.go:8-16 | filtering twice is filtering once |
| Tools.MojibakeDropped | internal/tools/text_test.go:7 | the test's non-ASCII run, U+00F0 U+0178 U+2018 U+00BE, is dropped entirely |
| Tools.DropsRunBetween | internal/tools/text.go:8-16 | a run that filters to nothing, between two ASCII texts, is cut out and the texts are joined |
| Tools.ToAsciiExample | internal/tools/text_test.go:6-8 | the test's string, "foo", its four-character non-ASCII run and "bar", becomes "foobar" |
| Codec.Value | internal/client/codec.go:5-10 | an empty enum gives "", otherwise one of its variant names |
| Codec.SingleVariantExample | internal/client/codec.go:5-10 | a one-variant enum gives that variant's name |
| ConfigClient.Wss2 | config/client.go:85-100 | a fixed endpoint pair is two `wss://` URLs |
| ConfigClient.ExtractDefaultRpcUrl | config/client.go:84-105 | the three known network names map to their two wss endpoints; any other string maps to itself alone |
| ConfigClient.GetChainConfig | config/client.go:47-64 | endpoints from the name; block and round copied into the snap target; 10s dial and 5s subscribe timeouts; the fixed network specs and version |
| ConfigClient.GetDefaultChainConfig | config/client.go:42-44 | equals `GetChainConfig("moonbeam", 0, 0)` |
| ConfigClient.CacheTiers | config/client.go:32-39 | the minimum TTL is 24s and the default 24h, so the head-relative tier is shorter |
| ConfigDisplay.GetDefaultTableOptions | config/display.go:17-24 | not compact, sort key "Rank", ascending, 28 revoke rounds |
| ConfigDisplay.GetTableWidth | config/display.go:30-36 | width 80 exactly when compact, 120 exactly when not |
| ConfigDisplay.GetSortMode | config/display.go:38-55 | numeric keys sort numerically, in the requested direction; other keys sort descending as text; never plain ascending |
| ConfigDisplay.DefaultSortMode | config/display.go:17-55 | the defaults give ascending numeric sorting and width 120 |
| Balance.GetTransferableBalance | internal/client/balance.go:27-34 | transferable plus frozen is free, in free's token, with no clamping at zero |
| Balance.TransferableCanBeNegative | internal/client/balance.go:27-34 | free 1 and frozen 2 leave -1 transferable |
| Balance.AccountBalanceFromAccount | internal/client/balance.go:36-47 | a read error or a missing account gives the zero balance and the error; otherwise free, reserved and misc-frozen in the token |
| Balance.TransferableOfDecoded | internal/client/balance.go:36-47 | the transferable balance of a decoded account is free minus misc-frozen |
| Account.FetchAccountInfo | internal/client/account.go:14-44 | an address or balance error gives the zero info and that error; an identity error is ignored and gives the zero identity; the address field is left empty, as the code never sets it |
| Account.IdentityErrorIgnored | internal/client/account.go:34-41 | a failed identity read still gives the balance and no error |
| Sorting.SortBy | internal/client/collators.go:462-464 | `sort.Slice` with a total preorder: the array ends sorted and is a rearrangement of its old contents |
| Sorting.Insert | internal/client/collators.go:462-464 | one insertion step extends the sorted prefix by one and keeps a rearrangement |
| Sorting.Swap | internal/client/collators.go:462-464 | an adjacent swap exchanges two cells and updates the permutation and its inverse |
| Sorting.InsertStep | internal/client/collators.go:462-464 | swapping an out-of-order pair moves the inserted element one place down |
| Sorting.InsertDone | internal/client/collators.go:462-464 | an element in place extends the sorted prefix |
| Delegator.LastSetting | internal/client/delegator.go:82-91 | the index of the last request that names the address ignoring case and has an action, or none when no request does |
| Delegator.GetDelegatorState | internal/client/delegator.go:74-104 | the state carries the address and the total; the revoke reason, amount and round come from the LAST matching request, or are "", 0 and 0 with none |
| Delegator.AmountNotBelowIsPreorder | internal/client/delegator.go:67-69 | the delegation order is a total preorder |
| Delegator.GetDelegations | internal/client/delegator.go:30-72 | read errors are returned; otherwise one state per top delegation, built as above, listed by non-increasing amount |
| Collators.AmountNotAboveIsPreorder | internal/client/collators.go:98-100 | the candidate order is a total preorder |
| Collators.FetchSortedCandidatePool | internal/client/collators.go:85-102 | a read error is returned; otherwise the pool rearranged in ascending amount |
| Collators.FirstOwnerMatch | internal/client/collators.go:477-481 | the first index from `from` whose owner equals the address ignoring case, or none |
| Collators.GetAddressRank | internal/client/collators.go:476-483 | the rank is at most the pool size, at least 1 for a present address, and the pool size for an absent one |
| Collators.RankOfEntry | internal/client/collators.go:476-483 | with distinct owners, entry i ranks `len - i` |
| Collators.RankFolds | internal/client/collators.go:478 | the rank of an address does not depend on the case it is written in |
| Collators.RanksOfPool | internal/client/collators.go:476-483 | over an ascending pool with distinct owners, ranks are 1..n, distinct, the largest entry ranks 1, and a larger amount ranks strictly better |
| Collators.RankExample | internal/client/collators.go:476-483 | a three-entry example gives ranks 3, 1, 2 |
| Collators.FetchListOf | internal/client/collators.go:172-177 | the fetch list is no longer than the pool |
| Collators.FetchList | internal/client/collators.go:172-177 | the loop builds exactly `FetchListOf` |
| Collators.FetchListUnfiltered | internal/client/collators.go:172-177 | with no address filter every owner is listed, in pool order |
| Collators.FetchListMembers | internal/client/collators.go:172-177 | an address is listed exactly when it passes the filter and owns a pool entry |
| Collators.CountedLess | internal/client/collators.go:212-220 | Go's less: a nil counted stake is less than anything, a present one is never less than nil, and two present ones compare larger first |
| Collators.CountedOrder | internal/client/collators.go:212-220 | the order is Go's less or two equal present stakes |
| Collators.CountedOrderIsPreorder | internal/client/collators.go:212-220 | "nil first, then non-increasing counted" is a total preorder |
| Collators.CountedLessIsStrictPart | internal/client/collators.go:212-220 | the code's comparator is the strict part of that order, except that two nil stakes are each "less" than the other |
| Collators.DisplayName | internal/client/collators.go:119-125 | the display name when set, else the address's first six characters, "..." and last four (Go slices bytes, which are the characters of a hex address) |
| Collators.FirstAddressMatch | internal/client/collators.go:420-424 | the first collator whose address equals the query ignoring case, or none |
| Collators.CollatorInfoByAddress | internal/client/collators.go:419-426 | found exactly when some collator matches ignoring case; then the first match, else the zero value |
| Collators.RevokeScan | internal/client/collators.go:127-140 | the map loop in a given key order returns early exactly when the round is a key |
| Collators.RevokeAt | internal/client/collators.go:127-140 | the entry of the round when present; otherwise the value the loop leaves after visiting every key in Go's order |
| Collators.MaxKey | internal/client/collators.go:128-133 | the largest key of a non-empty set |
| Collators.LatestRevoke | internal/client/collators.go:127-140 | the intended answer: the round's own entry; for a round that is not a key, the entry of the largest key when a positive key exists; always a stored entry or the zero value |
| Collators.RevokeAtLatest | internal/client/collators.go:127-140 | corrected `RevokeAt`: the round's entry, or the entry of the largest positive key, or zero |
| Collators.RevokeAtStaleEntry | internal/client/collators.go:128-133 | two orders of the same map give different answers, and the first is not the latest entry |
| Revokes.Clamp | internal/client/collators.go:448-450 | a revoke round clamped into the window lies in the window |
| Revokes.ChargedOnce | internal/client/collators.go:448-450 | a delegation is charged in a window round exactly when that round is its clamped revoke round |
| Revokes.DelegationWindowValue | internal/client/collators.go:447-454 | up to a round, a delegation has been charged its whole revoke amount or nothing |
| Revokes.WindowSplit | internal/client/collators.go:447-454 | withdrawals up to a round add up delegation by delegation |
| Revokes.WindowTotal | internal/client/collators.go:447-454 | over the whole window every revoke amount is withdrawn exactly once |
| Revokes.WindowEmpty | internal/client/collators.go:447-454 | no delegations withdraw nothing |
| Revokes.ProjectedIsBaseMinusWindow | internal/client/collators.go:442-454 | the projected stake at a round is the base counted stake minus everything withdrawn up to that round |
| Revokes.ProjectedAtLast | internal/client/collators.go:442-454 | at the last round the projection is `Counted - sum of RevokeAmount`, with no clamping at zero |
| Revokes.ProjectedSingle | internal/client/collators.go:442-454 | with one delegation the stake drops by its amount from its clamped round on |
| Revokes.ProjectedNoDelegations | internal/client/collators.go:442-446 | without delegations every round keeps the base counted stake |
| Revokes.WithdrawnNonNegative | internal/client/collators.go:447-454 | non-negative revoke amounts withdraw a non-negative sum |
| Revokes.ProjectedNonIncreasing | internal/client/collators.go:442-454 | with non-negative revoke amounts the projected stake never rises |
| Revokes.Charge | internal/client/collators.go:443-454 | the delegation loop's amount is the round's withdrawal and its counted the entering stake minus it |
| Revokes.CountedNotBelowIsPreorder | internal/client/collators.go:462-464 | the round order is a total preorder |
| Revokes.EntryOf | internal/client/collators.go:442-459 | a round entry carries the collator's index, its withdrawal and the entering stake minus it |
| Revokes.RoundEntries | internal/client/collators.go:436-460 | one entry per collator, in collator order |
| Revokes.WriteRanks | internal/client/collators.go:466-472 | each collator's round entry gets its sorted position plus one, and the round is ranked |
| Revokes.ProjectRound | internal/client/collators.go:436-472 | one round: only that round's entry of each collator changes; it holds the projected counted stake and withdrawal; the round is ranked |
| Revokes.RanksFromSort | internal/client/collators.go:462-472 | ranks taken from sorted positions are a permutation of 1..n, with a larger stake ranked strictly better |
| Revokes.RoundRankedFrame | internal/client/collators.go:466-472 | writing later rounds keeps an earlier round's ranking |
| Revokes.ProjectionReady | internal/client/collators.go:444-446 | after the earlier rounds, a round's entering stake is the previous round's projected stake |
| Revokes.StepEntries | internal/client/collators.go:435-472 | after a round, every window round so far holds the projected stake and withdrawal, and nothing else in the collator changed |
| Revokes.StepOutside | internal/client/collators.go:435-472 | entries of rounds outside the window are untouched |
| Revokes.StepRanked | internal/client/collators.go:435-472 | every round written so far stays ranked |
| Revokes.ProjectionStep | internal/client/collators.go:435-472 | one more round extends the projection invariant by one round |
| Revokes.ComputeRevokes | internal/client/collators.go:428-474 | in place: for every round of the window, each collator's entry holds the projected counted stake, that round's withdrawal and a rank; ranks form a permutation of 1..n ordered by stake; entries of other rounds and all other fields are unchanged |
| PoolFetch.Gather | internal/client/collators.go:158-210 | read errors are returned; the pool is sorted ascending; any failed collator fetch ends the phase; else one info per fetch-list address, in order |
| PoolFetch.SortCollators | internal/client/collators.go:212-220 | the collected collators, sorted nil first then by non-increasing counted stake, as a rearrangement |
| PoolFetch.Finish | internal/client/collators.go:211-231 | collators sorted nil first then by non-increasing stake, a rearrangement of the fetched ones, carrying the projection; a nil stake panics and `last == MaxUint32` never ends |
| PoolFetch.FetchCollatorPool | internal/client/collators.go:158-234 | as written: read errors returned; a failed collator fetch gives the empty pool and NO error; an empty fetch list panics; otherwise `Finish` over round .. round + delay |
| PoolFetch.FetchCollatorPoolGuarded | internal/client/collators.go:158-234 | the same, but an empty fetch list gives an empty pool |
| PoolFetch.UnmatchedAddressFetchesNothing | internal/client/collators.go:172-177 | an address filter matching no owner leaves the fetch list empty |
| PoolFetch.UnmatchedAddressPanics | internal/client/collators.go:228-231 | with an address matching no candidate, the code as written panics |
| PoolFetch.UnmatchedAddressGuarded | internal/client/collators.go:228-231 | the guarded version returns the empty pool instead |
| PoolFetch.UnmatchedPool | internal/client/collators.go:172-177 | the one-candidate pool and filter "0xbb" give an empty fetch list and no failure |
| Snap.SamplingBlock | internal/client/snap.go:109-110 | the sampling block is `n - min(n-1, 10000)`: at least 1 and at most 10000 blocks back for every `n >= 1` |
| Snap.ProbeInTargetRound | internal/client/snap.go:74-95 | with equal round lengths, the probe lands in the target round at the head's offset |
| Snap.LaterRoundStaysAtHead | internal/client/snap.go:69-96 | a round after the current one settles on the head block with no error once the head's number and round record are read |
| Snap.FetchSnapBlock | internal/client/snap.go:47-151 | no target gives the head; a block target above the head gives "invalid block"; a block target is used as is; a round not after the current one resolves via the probe to that round's first block, plus the block target; a later round stays at the head; the snapshot copies round fields, delay and both staking counts; the call succeeds exactly when the target resolves and every read at the settled block succeeds, and a failed resolution returns its error |
| Client.RoundStartBlock | internal/client/client.go:127-132 | the round start block is a `uint32` |
| Client.RoundEndBlock | internal/client/client.go:134-139 | the round end block is a `uint32` |
| Client.RoundStartModular | internal/client/client.go:127-132 | step-by-step `uint32` arithmetic gives `Start - (Number - round) * Length` modulo 2^32 |
| Client.RoundStartExact | internal/client/client.go:127-132 | without underflow the start block is exact, and is `Start` for `round == Number` |
| Client.RoundStartsApart | internal/client/client.go:127-132 | consecutive rounds start `Length` blocks apart |
| Client.RoundEndInRound | internal/client/client.go:134-139 | the end block is `start + Length - 2`, inside the round |
| Client.HeadKey | internal/client/client.go:184 | the key starts with the pallet and a dot and ends with ")", and holds no "@" when its parts hold none |
| Client.BlockKey | internal/client/client.go:198 | the key is the head key, "@" and the block hash |
| Client.RawWithTtlRequest | internal/client/client.go:175-186 | reads at the snapshot block with the given TTL |
| Client.RawRequest | internal/client/client.go:164-173 | reads at the snapshot block with the minimum TTL |
| Client.RawAtRequest | internal/client/client.go:188-200 | reads at the given block with the default TTL |
| Client.ReadTiers | internal/client/client.go:164-200 | head reads use the shorter TTL and one key whatever the block; block reads extend that key with `@hash`, so two blocks never share an entry |
| Client.Lookup | internal/client/client.go:296-304 | a hit exactly when the key is present, not expired and not nil, and it returns the stored value |
| Client.StoredThenHit | internal/client/client.go:306-312 | a stored value is found until its TTL runs out and not after |
| Client.OtherKeysUnaffected | internal/client/client.go:306-312 | storing one key leaves every other key's lookup alone |
| Client.StorageCache.constructor | internal/client/client.go:33-35 | a new cache is empty |
| Client.StorageCache.GetCache | internal/client/client.go:296-304 | `getCache`: a hit exactly for a live non-nil entry, returning it |
| Client.StorageCache.SetCache | internal/client/client.go:306-312 | the key now holds the value until `now + ttl` |
| Client.StorageCache.GetStorage | internal/client/client.go:224-258 | a hit that unmarshals is returned and the cache is unchanged; a fetch or decode error is returned and the cache is unchanged; otherwise the decoded bytes are stored under the key with the TTL and then unmarshalled |
| Client.ReadTwice | internal/client/client.go:235-257 | after a miss that succeeded, a second read within the TTL returns the same value whatever storage returns |
| Data.InfoAfter | internal/server/data.go:169-182 | the server text, spec version 0, the client's chain, block, round, staking and token; `TsSecs` is start/1000 and `LenSecs` the elapsed whole seconds |
| Data.CollatorsMatching | internal/server/data.go:239-244 | the filtered list is no longer than the stored one |
| Data.CollatorsMatchingMembers | internal/server/data.go:239-244 | a collator is listed exactly when it is stored and matches ignoring case |
| Data.CollatorsMatchingAppend | internal/server/data.go:239-244 | the filter keeps stored order |
| Data.CollatorsMatchingFolds | internal/server/data.go:241 | queries equal ignoring case give the same list |
| Data.CollatorsFound | internal/server/data.go:239-244 | the collator query is non-empty exactly when some stored collator has the address ignoring case |
| Data.RowOf | internal/server/data.go:218-225 | the row names the collator and the delegator and carries the delegation's amount and revoke fields |
| Data.Concerns | internal/server/data.go:217 | a delegation concerns an address when the collator's or the delegator's address folds to the same text |
| Data.DelegationsMatching | internal/server/data.go:215-228 | every listed row has the collator or the delegator equal to the address, ignoring case |
| Data.RowsOf | internal/server/data.go:216-226 | no more rows than delegations; every row belongs to the collator and concerns the address |
| Data.RowsOfMembers | internal/server/data.go:216-226 | a row is listed exactly for a delegation that concerns the address |
| Data.DelegationsMatchingMembers | internal/server/data.go:215-228 | a row is listed exactly when some delegation of some collator concerns the address (collator or delegator, ignoring case) and gives that row |
| Data.DelegationsFound | internal/server/data.go:215-228 | the delegation query is non-empty exactly when some delegation concerns the address |
| Data.CollatorQueryListsAll | internal/server/data.go:217 | querying a collator's own address lists all its delegations in order |
| Data.ChainData.constructor | internal/server/data.go:62-69 | nothing published, no update running, the given staleness bound |
| Data.ChainData.GetInfo | internal/server/data.go:193-198 | the published info, state untouched |
| Data.ChainData.GetCollators | internal/server/data.go:200-208 | the published info and collators, state untouched |
| Data.ChainData.GetCollator | internal/server/data.go:235-249 | the info and exactly the collators matching ignoring case, in stored order |
| Data.ChainData.GetDelegations | internal/server/data.go:210-233 | the info and, collator-major then in delegation order, every delegation concerning the address, with its six fields copied |
| Data.ChainData.Update | internal/server/data.go:136-191 | a running update gives nil and no change; a client or fetch error is returned with no change; a pool whose size differs from `SnapStaking.Total` gives "pool size does not match" with no change, which catches a silently failed fetch; an empty candidate pool leaves nothing to fetch and `computeRevokes` panics, which halts the server; a revoke window ending at the largest `uint32` never ends, so that update keeps the update flag and every later update returns nil at once; else the collected collators, ordered nil first then by non-increasing counted stake and carrying the revoke projection, and the client's info are published |
| Httpd.MaxUpdateDelta | internal/server/httpd.go:94 | the bound is 3/2 of the update interval, truncated, while three intervals fit in an `int64`; past that the product wraps and the bound is not positive |
| Httpd.WrappedIntervalAlwaysStale | internal/server/httpd.go:19-24 | a `uint32` interval flag whose tripled duration overflows `int64` makes the bound negative, so the health check answers 500 from the update on |
| Httpd.DefaultHealthBound | config/serve.go:14 | the 15-minute default interval tolerates 1350 seconds |
| Httpd.HealthStatus | internal/server/httpd.go:19-30 | 500 exactly when more whole seconds than the bound have passed, else 200, at equality included |
| Httpd.HealthMonotone | internal/server/httpd.go:19-30 | stale stays stale as time passes; fresh now means fresh earlier |
| Httpd.HandleHealth | internal/server/httpd.go:19-30 | the health status of the published update time |
| Httpd.JsonResponse | internal/server/httpd.go:71-88 | status 200 with the CORS and Cache-Control headers |
| Httpd.ErrorResponse | internal/server/httpd.go:46-50 | the given status with the message as text and no CORS header |
| Httpd.HandleInfo | internal/server/httpd.go:14-17 | 200 with the published info |
| Httpd.HandleCollators | internal/server/httpd.go:32-35 | 200 with the published info and collators |
| Httpd.RouteParts | internal/server/httpd.go:38-40 | `/name/address` splits into three parts exactly when the address has no slash; the third part is then the address |
| Httpd.HandleCollator | internal/server/httpd.go:54-69 | not three path parts gives 400; otherwise the matching collators, or 404 when none; for `/collators/<a>`, 200 exactly when some collator matches `a` ignoring case |
| Httpd.HandleDelegations | internal/server/httpd.go:37-52 | the same rule over `GetDelegations`; 200 exactly when some delegation concerns the address |
| Httpd.CollatorRouteStatus | internal/server/httpd.go:54-69 | for `/collators/<a>`: a slash in `a` gives 400; otherwise 200 exactly when some collator's address equals `a` ignoring case |
| Httpd.DelegationsRouteStatus | internal/server/httpd.go:37-52 | for `/delegations/<a>`: a slash in `a` gives 400; otherwise 200 exactly when some delegation's collator or delegator equals `a` ignoring case |

## Left out

- Revokes.ComputeRevokes: requires at least one collator, `lastRound < MaxUint32` and known stakes. An empty pool panics at collators.go:429. `lastRound == MaxUint32` makes the loop counter wrap and never end. A nil `Counted` or `RevokeAmount` panics. These cases are modelled as the `Panicked` and `Diverged` outcomes of `PoolFetch.Finish`.
- Balance.GetTransferableBalance: requires both `Free` and `Frozen` to hold an amount; the code dereferences them and panics on a nil one.
- Collators.DisplayName: requires an address of at least six characters; the code's slicing panics on a shorter one. The model slices characters where Go slices bytes; they agree on hex addresses, and a non-ASCII address is not modelled.
- Revokes.ComputeRevokes: ranks are stored as unbounded naturals, not wrapped to `uint32`; a pool never holds 2^32 collators.
- PoolFetch.FetchCollatorPool: collator fetches are modelled in fetch-list order. The code collects them in goroutine-completion order; with an early error return, the remaining goroutines block forever.
- Snap.SamplingBlock: at block 0 the code converts a negative float to `uint64`, which is implementation-specific. The model samples block 0.
- Client.Lookup: whether an entry is still live at exactly its expiry instant depends on `go-mcache`, which is not part of this model. The model treats it as expired.
- Client.HeadKey: `args` is taken as the `%v` text of the argument list; Go's formatting of byte slices is not modelled.
- The `%v` text of a block hash is also not modelled.
- `setCache` only logs a failed write, and the model's store cannot fail.
- Data.InfoAfter: `TsSecs` (float64) and `LenSecs` (float32) are whole numbers small enough to be exact in those types, so they are integers here.
- `Update`'s log line and `ChainUpdate`'s JSON encoding are not modelled.
- Data.ChainData.Update: the read/write mutex is dropped. The `TryLock` flag is a boolean field and the model is sequential.
- `UpdateFromJson`, `StoreToJson` and `readJson` are file I/O and are not modelled.
- `ServeChainData` calls `Update()` with no argument although `Update` takes the history depth. The model's `Update` takes it.
- Httpd.HandleHealth: `maxUpdateDelta.Seconds()` is a float; its `int64` truncation is modelled as integer division of the duration by one second.
- The health body text (a float formatted with `%v`) is not modelled.
- Httpd.JsonResponse: `json.Marshal` cannot fail for these types, so its 500 path is not modelled.
- The router, gzip wrapper, ticker loop and `ListenAndServe` are not modelled.
- RPC plumbing is not modelled: `NewClient*`, `registerDecoder`, `getStorageData`, `decodeRawData`, `GetStorage`/`GetStorageAt`, `GetConstantValue`, `GetBlockNumber`, `fetchBlockTs`, `fetchStakingRoundInfo`, `fetchTokenInfo`, `TokenBalanceU128`, `FetchSelectedCandidates` and `GetCandidateBondLessDelay`. Their results are parameters.
- `FetchCollatorInfo`, `FetchCollatorBlocks` and `FetchCollatorHistory` are per-collator I/O and are not modelled; their combined result is the `collatorInfo` parameter.
- Floating point is not modelled: `DurationSecs`, `AverageBlocks`, `TokenBalance.Float64`, `Humanize` and `LenSecs` division for the log.
- `AsBigInt`'s fresh copy is implicit because amounts are values.
- `EqualFold` folds ASCII letters only. Addresses are hex, where Unicode folding agrees.
- ConfigDisplay.GetSortMode: the sort key is user text, and Go's Unicode folding also matches keys such as "blockſ" (U+017F) or "rank" spelled with the Kelvin sign U+212A to a numeric column; the model's ASCII folding treats those keys as non-numeric and gives `Dsc`.
- cmd/ and internal/display are not part of this model.

## Findings

| source | as written | input that shows it | evidently intended | confidence | as-written member | corrected member |
|---|---|---|---|---|---|---|
| internal/client/collators.go:228-231 | `computeRevokes` reads `Collators[0]` unconditionally | `FetchCollatorPool` with address filter "0xbb" and a candidate pool holding only "0xaa": the fetch list is empty and the call panics | an empty pool is returned | not executed | PoolFetch.UnmatchedAddressPanics | PoolFetch.UnmatchedAddressGuarded |
| internal/client/collators.go:127-140 | `lastK` is never updated, so every positive key overwrites `lastV` and the answer depends on map order | `Revokes = {5: a, 6: b}`, round 10: iterating 6 then 5 returns `a` | the entry of the largest round | not executed | Collators.RevokeAtStaleEntry | Collators.RevokeAtLatest |
