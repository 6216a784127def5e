# A model of gno's x402 mechanism

The repository pays for web resources with gno bank sends. A seller's 402 names an offer; the
payer's half signs a transaction for it; a facilitator checks that transaction, broadcasts it, waits
for a block and answers. This project models the parts where that can go subtly wrong, and proves
what they keep.

- `Settlements.dfy`, `Facilitator.dfy`: the table of payments being settled or settled, and what the
  facilitator decides and answers. The functions say what a step does; the classes `SettlementTable`
  and `Facilitator` take the steps in place, as the program does under its mutex, and are proved
  against the functions.
- `Account.dfy`, `Ledger.dfy`: what a signature proves about an account's sequence, and the chain as a
  log of what blocks executed. A node answers from a prefix of the log.
- `SettleRuns.dfy`: every interleaving of the settles of one process as a step system. Reading the
  clock is a step of its own, so a table step may use a reading older than another thread's.
  `SettleInvariant.dfy` and `SettleOnce.dfy` hold what every step keeps; `SettleTheorems.dfy` what
  holds of every run, `PendingRecords.dfy` and `SettledRecords.dfy` what becomes of a record over one;
  `SettleOrder.dfy` in what order a settle comes to its broadcast; `SettleAnswers.dfy` what one settle
  answers; `SoloRuns.dfy` ties the class to the runs and shows where the bounds are needed.
- `Rules.dfy`, `Client.dfy`, `Agreement.dfy`, `OfflineRules.dfy`, `Preparing.dfy`: the payer's half, that
  what it signs the facilitator accepts, what the facilitator's verdicts mean, and exactly which
  payments are built.
- `FeeArithmetic.dfy`, `CoinText.dfy`, `Decimal.dfy`, `ShownAmount.dfy`, `ShellWord.dfy`: fee arithmetic, and
  three ways of writing a value as text together with reading it back.
- `RateLimiter.dfy`, `RateLimitTheorems.dfy`, `RateLimitClock.dfy`, `SellerLimit.dfy`: the facilitator's
  per-peer throttle, its table that forgets and is capped, exactly which clocks hide the forgetting,
  and the weather seller's bucket in front of it.
- `Visits.dfy`: the weather seller's book of visits and the queue it stands in for.
- `Node.dfy`: the wait for a delivery, the contract a settle rests on.
- `Gno.dfy`, `Clock.dfy`, `Options.dfy`, `Sets.dfy`: the chain's values, the unit of time, and helpers.

What is assumed, all of it as parameters of `Gno.Platform` and `SettleRuns.World` or as guards of
`SettleRuns.Enabled`:

- a signature is ideal: one key's seal over one sign document, in either of two renderings;
- transaction hashes never collide and are never empty, and an admitted broadcast is answered with
  the hash of its bytes;
- amino and base64 decode what they encode; every other property of them, of bech32 text and of the
  coin parse is left open;
- account sequences only grow, and a block executes a payment only while its signature is fresh;
- a delivery answered as successful or aborted names a block that holds those bytes. A node's account
  answers may lag the chain by `World.lag`; nothing bounds how far its other answers lag.

Where a comment and the code differ the model follows the code: `facilitator/exact/settlements.go:30`
calls a pending record's time its broadcast, and the code reads the clock for it only after the wait
for a delivery (`facilitator/exact/facilitator.go:178`).

A Go string is modelled as a sequence of characters, each standing for one byte. Times are integers
of nanoseconds in the settlement table and the visit book, and reals of seconds in the throttles.

## Model

| member | source | states |
|---|---|---|
| SettleTheorems.OneExecutionSeenPerSequence | facilitator/exact/settlements.go:8-12 | in every run against nodes whose account answers lag by at most the TTL, at most one settle ever sees a block that executed the payment of one account and sequence, settled or aborted, over all encodings, expiries, pending records, reconciles and panics |
| SettleTheorems.OneSuccessPerSequence | facilitator/exact/settlements.go:8-12 | so in every such run at most one settle is answered settled per account and sequence |
| SoloRuns.LagBoundIsNeeded | facilitator/exact/settlements.go:8-12 | for any lag above the TTL, any payment accepted offline and fresh for some account has a run that answers it settled twice, so the bound above is exact |
| SettleTheorems.AdmittedBroadcastsAreApart | facilitator/exact/facilitator.go:159-180 | in every run two admitted broadcasts of the same bytes are more than the TTL apart, however stale the clock readings their claims and records used, unless between the two a panic unwound a settle of them that a node had admitted |
| SoloRuns.PanicCanRepeatABroadcast | facilitator/exact/facilitator.go:164-169 | that exception is real: a panic while waiting drops the record, and the next settle broadcasts the same bytes at the same instant |
| SettleTheorems.SettlingExactlyWhileHeld | facilitator/exact/settlements.go:49-68 | in every reachable state an entry is settling exactly while one settle in flight owns that key, and is what its claim left |
| SettleTheorems.OthersLeaveAHeldEntry | facilitator/exact/settlements.go:49-98 | no sweep, claim, release or mark of another settle changes the entry of a payment being settled |
| SettleTheorems.NothingHeldWhenAllReturned | facilitator/exact/facilitator.go:163-181 | once every settle has returned or panicked no entry is settling |
| SettleTheorems.RecordMatchesWhatHappened | facilitator/exact/facilitator.go:191-208 | record leaves settled exactly when a block was seen holding the payment, pending exactly when it is in flight and none was, free exactly when this settle got no admission; a reconcile never releases |
| PendingRecords.PendingKeepsItsFirstRecord | facilitator/exact/settlements.go:60-98 | over any stretch of a run in which the payment keeps an entry and no claim of it reads the clock more than the TTL after the record's time, wherever it is pending again it is under the same hash, payer and time, a settle in flight for it holds that record, and a settled entry is dated no earlier |
| PendingRecords.PendingStandsUntilExpiry | facilitator/exact/settlements.go:49-58 | and that stretch lasts until a claim of some payment reads the clock more than the TTL after the record's time or a panic unwinds a settle reconciling it; no record, release or other claim ends it |
| SettleTheorems.PendingClaimsReconcile | facilitator/exact/facilitator.go:173-178 | a claim of a pending payment reconciles within the TTL of the record's time, under its hash and payer, and starts afresh after it |
| SettledRecords.CopiesOfASettledPaymentAreRefused | facilitator/exact/facilitator.go:149-163 | once a settle has recorded a payment it saw in a block, every copy whose claim reads the clock within the TTL of that record is refused as a duplicate carrying the hash, unless a claim before it read the clock later |
| SettledRecords.SettledStandsUntilExpiry | facilitator/exact/settlements.go:49-84 | a settled record stands as it is, through copies, records, releases and panics, until a claim of some payment reads the clock more than the TTL after its time |
| SettleTheorems.WireNamesOnlyWhatWasEstablished | facilitator/exact/facilitator.go:153-252 | every payer an answer names was confirmed by a signature over the same bytes, by this settle or the one that left the payment pending; every hash belongs to those bytes and a node admitted them |
| SettleTheorems.CopyOfAFirstSettleCarriesNoHash | facilitator/exact/facilitator.go:149-163 | a copy refused while its payment is held carries no hash exactly when the holder is not reconciling |
| SettleAnswers.PanickedSettle | facilitator/exact/facilitator.go:164-169 | a settle that a panic unwinds answers nothing and leaves no record of the payment it had claimed |
| SettleAnswers.OfflineRefusal | facilitator/exact/facilitator.go:153-157 | a payment refused offline is answered with that reason and leaves the table untouched |
| SettleOrder.BroadcastIsChecked | facilitator/exact/facilitator.go:212-233 | in every run a broadcast comes after its settle claimed the payment, then read an account the payment is signed for at its sequence, then had a node simulate it: nothing whose simulation was refused or unanswered is broadcast |
| SettleAnswers.UnrecordedSettle | facilitator/exact/facilitator.go:153-252 | for a payment the table holds no live record of, the answer and the record left for every account read, simulation, end of the request, broadcast and delivery |
| SettleAnswers.ReconcilingSettle | facilitator/exact/facilitator.go:173-252 | a pending payment within the TTL is answered for its delivery alone, under the recorded hash and payer, and keeps its record while unseen |
| SettleAnswers.CopySettle | facilitator/exact/facilitator.go:149-163 | a copy is refused with the entry's hash and disturbs nothing |
| SoloRuns.SettleAloneIsARun | facilitator/exact/facilitator.go:153-181 | whatever Settle computes uninterrupted, answer and table, is computed by a run of the step system |
| Settlements.ClaimByAge | facilitator/exact/settlements.go:46-68 | by age and state of what is recorded, a claim is refused, reconciles, or starts afresh, and disturbs no other settle's claim |
| Settlements.ReconcileKeepsTheFirstRecord | facilitator/exact/settlements.go:86-98 | pending, claimed and pending again restores the first record although the claim dropped the payer |
| Settlements.SettlementTable.Claim | facilitator/exact/settlements.go:49-68 | the sweep, in any map order, and the state test compute the claim |
| Settlements.SettlementTable.Release | facilitator/exact/settlements.go:72-76 | exactly the released key goes |
| Settlements.SettlementTable.MarkSettled | facilitator/exact/settlements.go:80-84 | the entry is settled under the hash at the reading, whatever it was |
| Settlements.SettlementTable.MarkPending | facilitator/exact/settlements.go:90-98 | the entry is pending since its first record |
| Facilitator.Facilitator.Settle | facilitator/exact/facilitator.go:153-181 | Settle, with its recorded flag and deferred release, gives the answer and the table of the specification that the SettleAnswers rows characterise and every run is tied to |
| Facilitator.Facilitator.Record | facilitator/exact/facilitator.go:194-208 | record leaves the table its specification says, which RecordMatchesWhatHappened explains |
| Facilitator.CheckOffline | facilitator/exact/facilitator.go:332-364 | an accepted payment carries exactly the bytes its payload's transaction text encodes, the one-signature one-send transaction they decode to and its sender; a refusal names no payer |
| OfflineRules.OfflineAcceptsExactlyPayments | facilitator/exact/verify.go:109-156 | the offline rules accept exactly the payloads whose accepted offer is this one in all but timeout and extra, and that carry a payment of exactly its coin, payee and memo on its chain |
| OfflineRules.RefusedForTheFirstBrokenRule | facilitator/exact/facilitator.go:332-364 | and refuse any other with the reason of the first rule it breaks, naming no payer |
| OfflineRules.SignableOfferIsNeverBlamed | facilitator/exact/facilitator.go:399-445 | an offer the payer's half signs for is never blamed by the facilitator of its chain |
| OfflineRules.AccountVerdictsMean | facilitator/exact/facilitator.go:366-397 | accepted exactly when the account read has the payment signed at its sequence, a mismatch naming the payer exactly when at the one before, a bad signature naming no one exactly when read and neither, a failed simulation exactly when the chain refused the read, no verdict exactly when nothing was read |
| OfflineRules.OneSignerOnly | facilitator/exact/facilitator.go:461-466 | a transaction not exactly one address authorizes is refused for its signatures, whatever is read |
| OfflineRules.StaleAnswers | facilitator/exact/facilitator.go:461-481 | a fresh payment is answered as consumed, naming the payer, one sequence later, and as a bad signature, naming no one, ever after |
| Account.FreshThenConsumedThenUnverifiable | facilitator/exact/account.go:80-87 | a fresh payment reports consumed one sequence later and unverifiable ever after |
| Ledger.OneExecutionPerSequence | facilitator/exact/settlements.go:8-12 | at most one block executes a payment for one account and sequence, whatever its encoding |
| Ledger.SpentIsNeverFresh | facilitator/exact/account.go:88-117 | a payment some block executed is never fresh against a view that holds the block |
| Agreement.BuiltPaymentPassesOffline | client/exact/scheme.go:266-515 | every payment Prepare and Payload build for an offer passes the offline rules under that offer exactly at the facilitator of its chain, which reads the right payer from it |
| Agreement.BuiltPaymentIsFresh | facilitator/exact/account.go:119-140 | while the signing account is unchanged the payment is fresh exactly when the account admits the key: a payer's own, stored or not yet, or the session key its session account stores |
| Agreement.BuiltPaymentSettles | facilitator/exact/facilitator.go:138-181 | end to end, such a payment is answered settled, naming the payer its coins move from, and what is broadcast is within the payer's spend cap and fee ceiling, for the chain its node serves |
| Agreement.NetworkNamesChain | client/exact/scheme.go:368-381 | a network string names a chain exactly when it is what that chain's facilitator serves |
| FeeArithmetic.RoundedFeeIsLeast | client/exact/scheme.go:557-578 | the fee is the least whole fee meeting twice the price for the gas a payment reserves |
| FeeArithmetic.FeeCoversExactlyDouble | client/exact/scheme.go:50-67 | it covers every later price up to double and, at prices for at most that gas, none above |
| FeeArithmetic.GasFeeIsTheLeast | client/exact/scheme.go:557-578 | the fee is one gnot where the chain reports no price, and else the least whole fee meeting a positive price twice over in its coin, refused exactly when there is none or none a coin holds |
| Preparing.PrepareBuildsExactly | client/exact/scheme.go:426-515 | Prepare builds a payment exactly when it is the one of the offer's terms: the send, the memo, ten million gas at that least fee within one gnot, the chain and account the node reports, the cap met and equal prices allowed |
| Preparing.CompletesExactly | client/exact/scheme.go:257-304 | Payload completes exactly a signature of the payment's key, the signing account's own, over its sign document, and hands over that transaction's encoding |
| Preparing.OffersRefused | client/exact/scheme.go:314-361 | an offer is what a refusal blames exactly when no terms of it are signable |
| Preparing.PricesAboveTheCapAreRefused | client/exact/scheme.go:405-424 | a price is refused as above the cap exactly when the cap is a whole number below it |
| Preparing.ExcessiveFeesAreRefused | client/exact/scheme.go:475-488 | a fee is refused as excessive exactly when the reported price asks for one in another coin or above one gnot |
| Preparing.UgnotPriceAdmitted | client/exact/scheme.go:475-488 | a payment built at no reported price is built at a positive ugnot price exactly when twenty times its amount is at most its gas |
| CoinText.SignedPriceIsTheOffers | client/exact/scheme.go:353-360 | the price signed is the offer's amount of the offer's asset, as written |
| OfflineRules.PayerTakesExactlySignableOffers | client/exact/scheme.go:316-403 | readTerms accepts exactly the offers the mechanism may sign for, on exactly their terms |
| CoinText.ParseReadsBack | client/exact/scheme.go:81-89 | inside the grammars a longest-digit-run parse returns exactly that amount and denomination, and refuses exactly the amounts past int64 |
| CoinText.ConcatenationIsUnambiguous | client/exact/scheme.go:353-360 | no two valid amount and asset pairs give one string |
| CoinText.OneCoinOneText | client/exact/scheme.go:87-89 | no two valid pairs parse to one coin |
| CoinText.DigitsInAnAssetMakeAnotherCoin | client/exact/scheme.go:81-84 | outside the asset grammar one string is two coins |
| ShownAmount.ShownReadsBack | examples/weather/main.go:290-305 | the decimal shown for a ugnot amount, read back and multiplied by a million, is the amount, and its fraction never ends in 0 |
| ShownAmount.OthersAreShownWhole | examples/weather/main.go:290-297 | any other coin is shown as its whole amount in its own unit |
| ShownAmount.ShownDistinguishes | examples/weather/main.go:294-305 | no two coins with valid denominations are shown alike |
| ShellWord.OneWordBack | examples/weather/x402-gno/main.go:192-201 | every string is read back as exactly one word, itself, by a lexer whose special characters are the POSIX list and not the printer's |
| ShellWord.EveryWordBack | examples/weather/x402-gno/main.go:194-201 | any number of written words a blank apart are read back as exactly those words |
| ShellWord.WrittenAsItIs | examples/weather/x402-gno/main.go:192-201 | a string is written unquoted exactly when it is not empty and has only word characters and @%+=:,./- |
| ShellWord.WordsDistinguish | examples/weather/x402-gno/main.go:192-201 | no two strings are written alike |
| RateLimitClock.ForgettingShowsExactlyOutsideValleys | facilitator/ratelimit.go:96-163 | once requests refused as full are deleted, the sweeping and capped limiter decides exactly as one that never forgets and has no cap, for all limits, peers and requests at each reading, if and only if the clock never drops below a reading it had risen to |
| RateLimitClock.ForgettingIsInvisible | facilitator/ratelimit.go:96-163 | so it does with a nondecreasing clock |
| RateLimitClock.RiseThenDropShows | facilitator/ratelimit.go:115-163 | for any rise and any drop below it, limits and four requests that the two limiters decide differently |
| RateLimitTheorems.FullMeansCrowded | facilitator/ratelimit.go:99-114 | a request is refused as full exactly when as many other peers as the table may hold have not refilled and its own has, so buckets kept past their refill never cost anyone a place |
| RateLimitTheorems.SweepingIsInvisible | facilitator/ratelimit.go:96-163 | with a nondecreasing clock and nothing deleted, every decision is that of a limiter that remembers every peer and caps only how many are spending at once |
| RateLimitTheorems.WindowGrantsAreBounded | facilitator/ratelimit.go:99-163 | in every window of every run, backward clock steps included, a peer's grants are at most burst plus rate times the clock's forward motion |
| RateLimiter.RunKeepsValid | facilitator/ratelimit.go:31-41 | tokens stay at least 0 and below the burst and the table within its cap, whatever the clock does |
| RateLimitTheorems.RefusedRequestsCostNothing | facilitator/ratelimit.go:99-131 | with a nondecreasing clock, from any table and however many peers a trace names, deleting any of the refused requests, refused for lack of tokens or as full, changes no other decision |
| RateLimitTheorems.ShortPeerWaitsItsShortfall | facilitator/ratelimit.go:99-131 | on a clock that goes forward from a reading no earlier than its last request, a peer asking again after requests that granted it nothing is short exactly until the refill covers its shortfall, refused as full exactly when it has wholly refilled and as many others as the table may hold have not, and granted otherwise |
| RateLimitTheorems.ServedPeerWaitsFromItsLastRequest | facilitator/ratelimit.go:115-131 | after any requests and any course of the clock, backward steps included, a served peer waits exactly its shortfall from that request |
| RateLimitTheorems.RefillsFromItsLastRequest | facilitator/ratelimit.go:115-123 | so a clock that stepped back does not keep a served peer from refilling until it catches up |
| RateLimitTheorems.LevelIsTheMotionEarned | facilitator/ratelimit.go:113-123 | what a request finds is its tokens and what the clock's forward motion since its last request earned, up to the burst |
| RateLimitTheorems.NothingIsKeptPastItsRefill | facilitator/ratelimit.go:133-163 | whatever the clock does, the table a request leaves was swept less than a minute before and keeps no bucket that had refilled by then |
| RateLimiter.RateLimiterTable.Allow | facilitator/ratelimit.go:99-131 | allow gives the decision and the table of the specification the theorems are about |
| RateLimiter.RateLimiterTable.Sweep | facilitator/ratelimit.go:150-163 | the rebuild, in any map order, keeps exactly the buckets that have not refilled |
| RateLimitTheorems.DecisionIsTheLevel | facilitator/ratelimit.go:99-131 | a request the table has room for is granted exactly when its peer's refilled bucket, or a new full one, holds a token; a grant takes that token and no decision changes another peer's level |
| SellerLimit.SellerAfter | examples/weather/ratelimit.go:51-63 | a request is granted exactly when a whole token is left, and takes exactly one |
| SellerLimit.NeverShortExactlyAtTwice | examples/weather/ratelimit.go:10-17 | however both are configured, the facilitator refuses none of the seller's calls for lack of tokens, in any course of arrivals from their start, if and only if its rate and burst are at least twice the seller's |
| SellerLimit.CoveredCallsAreGranted | examples/weather/ratelimit.go:10-17 | on one nondecreasing clock, whatever the limits and the table, when it starts out owing the seller two tokens for each of its own, none of its calls is short, and all are granted exactly when the seller never comes new to a table full of peers that have not refilled |
| SellerLimit.SellerNeverMeetsTheThrottle | examples/weather/ratelimit.go:10-17 | so it is on one nondecreasing clock for the two calls each granted request makes, with both limits at their defaults |
| SellerLimit.SellerRateLimit.Allow | examples/weather/ratelimit.go:52-63 | allow gives the decision and the bucket of its specification |
| Visits.BookIsAQueue | examples/weather/visits.go:57-96 | with a nondecreasing clock, whatever order the loop takes and whichever of equally old entries goes, a first-wins age-ordered queue of the newest maxVisits answers every lookup the book answers |
| Visits.DistinctTimesMakeItFifo | examples/weather/visits.go:68-68 | with no two records at one instant that queue forgets exactly its front |
| Visits.VisitBook.Record | examples/weather/visits.go:57-84 | the loop, in any map order, forgets what has expired and then one of the oldest, and the book never exceeds its bound |
| Visits.VisitBook.LookUp | examples/weather/visits.go:86-96 | a lookup finds what the specification the queue is compared with finds |
| Node.AwaitDelivery | facilitator/exact/node.go:146-175 | the answer is that of the first lookup to find the transaction, and not seen exactly when none did |

## Left out

- HTTP transport, JSON decoding, logging, flags, server timeouts and drains: plumbing over libraries that are not part of this model.
- Real cryptography, amino, base64, bech32 and tm2's ParseCoins: parameters, with the assumptions listed above.
- Two facilitator processes on one chain: the code keeps no state between them, so once-only holds per process only.
- An account whose sequence goes back, such as a session revoked and registered again under the same key: outside the assumption that sequences only grow.
- The Verify endpoint: it runs the same check as a settle, without the table.
- The TypeScript signer, the browser page, the Go command line and the seller's own scheme: they repeat rules modelled here or only print.
- RPC clients, keybase and Ledger signing: network and foreign calls.
- servedResponse and the HTTP handlers around the visit book.
- The deadline a delivery is awaited until (facilitator/exact/facilitator.go:254-262): a wait may end unseen at any time.
- Cancelling a context while a node call runs, beyond the choice to give up before the broadcast and a delivery not seen in time.
- uint64 wrap-around of sequences, saturating time differences, and float rounding in the buckets: counters and times are unbounded, tokens real.
- An infinite or not-a-number rate configured at the facilitator: the seller's constructor rejects those and models it; the facilitator's does not.
- The text form of IP addresses that keys a peer's bucket.
- A shell's meaning for = before a command's name and for % where a command takes a job: the written words are arguments.
- SettleTheorems.RecordMatchesWhatHappened: a block that held the payment's bytes and whose ante refused them also counts as holding it, because the node answers both alike with the chain's own error.
- SettleTheorems.AdmittedBroadcastsAreApart: says nothing of a broadcast the node never answered, because the code releases that claim and may send the bytes again.
