# SolSentinel on-chain program — a Dafny model

SolSentinel is a Solana (Anchor) program that publishes token sentiment
readings on chain. This project models its on-chain core and proves
properties of that model:

- **The oracle's admin state.** The global `Sentinel` account holds an authority, a pause
  flag, up to five operators (never one twice) and a saturating update counter.
  It is changed by `initialize`, `transfer_authority`, `set_paused`,
  `add_operator` and `remove_operator` (`SentinelAdmin`).
- **Sentiment records.** `store_sentiment`, `update_sentiment` and
  `batch_update_sentiments` write per-token `SentimentRecord`s (`SentinelOracle`).
  `store_sentiment` checks a non-empty alphanumeric symbol of at most 10 bytes,
  a score in [-100, 100], a confidence of at most 100 and a positive timestamp.
  `update_sentiment` and each batch entry check the score and the confidence,
  and a timestamp strictly newer than the record's; they never check the symbol.
  The batch applies up to ten updates to the records passed as remaining accounts.
  The same record may appear twice in one batch. When any entry fails, the whole
  transaction fails and no record changes.
- **The 24-slot snapshot ring** of `record_history` (`SentinelHistory`).
- **User profiles, subscriptions and votes.** These cover the reputation arithmetic of
  `UserProfile::accuracy` and `update_reputation` (`Social`) and the social
  handlers of lib.rs (`SentinelSocial`) and of instructions.rs (`Instructions`).
- **The second program version, lib_v2.rs** (`SentinelV2`). It has a single authority,
  weaker validation, and a batch that only counts.

Every Anchor account the handlers write is an `Account<T>` object whose `data`
field holds the deserialized struct. A handler is a method with `modifies` on
the accounts it may write. It returns `Ok` or `Err(code)` with the program's
own error codes. A failing handler leaves every account as it found it, as a
failed Solana transaction does. Anchor's account constraints
(`constraint = … @ SentinelError::Unauthorized`) run before the handler body.
They are modelled as the handler's first check. The cluster clock is the
parameter `now`. Rust's fixed-width integers are ranges of `int`. Their
saturating and wrapping operations are written out (`Common`). A Rust
`String`'s `len()` is its UTF-8 byte length (`Common.Utf8Len`).

Each handler is proved against a specification function or a contract that
names the resulting state. Examples: `UpdateSentiment` against `ApplyUpdate`, the batch
loop against `ApplyBatch` over a map from accounts to records,
`RecordHistory` against `RecordEntry`, and `UpdateReputation` against
`AfterPrediction`. The lemmas then state what those functions promise.

## Model

| member | source | states |
|---|---|---|
| `SentinelAccounts.ValidateSentimentInput` | programs/sol_sentinel/src/lib.rs:386-394 | succeeds exactly for a non-empty symbol of at most 10 bytes, all ASCII letters or digits, a score in [-100, 100], a confidence of at most 100 and a positive timestamp; the first failing check names the error; an accepted symbol has as many bytes as characters |
| `SentinelAccounts.IsAuthorityOrOperator` | programs/sol_sentinel/src/lib.rs:396-398 | true exactly when the signer is the authority or appears in the operator list |
| `SentinelAdmin.Position` | programs/sol_sentinel/src/lib.rs:70-71 | finds nothing exactly when the key is not listed; otherwise returns the first index holding the key |
| `SentinelAdmin.Initialize` | programs/sol_sentinel/src/lib.rs:29-38 | the signer becomes the authority of an unpaused oracle with no operators and no updates |
| `SentinelAdmin.TransferAuthority` | programs/sol_sentinel/src/lib.rs:41-48 | only the authority may transfer, and never to the all-zero key (`Unauthorized`, then `InvalidAuthority`); only the authority changes; the authority is therefore never reset to the all-zero key |
| `SentinelAdmin.SetPaused` | programs/sol_sentinel/src/lib.rs:51-55 | only the authority may set the flag; nothing else changes |
| `SentinelAdmin.AddOperator` | programs/sol_sentinel/src/lib.rs:58-65 | succeeds exactly for the authority, with fewer than five operators and a new key, which is appended; errors in the source's order; keeps the list at most five long and duplicate-free |
| `SentinelAdmin.RemoveOperator` | programs/sol_sentinel/src/lib.rs:68-75 | succeeds exactly for the authority and a listed key; removes the first occurrence and keeps the others in order; keeps the list valid, and the key is gone afterwards |
| `SentinelAdmin.RemoveOperatorDropsOnlyThatKey` | programs/sol_sentinel/src/lib.rs:68-75 | removing a listed key from a duplicate-free list shortens it by one, removes the key entirely and keeps every other key |
| `SentinelAdmin.AddThenRemoveRestores` | programs/sol_sentinel/src/lib.rs:58-75 | removing the operator just added gives back the list as it was |
| `SentinelAdmin.RemovedOperatorLosesAccess` | programs/sol_sentinel/src/lib.rs:68-75 | after removal, a signer may still write sentiment exactly when it is the authority or another operator |
| `SentinelOracle.StoreSentiment` | programs/sol_sentinel/src/lib.rs:81-116 | succeeds exactly for an authority or operator with valid input while not paused; the signer check comes first, then validation, then the pause check; writes the record with update count 0 and adds 1 (saturating) to the update counter; nothing changes on failure |
| `SentinelOracle.ApplyUpdate` | programs/sol_sentinel/src/lib.rs:128-140 | accepts an update exactly when score and confidence are in range and the timestamp is strictly newer (errors in that order); the record takes the reading, signer and timestamp, keeps its symbol, counts one more update up to the u32 maximum, and stays within bounds |
| `SentinelOracle.UpdateSentiment` | programs/sol_sentinel/src/lib.rs:119-154 | signer check, then the pause check, then `ApplyUpdate`; on success the record is the updated one and the counter grows by 1 (saturating); nothing changes on failure |
| `SentinelOracle.BatchPrecheck` | programs/sol_sentinel/src/lib.rs:158-168 | passes exactly for an authority or operator, not paused, with 1 to 10 updates and one account per update; each failing check names its error in the source's order (`Unauthorized`, `OraclePaused`, `EmptyBatch`, `BatchTooLarge`, `AccountMismatch`) |
| `SentinelOracle.ApplyBatch` | programs/sol_sentinel/src/lib.rs:172-211 | applying the entries in order over the records keeps the set of records |
| `SentinelOracle.BatchUpdateSentiments` | programs/sol_sentinel/src/lib.rs:158-219 | fails with the first failing precheck, else with the first failing entry; on success every record is as `ApplyBatch` leaves it and the counter grows by the batch size (saturating); on failure no record and not the counter changes |
| `SentinelOracle.ApplyEntries` | programs/sol_sentinel/src/lib.rs:172-211 | the loop's outcome is that of `ApplyBatch` on the records as they were; on success the accounts hold its result and every entry was counted; on failure they hold what they held before |
| `SentinelOracle.WriteRecord` | programs/sol_sentinel/src/lib.rs:198-199 | serializing the record back changes that account's record and no other |
| `SentinelOracle.BatchLeavesOtherRecords` | programs/sol_sentinel/src/lib.rs:172-211 | a batch leaves every record it does not name as it was |
| `SentinelOracle.BatchFailurePersists` | programs/sol_sentinel/src/lib.rs:172-211 | once an entry fails, the whole batch fails with that entry's error |
| `SentinelOracle.BatchRejectsOutOfRangeEntry` | programs/sol_sentinel/src/lib.rs:174-175 | any entry with an out-of-range score or confidence makes the whole batch fail |
| `SentinelOracle.BatchOfDistinctRecords` | programs/sol_sentinel/src/lib.rs:172-211 | when no account is named twice, the batch succeeds exactly when every entry succeeds against its record as it was, and each record ends as its single update leaves it |
| `SentinelOracle.RepeatedRecordTakesBothUpdates` | programs/sol_sentinel/src/lib.rs:186-199 | an account named twice takes both updates in order: the second must be newer than the first, and the record ends with the second reading and two more updates counted |
| `SentinelOracle.BatchStep` | programs/sol_sentinel/src/lib.rs:173-199 | the first i+1 entries act as the first i entries followed by entry i on the record as they left it |
| `SentinelHistory.RecordEntry` | programs/sol_sentinel/src/lib.rs:229-250 | starts the ring with 24 default slots on first use, writes slot `head % 24`, leaves the other slots alone, advances `head` by 1 with u16 wrap-around, counts one more reading up to 24, and keeps the ring well formed |
| `SentinelHistory.RecordHistory` | programs/sol_sentinel/src/lib.rs:223-258 | only an authority or operator may record; the history becomes `RecordEntry` of a snapshot of the sentiment record taken now; nothing else changes |
| `SentinelHistory.AdvanceKeepsWindow` | programs/sol_sentinel/src/lib.rs:244-250 | writing slot `head % 24` and moving `head` one slot on appends the entry to what a reader sees, dropping the oldest of 24 |
| `SentinelHistory.FirstRecordStartsHistory` | programs/sol_sentinel/src/lib.rs:229-250 | the first snapshot of a new history takes the symbol, sets `head` to 1, and is all a reader sees |
| `SentinelHistory.RecordKeepsWindow` | programs/sol_sentinel/src/lib.rs:244-250 | one snapshot on a started ring whose `head` is below 65535 is appended to what a reader sees, and the oldest of 24 is dropped |
| `SentinelHistory.RecordRunKeepsLastReadings` | programs/sol_sentinel/src/lib.rs:222-250 | from a new history account, a run of 1 to 65535 snapshots leaves `head` equal to their number and a reader seeing the last 24 of them, oldest first |
| `SentinelHistory.WrapBreaksWindow` | programs/sol_sentinel/src/lib.rs:246-246 | at the u16 wrap the reading breaks: a full ring at `head` 65535 does not show the new entry as its newest |
| `SentinelHistory.RecordEntryModulo` | programs/sol_sentinel/src/lib.rs:244-250 | the corrected write: the same slot is written and the others kept, `head` advances modulo 24 and so stays below 24, and the ring stays well formed |
| `SentinelHistory.CorrectedRecordKeepsWindow` | programs/sol_sentinel/src/lib.rs:244-250 | with `head` kept modulo 24, every snapshot is appended to what a reader sees, with no exception |
| `Social.Accuracy` | programs/sol_sentinel/src/social.rs:47-52 | 0 for a profile with no predictions; otherwise, when correct ≤ made, the rounded-down percentage, which is at most 100, and exactly 100 when every prediction was correct |
| `Social.AccuracyIsRoundedPercentage` | programs/sol_sentinel/src/social.rs:51-51 | on a valid profile, accuracy is within one percentage step below the exact ratio |
| `Social.UpdateReputation` | programs/sol_sentinel/src/social.rs:55-66 | Rust's saturating operations give exactly `AfterPrediction`: one more prediction, one more correct one and +10 reputation capped at 1000 when right, -5 floored at 0 when wrong |
| `Social.PredictionKeepsProfileValid` | programs/sol_sentinel/src/social.rs:55-66 | one resolved prediction keeps correct ≤ made and reputation ≤ 1000, so accuracy stays a percentage; owner, name and timestamps stay; reputation moves by -5 to +10 in the direction of the outcome |
| `Social.PredictionsKeepProfileValid` | programs/sol_sentinel/src/social.rs:55-66 | over any run of outcomes the profile stays valid, and the counters grow by the run's length and its number of correct outcomes (capped at the u32 maximum) |
| `Social.StreakFrom` | programs/sol_sentinel/src/social.rs:58-61 | n correct predictions in a row add 10 reputation each, up to 1000 |
| `Social.CorrectStreakReputation` | programs/sol_sentinel/src/social.rs:58-61 | from the initial 100, n correct predictions give min(100 + 10n, 1000) |
| `SentinelSocial.ProfileChecks` | programs/sol_sentinel/src/lib.rs:263-265 | accepts exactly a non-empty username of at most 20 bytes made of letters, digits and '_'; empty, then too long, then invalid |
| `SentinelSocial.CreateProfile` | programs/sol_sentinel/src/lib.rs:262-280 | on a valid username the profile belongs to the signer with 100 reputation, no predictions, created and active now (a valid profile, accuracy 0); nothing changes otherwise |
| `SentinelSocial.SubscriptionChecks` | programs/sol_sentinel/src/lib.rs:288-291 | accepts exactly a symbol of 1 to 10 bytes, a direction in {-1, 0, 1} and a threshold of at most 100; each failing check names its error, too long before empty, then direction, then threshold |
| `SentinelSocial.SubscribeToken` | programs/sol_sentinel/src/lib.rs:282-305 | on accepted input the subscription records user, symbol, direction, threshold, time, and no alert yet |
| `SentinelSocial.VoteChecks` | programs/sol_sentinel/src/lib.rs:322-325 | accepts exactly a symbol of 1 to 10 bytes, a score in [-100, 100] and a confidence of at most 100; each failing check names its error in the source's order (too long, empty, score, confidence) |
| `SentinelSocial.VoteSentiment` | programs/sol_sentinel/src/lib.rs:316-350 | only the profile's owner may vote; the vote is recorded and the profile counts one more prediction (saturating) and is active now; a valid profile stays valid |
| `SentinelSocial.Resolved` | programs/sol_sentinel/src/lib.rs:358-364 | a correct resolution adds 10 reputation up to 1000 and one correct prediction (saturating); a wrong one takes 5 reputation down to 0; the prediction count and all other fields stay |
| `SentinelSocial.ResolvePrediction` | programs/sol_sentinel/src/lib.rs:353-373 | only the oracle authority may resolve; the profile becomes `Resolved` of what it was |
| `SentinelSocial.VoteThenResolveIsOnePrediction` | programs/sol_sentinel/src/lib.rs:341-364 | a vote followed by its resolution changes a profile exactly as one `update_reputation` does, and keeps it valid |
| `SentinelSocial.ResolveWithoutVoteOvercounts` | programs/sol_sentinel/src/lib.rs:359-361 | a resolution is not tied to a vote: resolving a correct prediction for a profile with none leaves more correct predictions than predictions |
| `Instructions.CreateProfile` | programs/sol_sentinel/src/instructions.rs:7-24 | fails only for a username over 20 bytes (the empty name is accepted); otherwise 100 reputation, no predictions, created and active now |
| `Instructions.SubscriptionChecks` | programs/sol_sentinel/src/instructions.rs:33-35 | accepts exactly a symbol of at most 10 bytes (empty included), a direction in {-1, 0, 1} and a threshold of at most 100; each failing check names its error in that order |
| `Instructions.SubscribeToken` | programs/sol_sentinel/src/instructions.rs:27-50 | on accepted input the subscription records user, symbol, direction, threshold, time, and no alert yet |
| `Instructions.VoteChecks` | programs/sol_sentinel/src/instructions.rs:66-68 | accepts exactly a symbol of at most 10 bytes, a score in [-100, 100] and a confidence of at most 100; each failing check names its error in that order |
| `Instructions.VoteSentiment` | programs/sol_sentinel/src/instructions.rs:60-94 | only the profile's owner may vote; the vote is recorded and on the profile only `last_active` changes |
| `Instructions.RecordPredictionResult` | programs/sol_sentinel/src/instructions.rs:97-120 | only the profile's owner may report; the profile takes `update_reputation` and is active now; owner, username and creation time stay; a valid profile stays valid |
| `Instructions.LibChecksAreStricter` | programs/sol_sentinel/src/instructions.rs:33-68 | every subscription or vote the lib.rs handlers accept is accepted here, and an empty symbol is accepted here but refused there |
| `Instructions.LibUsernameRulesAreStricter` | programs/sol_sentinel/src/instructions.rs:8-8 | every username lib.rs accepts fits here; the empty one fits here but is refused there |
| `SentinelV2.Initialize` | programs/sol_sentinel/src/lib_v2.rs:24-32 | the signer becomes the authority and the counter is 0 |
| `SentinelV2.StoreChecks` | programs/sol_sentinel/src/lib_v2.rs:42-44 | accepts exactly a symbol of at most 10 bytes, a score in [-100, 100] and a confidence of at most 100, errors in that order |
| `SentinelV2.StoreSentiment` | programs/sol_sentinel/src/lib_v2.rs:34-69 | only the authority may store; the record is overwritten with every given field and the signer, and the counter grows by 1 (saturating) |
| `SentinelV2.BatchChecks` | programs/sol_sentinel/src/lib_v2.rs:75-76 | accepts exactly 1 to 10 entries, whatever they hold |
| `SentinelV2.BatchCounted` | programs/sol_sentinel/src/lib_v2.rs:71-79 | succeeds exactly for the authority and 1 to 10 entries, with `Unauthorized` first and then the size errors; on success the sentinel is the old one with the counter at min(total + number of entries, u64 maximum), so it grows by at most the batch size |
| `SentinelV2.BatchStoreSentiment` | programs/sol_sentinel/src/lib_v2.rs:71-93 | only the authority may submit; the outcome and the new state are those of `BatchCounted`; no record is written |
| `SentinelV2.TransferAuthority` | programs/sol_sentinel/src/lib_v2.rs:95-99 | the authority may hand over to any key, the all-zero key included |
| `SentinelV2.WeakerStoreValidation` | programs/sol_sentinel/src/lib_v2.rs:42-44 | every reading lib.rs accepts is accepted here; an empty symbol, a non-alphanumeric symbol and a zero timestamp pass here but not there |
| `SentinelV2.BatchCountsUncheckedEntries` | programs/sol_sentinel/src/lib_v2.rs:75-79 | a batch holding an entry whose score `store_sentiment` would refuse still succeeds and adds its full length to the counter |

## Left out

- Account plumbing is not modelled: PDA seeds and bumps, account sizes (`LEN`), rent, and the payer and system program. The model has no addresses, so it cannot express "the account for this symbol".
- `init` accounts are not modelled as failing when they already exist. `StoreSentiment`, `CreateProfile`, `SubscribeToken` and lib.rs's `VoteSentiment` write the given account as if it were new. Likewise `SentinelAdmin.Initialize` and `SentinelV2.Initialize` reset an existing oracle's state for any signer, where the program's `initialize` can succeed only once per sentinel account.
- The batch's owner and discriminator checks (`InvalidAccount`) are not modelled. Every remaining account is taken to hold a `SentimentRecord`. A deserialization or serialization failure is likewise not modelled.
- `Clock::get()` failures are not modelled. The time is the parameter `now`.
- `emit!` events and `msg!` logs are not modelled, being output only. This also covers the loop of lib_v2.rs's `batch_store_sentiment`, which only emits events, and the `accuracy()` values in `record_prediction_result`'s event.
- `unsubscribe_token` and `close_sentiment` are not modelled. Their only effect is closing an account through the runtime.
- lib_v2.rs's social instructions are not modelled separately: they only forward to instructions.rs, which `Instructions` models.
- lib_v2.rs declares its own smaller error enum. The model uses one datatype holding every code of lib.rs; lib_v2.rs uses a subset of it.
- SentinelSocial.ProfileChecks: Rust's `char::is_alphanumeric` accepts every Unicode letter and digit, while the model accepts only ASCII ones. Non-ASCII letters in a username are therefore refused here but accepted by the program.
- SentinelHistory.RecordHistory: requires the history account to be well formed (`HistoryValid`). The program establishes this on first use and keeps it, and the model proves that it is kept. A malformed account would make the program panic on the slot index.
- SentinelOracle.ApplyEntries: a failed transaction is modelled by `Restore`, which writes back what each account held at the start. This stands for the runtime discarding the transaction's writes.
- The `bump` field of every account is left out.

## Findings

| source | as written | input that shows it | evidently intended | confidence | as-written member | corrected member |
|---|---|---|---|---|---|---|
| programs/sol_sentinel/src/lib.rs:244-246 | `head` advances with `u16::wrapping_add` and the slot is `head % 24`; 65536 is not a multiple of 24, so at the wrap the slot sequence jumps from 15 to 0 | a full ring with `head` = 65535: the snapshot goes to slot 15, but afterwards `head` = 0 and the ring read back from `head` shows slot 23 as the newest, so the new snapshot is not the newest reading and the order of the last 24 is broken | the ring holds the last 24 readings in order forever, e.g. with `head` kept modulo 24 | medium; not executed | `SentinelHistory.WrapBreaksWindow` | `SentinelHistory.CorrectedRecordKeepsWindow` |

`SentinelHistory.RecordHistory` models the handler as written. `SentinelHistory.RecordRunKeepsLastReadings` shows that it keeps the last 24 readings until the first wrap. `SentinelHistory.RecordEntryModulo` is the corrected write, which keeps the reading always.
