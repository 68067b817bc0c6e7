/**
  The second version of the oracle program (programs/sol_sentinel/src/lib_v2.rs):
  a single authority, no operators and no pause flag, and weaker validation.
  Every instruction is gated by the constraint `sentinel.authority == signer`
  (error `Unauthorized`). A stored record may have an empty or non-alphanumeric
  symbol and any timestamp, and a batch is only counted, never written.
*/
module SentinelV2 {
  import opened Common
  import SentinelAccounts

  /** The global state of this version: authority and update counter only. */
  datatype Sentinel = Sentinel(authority: Pubkey, totalUpdates: UInt64)

  /** A token's reading in this version: no update counter. */
  datatype SentimentRecord = SentimentRecord(
    symbol: string,
    score: Int8,
    confidence: UInt8,
    volume: UInt32,
    timestamp: Int64,
    updater: Pubkey)

  /** One entry of `batch_store_sentiment`. */
  datatype SentimentUpdate = SentimentUpdate(
    symbol: string,
    score: Int8,
    confidence: UInt8,
    volume: UInt32,
    timestamp: Int64)

  const MAX_BATCH_SIZE := 10

  /** `initialize`: the signer becomes the authority and nothing has been counted yet. */
  method Initialize(sentinel: Account<Sentinel>, signer: Pubkey)
    modifies sentinel
    ensures sentinel.data == Sentinel(signer, 0)
  {
    sentinel.data := sentinel.data.(authority := signer, totalUpdates := 0);
  }

  /** The checks this `store_sentiment` makes, in their order: symbol length, score, confidence. */
  function StoreChecks(symbol: string, score: Int8, confidence: UInt8): (r: Outcome)
    ensures r.Ok? <==> Utf8Len(symbol) <= SentinelAccounts.MAX_SYMBOL_LEN
                       && SentinelAccounts.ScoreInRange(score) && confidence <= 100
    ensures Utf8Len(symbol) > SentinelAccounts.MAX_SYMBOL_LEN ==> r == Err(SymbolTooLong)
    ensures Utf8Len(symbol) <= SentinelAccounts.MAX_SYMBOL_LEN && !SentinelAccounts.ScoreInRange(score) ==> r == Err(InvalidScore)
    ensures Utf8Len(symbol) <= SentinelAccounts.MAX_SYMBOL_LEN && SentinelAccounts.ScoreInRange(score) && confidence > 100
            ==> r == Err(InvalidConfidence)
    ensures r.Err? ==> r.error in {SymbolTooLong, InvalidScore, InvalidConfidence}
  {
    if Utf8Len(symbol) > SentinelAccounts.MAX_SYMBOL_LEN then Err(SymbolTooLong)
    else if !SentinelAccounts.ScoreInRange(score) then Err(InvalidScore)
    else if confidence > 100 then Err(InvalidConfidence)
    else Ok
  }

  /**
    `store_sentiment`: the authority writes (or overwrites) the record of a
    symbol with every field given, and one more update is counted (saturating).
  */
  method StoreSentiment(
    sentinel: Account<Sentinel>, sentiment: Account<SentimentRecord>, signer: Pubkey,
    symbol: string, score: Int8, confidence: UInt8, volume: UInt32, timestamp: Int64)
    returns (r: Outcome)
    modifies sentinel, sentiment
    ensures old(sentinel.data.authority) != signer ==> r == Err(Unauthorized)
    ensures old(sentinel.data.authority) == signer ==> r == StoreChecks(symbol, score, confidence)
    ensures r.Ok? ==> sentiment.data == SentimentRecord(symbol, score, confidence, volume, timestamp, signer)
                      && sentinel.data == old(sentinel.data).(totalUpdates := Min(old(sentinel.data.totalUpdates) + 1, UINT64_MAX))
    ensures r.Err? ==> sentinel.data == old(sentinel.data) && sentiment.data == old(sentiment.data)
  {
    if sentinel.data.authority != signer {
      return Err(Unauthorized);
    }
    if Utf8Len(symbol) > SentinelAccounts.MAX_SYMBOL_LEN {
      return Err(SymbolTooLong);
    }
    if !SentinelAccounts.ScoreInRange(score) {
      return Err(InvalidScore);
    }
    if confidence > 100 {
      return Err(InvalidConfidence);
    }
    sentiment.data := sentiment.data.(
      symbol := symbol, score := score, confidence := confidence, volume := volume,
      timestamp := timestamp, updater := signer);
    sentinel.data := sentinel.data.(totalUpdates := SaturatingAdd64(sentinel.data.totalUpdates, 1));
    r := Ok;
  }

  /** The checks `batch_store_sentiment` makes: only the size of the batch, never its entries. */
  function BatchChecks(updates: seq<SentimentUpdate>): (r: Outcome)
    ensures r.Ok? <==> 1 <= |updates| <= MAX_BATCH_SIZE
    ensures updates == [] ==> r == Err(EmptyBatch)
    ensures |updates| > MAX_BATCH_SIZE ==> r == Err(BatchTooLarge)
  {
    if updates == [] then Err(EmptyBatch)
    else if |updates| > MAX_BATCH_SIZE then Err(BatchTooLarge)
    else Ok
  }

  /**
    The global state a batch leaves: the authority's batch of 1 to 10 entries
    is counted in full (saturating); the entries are never read.
  */
  function BatchCounted(s: Sentinel, signer: Pubkey, updates: seq<SentimentUpdate>): (r: Result<Sentinel>)
    ensures r.Success? <==> s.authority == signer && 1 <= |updates| <= MAX_BATCH_SIZE
    ensures s.authority != signer ==> r == Failure(Unauthorized)
    ensures s.authority == signer ==> r.ToOutcome() == BatchChecks(updates)
    ensures r.Success? ==> r.value == s.(totalUpdates := Min(s.totalUpdates + |updates|, UINT64_MAX))
                           && s.totalUpdates <= r.value.totalUpdates <= s.totalUpdates + MAX_BATCH_SIZE
  {
    if s.authority != signer then Failure(Unauthorized)
    else match BatchChecks(updates)
      case Err(e) => Failure(e)
      case Ok => Success(s.(totalUpdates := SaturatingAdd64(s.totalUpdates, |updates|)))
  }

  /**
    `batch_store_sentiment`: counts the batch's entries as updates (saturating)
    without storing or checking any of them.
  */
  method BatchStoreSentiment(sentinel: Account<Sentinel>, signer: Pubkey, updates: seq<SentimentUpdate>)
    returns (r: Outcome)
    modifies sentinel
    ensures r == BatchCounted(old(sentinel.data), signer, updates).ToOutcome()
    ensures r.Ok? ==> sentinel.data == BatchCounted(old(sentinel.data), signer, updates).value
    ensures r.Err? ==> sentinel.data == old(sentinel.data)
  {
    if sentinel.data.authority != signer {
      return Err(Unauthorized);
    }
    if updates == [] {
      return Err(EmptyBatch);
    }
    if |updates| > MAX_BATCH_SIZE {
      return Err(BatchTooLarge);
    }
    sentinel.data := sentinel.data.(totalUpdates := SaturatingAdd64(sentinel.data.totalUpdates, |updates|));
    r := Ok;
  }

  /** `transfer_authority`: the authority hands over to any key, the all-zero key included. */
  method TransferAuthority(sentinel: Account<Sentinel>, signer: Pubkey, newAuthority: Pubkey)
    returns (r: Outcome)
    modifies sentinel
    ensures r.Ok? <==> old(sentinel.data.authority) == signer
    ensures r.Err? ==> r.error == Unauthorized && sentinel.data == old(sentinel.data)
    ensures r.Ok? ==> sentinel.data == old(sentinel.data).(authority := newAuthority)
  {
    if sentinel.data.authority != signer {
      return Err(Unauthorized);
    }
    sentinel.data := sentinel.data.(authority := newAuthority);
    r := Ok;
  }

  // ---------------------------------------------------------------------------
  // This version against lib.rs
  // ---------------------------------------------------------------------------

  /**
    Every reading lib.rs accepts this version accepts too, but not the other way
    round: an empty symbol, a symbol with punctuation and a timestamp of zero
    all pass here.
  */
  lemma {:induction false} WeakerStoreValidation(symbol: string, score: Int8, confidence: UInt8, timestamp: Int64)
    ensures SentinelAccounts.ValidateSentimentInput(symbol, score, confidence, timestamp).Ok?
            ==> StoreChecks(symbol, score, confidence).Ok?
    ensures StoreChecks([], 0, 0).Ok? && SentinelAccounts.ValidateSentimentInput([], 0, 0, 1) == Err(EmptySymbol)
    ensures StoreChecks("$", 0, 0).Ok? && SentinelAccounts.ValidateSentimentInput("$", 0, 0, 1) == Err(InvalidSymbol)
    ensures StoreChecks("SOL", 0, 0).Ok? && SentinelAccounts.ValidateSentimentInput("SOL", 0, 0, 0) == Err(InvalidTimestamp)
  {
    AsciiByteLength("$");
    AsciiByteLength("SOL");
  }

  /**
    A batch is counted in full whatever its entries hold: an entry that
    `store_sentiment` would refuse for its score still adds one to the counter.
  */
  lemma BatchCountsUncheckedEntries(s: Sentinel, updates: seq<SentimentUpdate>, i: nat)
    requires 1 <= |updates| <= MAX_BATCH_SIZE && i < |updates|
    requires !SentinelAccounts.ScoreInRange(updates[i].score)
    requires s.totalUpdates + MAX_BATCH_SIZE <= UINT64_MAX
    ensures StoreChecks(updates[i].symbol, updates[i].score, updates[i].confidence).Err?
    ensures BatchCounted(s, s.authority, updates).Success?
    ensures BatchCounted(s, s.authority, updates).value.totalUpdates == s.totalUpdates + |updates|
  {
  }
}
