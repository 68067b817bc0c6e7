/**
  The sentiment-writing instructions of the oracle (programs/sol_sentinel/src/lib.rs):
  `store_sentiment`, `update_sentiment` and `batch_update_sentiments`. Each is gated
  by the constraint `is_authority_or_operator(sentinel, signer)` (error
  `Unauthorized`), refuses to run while the oracle is paused, and changes nothing
  when it fails.
*/
module SentinelOracle {
  import opened Common
  import opened SentinelAccounts

  // ---------------------------------------------------------------------------
  // store_sentiment
  // ---------------------------------------------------------------------------

  /**
    `store_sentiment`: writes a fresh record for a validated symbol and reading,
    counting one more update. Validation runs before the pause check.
  */
  method StoreSentiment(
    sentinel: Account<Sentinel>, sentiment: Account<SentimentRecord>, signer: Pubkey,
    symbol: string, score: Int8, confidence: UInt8, volume: UInt32, timestamp: Int64)
    returns (r: Outcome)
    modifies sentinel, sentiment
    ensures r.Ok? <==> IsAuthorityOrOperator(old(sentinel.data), signer)
                       && ValidateSentimentInput(symbol, score, confidence, timestamp).Ok?
                       && !old(sentinel.data.paused)
    ensures !IsAuthorityOrOperator(old(sentinel.data), signer) ==> r == Err(Unauthorized)
    ensures IsAuthorityOrOperator(old(sentinel.data), signer) && ValidateSentimentInput(symbol, score, confidence, timestamp).Err?
            ==> r == ValidateSentimentInput(symbol, score, confidence, timestamp)
    ensures IsAuthorityOrOperator(old(sentinel.data), signer) && ValidateSentimentInput(symbol, score, confidence, timestamp).Ok?
            && old(sentinel.data.paused)
            ==> r == Err(OraclePaused)
    ensures r.Ok? ==> sentiment.data == SentimentRecord(symbol, score, confidence, volume, timestamp, signer, 0)
                      && RecordValid(sentiment.data)
                      && sentinel.data == old(sentinel.data).(totalUpdates := SaturatingAdd64(old(sentinel.data.totalUpdates), 1))
    ensures r.Err? ==> sentinel.data == old(sentinel.data) && sentiment.data == old(sentiment.data)
  {
    if !IsAuthorityOrOperator(sentinel.data, signer) {
      return Err(Unauthorized);
    }
    var valid := ValidateSentimentInput(symbol, score, confidence, timestamp);
    if valid.Err? {
      return valid;
    }
    if sentinel.data.paused {
      return Err(OraclePaused);
    }
    sentiment.data := sentiment.data.(
      symbol := symbol, score := score, confidence := confidence, volume := volume,
      timestamp := timestamp, updater := signer, updateCount := 0);
    sentinel.data := sentinel.data.(totalUpdates := SaturatingAdd64(sentinel.data.totalUpdates, 1));
    r := Ok;
  }

  // ---------------------------------------------------------------------------
  // One update of an existing record (update_sentiment and each batch entry)
  // ---------------------------------------------------------------------------

  /**
    The record an accepted update leaves: the new reading, signer and timestamp,
    one more (saturating) update, the symbol kept. An update is accepted exactly
    when its score and confidence are in range and its timestamp is strictly newer.
  */
  function ApplyUpdate(rec: SentimentRecord, u: SentimentInput, updater: Pubkey): (r: Result<SentimentRecord>)
    ensures r.Success? <==> ScoreInRange(u.score) && u.confidence <= 100 && u.timestamp > rec.timestamp
    ensures !ScoreInRange(u.score) ==> r == Failure(InvalidScore)
    ensures ScoreInRange(u.score) && u.confidence > 100 ==> r == Failure(InvalidConfidence)
    ensures ScoreInRange(u.score) && u.confidence <= 100 && u.timestamp <= rec.timestamp ==> r == Failure(StaleTimestamp)
    ensures r.Success? ==>
              && r.value.symbol == rec.symbol
              && r.value.score == u.score && r.value.confidence == u.confidence
              && r.value.volume == u.volume && r.value.timestamp == u.timestamp
              && r.value.updater == updater
              && r.value.updateCount == Min(rec.updateCount + 1, UINT32_MAX)
              && RecordValid(r.value)
              && r.value.timestamp > rec.timestamp
  {
    if !ScoreInRange(u.score) then Failure(InvalidScore)
    else if u.confidence > 100 then Failure(InvalidConfidence)
    else if u.timestamp <= rec.timestamp then Failure(StaleTimestamp)
    else
      Success(rec.(
        score := u.score, confidence := u.confidence, volume := u.volume,
        timestamp := u.timestamp, updater := updater,
        updateCount := SaturatingAdd32(rec.updateCount, 1)))
  }

  /** `update_sentiment`: one update of an existing record, counted once globally. */
  method UpdateSentiment(
    sentinel: Account<Sentinel>, sentiment: Account<SentimentRecord>, signer: Pubkey,
    score: Int8, confidence: UInt8, volume: UInt32, timestamp: Int64)
    returns (r: Outcome)
    modifies sentinel, sentiment
    ensures !IsAuthorityOrOperator(old(sentinel.data), signer) ==> r == Err(Unauthorized)
    ensures IsAuthorityOrOperator(old(sentinel.data), signer) && old(sentinel.data.paused) ==> r == Err(OraclePaused)
    ensures IsAuthorityOrOperator(old(sentinel.data), signer) && !old(sentinel.data.paused) ==>
              r == ApplyUpdate(old(sentiment.data), SentimentInput(score, confidence, volume, timestamp), signer).ToOutcome()
    ensures r.Ok? ==> sentiment.data == ApplyUpdate(old(sentiment.data), SentimentInput(score, confidence, volume, timestamp), signer).value
                      && sentinel.data == old(sentinel.data).(totalUpdates := SaturatingAdd64(old(sentinel.data.totalUpdates), 1))
    ensures r.Err? ==> sentinel.data == old(sentinel.data) && sentiment.data == old(sentiment.data)
  {
    if !IsAuthorityOrOperator(sentinel.data, signer) {
      return Err(Unauthorized);
    }
    if sentinel.data.paused {
      return Err(OraclePaused);
    }
    if !ScoreInRange(score) {
      return Err(InvalidScore);
    }
    if confidence > 100 {
      return Err(InvalidConfidence);
    }
    if timestamp <= sentiment.data.timestamp {
      return Err(StaleTimestamp);
    }
    sentiment.data := sentiment.data.(
      score := score, confidence := confidence, volume := volume, timestamp := timestamp,
      updater := signer, updateCount := SaturatingAdd32(sentiment.data.updateCount, 1));
    sentinel.data := sentinel.data.(totalUpdates := SaturatingAdd64(sentinel.data.totalUpdates, 1));
    r := Ok;
  }

  // ---------------------------------------------------------------------------
  // batch_update_sentiments
  // ---------------------------------------------------------------------------

  /** The checks `batch_update_sentiments` makes before it reads any record, in their order. */
  function BatchPrecheck(s: Sentinel, signer: Pubkey, updateCount: nat, accountCount: nat): (r: Outcome)
    ensures r.Ok? <==> IsAuthorityOrOperator(s, signer) && !s.paused
                       && 1 <= updateCount <= MAX_BATCH_SIZE && accountCount == updateCount
    ensures !IsAuthorityOrOperator(s, signer) ==> r == Err(Unauthorized)
    ensures IsAuthorityOrOperator(s, signer) && s.paused ==> r == Err(OraclePaused)
    ensures IsAuthorityOrOperator(s, signer) && !s.paused && updateCount == 0 ==> r == Err(EmptyBatch)
    ensures IsAuthorityOrOperator(s, signer) && !s.paused && updateCount > MAX_BATCH_SIZE ==> r == Err(BatchTooLarge)
    ensures IsAuthorityOrOperator(s, signer) && !s.paused && 1 <= updateCount <= MAX_BATCH_SIZE
            && accountCount != updateCount
            ==> r == Err(AccountMismatch)
  {
    if !IsAuthorityOrOperator(s, signer) then Err(Unauthorized)
    else if s.paused then Err(OraclePaused)
    else if updateCount == 0 then Err(EmptyBatch)
    else if updateCount > MAX_BATCH_SIZE then Err(BatchTooLarge)
    else if accountCount != updateCount then Err(AccountMismatch)
    else Ok
  }

  /**
    The entries of a batch applied one after the other: entry `i` writes the record
    held under `keys[i]`. Two entries may name the same record; the later one then
    sees what the earlier one wrote. The first entry that fails decides the error.
  */
  function ApplyBatch<K(==)>(view: map<K, SentimentRecord>, keys: seq<K>, updates: seq<SentimentInput>, updater: Pubkey)
    : (r: Result<map<K, SentimentRecord>>)
    requires |keys| == |updates|
    requires forall i :: 0 <= i < |keys| ==> keys[i] in view
    ensures r.Success? ==> r.value.Keys == view.Keys
    decreases |updates|
  {
    if updates == [] then Success(view)
    else
      var n := |updates| - 1;
      match ApplyBatch(view, keys[..n], updates[..n], updater)
      case Failure(e) => Failure(e)
      case Success(v) =>
        match ApplyUpdate(v[keys[n]], updates[n], updater)
        case Failure(e) => Failure(e)
        case Success(rec) => Success(v[keys[n] := rec])
  }

  /** The records held by a batch's accounts, keyed by account. */
  ghost function RecordsView(accounts: seq<Account<SentimentRecord>>): (m: map<Account<SentimentRecord>, SentimentRecord>)
    reads set a | a in accounts
    ensures forall i :: 0 <= i < |accounts| ==> accounts[i] in m && m[accounts[i]] == accounts[i].data
  {
    map a | a in accounts :: a.data
  }

  /**
    `batch_update_sentiments`: applies 1 to 10 updates to the records passed as the
    remaining accounts, one account per update, and counts them all.
  */
  method BatchUpdateSentiments(
    sentinel: Account<Sentinel>, signer: Pubkey,
    updates: seq<SentimentInput>, remaining: seq<Account<SentimentRecord>>)
    returns (r: Outcome)
    modifies sentinel, set a | a in remaining
    ensures r.Ok? <==> BatchPrecheck(old(sentinel.data), signer, |updates|, |remaining|).Ok?
                       && ApplyBatch(old(RecordsView(remaining)), remaining, updates, signer).Success?
    ensures BatchPrecheck(old(sentinel.data), signer, |updates|, |remaining|).Err? ==>
              r == BatchPrecheck(old(sentinel.data), signer, |updates|, |remaining|)
    ensures BatchPrecheck(old(sentinel.data), signer, |updates|, |remaining|).Ok? ==>
              r == ApplyBatch(old(RecordsView(remaining)), remaining, updates, signer).ToOutcome()
    ensures r.Ok? ==> RecordsView(remaining) == ApplyBatch(old(RecordsView(remaining)), remaining, updates, signer).value
                      && sentinel.data == old(sentinel.data).(totalUpdates := SaturatingAdd64(old(sentinel.data.totalUpdates), |updates|))
    ensures r.Err? ==> RecordsView(remaining) == old(RecordsView(remaining)) && sentinel.data == old(sentinel.data)
  {
    if !IsAuthorityOrOperator(sentinel.data, signer) {
      return Err(Unauthorized);
    }
    if sentinel.data.paused {
      return Err(OraclePaused);
    }
    if |updates| == 0 {
      return Err(EmptyBatch);
    }
    if |updates| > MAX_BATCH_SIZE {
      return Err(BatchTooLarge);
    }
    if |remaining| != |updates| {
      return Err(AccountMismatch);
    }
    var totalApplied;
    r, totalApplied := ApplyEntries(remaining, updates, signer);
    if r.Err? {
      return;
    }
    sentinel.data := sentinel.data.(totalUpdates := SaturatingAdd64(sentinel.data.totalUpdates, totalApplied));
  }

  /**
    The loop of `batch_update_sentiments`: reads each record, checks the entry,
    writes the record back and counts it. If an entry fails the transaction
    fails, and the runtime discards every write made so far, modelled by `Restore`.
  */
  method ApplyEntries(remaining: seq<Account<SentimentRecord>>, updates: seq<SentimentInput>, signer: Pubkey)
    returns (r: Outcome, totalApplied: UInt64)
    requires |remaining| == |updates| <= MAX_BATCH_SIZE
    modifies set a | a in remaining
    ensures r == ApplyBatch(old(RecordsView(remaining)), remaining, updates, signer).ToOutcome()
    ensures r.Ok? ==> RecordsView(remaining) == ApplyBatch(old(RecordsView(remaining)), remaining, updates, signer).value
                      && totalApplied == |updates|
    ensures r.Err? ==> RecordsView(remaining) == old(RecordsView(remaining))
  {
    // What each account held when the transaction started.
    var saved := seq(|remaining|, k requires 0 <= k < |remaining| reads remaining => remaining[k].data);
    ghost var view0 := RecordsView(remaining);
    totalApplied := 0;
    var i := 0;
    while i < |updates|
      invariant 0 <= i <= |updates| && totalApplied == i
      invariant forall k :: 0 <= k < |remaining| ==> saved[k] == view0[remaining[k]]
      invariant ApplyBatch(view0, remaining[..i], updates[..i], signer) == Success(RecordsView(remaining))
    {
      var update := updates[i];
      var record := remaining[i].data;
      ghost var step := ApplyUpdate(record, update, signer);
      BatchStep(view0, remaining, updates, signer, i);
      if !ScoreInRange(update.score) || update.confidence > 100 || update.timestamp <= record.timestamp {
        BatchFailurePersists(view0, remaining, updates, signer, i + 1);
        Restore(remaining, saved, view0);
        r := if !ScoreInRange(update.score) then Err(InvalidScore)
             else if update.confidence > 100 then Err(InvalidConfidence)
             else Err(StaleTimestamp);
        return;
      }
      record := record.(
        score := update.score, confidence := update.confidence, volume := update.volume,
        timestamp := update.timestamp, updater := signer,
        updateCount := SaturatingAdd32(record.updateCount, 1));
      assert step == Success(record);
      WriteRecord(remaining, i, record);
      totalApplied := totalApplied + 1;
      i := i + 1;
    }
    assert remaining[..i] == remaining && updates[..i] == updates;
    r := Ok;
  }

  /** `record.try_serialize(...)`: stores the record back into the i-th account. */
  method WriteRecord(accounts: seq<Account<SentimentRecord>>, i: nat, record: SentimentRecord)
    requires i < |accounts|
    modifies accounts[i]
    ensures RecordsView(accounts) == old(RecordsView(accounts))[accounts[i] := record]
  {
    accounts[i].data := record;
  }

  /**
    Puts back into every account the data it held before the instruction began,
    as the runtime does for each account of a failed transaction. An account
    passed twice was saved twice with the same data.
  */
  method Restore(accounts: seq<Account<SentimentRecord>>, saved: seq<SentimentRecord>, ghost view: map<Account<SentimentRecord>, SentimentRecord>)
    requires |saved| == |accounts|
    requires view.Keys == set a | a in accounts
    requires forall k :: 0 <= k < |accounts| ==> saved[k] == view[accounts[k]]
    modifies set a | a in accounts
    ensures RecordsView(accounts) == view
  {
    var i := 0;
    while i < |accounts|
      invariant 0 <= i <= |accounts|
      invariant forall k :: 0 <= k < i ==> accounts[k].data == saved[k]
    {
      accounts[i].data := saved[i];
      i := i + 1;
    }
  }

  // ---------------------------------------------------------------------------
  // Properties of a batch
  // ---------------------------------------------------------------------------

  /** One more entry: the batch of the first `i + 1` entries extends the batch of the first `i`. */
  lemma BatchStep<K>(view: map<K, SentimentRecord>, keys: seq<K>, updates: seq<SentimentInput>, updater: Pubkey, i: nat)
    requires |keys| == |updates| && i < |updates|
    requires forall j :: 0 <= j < |keys| ==> keys[j] in view
    requires ApplyBatch(view, keys[..i], updates[..i], updater).Success?
    ensures var v := ApplyBatch(view, keys[..i], updates[..i], updater).value;
            ApplyBatch(view, keys[..i + 1], updates[..i + 1], updater) ==
              match ApplyUpdate(v[keys[i]], updates[i], updater)
              case Failure(e) => Failure(e)
              case Success(rec) => Success(v[keys[i] := rec])
  {
    assert keys[..i + 1][..i] == keys[..i] && updates[..i + 1][..i] == updates[..i];
  }

  /** A batch only writes the records it names; every other record keeps its data. */
  lemma {:induction false} BatchLeavesOtherRecords<K>(
    view: map<K, SentimentRecord>, keys: seq<K>, updates: seq<SentimentInput>, updater: Pubkey, k: K)
    requires |keys| == |updates|
    requires forall i :: 0 <= i < |keys| ==> keys[i] in view
    requires k in view && k !in keys
    requires ApplyBatch(view, keys, updates, updater).Success?
    ensures ApplyBatch(view, keys, updates, updater).value[k] == view[k]
    decreases |updates|
  {
    if updates != [] {
      var n := |updates| - 1;
      assert k !in keys[..n];
      BatchLeavesOtherRecords(view, keys[..n], updates[..n], updater, k);
    }
  }

  /** A batch whose first `j` entries already fail fails as a whole, with the same error. */
  lemma {:induction false} BatchFailurePersists<K>(
    view: map<K, SentimentRecord>, keys: seq<K>, updates: seq<SentimentInput>, updater: Pubkey, j: nat)
    requires |keys| == |updates| && j <= |updates|
    requires forall i :: 0 <= i < |keys| ==> keys[i] in view
    requires ApplyBatch(view, keys[..j], updates[..j], updater).Failure?
    ensures ApplyBatch(view, keys, updates, updater) == ApplyBatch(view, keys[..j], updates[..j], updater)
    decreases |updates| - j
  {
    if j < |updates| {
      var n := |updates| - 1;
      assert keys[..n][..j] == keys[..j] && updates[..n][..j] == updates[..j];
      BatchFailurePersists(view, keys[..n], updates[..n], updater, j);
    } else {
      assert keys[..j] == keys && updates[..j] == updates;
    }
  }

  /** Any entry whose score or confidence is out of range makes the whole batch fail. */
  lemma {:induction false} BatchRejectsOutOfRangeEntry<K>(
    view: map<K, SentimentRecord>, keys: seq<K>, updates: seq<SentimentInput>, updater: Pubkey, j: nat)
    requires |keys| == |updates| && j < |updates|
    requires forall i :: 0 <= i < |keys| ==> keys[i] in view
    requires !ScoreInRange(updates[j].score) || updates[j].confidence > 100
    ensures ApplyBatch(view, keys, updates, updater).Failure?
  {
    assert keys[..j + 1][..j] == keys[..j] && updates[..j + 1][..j] == updates[..j];
    BatchFailurePersists(view, keys, updates, updater, j + 1);
  }

  /**
    When no account is named twice, a batch succeeds exactly when every entry
    would succeed on its own against the record as it was, and then every record
    ends up as that single update leaves it.
  */
  lemma {:induction false} BatchOfDistinctRecords<K>(
    view: map<K, SentimentRecord>, keys: seq<K>, updates: seq<SentimentInput>, updater: Pubkey)
    requires |keys| == |updates| && NoDuplicates(keys)
    requires forall i :: 0 <= i < |keys| ==> keys[i] in view
    ensures ApplyBatch(view, keys, updates, updater).Success?
            <==> forall i :: 0 <= i < |keys| ==> ApplyUpdate(view[keys[i]], updates[i], updater).Success?
    ensures ApplyBatch(view, keys, updates, updater).Success? ==>
              forall i :: 0 <= i < |keys| ==>
                ApplyBatch(view, keys, updates, updater).value[keys[i]] == ApplyUpdate(view[keys[i]], updates[i], updater).value
    decreases |updates|
  {
    if updates != [] {
      var n := |updates| - 1;
      var pk, pu := keys[..n], updates[..n];
      assert NoDuplicates(pk);
      BatchOfDistinctRecords(view, pk, pu, updater);
      assert forall i :: 0 <= i < n ==> pk[i] == keys[i] && pu[i] == updates[i];
      assert keys[n] !in pk by {
        forall i | 0 <= i < n ensures pk[i] != keys[n] { assert keys[i] != keys[n]; }
      }
      var prefix := ApplyBatch(view, pk, pu, updater);
      if prefix.Success? {
        BatchLeavesOtherRecords(view, pk, pu, updater, keys[n]);
      }
    }
  }

  /**
    An account named twice in one batch takes both updates in order: the second
    must be newer than the first, and the record ends with the second reading
    and two more updates counted.
  */
  lemma RepeatedRecordTakesBothUpdates<K>(
    view: map<K, SentimentRecord>, k: K, u0: SentimentInput, u1: SentimentInput, updater: Pubkey)
    requires k in view
    requires ApplyUpdate(view[k], u0, updater).Success?
    requires ScoreInRange(u1.score) && u1.confidence <= 100
    ensures ApplyBatch(view, [k, k], [u0, u1], updater).Success? <==> u1.timestamp > u0.timestamp
    ensures ApplyBatch(view, [k, k], [u0, u1], updater).Success? ==>
              var rec := ApplyBatch(view, [k, k], [u0, u1], updater).value[k];
              rec.timestamp == u1.timestamp && rec.score == u1.score
              && rec.updateCount == Min(view[k].updateCount + 2, UINT32_MAX)
  {
    assert [k, k][..1] == [k] && [u0, u1][..1] == [u0];
    assert [k][..0] == [] && [u0][..0] == [];
    var rec0 := ApplyUpdate(view[k], u0, updater).value;
    assert ApplyBatch(view, [k], [u0], updater) == Success(view[k := rec0]);
  }
}
