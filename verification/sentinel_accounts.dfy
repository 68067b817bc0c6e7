/**
  Account data of the SolSentinel oracle program (programs/sol_sentinel/src/lib.rs),
  its limits, and the two helpers every handler relies on: the input validation of
  `store_sentiment` and the "authority or operator" signer check.
*/
module SentinelAccounts {
  import opened Common

  const MAX_SYMBOL_LEN := 10
  const MAX_OPERATORS := 5
  const MAX_HISTORY := 24
  const MAX_BATCH_SIZE := 10

  /** The global oracle state (the `Sentinel` account). */
  datatype Sentinel = Sentinel(
    authority: Pubkey,
    totalUpdates: UInt64,
    paused: bool,
    operators: seq<Pubkey>)

  /** One token's current reading (the `SentimentRecord` account). */
  datatype SentimentRecord = SentimentRecord(
    symbol: string,
    score: Int8,
    confidence: UInt8,
    volume: UInt32,
    timestamp: Int64,
    updater: Pubkey,
    updateCount: UInt32)

  /** One entry of a batch update. */
  datatype SentimentInput = SentimentInput(
    score: Int8,
    confidence: UInt8,
    volume: UInt32,
    timestamp: Int64)

  /** One snapshot of a record kept by the history ring buffer. */
  datatype HistoryEntry = HistoryEntry(
    score: Int8,
    confidence: UInt8,
    volume: UInt32,
    timestamp: Int64,
    recordedAt: Int64)

  /** `HistoryEntry::default()` */
  const DEFAULT_ENTRY := HistoryEntry(0, 0, 0, 0, 0)

  /** A token's ring buffer of snapshots (the `SentimentHistory` account). */
  datatype SentimentHistory = SentimentHistory(
    symbol: string,
    head: UInt16,
    count: UInt16,
    snapshots: seq<HistoryEntry>)

  predicate NoDuplicates<T(==)>(s: seq<T>) {
    forall i, j :: 0 <= i < j < |s| ==> s[i] != s[j]
  }

  /** What the admin instructions keep true of the operator list: at most five keys, none twice. */
  predicate OperatorsValid(ops: seq<Pubkey>) {
    |ops| <= MAX_OPERATORS && NoDuplicates(ops)
  }

  predicate ScoreInRange(score: Int8) {
    -100 <= score <= 100
  }

  predicate AllAsciiAlphanumeric(s: string) {
    forall i :: 0 <= i < |s| ==> IsAsciiAlphanumeric(s[i])
  }

  /** What `store_sentiment` accepts as a symbol: 1 to 10 bytes, all ASCII letters or digits. */
  predicate IsValidSymbol(symbol: string) {
    symbol != [] && Utf8Len(symbol) <= MAX_SYMBOL_LEN && AllAsciiAlphanumeric(symbol)
  }

  /**
    `validate_sentiment_input`: accepts exactly a valid symbol, a score in
    [-100, 100], a confidence of at most 100 and a positive timestamp; the checks
    run in that order, so the first failing one names the error.
  */
  function ValidateSentimentInput(symbol: string, score: Int8, confidence: UInt8, timestamp: Int64): (r: Outcome)
    ensures r.Ok? <==> IsValidSymbol(symbol) && ScoreInRange(score) && confidence <= 100 && timestamp > 0
    ensures r.Ok? ==> 1 <= |symbol| == Utf8Len(symbol) <= MAX_SYMBOL_LEN
    ensures symbol == [] ==> r == Err(EmptySymbol)
    ensures symbol != [] && Utf8Len(symbol) > MAX_SYMBOL_LEN ==> r == Err(SymbolTooLong)
    ensures symbol != [] && Utf8Len(symbol) <= MAX_SYMBOL_LEN && !AllAsciiAlphanumeric(symbol) ==> r == Err(InvalidSymbol)
    ensures IsValidSymbol(symbol) && !ScoreInRange(score) ==> r == Err(InvalidScore)
    ensures IsValidSymbol(symbol) && ScoreInRange(score) && confidence > 100 ==> r == Err(InvalidConfidence)
    ensures IsValidSymbol(symbol) && ScoreInRange(score) && confidence <= 100 && timestamp <= 0 ==> r == Err(InvalidTimestamp)
    ensures r.Err? ==> r.error in {EmptySymbol, SymbolTooLong, InvalidSymbol, InvalidScore, InvalidConfidence, InvalidTimestamp}
  {
    if symbol == [] then Err(EmptySymbol)
    else if Utf8Len(symbol) > MAX_SYMBOL_LEN then Err(SymbolTooLong)
    else if !AllAsciiAlphanumeric(symbol) then Err(InvalidSymbol)
    else if !ScoreInRange(score) then Err(InvalidScore)
    else if confidence > 100 then Err(InvalidConfidence)
    else if timestamp <= 0 then Err(InvalidTimestamp)
    else
      AsciiByteLength(symbol);
      Ok
  }

  /** `is_authority_or_operator`: the signer is the authority or one of the listed operators. */
  predicate IsAuthorityOrOperator(s: Sentinel, signer: Pubkey): (b: bool)
    ensures b <==> s.authority == signer || exists i :: 0 <= i < |s.operators| && s.operators[i] == signer
  {
    s.authority == signer || signer in s.operators
  }

  /** The record invariant: every stored reading is within the oracle's bounds. */
  predicate RecordValid(rec: SentimentRecord) {
    ScoreInRange(rec.score) && rec.confidence <= 100
  }
}
