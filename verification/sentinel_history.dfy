/**
  The snapshot history of a token (`record_history` in programs/sol_sentinel/src/lib.rs).
  A `SentimentHistory` account keeps the last readings of a record in a ring of
  24 slots: `head` counts the snapshots ever written (a u16 that wraps), the next
  one goes to slot `head % 24`, and `count` says how many slots hold a reading.

  A reader of the ring sees the `count` slots that precede `head`, oldest first
  (`Window`). Writing a snapshot keeps that reading right only while `head` does
  not wrap: 65536 is not a multiple of 24, so at the wrap the slot written and
  the slot a reader takes for the newest part company. `RecordEntry` is the
  handler as written; `RecordEntryModulo`, which keeps `head` below 24, is the
  version for which the reading always holds.
*/
module SentinelHistory {
  import opened Common
  import opened SentinelAccounts

  /**
    What `record_history` keeps true of a history account: at most 24 readings,
    and once the account has been started (its symbol set) exactly 24 slots.
    A freshly created account (empty symbol, no slots) satisfies it.
  */
  predicate HistoryValid(h: SentimentHistory) {
    h.count <= MAX_HISTORY && (h.symbol != [] ==> |h.snapshots| == MAX_HISTORY)
  }

  /** A ring whose slots are all allocated. */
  predicate Allocated(h: SentimentHistory) {
    h.count <= MAX_HISTORY && |h.snapshots| == MAX_HISTORY
  }

  /** The history as initialised on first use: 24 default slots, nothing recorded. */
  function Fresh(symbol: string): SentimentHistory {
    SentimentHistory(symbol, 0, 0, seq(MAX_HISTORY, _ => DEFAULT_ENTRY))
  }

  /** The history `record_history` writes into: started afresh when it has no symbol yet. */
  function Started(h: SentimentHistory, symbol: string): SentimentHistory {
    if h.symbol == [] then Fresh(symbol) else h
  }

  /** The snapshot taken of a record at time `now`. */
  function SnapshotOf(rec: SentimentRecord, now: Int64): HistoryEntry {
    HistoryEntry(rec.score, rec.confidence, rec.volume, rec.timestamp, now)
  }

  /** The readings a reader of the ring sees, oldest first: the `count` slots before `head`. */
  function Window(h: SentimentHistory): seq<HistoryEntry>
    requires Allocated(h)
  {
    seq(h.count, k requires 0 <= k < h.count => h.snapshots[(h.head - h.count + k) % MAX_HISTORY])
  }

  /** The last `n` elements of `s` (all of `s` when it is shorter). */
  function LastN<T>(s: seq<T>, n: nat): (r: seq<T>)
    ensures |r| == if |s| <= n then |s| else n
  {
    if |s| <= n then s else s[|s| - n..]
  }

  /**
    The state `record_history` leaves, as written: write slot `head % 24`,
    advance `head` with u16 wrap-around, count one more reading up to 24.
  */
  function RecordEntry(h: SentimentHistory, symbol: string, e: HistoryEntry): (r: SentimentHistory)
    requires HistoryValid(h)
    ensures HistoryValid(r) && Allocated(r)
    ensures r.symbol == Started(h, symbol).symbol
    ensures r.snapshots[Started(h, symbol).head % MAX_HISTORY] == e
    ensures forall i :: 0 <= i < MAX_HISTORY && i != Started(h, symbol).head % MAX_HISTORY ==>
              r.snapshots[i] == Started(h, symbol).snapshots[i]
    ensures r.head == WrappingAdd16(Started(h, symbol).head, 1)
    ensures r.count == Min(Started(h, symbol).count + 1, MAX_HISTORY)
  {
    var g := Started(h, symbol);
    g.(snapshots := g.snapshots[g.head % MAX_HISTORY := e],
       head := WrappingAdd16(g.head, 1),
       count := if g.count < MAX_HISTORY then g.count + 1 else g.count)
  }

  /**
    `record_history`: after the signer check, starts the ring on first use and
    records a snapshot of the sentiment record taken at `now`. Only the history
    account changes.
  */
  method RecordHistory(
    sentinel: Account<Sentinel>, sentiment: Account<SentimentRecord>, history: Account<SentimentHistory>,
    signer: Pubkey, symbol: string, now: Int64)
    returns (r: Outcome)
    requires HistoryValid(history.data)
    modifies history
    ensures r.Ok? <==> IsAuthorityOrOperator(sentinel.data, signer)
    ensures r.Err? ==> r.error == Unauthorized && history.data == old(history.data)
    ensures r.Ok? ==> history.data == RecordEntry(old(history.data), symbol, SnapshotOf(sentiment.data, now))
    ensures HistoryValid(history.data)
  {
    if !IsAuthorityOrOperator(sentinel.data, signer) {
      return Err(Unauthorized);
    }
    if history.data.symbol == [] {
      history.data := SentimentHistory(symbol, 0, 0, seq(MAX_HISTORY, _ => DEFAULT_ENTRY));
    }
    var entry := HistoryEntry(
      sentiment.data.score, sentiment.data.confidence, sentiment.data.volume, sentiment.data.timestamp, now);
    var idx := history.data.head % MAX_HISTORY;
    history.data := history.data.(snapshots := history.data.snapshots[idx := entry]);
    history.data := history.data.(head := WrappingAdd16(history.data.head, 1));
    if history.data.count < MAX_HISTORY {
      history.data := history.data.(count := history.data.count + 1);
    }
    r := Ok;
  }

  // ---------------------------------------------------------------------------
  // What a reader of the ring sees
  // ---------------------------------------------------------------------------

  /** Two positions fewer than 24 apart are different slots. */
  lemma SlotsDiffer(x: int, d: int)
    requires -MAX_HISTORY < d < 0
    ensures (x + d) % MAX_HISTORY != x % MAX_HISTORY
  {
  }

  /** Positions congruent modulo 24 stay so when shifted by the same amount. */
  lemma SameSlotAfterShift(a: int, b: int, c: int)
    requires a % MAX_HISTORY == b % MAX_HISTORY
    ensures (a + c) % MAX_HISTORY == (b + c) % MAX_HISTORY
  {
  }

  /**
    Writing slot `head % 24` and moving `head` to any position one slot further
    on appends the entry to what a reader sees, dropping the oldest reading once
    24 are held.
  */
  lemma {:induction false} AdvanceKeepsWindow(h: SentimentHistory, h': SentimentHistory, e: HistoryEntry)
    requires Allocated(h)
    requires h'.snapshots == h.snapshots[h.head % MAX_HISTORY := e]
    requires h'.count == Min(h.count + 1, MAX_HISTORY)
    requires h'.head % MAX_HISTORY == (h.head + 1) % MAX_HISTORY
    ensures Allocated(h')
    ensures Window(h') == LastN(Window(h) + [e], MAX_HISTORY)
  {
    var w, w' := Window(h), Window(h');
    var expected := LastN(w + [e], MAX_HISTORY);
    assert |w'| == |expected|;
    forall k | 0 <= k < |w'|
      ensures w'[k] == expected[k]
    {
      // The slot a reader takes for position k after the write.
      var slot := (h'.head - h'.count + k) % MAX_HISTORY;
      SameSlotAfterShift(h'.head, h.head + 1, k - h'.count);
      if h.count < MAX_HISTORY {
        if k < h.count {
          SlotsDiffer(h.head, k - h.count);
          assert slot == (h.head - h.count + k) % MAX_HISTORY;
          assert w'[k] == w[k];
        } else {
          assert slot == h.head % MAX_HISTORY;
        }
      } else {
        if k < MAX_HISTORY - 1 {
          SlotsDiffer(h.head, k + 1 - MAX_HISTORY);
          assert slot == (h.head - h.count + (k + 1)) % MAX_HISTORY;
          assert w'[k] == w[k + 1];
        } else {
          assert slot == h.head % MAX_HISTORY;
        }
      }
    }
  }

  /** The first snapshot of a new history is all a reader sees. */
  lemma FirstRecordStartsHistory(h: SentimentHistory, symbol: string, e: HistoryEntry)
    requires HistoryValid(h) && h.symbol == []
    ensures var r := RecordEntry(h, symbol, e);
            r.symbol == symbol && r.head == 1 && Window(r) == [e]
  {
    var r := RecordEntry(h, symbol, e);
    assert Window(r)[0] == r.snapshots[0];
  }

  /**
    Until `head` wraps, each snapshot is appended to what a reader sees and the
    oldest of 24 is dropped: the ring holds the last 24 readings, oldest first.
  */
  lemma RecordKeepsWindow(h: SentimentHistory, symbol: string, e: HistoryEntry)
    requires HistoryValid(h) && h.symbol != [] && h.head < UINT16_MAX
    ensures Window(RecordEntry(h, symbol, e)) == LastN(Window(h) + [e], MAX_HISTORY)
  {
    AdvanceKeepsWindow(h, RecordEntry(h, symbol, e), e);
  }

  /** The history after recording the snapshots `es` in order. */
  function RecordAll(h: SentimentHistory, symbol: string, es: seq<HistoryEntry>): (r: SentimentHistory)
    requires HistoryValid(h)
    ensures HistoryValid(r)
    decreases |es|
  {
    if es == [] then h
    else RecordEntry(RecordAll(h, symbol, es[..|es| - 1]), symbol, es[|es| - 1])
  }

  /** Keeping the last `n` before appending and once more after is keeping the last `n`. */
  lemma LastNAppend<T>(s: seq<T>, x: T, n: nat)
    requires 0 < n
    ensures LastN(LastN(s, n) + [x], n) == LastN(s + [x], n)
  {
    if |s| > n {
      assert LastN(s, n) + [x] == s[|s| - n..] + [x];
      assert (s[|s| - n..] + [x])[1..] == (s + [x])[|s| + 1 - n..];
    }
  }

  /**
    One more snapshot on a started history that has counted `init` and shows its
    last 24 readings shows the last 24 of `init` followed by the new one.
  */
  lemma RecordOneMore(p: SentimentHistory, symbol: string, init: seq<HistoryEntry>, e: HistoryEntry)
    requires HistoryValid(p) && p.symbol == symbol != []
    requires p.head == |init| < UINT16_MAX
    requires Allocated(p) && Window(p) == LastN(init, MAX_HISTORY)
    ensures var r := RecordEntry(p, symbol, e);
            r.symbol == symbol && r.head == |init| + 1 && Allocated(r)
            && Window(r) == LastN(init + [e], MAX_HISTORY)
  {
    RecordKeepsWindow(p, symbol, e);
    LastNAppend(init, e, MAX_HISTORY);
  }

  /**
    From a new history account, up to 65535 snapshots recorded one after the
    other leave `head` counting them and a reader seeing the last 24 of them,
    oldest first: what the program promises, as long as `head` has not wrapped.
  */
  lemma {:induction false} RecordRunKeepsLastReadings(h: SentimentHistory, symbol: string, es: seq<HistoryEntry>)
    requires HistoryValid(h) && h.symbol == [] && symbol != []
    requires 1 <= |es| <= UINT16_MAX
    ensures var r := RecordAll(h, symbol, es);
            r.symbol == symbol && r.head == |es| && Allocated(r)
            && Window(r) == LastN(es, MAX_HISTORY)
    decreases |es|
  {
    var n := |es|;
    if n == 1 {
      assert es[..0] == [];
      assert RecordAll(h, symbol, es) == RecordEntry(h, symbol, es[0]);
      FirstRecordStartsHistory(h, symbol, es[0]);
      assert LastN(es, MAX_HISTORY) == es == [es[0]];
    } else {
      var init, e := es[..n - 1], es[n - 1];
      RecordRunKeepsLastReadings(h, symbol, init);
      RecordOneMore(RecordAll(h, symbol, init), symbol, init, e);
      assert init + [e] == es;
    }
  }

  /**
    At the wrap the reading breaks: a full ring with `head` at 65535 writes slot 15,
    while after the write `head` is 0 and a reader takes slot 23 for the newest.
  */
  lemma WrapBreaksWindow()
    ensures var h := SentimentHistory("SOL", UINT16_MAX, 24, seq(MAX_HISTORY, _ => DEFAULT_ENTRY));
            var e := HistoryEntry(1, 1, 1, 1, 1);
            && HistoryValid(h)
            && Window(RecordEntry(h, "SOL", e)) != LastN(Window(h) + [e], MAX_HISTORY)
  {
    var h := SentimentHistory("SOL", UINT16_MAX, 24, seq(MAX_HISTORY, _ => DEFAULT_ENTRY));
    var e := HistoryEntry(1, 1, 1, 1, 1);
    var r := RecordEntry(h, "SOL", e);
    assert r.head == 0;
    assert r.snapshots[23] == DEFAULT_ENTRY;
    assert Window(r)[23] == DEFAULT_ENTRY;
    assert LastN(Window(h) + [e], MAX_HISTORY)[23] == e;
  }

  /** `record_history` with `head` kept modulo 24, so that it never wraps out of step with the ring. */
  function RecordEntryModulo(h: SentimentHistory, symbol: string, e: HistoryEntry): (r: SentimentHistory)
    requires HistoryValid(h)
    ensures HistoryValid(r) && Allocated(r) && r.head < MAX_HISTORY
    ensures r.symbol == Started(h, symbol).symbol
    ensures r.snapshots[Started(h, symbol).head % MAX_HISTORY] == e
    ensures forall i :: 0 <= i < MAX_HISTORY && i != Started(h, symbol).head % MAX_HISTORY ==>
              r.snapshots[i] == Started(h, symbol).snapshots[i]
    ensures r.head == (Started(h, symbol).head + 1) % MAX_HISTORY
    ensures r.count == Min(Started(h, symbol).count + 1, MAX_HISTORY)
  {
    var g := Started(h, symbol);
    g.(snapshots := g.snapshots[g.head % MAX_HISTORY := e],
       head := (g.head + 1) % MAX_HISTORY,
       count := if g.count < MAX_HISTORY then g.count + 1 else g.count)
  }

  /** With `head` kept modulo 24, every snapshot is appended to what a reader sees, forever. */
  lemma CorrectedRecordKeepsWindow(h: SentimentHistory, symbol: string, e: HistoryEntry)
    requires HistoryValid(h)
    ensures var g := Started(h, symbol);
            Window(RecordEntryModulo(h, symbol, e)) == LastN(Window(g) + [e], MAX_HISTORY)
  {
    AdvanceKeepsWindow(Started(h, symbol), RecordEntryModulo(h, symbol, e), e);
  }
}
