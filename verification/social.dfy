/**
  The social accounts of SolSentinel (programs/sol_sentinel/src/social.rs): user
  profiles with their prediction record and reputation, token subscriptions and
  community votes, and the two profile methods `accuracy` and `update_reputation`.
*/
module Social {
  import opened Common

  const MAX_USERNAME_LEN := 20
  const MAX_REPUTATION := 1000
  /** The reputation a new profile starts with. */
  const INITIAL_REPUTATION := 100

  /** A user's profile (the `UserProfile` account). */
  datatype UserProfile = UserProfile(
    owner: Pubkey,
    username: string,
    predictionsMade: UInt32,
    correctPredictions: UInt32,
    reputation: UInt16,
    createdAt: Int64,
    lastActive: Int64)

  /** A user's subscription to a token (the `Subscription` account). */
  datatype Subscription = Subscription(
    user: Pubkey,
    symbol: string,
    direction: Int8,
    alertThreshold: UInt8,
    subscribedAt: Int64,
    lastAlert: Int64)

  /** A user's vote on a token (the `CommunityVote` account). */
  datatype CommunityVote = CommunityVote(
    voter: Pubkey,
    symbol: string,
    score: Int8,
    confidence: UInt8,
    timestamp: Int64)

  /**
    What the reputation rules are meant to keep true: a user never has more
    correct predictions than predictions, and reputation stays within 0..1000.
  */
  predicate ProfileValid(p: UserProfile) {
    p.correctPredictions <= p.predictionsMade && p.reputation <= MAX_REPUTATION
  }

  /**
    `UserProfile::accuracy`: the percentage of correct predictions, rounded down,
    truncated to a byte; 0 for a user with no predictions.
  */
  function Accuracy(p: UserProfile): (a: UInt8)
    ensures p.predictionsMade == 0 ==> a == 0
    ensures p.predictionsMade > 0 && p.correctPredictions <= p.predictionsMade ==>
              a == p.correctPredictions * 100 / p.predictionsMade <= 100
    ensures p.predictionsMade > 0 && p.correctPredictions == p.predictionsMade ==> a == 100
  {
    if p.predictionsMade == 0 then 0
    else
      var q := Percentage(p.correctPredictions, p.predictionsMade);
      q % 0x100
  }

  /**
    On a valid profile with predictions, accuracy is the exact percentage
    rounded down: within one step below the ratio of correct predictions.
  */
  lemma AccuracyIsRoundedPercentage(p: UserProfile)
    requires ProfileValid(p) && p.predictionsMade > 0
    ensures Accuracy(p) <= 100
    ensures Accuracy(p) * p.predictionsMade <= p.correctPredictions * 100 < (Accuracy(p) + 1) * p.predictionsMade
  {
    PercentageBounds(p.correctPredictions, p.predictionsMade);
  }

  /** `(c as u64 * 100) / m as u64`: the share `c` of `m` in percent, rounded down. */
  function Percentage(c: UInt32, m: UInt32): (q: nat)
    requires 0 < m
    ensures q == c * 100 / m
    ensures c <= m ==> q <= 100
    ensures c == m ==> q == 100
  {
    PercentageBounds(c, m);
    c * 100 / m
  }

  /**
    The rounded-down percentage `c * 100 / m` lies within one step of the exact
    ratio; it is at most 100 when `c <= m`, and exactly 100 when `c == m`.
  */
  lemma PercentageBounds(c: nat, m: nat)
    requires 0 < m
    ensures var q := c * 100 / m;
            && q * m <= c * 100 < (q + 1) * m
            && (c <= m ==> q <= 100)
            && (c == m ==> q == 100)
  {
    var n := c * 100;
    var q := n / m;
    assert n == q * m + n % m;
    assert (q + 1) * m == q * m + m;
  }

  /**
    The profile after one resolved prediction, in plain arithmetic: one more
    prediction and, if it was right, one more correct one (both capped at the
    u32 maximum); reputation up 10 up to 1000 when right, down 5 down to 0 when wrong.
  */
  function AfterPrediction(p: UserProfile, wasCorrect: bool): UserProfile {
    p.(predictionsMade := Min(p.predictionsMade + 1, UINT32_MAX),
       correctPredictions := if wasCorrect then Min(p.correctPredictions + 1, UINT32_MAX) else p.correctPredictions,
       reputation := if wasCorrect then Min(p.reputation + 10, MAX_REPUTATION) else Max(p.reputation - 5, 0))
  }

  /**
    `UserProfile::update_reputation`, on the profile account in place, with
    Rust's saturating operations.
  */
  method UpdateReputation(profile: Account<UserProfile>, wasCorrect: bool)
    modifies profile
    ensures profile.data == AfterPrediction(old(profile.data), wasCorrect)
  {
    profile.data := profile.data.(predictionsMade := SaturatingAdd32(profile.data.predictionsMade, 1));
    if wasCorrect {
      profile.data := profile.data.(correctPredictions := SaturatingAdd32(profile.data.correctPredictions, 1));
      profile.data := profile.data.(reputation := Min(SaturatingAdd16(profile.data.reputation, 10), MAX_REPUTATION));
    } else {
      profile.data := profile.data.(reputation := SaturatingSub16(profile.data.reputation, 5));
    }
  }

  /**
    One resolved prediction keeps the profile valid, so its accuracy stays a
    percentage; only the counters and the reputation change, and reputation
    moves by at most 10.
  */
  lemma PredictionKeepsProfileValid(p: UserProfile, wasCorrect: bool)
    requires ProfileValid(p)
    ensures var q := AfterPrediction(p, wasCorrect);
            && ProfileValid(q)
            && Accuracy(q) <= 100
            && q.owner == p.owner && q.username == p.username
            && q.createdAt == p.createdAt && q.lastActive == p.lastActive
            && p.predictionsMade <= q.predictionsMade
            && (wasCorrect ==> q.reputation >= p.reputation)
            && (!wasCorrect ==> q.reputation <= p.reputation)
            && -5 <= q.reputation - p.reputation <= 10
  {
  }

  /** The profile after a run of resolved predictions, in order. */
  function AfterPredictions(p: UserProfile, outcomes: seq<bool>): UserProfile
    decreases |outcomes|
  {
    if outcomes == [] then p
    else AfterPredictions(AfterPrediction(p, outcomes[0]), outcomes[1..])
  }

  /** How many of the outcomes were correct. */
  function CountCorrect(outcomes: seq<bool>): (n: nat)
    ensures n <= |outcomes|
  {
    if outcomes == [] then 0
    else (if outcomes[0] then 1 else 0) + CountCorrect(outcomes[1..])
  }

  /**
    Over any run of predictions the profile stays valid, the prediction count
    grows by the run's length and the correct count by its number of correct
    outcomes (both capped at the u32 maximum).
  */
  lemma {:induction false} PredictionsKeepProfileValid(p: UserProfile, outcomes: seq<bool>)
    requires ProfileValid(p)
    ensures var q := AfterPredictions(p, outcomes);
            && ProfileValid(q)
            && q.predictionsMade == Min(p.predictionsMade + |outcomes|, UINT32_MAX)
            && q.correctPredictions == Min(p.correctPredictions + CountCorrect(outcomes), UINT32_MAX)
    decreases |outcomes|
  {
    if outcomes != [] {
      PredictionKeepsProfileValid(p, outcomes[0]);
      PredictionsKeepProfileValid(AfterPrediction(p, outcomes[0]), outcomes[1..]);
    }
  }

  /** A run of nothing but correct predictions takes a new profile's reputation to min(100 + 10n, 1000). */
  lemma {:induction false} CorrectStreakReputation(p: UserProfile, n: nat)
    requires p.reputation == INITIAL_REPUTATION
    ensures AfterPredictions(p, seq(n, _ => true)).reputation == Min(INITIAL_REPUTATION + 10 * n, MAX_REPUTATION)
  {
    StreakFrom(p, n);
  }

  /** A run of `n` correct predictions adds 10 per prediction, up to 1000. */
  lemma {:induction false} StreakFrom(p: UserProfile, n: nat)
    requires p.reputation <= MAX_REPUTATION
    ensures AfterPredictions(p, seq(n, _ => true)).reputation == Min(p.reputation + 10 * n, MAX_REPUTATION)
    decreases n
  {
    if n > 0 {
      var s := seq(n, _ => true);
      assert s[0] && s[1..] == seq(n - 1, _ => true);
      StreakFrom(AfterPrediction(p, true), n - 1);
    }
  }
}
