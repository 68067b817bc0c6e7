/**
  The social instructions of programs/sol_sentinel/src/instructions.rs, which the
  second program version (lib_v2.rs) delegates to. They validate less than the
  handlers of lib.rs: no empty-name or empty-symbol check and no username
  character check. Here a vote does not count as a prediction; the profile's
  owner reports each prediction's outcome through `record_prediction_result`.
*/
module Instructions {
  import opened Common
  import opened SentinelAccounts
  import opened Social
  import SentinelSocial

  /** `create_profile`: any username of at most 20 bytes, the empty one included. */
  method CreateProfile(profile: Account<UserProfile>, user: Pubkey, username: string, now: Int64)
    returns (r: Outcome)
    modifies profile
    ensures r.Ok? <==> Utf8Len(username) <= MAX_USERNAME_LEN
    ensures r.Err? ==> r.error == UsernameTooLong && profile.data == old(profile.data)
    ensures r.Ok? ==> profile.data == UserProfile(user, username, 0, 0, INITIAL_REPUTATION, now, now)
                      && ProfileValid(profile.data)
  {
    if Utf8Len(username) > MAX_USERNAME_LEN {
      return Err(UsernameTooLong);
    }
    profile.data := profile.data.(
      owner := user, username := username, predictionsMade := 0, correctPredictions := 0,
      reputation := INITIAL_REPUTATION, createdAt := now, lastActive := now);
    r := Ok;
  }

  /** The checks this `subscribe_token` makes, in their order. */
  function SubscriptionChecks(symbol: string, direction: Int8, alertThreshold: UInt8): (r: Outcome)
    ensures r.Ok? <==> Utf8Len(symbol) <= MAX_SYMBOL_LEN && -1 <= direction <= 1 && alertThreshold <= 100
    ensures Utf8Len(symbol) > MAX_SYMBOL_LEN ==> r == Err(SymbolTooLong)
    ensures Utf8Len(symbol) <= MAX_SYMBOL_LEN && !(-1 <= direction <= 1) ==> r == Err(InvalidDirection)
    ensures Utf8Len(symbol) <= MAX_SYMBOL_LEN && -1 <= direction <= 1 && alertThreshold > 100 ==> r == Err(InvalidThreshold)
    ensures r.Err? ==> r.error in {SymbolTooLong, InvalidDirection, InvalidThreshold}
  {
    if Utf8Len(symbol) > MAX_SYMBOL_LEN then Err(SymbolTooLong)
    else if !(-1 <= direction <= 1) then Err(InvalidDirection)
    else if alertThreshold > 100 then Err(InvalidThreshold)
    else Ok
  }

  /** `subscribe_token`: records the subscription, no alert sent yet. */
  method SubscribeToken(
    subscription: Account<Subscription>, user: Pubkey,
    symbol: string, direction: Int8, alertThreshold: UInt8, now: Int64)
    returns (r: Outcome)
    modifies subscription
    ensures r == SubscriptionChecks(symbol, direction, alertThreshold)
    ensures r.Ok? ==> subscription.data == Subscription(user, symbol, direction, alertThreshold, now, 0)
    ensures r.Err? ==> subscription.data == old(subscription.data)
  {
    if Utf8Len(symbol) > MAX_SYMBOL_LEN {
      return Err(SymbolTooLong);
    }
    if !(-1 <= direction <= 1) {
      return Err(InvalidDirection);
    }
    if alertThreshold > 100 {
      return Err(InvalidThreshold);
    }
    subscription.data := subscription.data.(
      user := user, symbol := symbol, direction := direction, alertThreshold := alertThreshold,
      subscribedAt := now, lastAlert := 0);
    r := Ok;
  }

  /** The checks this `vote_sentiment` makes on the vote, in their order. */
  function VoteChecks(symbol: string, score: Int8, confidence: UInt8): (r: Outcome)
    ensures r.Ok? <==> Utf8Len(symbol) <= MAX_SYMBOL_LEN && ScoreInRange(score) && confidence <= 100
    ensures Utf8Len(symbol) > MAX_SYMBOL_LEN ==> r == Err(SymbolTooLong)
    ensures Utf8Len(symbol) <= MAX_SYMBOL_LEN && !ScoreInRange(score) ==> r == Err(InvalidScore)
    ensures Utf8Len(symbol) <= MAX_SYMBOL_LEN && ScoreInRange(score) && confidence > 100 ==> r == Err(InvalidConfidence)
    ensures r.Err? ==> r.error in {SymbolTooLong, InvalidScore, InvalidConfidence}
  {
    if Utf8Len(symbol) > MAX_SYMBOL_LEN then Err(SymbolTooLong)
    else if !ScoreInRange(score) then Err(InvalidScore)
    else if confidence > 100 then Err(InvalidConfidence)
    else Ok
  }

  /** `vote_sentiment`: the profile's owner casts a vote; on the profile only `last_active` changes. */
  method VoteSentiment(
    vote: Account<CommunityVote>, profile: Account<UserProfile>, user: Pubkey,
    symbol: string, score: Int8, confidence: UInt8, now: Int64)
    returns (r: Outcome)
    modifies vote, profile
    ensures old(profile.data.owner) != user ==> r == Err(Unauthorized)
    ensures old(profile.data.owner) == user ==> r == VoteChecks(symbol, score, confidence)
    ensures r.Ok? ==> vote.data == CommunityVote(user, symbol, score, confidence, now)
                      && profile.data == old(profile.data).(lastActive := now)
    ensures r.Err? ==> vote.data == old(vote.data) && profile.data == old(profile.data)
  {
    if profile.data.owner != user {
      return Err(Unauthorized);
    }
    if Utf8Len(symbol) > MAX_SYMBOL_LEN {
      return Err(SymbolTooLong);
    }
    if !ScoreInRange(score) {
      return Err(InvalidScore);
    }
    if confidence > 100 {
      return Err(InvalidConfidence);
    }
    vote.data := vote.data.(voter := user, symbol := symbol, score := score, confidence := confidence, timestamp := now);
    profile.data := profile.data.(lastActive := now);
    r := Ok;
  }

  /**
    `record_prediction_result`: the profile's owner reports an outcome; the
    profile takes `update_reputation` and is marked active. Owner, username and
    creation time stay as they were, and a valid profile stays valid.
  */
  method RecordPredictionResult(profile: Account<UserProfile>, user: Pubkey, wasCorrect: bool, now: Int64)
    returns (r: Outcome)
    modifies profile
    ensures r.Ok? <==> old(profile.data.owner) == user
    ensures r.Err? ==> r.error == Unauthorized && profile.data == old(profile.data)
    ensures r.Ok? ==> profile.data == AfterPrediction(old(profile.data), wasCorrect).(lastActive := now)
    ensures r.Ok? ==> profile.data.owner == old(profile.data.owner) && profile.data.username == old(profile.data.username)
                      && profile.data.createdAt == old(profile.data.createdAt)
    ensures ProfileValid(old(profile.data)) ==> ProfileValid(profile.data)
  {
    if profile.data.owner != user {
      return Err(Unauthorized);
    }
    UpdateReputation(profile, wasCorrect);
    profile.data := profile.data.(lastActive := now);
    r := Ok;
  }

  // ---------------------------------------------------------------------------
  // These handlers against those of lib.rs
  // ---------------------------------------------------------------------------

  /**
    Every subscription or vote lib.rs accepts is accepted here too; here an
    empty symbol is accepted as well, where lib.rs refuses it.
  */
  lemma LibChecksAreStricter(symbol: string, direction: Int8, alertThreshold: UInt8, score: Int8, confidence: UInt8)
    ensures SentinelSocial.SubscriptionChecks(symbol, direction, alertThreshold).Ok? ==> SubscriptionChecks(symbol, direction, alertThreshold).Ok?
    ensures SentinelSocial.VoteChecks(symbol, score, confidence).Ok? ==> VoteChecks(symbol, score, confidence).Ok?
    ensures SubscriptionChecks([], direction, alertThreshold).Ok? <==> -1 <= direction <= 1 && alertThreshold <= 100
    ensures SentinelSocial.SubscriptionChecks([], direction, alertThreshold) == Err(EmptySymbol)
    ensures VoteChecks([], score, confidence).Ok? <==> ScoreInRange(score) && confidence <= 100
    ensures SentinelSocial.VoteChecks([], score, confidence) == Err(EmptySymbol)
  {
  }

  /** Every username lib.rs accepts is accepted here, and so is the empty one, which lib.rs refuses. */
  lemma LibUsernameRulesAreStricter(username: string)
    ensures SentinelSocial.ProfileChecks(username).Ok? ==> Utf8Len(username) <= MAX_USERNAME_LEN
    ensures Utf8Len([]) <= MAX_USERNAME_LEN && SentinelSocial.ProfileChecks([]) == Err(EmptyUsername)
  {
  }
}
