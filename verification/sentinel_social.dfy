/**
  The social instructions of the oracle program (programs/sol_sentinel/src/lib.rs):
  `create_profile`, `subscribe_token`, `vote_sentiment` and `resolve_prediction`.
  Here a vote counts as a prediction made, and only the oracle authority
  resolves predictions.
*/
module SentinelSocial {
  import opened Common
  import opened SentinelAccounts
  import opened Social

  /** A character `create_profile` accepts in a username: a letter, a digit or '_'. */
  predicate IsUsernameChar(c: char) {
    IsAsciiAlphanumeric(c) || c == '_'
  }

  /** The checks `create_profile` makes on the username, in their order. */
  function ProfileChecks(username: string): (r: Outcome)
    ensures r.Ok? <==> username != [] && Utf8Len(username) <= MAX_USERNAME_LEN
                       && forall i :: 0 <= i < |username| ==> IsUsernameChar(username[i])
    ensures username == [] ==> r == Err(EmptyUsername)
    ensures username != [] && Utf8Len(username) > MAX_USERNAME_LEN ==> r == Err(UsernameTooLong)
    ensures (username != [] && Utf8Len(username) <= MAX_USERNAME_LEN
             && exists i :: 0 <= i < |username| && !IsUsernameChar(username[i]))
            ==> r == Err(InvalidUsername)
    ensures r.Ok? ==> |username| <= MAX_USERNAME_LEN
    ensures r.Err? ==> r.error in {EmptyUsername, UsernameTooLong, InvalidUsername}
  {
    if username == [] then Err(EmptyUsername)
    else if Utf8Len(username) > MAX_USERNAME_LEN then Err(UsernameTooLong)
    else if exists i :: 0 <= i < |username| && !IsUsernameChar(username[i]) then Err(InvalidUsername)
    else Ok
  }

  /** `create_profile`: a valid username gives the signer a profile with 100 reputation and no predictions. */
  method CreateProfile(profile: Account<UserProfile>, user: Pubkey, username: string, now: Int64)
    returns (r: Outcome)
    modifies profile
    ensures r == ProfileChecks(username)
    ensures r.Ok? ==> profile.data == UserProfile(user, username, 0, 0, INITIAL_REPUTATION, now, now)
                      && ProfileValid(profile.data) && Accuracy(profile.data) == 0
    ensures r.Err? ==> profile.data == old(profile.data)
  {
    if username == [] {
      return Err(EmptyUsername);
    }
    if Utf8Len(username) > MAX_USERNAME_LEN {
      return Err(UsernameTooLong);
    }
    if exists i :: 0 <= i < |username| && !IsUsernameChar(username[i]) {
      return Err(InvalidUsername);
    }
    profile.data := profile.data.(
      owner := user, username := username, predictionsMade := 0, correctPredictions := 0,
      reputation := INITIAL_REPUTATION, createdAt := now, lastActive := now);
    r := Ok;
  }

  /** The checks `subscribe_token` makes, in their order: length, emptiness, direction, threshold. */
  function SubscriptionChecks(symbol: string, direction: Int8, alertThreshold: UInt8): (r: Outcome)
    ensures r.Ok? <==> 1 <= Utf8Len(symbol) <= MAX_SYMBOL_LEN && -1 <= direction <= 1 && alertThreshold <= 100
    ensures Utf8Len(symbol) > MAX_SYMBOL_LEN ==> r == Err(SymbolTooLong)
    ensures symbol == [] ==> r == Err(EmptySymbol)
    ensures 1 <= Utf8Len(symbol) <= MAX_SYMBOL_LEN && !(-1 <= direction <= 1) ==> r == Err(InvalidDirection)
    ensures 1 <= Utf8Len(symbol) <= MAX_SYMBOL_LEN && -1 <= direction <= 1 && alertThreshold > 100 ==> r == Err(InvalidThreshold)
    ensures r.Err? ==> r.error in {SymbolTooLong, EmptySymbol, InvalidDirection, InvalidThreshold}
  {
    if Utf8Len(symbol) > MAX_SYMBOL_LEN then Err(SymbolTooLong)
    else if symbol == [] then Err(EmptySymbol)
    else if !(-1 <= direction <= 1) then Err(InvalidDirection)
    else if alertThreshold > 100 then Err(InvalidThreshold)
    else Ok
  }

  /** `subscribe_token`: records the subscription, no alert sent yet. */
  method SubscribeToken(
    subscription: Account<Subscription>, user: Pubkey,
    symbol: string, direction: Int8, alertThreshold: UInt8, now: Int64)
    returns (r: Outcome)
    modifies subscription
    ensures r == SubscriptionChecks(symbol, direction, alertThreshold)
    ensures r.Ok? ==> subscription.data == Subscription(user, symbol, direction, alertThreshold, now, 0)
    ensures r.Err? ==> subscription.data == old(subscription.data)
  {
    if Utf8Len(symbol) > MAX_SYMBOL_LEN {
      return Err(SymbolTooLong);
    }
    if symbol == [] {
      return Err(EmptySymbol);
    }
    if !(-1 <= direction <= 1) {
      return Err(InvalidDirection);
    }
    if alertThreshold > 100 {
      return Err(InvalidThreshold);
    }
    subscription.data := subscription.data.(
      user := user, symbol := symbol, direction := direction, alertThreshold := alertThreshold,
      subscribedAt := now, lastAlert := 0);
    r := Ok;
  }

  /** The checks `vote_sentiment` makes on the vote, in their order. */
  function VoteChecks(symbol: string, score: Int8, confidence: UInt8): (r: Outcome)
    ensures r.Ok? <==> 1 <= Utf8Len(symbol) <= MAX_SYMBOL_LEN && ScoreInRange(score) && confidence <= 100
    ensures Utf8Len(symbol) > MAX_SYMBOL_LEN ==> r == Err(SymbolTooLong)
    ensures symbol == [] ==> r == Err(EmptySymbol)
    ensures 1 <= Utf8Len(symbol) <= MAX_SYMBOL_LEN && !ScoreInRange(score) ==> r == Err(InvalidScore)
    ensures 1 <= Utf8Len(symbol) <= MAX_SYMBOL_LEN && ScoreInRange(score) && confidence > 100 ==> r == Err(InvalidConfidence)
    ensures r.Err? ==> r.error in {SymbolTooLong, EmptySymbol, InvalidScore, InvalidConfidence}
  {
    if Utf8Len(symbol) > MAX_SYMBOL_LEN then Err(SymbolTooLong)
    else if symbol == [] then Err(EmptySymbol)
    else if !ScoreInRange(score) then Err(InvalidScore)
    else if confidence > 100 then Err(InvalidConfidence)
    else Ok
  }

  /**
    `vote_sentiment`: the profile's owner casts a vote; it counts as one more
    prediction (saturating) and marks the profile active.
  */
  method VoteSentiment(
    vote: Account<CommunityVote>, profile: Account<UserProfile>, user: Pubkey,
    symbol: string, score: Int8, confidence: UInt8, now: Int64)
    returns (r: Outcome)
    modifies vote, profile
    ensures old(profile.data.owner) != user ==> r == Err(Unauthorized)
    ensures old(profile.data.owner) == user ==> r == VoteChecks(symbol, score, confidence)
    ensures r.Ok? ==> vote.data == CommunityVote(user, symbol, score, confidence, now)
                      && profile.data == old(profile.data).(
                           predictionsMade := Min(old(profile.data.predictionsMade) + 1, UINT32_MAX),
                           lastActive := now)
    ensures r.Err? ==> vote.data == old(vote.data) && profile.data == old(profile.data)
    ensures ProfileValid(old(profile.data)) ==> ProfileValid(profile.data)
  {
    if profile.data.owner != user {
      return Err(Unauthorized);
    }
    if Utf8Len(symbol) > MAX_SYMBOL_LEN {
      return Err(SymbolTooLong);
    }
    if symbol == [] {
      return Err(EmptySymbol);
    }
    if !ScoreInRange(score) {
      return Err(InvalidScore);
    }
    if confidence > 100 {
      return Err(InvalidConfidence);
    }
    vote.data := vote.data.(voter := user, symbol := symbol, score := score, confidence := confidence, timestamp := now);
    profile.data := profile.data.(predictionsMade := SaturatingAdd32(profile.data.predictionsMade, 1), lastActive := now);
    r := Ok;
  }

  /**
    The profile after the authority resolves one of its predictions: reputation
    up 10 (saturating, then capped at 1000) and one more correct prediction when
    right, reputation down 5 (saturating at 0) when wrong. The prediction count
    is not touched: it was counted when the vote was cast.
  */
  function Resolved(p: UserProfile, correct: bool): (q: UserProfile)
    ensures q.predictionsMade == p.predictionsMade
    ensures p.reputation <= MAX_REPUTATION ==> q.reputation <= MAX_REPUTATION
    ensures correct ==> q.reputation == Min(p.reputation + 10, MAX_REPUTATION)
                        && q.correctPredictions == Min(p.correctPredictions + 1, UINT32_MAX)
    ensures !correct ==> q.reputation == Max(p.reputation - 5, 0) && q.correctPredictions == p.correctPredictions
    ensures q == p.(reputation := q.reputation, correctPredictions := q.correctPredictions)
  {
    if correct then
      p.(correctPredictions := SaturatingAdd32(p.correctPredictions, 1),
         reputation := Min(SaturatingAdd16(p.reputation, 10), MAX_REPUTATION))
    else
      p.(reputation := SaturatingSub16(p.reputation, 5))
  }

  /** `resolve_prediction`: only the oracle authority may resolve; it adjusts the profile by `Resolved`. */
  method ResolvePrediction(sentinel: Account<Sentinel>, profile: Account<UserProfile>, signer: Pubkey, correct: bool)
    returns (r: Outcome)
    modifies profile
    ensures r.Ok? <==> signer == sentinel.data.authority
    ensures r.Err? ==> r.error == Unauthorized && profile.data == old(profile.data)
    ensures r.Ok? ==> profile.data == Resolved(old(profile.data), correct)
  {
    if signer != sentinel.data.authority {
      return Err(Unauthorized);
    }
    if correct {
      profile.data := profile.data.(correctPredictions := SaturatingAdd32(profile.data.correctPredictions, 1));
      profile.data := profile.data.(reputation := Min(SaturatingAdd16(profile.data.reputation, 10), MAX_REPUTATION));
    } else {
      profile.data := profile.data.(reputation := SaturatingSub16(profile.data.reputation, 5));
    }
    r := Ok;
  }

  /**
    A vote followed by its resolution moves a profile exactly as one
    `update_reputation` does: the two instructions together keep it valid.
  */
  lemma VoteThenResolveIsOnePrediction(p: UserProfile, now: Int64, correct: bool)
    requires ProfileValid(p)
    ensures var voted := p.(predictionsMade := Min(p.predictionsMade + 1, UINT32_MAX), lastActive := now);
            && Resolved(voted, correct) == AfterPrediction(p, correct).(lastActive := now)
            && ProfileValid(Resolved(voted, correct))
  {
    PredictionKeepsProfileValid(p, correct);
  }

  /**
    Resolving keeps reputation within 0..1000, but nothing ties a resolution to a
    vote: resolving a correct prediction of a profile that has made none leaves
    more correct predictions than predictions.
  */
  lemma ResolveWithoutVoteOvercounts(p: UserProfile)
    requires p.predictionsMade == p.correctPredictions == 0
    ensures !ProfileValid(Resolved(p, true))
    ensures Resolved(p, true).correctPredictions == 1 > Resolved(p, true).predictionsMade
  {
  }
}
