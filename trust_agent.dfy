/** The trust agent (`agents/trust_agent/trust_agent.py`): a weighted
    credibility score from a user's ratings, rental history and damage
    reports, written back to the user's row; and the renter/lender trust
    check the orchestrator calls, which fails open. Scores are reals; the
    rounding to two decimals is not modelled. */
module TrustAgent {
  import opened Common
  import opened Tables

  /** `fetch_user_ratings(user_id)`: ratings the user received. */
  function UserRatings(ratings: seq<Rating>, userId: string): (r: seq<Rating>)
    ensures forall x :: x in r <==> x in ratings && x.ratedUserId == userId
  {
    FilterMember(ratings, (x: Rating) => x.ratedUserId == userId);
    Filter(ratings, (x: Rating) => x.ratedUserId == userId)
  }

  /** `fetch_user_damage_reports(user_id)`: reports the user filed. */
  function UserDamageReports(reports: seq<Dict>, userId: string): (r: seq<Dict>)
    ensures forall x :: x in r <==> x in reports && Get(x, "reporter_id", Undefined) == Str(userId)
  {
    FilterMember(reports, (x: Dict) => Get(x, "reporter_id", Undefined) == Str(userId));
    Filter(reports, (x: Dict) => Get(x, "reporter_id", Undefined) == Str(userId))
  }

  function Scores(ratings: seq<Rating>): (s: seq<real>)
    ensures |s| == |ratings|
    ensures forall i :: 0 <= i < |ratings| ==> s[i] == ratings[i].score
  {
    seq(|ratings|, i requires 0 <= i < |ratings| => ratings[i].score)
  }

  /** The mean rating, 0 with no ratings. */
  function AvgRating(ratings: seq<Rating>): real
  {
    if ratings == [] then 0.0 else Sum(Scores(ratings)) / |ratings| as real
  }

  predicate IsCompleted(r: Rental)
  {
    r.status == "completed"
  }

  predicate IsUnresolved(d: Dict)
  {
    Get(d, "status", Undefined) == Str("pending")
  }

  /** Completed rentals over all rentals, 1 with no rentals. */
  function TimelyRate(rentals: seq<Rental>): real
  {
    if |rentals| > 0 then Count(rentals, IsCompleted) as real / |rentals| as real else 1.0
  }

  /** One minus the share of pending reports, 1 with no reports. */
  function DamageFactor(damages: seq<Dict>): real
  {
    if damages != [] then 1.0 - Count(damages, IsUnresolved) as real / |damages| as real else 1.0
  }

  /** `calculate_credibility_score` before rounding. */
  function CredibilityScore(rentals: seq<Rental>, ratings: seq<Rating>, damages: seq<Dict>): real
  {
    0.5 * (AvgRating(ratings) / 5.0) + 0.3 * TimelyRate(rentals) + 0.2 * DamageFactor(damages)
  }

  /** A part over a positive whole lies in [0, 1]. */
  lemma FractionBounds(part: real, whole: real)
    requires 0.0 <= part <= whole && 0.0 < whole
    ensures 0.0 <= part / whole <= 1.0
  {
    assert part / whole * whole == part;
  }

  /** A share of counted elements lies in [0, 1]. */
  lemma ShareBounds<T>(s: seq<T>, p: T -> bool)
    requires s != []
    ensures 0.0 <= Count(s, p) as real / |s| as real <= 1.0
  {
    CountIsFilterLength(s, p);
    FractionBounds(Count(s, p) as real, |s| as real);
  }

  /** The timely rate and the damage factor lie in [0, 1]. */
  lemma RatesBounded(rentals: seq<Rental>, damages: seq<Dict>)
    ensures 0.0 <= TimelyRate(rentals) <= 1.0
    ensures 0.0 <= DamageFactor(damages) <= 1.0
  {
    if rentals != [] {
      ShareBounds(rentals, IsCompleted);
    }
    if damages != [] {
      ShareBounds(damages, IsUnresolved);
    }
  }

  /** With every rating in [0, 5] the mean lies in [0, 5]. */
  lemma AvgRatingBounded(ratings: seq<Rating>)
    requires forall i :: 0 <= i < |ratings| ==> 0.0 <= ratings[i].score <= 5.0
    ensures 0.0 <= AvgRating(ratings) <= 5.0
  {
    if ratings != [] {
      SumBounds(Scores(ratings), 0.0, 5.0);
    }
  }

  /** With ratings in [0, 5] the credibility score lies in [0, 1]. */
  lemma CredibilityBounded(rentals: seq<Rental>, ratings: seq<Rating>, damages: seq<Dict>)
    requires forall i :: 0 <= i < |ratings| ==> 0.0 <= ratings[i].score <= 5.0
    ensures 0.0 <= CredibilityScore(rentals, ratings, damages) <= 1.0
  {
    AvgRatingBounded(ratings);
    RatesBounded(rentals, damages);
  }

  /** A user with no history scores 0.5. */
  lemma NoHistoryScoresHalf()
    ensures CredibilityScore([], [], []) == 0.5
  {
  }

  /** The trust check's answer: `ok` and `trust_score`. */
  datatype Trust = Trust(ok: bool, trustScore: real)

  const TrustThreshold := 0.3
  const DefaultScore := 0.5

  /** A user's stored score, 0.5 when the lookup finds no row. */
  function StoredScore(users: map<string, User>, userId: Option<string>): (s: real)
    ensures userId.Some? && userId.value in users ==> s == users[userId.value].credibilityScore
    ensures !(userId.Some? && userId.value in users) ==> s == DefaultScore
  {
    if userId.Some? && userId.value in users then users[userId.value].credibilityScore else DefaultScore
  }

  /** `evaluate_trust(renter_id, lender_id)`. Without a client the answer is
      a fixed pass; when a lookup raises (`failure`) the answer is a pass with
      0.5. Otherwise the mean of the two scores is compared with 0.3. */
  function EvaluateTrust(client: bool, failure: bool, users: map<string, User>,
                         renterId: Option<string>, lenderId: Option<string>): (t: Trust)
    ensures !client ==> t == Trust(true, 0.85)
    ensures client && failure ==> t == Trust(true, DefaultScore)
    ensures client && !failure ==>
              t.trustScore == (StoredScore(users, renterId) + StoredScore(users, lenderId)) / 2.0 &&
              (t.ok <==> t.trustScore >= TrustThreshold)
  {
    if !client then Trust(true, 0.85)
    else if failure then Trust(true, DefaultScore)
    else
      var combined := (StoredScore(users, renterId) + StoredScore(users, lenderId)) / 2.0;
      Trust(combined >= TrustThreshold, combined)
  }

  /** The check fails open: it refuses only when both lookups succeeded and
      the two stored scores average below 0.3, so at least one of the two
      users has a row scoring below 0.3. */
  lemma TrustFailsOpen(client: bool, failure: bool, users: map<string, User>,
                       renterId: Option<string>, lenderId: Option<string>)
    requires !EvaluateTrust(client, failure, users, renterId, lenderId).ok
    ensures client && !failure
    ensures (renterId.Some? && renterId.value in users && users[renterId.value].credibilityScore < TrustThreshold) ||
            (lenderId.Some? && lenderId.value in users && users[lenderId.value].credibilityScore < TrustThreshold)
  {
  }

  /** `run_trust_agent`'s answer: the missing-id error, the score, or an
      uncaught exception (no client: the fetch helpers call into `None`). */
  datatype Reply = MissingUserId | Credibility(score: real) | Crashed

  /** The score `run_trust_agent` computes for a user from the store. */
  function UserScore(rentals: seq<Rental>, ratings: seq<Rating>, reports: seq<Dict>, userId: string): real
  {
    CredibilityScore(RentalsOf(rentals, userId), UserRatings(ratings, userId),
                     UserDamageReports(reports, userId))
  }

  /** `update(...).eq("user_id", id)`: the row, if any, gets the score. */
  function SetScore(users: map<string, User>, userId: string, score: real): (r: map<string, User>)
    ensures r.Keys == users.Keys
    ensures userId in users ==> r[userId] == users[userId].(credibilityScore := score)
    ensures forall u :: u in users && u != userId ==> r[u] == users[u]
  {
    if userId in users then users[userId := users[userId].(credibilityScore := score)] else users
  }

  /** `update_user_credibility`: without a client nothing is written. */
  method UpdateUserCredibility(db: Db, client: bool, userId: string, score: real) returns (r: real)
    modifies db`users
    ensures r == score
    ensures db.users == if client then SetScore(old(db.users), userId, score) else old(db.users)
  {
    if !client {
      return score;
    }
    db.users := SetScore(db.users, userId, score);
    return score;
  }

  /** `run_trust_agent(task_input)` with `task_input["user_id"]` as `userId`. */
  method RunTrustAgent(db: Db, client: bool, userId: Option<string>) returns (reply: Reply)
    modifies db`users
    ensures !Present(userId) ==> reply == MissingUserId && db.users == old(db.users)
    ensures Present(userId) && !client ==> reply == Crashed && db.users == old(db.users)
    ensures Present(userId) && client ==>
              reply == Credibility(UserScore(db.rentals, db.ratings, db.damageReports, userId.value)) &&
              db.users == SetScore(old(db.users), userId.value, reply.score)
  {
    if !Present(userId) {
      return MissingUserId;
    }
    if !client {
      return Crashed;
    }
    var id := userId.value;
    var rentals := RentalsOf(db.rentals, id);
    var ratings := UserRatings(db.ratings, id);
    var damages := UserDamageReports(db.damageReports, id);
    var score := CredibilityScore(rentals, ratings, damages);
    var _ := UpdateUserCredibility(db, client, id, score);
    reply := Credibility(score);
  }
}
