/**
 * The bring-your-own-key provider registry: community ratings combine into a
 * trust score between 0 and 100, which ranks providers and grades them; user
 * signups and feedback update a provider's counters and lists.
 *
 * The registry is an ordered dictionary from provider id to rating. Scores
 * are exact reals; Python's `round(x, 1)` is not applied.
 */
module ByokProviderRegistry {
  import opened Common
  import opened Strings
  import opened Dicts
  import Sorting
  import Filters

  datatype ProviderDifficulty = Easy | Moderate | Advanced | Expert
  {
    /** The enum member's value string. */
    function Value(): string
    {
      match this
      case Easy => "easy"
      case Moderate => "moderate"
      case Advanced => "advanced"
      case Expert => "expert"
    }

    /** The position in the declaration, from easiest to hardest. */
    function Rank(): nat
    {
      match this
      case Easy => 0
      case Moderate => 1
      case Advanced => 2
      case Expert => 3
    }
  }

  datatype ProviderStatus = Recommended | Active | Caution | Avoid | Deprecated

  /** The fields of a rating that the registry's operations read or change. */
  datatype ProviderRating = ProviderRating(
    providerId: string, providerName: string, starRating: real,
    totalUsers: nat, activeUsers: nat, successRate: real,
    difficulty: ProviderDifficulty, avgSetupTimeMinutes: int, requiresApproval: bool, hasFreeTier: bool,
    status: ProviderStatus, positiveReviews: nat, negativeReviews: nat,
    commonIssues: seq<string>, proTips: seq<string>)

  /** Stars within zero to five and a success rate within 0 to 100 percent. */
  predicate InRange(p: ProviderRating)
  {
    0.0 <= p.starRating <= 5.0 && 0.0 <= p.successRate <= 100.0
  }

  /** `min(active_users / 100, 1.0)`. */
  function UserScore(active: nat): (r: real)
    ensures 0.0 <= r <= 1.0
    ensures r == 1.0 <==> active >= 100
  {
    if active as real / 100.0 <= 1.0 then active as real / 100.0 else 1.0
  }

  /** The share of positive reviews, counted only when there are reviews. */
  function Sentiment(p: ProviderRating): (r: real)
    ensures 0.0 <= r <= 1.0
    ensures p.positiveReviews + p.negativeReviews == 0 ==> r == 0.0
  {
    var total := p.positiveReviews + p.negativeReviews;
    if total > 0 then
      RatioBounds(p.positiveReviews as real, total as real);
      p.positiveReviews as real / total as real
    else 0.0
  }

  /** `get_trust_score`: stars weigh 30, success rate 40, adoption 15 and sentiment 15. */
  function TrustScore(p: ProviderRating): real
  {
    p.starRating / 5.0 * 30.0 + p.successRate / 100.0 * 40.0 + UserScore(p.activeUsers) * 15.0
    + Sentiment(p) * 15.0
  }

  /**
   * The score stays within 0 to 100; without any review it is at most 85,
   * and it reaches 100 only with five stars, full success, at least a hundred
   * active users and no negative review.
   */
  lemma TrustScoreBounds(p: ProviderRating)
    requires InRange(p)
    ensures 0.0 <= TrustScore(p) <= 100.0
    ensures p.positiveReviews + p.negativeReviews == 0 ==> TrustScore(p) <= 85.0
    ensures TrustScore(p) == 100.0 ==>
      p.starRating == 5.0 && p.successRate == 100.0 && p.activeUsers >= 100 && p.negativeReviews == 0
  {
    if TrustScore(p) == 100.0 && p.positiveReviews + p.negativeReviews > 0 {
      var total := p.positiveReviews + p.negativeReviews;
      RatioBounds(p.positiveReviews as real, total as real);
    }
  }

  datatype RecommendationLevel = HighlyRecommended | RecommendedLevel | UseWithCaution | NotRecommended
  {
    function Text(): string
    {
      match this
      case HighlyRecommended => "\U{2B50} Highly Recommended"
      case RecommendedLevel => "\U{2705} Recommended"
      case UseWithCaution => "\U{26A0}\U{FE0F} Use with Caution"
      case NotRecommended => "\U{274C} Not Recommended"
    }
  }

  /** `get_recommendation_level`. */
  function Level(p: ProviderRating): (r: RecommendationLevel)
    ensures r == HighlyRecommended <==> TrustScore(p) >= 85.0 && p.status == Recommended
    ensures r == NotRecommended <==> TrustScore(p) < 50.0
    ensures r == RecommendedLevel <==>
      !(TrustScore(p) >= 85.0 && p.status == Recommended) && TrustScore(p) >= 70.0 && p.hasFreeTier
  {
    var trust := TrustScore(p);
    if trust >= 85.0 && p.status == Recommended then HighlyRecommended
    else if trust >= 70.0 && p.hasFreeTier then RecommendedLevel
    else if trust >= 50.0 then UseWithCaution
    else NotRecommended
  }

  /** A provider with no reviews and fewer than five stars scores below 85, so it is never highly recommended. */
  lemma UnreviewedNeverHighly(p: ProviderRating)
    requires InRange(p) && p.positiveReviews + p.negativeReviews == 0 && p.starRating < 5.0
    ensures Level(p) != HighlyRecommended
  {
    TrustScoreBounds(p);
  }

  /** Difficulty above the maximum, by the members' order. */
  predicate Exceeds(d: ProviderDifficulty, max: ProviderDifficulty)
  {
    d.Rank() > max.Rank()
  }

  /** Difficulty above the maximum as the code compares it: the value strings, lexicographically. */
  predicate ExceedsAsWritten(d: ProviderDifficulty, max: ProviderDifficulty)
  {
    LexLess(max.Value(), d.Value())
  }

  /**
   * With MODERATE as the maximum the string comparison excludes nothing, so
   * an EXPERT provider passes, and with EASY as the maximum an ADVANCED one
   * passes too.
   */
  lemma ExceedsAsWrittenMisorders()
    ensures forall d: ProviderDifficulty :: !ExceedsAsWritten(d, Moderate)
    ensures Exceeds(Expert, Moderate) && !ExceedsAsWritten(Expert, Moderate)
    ensures Exceeds(Advanced, Easy) && !ExceedsAsWritten(Advanced, Easy)
  {
    assert !LexLess("moderate", "easy");
    assert !LexLess("moderate", "expert");
    assert !LexLess("moderate", "advanced");
    assert !LexLess("moderate", "moderate") by { ModerateNotBelowItself(); }
    assert !LexLess("easy", "advanced");
  }

  lemma ModerateNotBelowItself()
    ensures !LexLess("moderate", "moderate")
  {
    LexLessIrreflexive("moderate");
  }

  /** No string comes before itself. */
  lemma {:induction false} LexLessIrreflexive(s: string)
    ensures !LexLess(s, s)
  {
    if s != [] {
      LexLessIrreflexive(s[1..]);
    }
  }

  /** The corrected order: a harder member exceeds exactly the easier maxima. */
  lemma ExceedsOrder(d: ProviderDifficulty, max: ProviderDifficulty)
    ensures Exceeds(d, max) <==> d != max && (max == Easy || (max == Moderate && d in {Advanced, Expert}) || (max == Advanced && d == Expert))
  {
  }

  /** The filters of `get_recommended_providers`. */
  predicate Eligible(p: ProviderRating, freeOnly: bool, minTrust: real, maxDifficulty: Option<ProviderDifficulty>)
  {
    && !(freeOnly && !p.hasFreeTier)
    && TrustScore(p) >= minTrust
    && !(maxDifficulty.Some? && Exceeds(p.difficulty, maxDifficulty.value))
    && p.status != Avoid
  }

  /** The filters of `get_recommended_providers` with the difficulty ceiling compared as the code compares it. */
  predicate EligibleAsWritten(p: ProviderRating, freeOnly: bool, minTrust: real,
                              maxDifficulty: Option<ProviderDifficulty>)
  {
    && !(freeOnly && !p.hasFreeTier)
    && TrustScore(p) >= minTrust
    && !(maxDifficulty.Some? && ExceedsAsWritten(p.difficulty, maxDifficulty.value))
    && p.status != Avoid
  }

  /**
   * As written, a MODERATE ceiling filters nothing: a provider passes it
   * exactly when it passes the other filters. So an EXPERT provider that
   * passes them is recommended, where the corrected ceiling excludes it.
   */
  lemma ModerateCeilingAsWritten(p: ProviderRating, freeOnly: bool, minTrust: real)
    ensures EligibleAsWritten(p, freeOnly, minTrust, Some(Moderate)) <==> Eligible(p, freeOnly, minTrust, None)
    ensures p.difficulty == Expert && Eligible(p, freeOnly, minTrust, None) ==>
      EligibleAsWritten(p, freeOnly, minTrust, Some(Moderate)) && !Eligible(p, freeOnly, minTrust, Some(Moderate))
  {
    ExceedsAsWrittenMisorders();
  }

  /** The filters as one test, for the comprehension over the registry. */
  function Keep(freeOnly: bool, minTrust: real, maxDifficulty: Option<ProviderDifficulty>): ProviderRating -> bool
  {
    p => Eligible(p, freeOnly, minTrust, maxDifficulty)
  }

  /** The eligible providers, in registry order. */
  function EligibleOf(ps: seq<ProviderRating>, freeOnly: bool, minTrust: real, maxDifficulty: Option<ProviderDifficulty>)
    : seq<ProviderRating>
  {
    Filters.Filter(ps, Keep(freeOnly, minTrust, maxDifficulty))
  }

  function TrustKey(p: ProviderRating): Sorting.SortKey
  {
    Sorting.SortKey(TrustScore(p), 0.0)
  }

  /**
   * `list_all_providers`: every provider, highest trust first, registry order
   * among equal scores.
   */
  function ListAll(providers: Dict<string, ProviderRating>): (r: seq<ProviderRating>)
    ensures multiset(r) == multiset(Values(providers))
    ensures forall i, j :: 0 <= i < j < |r| ==> TrustScore(r[i]) >= TrustScore(r[j])
  {
    var vs := Values(providers);
    Sorting.SortDescSorted(vs, TrustKey);
    Sorting.SortDescPermutes(vs, TrustKey);
    Sorting.SortDesc(vs, TrustKey)
  }

  /**
   * `record_user_signup` on one rating: one more user; a success adds an
   * active user and a positive review, a failure a negative review; the
   * success rate becomes the positive share; a given non-zero setup time is
   * averaged in, truncated toward zero.
   */
  function Signed(p: ProviderRating, success: bool, setupMinutes: Option<int>): (r: ProviderRating)
    ensures r.totalUsers == p.totalUsers + 1
    ensures r.activeUsers == p.activeUsers + (if success then 1 else 0)
    ensures r.positiveReviews == p.positiveReviews + (if success then 1 else 0)
    ensures r.negativeReviews == p.negativeReviews + (if success then 0 else 1)
    ensures r.successRate * (r.positiveReviews + r.negativeReviews) as real == 100.0 * r.positiveReviews as real
    ensures r.avgSetupTimeMinutes == if setupMinutes.Some? && setupMinutes.value != 0
                                     then TruncDiv(p.avgSetupTimeMinutes + setupMinutes.value, 2)
                                     else p.avgSetupTimeMinutes
    ensures r == p.(totalUsers := r.totalUsers, activeUsers := r.activeUsers, positiveReviews := r.positiveReviews,
                    negativeReviews := r.negativeReviews, successRate := r.successRate,
                    avgSetupTimeMinutes := r.avgSetupTimeMinutes)
  {
    var pos := p.positiveReviews + (if success then 1 else 0);
    var neg := p.negativeReviews + (if success then 0 else 1);
    var avg := if setupMinutes.Some? && setupMinutes.value != 0
               then TruncDiv(p.avgSetupTimeMinutes + setupMinutes.value, 2) else p.avgSetupTimeMinutes;
    p.(totalUsers := p.totalUsers + 1, activeUsers := p.activeUsers + (if success then 1 else 0),
       positiveReviews := pos, negativeReviews := neg,
       successRate := pos as real / (pos + neg) as real * 100.0, avgSetupTimeMinutes := avg)
  }

  /**
   * After a signup the success rate is a percentage again and it agrees with
   * the sentiment share, so the two parts of the trust score move together.
   */
  lemma SignedInRange(p: ProviderRating, success: bool, setupMinutes: Option<int>)
    requires InRange(p)
    ensures InRange(Signed(p, success, setupMinutes))
    ensures Signed(p, success, setupMinutes).successRate == 100.0 * Sentiment(Signed(p, success, setupMinutes))
  {
    var r := Signed(p, success, setupMinutes);
    var total := r.positiveReviews + r.negativeReviews;
    RatioBounds(r.positiveReviews as real, total as real);
  }

  /** No comment occurs twice. */
  predicate NoDuplicates(s: seq<string>)
  {
    forall i, j :: 0 <= i < j < |s| ==> s[i] != s[j]
  }

  /**
   * `add_feedback` on one rating: the stars become the mean over the reviews
   * so far and the new rating; a non-empty comment joins the issues when it
   * is flagged as one and new there, or else the tips when flagged as one and
   * new there.
   */
  function WithFeedback(p: ProviderRating, rating: int, comment: Option<string>, isIssue: bool, isTip: bool)
    : (r: ProviderRating)
    ensures var n := (p.positiveReviews + p.negativeReviews) as real;
      r.starRating * (n + 1.0) == p.starRating * n + rating as real
    ensures var c := comment.GetOr("");
      && r.commonIssues == (if c != "" && isIssue && c !in p.commonIssues then p.commonIssues + [c] else p.commonIssues)
      && r.proTips == (if c != "" && !(isIssue && c !in p.commonIssues) && isTip && c !in p.proTips
                       then p.proTips + [c] else p.proTips)
    ensures r == p.(starRating := r.starRating, commonIssues := r.commonIssues, proTips := r.proTips)
  {
    var n := (p.positiveReviews + p.negativeReviews) as real;
    var stars := (p.starRating * n + rating as real) / (n + 1.0);
    var c := comment.GetOr("");
    if c != "" && isIssue && c !in p.commonIssues then
      p.(starRating := stars, commonIssues := p.commonIssues + [c])
    else if c != "" && isTip && c !in p.proTips then
      p.(starRating := stars, proTips := p.proTips + [c])
    else p.(starRating := stars)
  }

  /**
   * Feedback keeps the stars within one to five when the old stars and the
   * new rating are, and it never duplicates a comment in either list.
   */
  lemma FeedbackBounds(p: ProviderRating, rating: int, comment: Option<string>, isIssue: bool, isTip: bool)
    requires 1.0 <= p.starRating <= 5.0 && 1 <= rating <= 5
    requires NoDuplicates(p.commonIssues) && NoDuplicates(p.proTips)
    ensures var r := WithFeedback(p, rating, comment, isIssue, isTip);
      1.0 <= r.starRating <= 5.0 && NoDuplicates(r.commonIssues) && NoDuplicates(r.proTips)
  {
    FeedbackStars(p, rating, comment, isIssue, isTip);
  }

  /** The new mean lies between the extremes of its parts. */
  lemma FeedbackStars(p: ProviderRating, rating: int, comment: Option<string>, isIssue: bool, isTip: bool)
    requires 1.0 <= p.starRating <= 5.0 && 1 <= rating <= 5
    ensures 1.0 <= WithFeedback(p, rating, comment, isIssue, isTip).starRating <= 5.0
  {
    var r := WithFeedback(p, rating, comment, isIssue, isTip);
    var n := (p.positiveReviews + p.negativeReviews) as real;
    MeanBounds(p.starRating, n, rating as real, r.starRating, 1.0, 5.0);
  }

  class BYOKProviderRegistry {
    var providers: Dict<string, ProviderRating>

    ghost predicate Valid()
      reads this
    {
      WellFormed(providers)
    }

    /** The registry over the providers it loaded. */
    constructor (loaded: Dict<string, ProviderRating>)
      requires WellFormed(loaded)
      ensures Valid() && providers == loaded
    {
      providers := loaded;
    }

    /** `get_provider`: the rating registered under the id, nothing for an unknown id. */
    method GetProvider(id: string) returns (r: Option<ProviderRating>)
      ensures r.None? <==> !HasKey(providers, id)
      ensures r.Some? ==> (id, r.value) in providers
    {
      r := Get(providers, id);
      if r.Some? {
        GetEntry(providers, id);
      }
    }

    /**
     * `get_recommended_providers`: the providers that pass every filter,
     * highest trust first, registry order among equal scores. The difficulty
     * ceiling is compared in the members' order, not as the code compares it
     * (see `ExceedsAsWritten`).
     */
    method GetRecommendedProviders(freeOnly: bool, minTrust: real, maxDifficulty: Option<ProviderDifficulty>)
      returns (results: seq<ProviderRating>)
      ensures results == Sorting.SortDesc(EligibleOf(Values(providers), freeOnly, minTrust, maxDifficulty), TrustKey)
    {
      var eligible := Filters.FilterLoop(Values(providers), Keep(freeOnly, minTrust, maxDifficulty));
      results := Sorting.SortDesc(eligible, TrustKey);
    }

    /** `record_user_signup`: an unknown id changes nothing. */
    method RecordUserSignup(id: string, success: bool, setupMinutes: Option<int>)
      requires Valid()
      modifies this
      ensures Valid()
      ensures providers == if HasKey(old(providers), id)
                           then Put(old(providers), id, Signed(Get(old(providers), id).value, success, setupMinutes))
                           else old(providers)
    {
      var found := Get(providers, id);
      if found.None? {
        return;
      }
      PutWellFormed(providers, id, Signed(found.value, success, setupMinutes));
      providers := Put(providers, id, Signed(found.value, success, setupMinutes));
    }

    /** `add_feedback`: an unknown id changes nothing. */
    method AddFeedback(id: string, rating: int, comment: Option<string>, isIssue: bool, isTip: bool)
      requires Valid()
      modifies this
      ensures Valid()
      ensures providers == if HasKey(old(providers), id)
                           then Put(old(providers), id, WithFeedback(Get(old(providers), id).value, rating, comment, isIssue, isTip))
                           else old(providers)
    {
      var found := Get(providers, id);
      if found.None? {
        return;
      }
      var updated := WithFeedback(found.value, rating, comment, isIssue, isTip);
      PutWellFormed(providers, id, updated);
      providers := Put(providers, id, updated);
    }
  }

  /**
   * The recommendations are exactly the eligible providers, each as often as
   * in the registry, highest trust first.
   */
  lemma RecommendedSpec(providers: Dict<string, ProviderRating>, freeOnly: bool, minTrust: real,
                        maxDifficulty: Option<ProviderDifficulty>)
    ensures var r := Sorting.SortDesc(EligibleOf(Values(providers), freeOnly, minTrust, maxDifficulty), TrustKey);
      && (forall k :: 0 <= k < |r| ==> Eligible(r[k], freeOnly, minTrust, maxDifficulty) && r[k] in Values(providers))
      && (forall p :: p in Values(providers) && Eligible(p, freeOnly, minTrust, maxDifficulty) ==> p in r)
      && (forall i, j :: 0 <= i < j < |r| ==> TrustScore(r[i]) >= TrustScore(r[j]))
  {
    var vs := Values(providers);
    var keep := Keep(freeOnly, minTrust, maxDifficulty);
    var e := Filters.Filter(vs, keep);
    Sorting.SortDescPermutes(e, TrustKey);
    Sorting.SortDescSorted(e, TrustKey);
    Filters.FilterReordered(vs, keep, Sorting.SortDesc(e, TrustKey));
  }
}
