/**
 * The elimination-and-ranking solver: every candidate backend is checked
 * against a fixed sequence of conditions; the ones that can work become ranked
 * solutions, the others become impossibilities that say how to fix them, and a
 * recommendation is derived from both lists.
 */
module HolmesianSolver {
  import opened Common
  import opened Sorting

  datatype ImpossibilityReason =
    | ApiKeyMissing | ApiKeyInvalid | EndpointUnreachable | ProviderDown
    | ModelUnavailable | PremiumOnly | FreeModeLocked | RateLimited
    | QuotaExceeded | AuthenticationFailed | NetworkError | ConfigurationError
    | IncompatibleVersion | Deprecated | RequiresApproval | GeographicRestriction

  datatype Viability = Optimal | Viable | Improbable | Degraded | Impossible

  /** The rank of a viability level; lower ranks sort first. */
  function Tier(v: Viability): nat
  {
    match v
    case Optimal => 0
    case Viable => 1
    case Improbable => 2
    case Degraded => 3
    case Impossible => 4
  }

  /**
   * A candidate as the caller describes it. `None` is a key the dictionary does
   * not have; the evaluation then uses the source's default for that key.
   */
  datatype Possibility = Possibility(
    id: Option<string>,
    name: Option<string>,
    available: Option<bool>,
    healthy: Option<bool>,
    authenticated: Option<bool>,
    isFree: Option<bool>,
    requiresPayment: Option<bool>,
    rateLimited: Option<bool>,
    quotaExceeded: Option<bool>,
    requiresApproval: Option<bool>,
    approvalPending: Option<bool>,
    deprecated: Option<bool>,
    reachable: Option<bool>,
    trustScore: Option<real>)

  // The defaults of `possibility.get(key, default)`.
  function IsAvailable(p: Possibility): bool { p.available.GetOr(true) }
  function IsHealthy(p: Possibility): bool { p.healthy.GetOr(true) }
  function IsAuthenticated(p: Possibility): bool { p.authenticated.GetOr(false) }
  function IsFree(p: Possibility): bool { p.isFree.GetOr(false) }
  function RequiresPayment(p: Possibility): bool { p.requiresPayment.GetOr(false) }
  function IsRateLimited(p: Possibility): bool { p.rateLimited.GetOr(false) }
  function IsQuotaExceeded(p: Possibility): bool { p.quotaExceeded.GetOr(false) }
  function IsAwaitingApproval(p: Possibility): bool
  {
    p.requiresApproval.GetOr(false) && p.approvalPending.GetOr(false)
  }
  function IsDeprecated(p: Possibility): bool { p.deprecated.GetOr(false) }
  function IsReachable(p: Possibility): bool { p.reachable.GetOr(true) }
  function TrustScore(p: Possibility): real { p.trustScore.GetOr(50.0) }

  datatype Solution = Solution(
    id: string,
    name: string,
    viability: Viability,
    score: real,
    isFree: bool,
    isAvailable: bool,
    isHealthy: bool,
    isAuthenticated: bool,
    compromises: seq<string>,
    warnings: seq<string>,
    reasons: seq<string>,
    limitations: seq<string>)
  {
    /** `Solution.is_viable`. */
    predicate IsViable() { viability != Impossible }
  }

  datatype Impossibility = Impossibility(
    reason: ImpossibilityReason,
    message: string,
    suggestion: Option<string>,
    canBeResolved: bool,
    resolutionSteps: seq<string>)

  /** An eliminated candidate: impossible, with a score of 0 and one limitation. */
  function Rejected(id: string, name: string, isFree: bool, isAvailable: bool,
                    isHealthy: bool, isAuthenticated: bool, limitation: string): Solution
  {
    Solution(id, name, Impossible, 0.0, isFree, isAvailable, isHealthy, isAuthenticated,
             [], [], [], [limitation])
  }

  /**
   * `_evaluate_possibility`, with the rate-limit and deprecation checks
   * lowering the viability to `Degraded` (what `min(viability, DEGRADED)` is
   * meant to do; as written it raises, see `EvaluateAsWritten`).
   */
  function Evaluate(p: Possibility, freeOnly: bool): Solution
  {
    var id := p.id.GetOr("unknown");
    var name := p.name.GetOr("Unknown");
    if !IsAvailable(p) then
      Rejected(id, name, false, false, false, false, "Provider/model is unavailable")
    else
      var healthy := IsHealthy(p);
      var v0 := if healthy then Optimal else Degraded;
      var score0 := if healthy then 100.0 else 70.0;
      var warnings0 := if healthy then [] else ["Service health degraded"];
      var limits0 := if healthy then [] else ["May experience issues or downtime"];
      if !IsAuthenticated(p) then
        Rejected(id, name, false, true, healthy, false, "No valid API key configured")
      else
        var free := IsFree(p);
        if freeOnly && (!free || RequiresPayment(p)) then
          Rejected(id, name, false, true, healthy, true, "Premium/paid model in free-only mode")
        else
          var limited := IsRateLimited(p);
          var v1 := if limited then Degraded else v0;
          var score1 := if limited then score0 - 20.0 else score0;
          var warnings1 := warnings0 + (if limited then ["Currently rate limited"] else []);
          var compromises := if limited then ["May need to wait between requests"] else [];
          if IsQuotaExceeded(p) then
            Rejected(id, name, free, true, healthy, true, "Quota exceeded")
          else if IsAwaitingApproval(p) then
            Rejected(id, name, free, true, healthy, true, "Awaiting manual approval")
          else
            var dep := IsDeprecated(p);
            var v2 := if dep then Degraded else v1;
            var score2 := if dep then score1 - 40.0 else score1;
            var warnings2 := warnings1 + (if dep then ["This option is deprecated"] else []);
            var limits2 := limits0 + (if dep then ["May be removed in future"] else []);
            if !IsReachable(p) then
              Rejected(id, name, free, true, false, true, "Endpoint unreachable")
            else
              var reasons := (if free then ["Free tier available"] else [])
                + (if healthy then ["Service healthy"] else [])
                + ["Authenticated and ready"];
              Solution(id, name, v2, score2 * 0.7 + TrustScore(p) * 0.3, free, true, healthy, true,
                       compromises, warnings2, reasons, limits2)
  }

  /**
   * The independent statement of which candidates survive: available,
   * authenticated, acceptable under free-only mode, within quota, not waiting
   * for approval, and reachable.
   */
  predicate Admissible(p: Possibility, freeOnly: bool)
  {
    IsAvailable(p) && IsAuthenticated(p)
    && (freeOnly ==> IsFree(p) && !RequiresPayment(p))
    && !IsQuotaExceeded(p) && !IsAwaitingApproval(p) && IsReachable(p)
  }

  /** A candidate survives exactly when every elimination check passes. */
  lemma EvaluateViableIff(p: Possibility, freeOnly: bool)
    ensures Evaluate(p, freeOnly).IsViable() <==> Admissible(p, freeOnly)
  {
  }

  /**
   * What a survivor looks like: available, authenticated, free when free-only
   * mode is on, degraded exactly when unhealthy, rate-limited or deprecated,
   * and scored 70% on its state and 30% on its trust score.
   */
  lemma EvaluateSurvivor(p: Possibility, freeOnly: bool)
    requires Admissible(p, freeOnly)
    ensures var s := Evaluate(p, freeOnly);
      && s.isAvailable && s.isAuthenticated && s.isHealthy == IsHealthy(p)
      && (freeOnly ==> s.isFree)
      && s.viability == (if IsHealthy(p) && !IsRateLimited(p) && !IsDeprecated(p) then Optimal else Degraded)
      && s.score == 0.7 * (100.0 - (if IsHealthy(p) then 0.0 else 30.0)
                                  - (if IsRateLimited(p) then 20.0 else 0.0)
                                  - (if IsDeprecated(p) then 40.0 else 0.0))
                    + 0.3 * TrustScore(p)
  {
  }

  /** Survivors with a trust score in [0, 100] score between 7 and 100. */
  lemma SurvivorScoreBounds(p: Possibility, freeOnly: bool)
    requires Admissible(p, freeOnly)
    requires 0.0 <= TrustScore(p) <= 100.0
    ensures 7.0 <= Evaluate(p, freeOnly).score <= 100.0
  {
    EvaluateSurvivor(p, freeOnly);
  }

  /** An eliminated candidate scores 0 and carries exactly one limitation. */
  lemma EvaluateRejected(p: Possibility, freeOnly: bool)
    requires !Admissible(p, freeOnly)
    ensures var s := Evaluate(p, freeOnly);
      s.viability == Impossible && s.score == 0.0 && |s.limitations| == 1
      && (!IsAvailable(p) ==> !s.isAuthenticated && !s.isAvailable)
  {
  }

  // ---------------------------------------------------------------------------
  // The evaluation as written.

  datatype EvaluationError = EnumOrderingTypeError

  /**
   * Whether the evaluation reaches one of the `min(viability, DEGRADED)` calls:
   * a plain `Enum` has no ordering, so `min` raises `TypeError` there.
   */
  predicate ReachesEnumMin(p: Possibility, freeOnly: bool)
  {
    var passesFirstGates := IsAvailable(p) && IsAuthenticated(p)
      && !(freeOnly && (!IsFree(p) || RequiresPayment(p)));
    passesFirstGates
    && (IsRateLimited(p)
        || (!IsQuotaExceeded(p) && !IsAwaitingApproval(p) && IsDeprecated(p)))
  }

  /** `_evaluate_possibility` exactly as written, raising where `min` is reached. */
  function EvaluateAsWritten(p: Possibility, freeOnly: bool): Result<Solution, EvaluationError>
  {
    if ReachesEnumMin(p, freeOnly) then Err(EnumOrderingTypeError) else Ok(Evaluate(p, freeOnly))
  }

  /** A working, free, rate-limited candidate makes the written evaluation raise. */
  lemma EvaluateAsWrittenRaises()
    ensures var p := Possibility(None, None, None, None, Some(true), Some(true), None,
                                 Some(true), None, None, None, None, None, None);
      EvaluateAsWritten(p, true).Err? && Evaluate(p, true).viability == Degraded
  {
  }

  /**
   * Wherever the written evaluation does not raise, it agrees with `Evaluate`,
   * and it raises exactly for the candidates that reach a `min` call.
   */
  lemma EvaluateAsWrittenAgrees(p: Possibility, freeOnly: bool)
    ensures EvaluateAsWritten(p, freeOnly).Err? <==> ReachesEnumMin(p, freeOnly)
    ensures EvaluateAsWritten(p, freeOnly).Ok? ==> EvaluateAsWritten(p, freeOnly).value == Evaluate(p, freeOnly)
    ensures ReachesEnumMin(p, freeOnly) ==>
      (Admissible(p, freeOnly) ==> Evaluate(p, freeOnly).viability == Degraded)
  {
  }

  // ---------------------------------------------------------------------------
  // Impossibilities.

  /** `_create_impossibility`'s choice of primary reason, first matching rule wins. */
  function PrimaryReason(s: Solution, freeMode: bool): ImpossibilityReason
  {
    if !s.isAuthenticated then ApiKeyMissing
    else if !s.isAvailable then ModelUnavailable
    else if !s.isFree && freeMode then FreeModeLocked
    else if !s.isHealthy then EndpointUnreachable
    else if "Quota exceeded" in s.limitations then QuotaExceeded
    else if "Awaiting manual approval" in s.limitations then RequiresApproval
    else ConfigurationError
  }

  /** The message, suggestion and steps `_create_impossibility` attaches to a reason. */
  function Describe(reason: ImpossibilityReason, name: string): Impossibility
  {
    Impossibility(Reported(reason), name + MessageSuffix(reason), Some(Suggestion(reason)), CanResolve(reason),
                  ResolutionSteps(reason))
  }

  /** The reasons without a branch of their own fall to the final CONFIGURATION_ERROR branch. */
  function Reported(reason: ImpossibilityReason): ImpossibilityReason
  {
    match reason
    case ApiKeyMissing => reason
    case ModelUnavailable => reason
    case FreeModeLocked => reason
    case EndpointUnreachable => reason
    case QuotaExceeded => reason
    case RequiresApproval => reason
    case _ => ConfigurationError
  }

  function MessageSuffix(reason: ImpossibilityReason): string
  {
    match reason
    case ApiKeyMissing => ": No API key configured"
    case ModelUnavailable => ": Currently unavailable"
    case FreeModeLocked => ": Premium model in free-only mode"
    case EndpointUnreachable => ": Service unreachable or unhealthy"
    case QuotaExceeded => ": Quota exceeded"
    case RequiresApproval => ": Awaiting approval"
    case _ => ": Configuration error"
  }

  function Suggestion(reason: ImpossibilityReason): string
  {
    match reason
    case ApiKeyMissing => "Configure API key in settings"
    case ModelUnavailable => "Try another provider or wait for service restoration"
    case FreeModeLocked => "Enable paid models in settings (⚠️ billing risk)"
    case EndpointUnreachable => "Check internet connection or try another provider"
    case QuotaExceeded => "Wait for quota reset or upgrade plan"
    case RequiresApproval => "Check email for approval status"
    case _ => "Check configuration and try again"
  }

  function CanResolve(reason: ImpossibilityReason): bool
  {
    match reason
    case ModelUnavailable => false
    case _ => true
  }

  function ResolutionSteps(reason: ImpossibilityReason): seq<string>
  {
    match reason
    case ApiKeyMissing => ["Go to Settings", "Add API key for provider", "Lock key to save"]
    case ModelUnavailable => []
    case FreeModeLocked => ["Go to Settings", "Toggle 'Allow Paid Models'", "Verify billing protection"]
    case EndpointUnreachable => ["Verify internet connection", "Check provider status page", "Try alternative provider"]
    case QuotaExceeded => ["Wait for quota reset", "Check provider dashboard", "Consider upgrading"]
    case RequiresApproval => ["Check email (including spam)", "Wait 1-2 business days", "Contact provider support if delayed"]
    case _ => ["Review provider configuration", "Verify all settings", "Restart HUD if needed"]
  }

  function CreateImpossibility(s: Solution, freeMode: bool): Impossibility
  {
    Describe(PrimaryReason(s, freeMode), s.name)
  }

  /**
   * Only `ModelUnavailable` cannot be resolved; every other reason comes with
   * three resolution steps.
   */
  lemma DescribeResolvable(reason: ImpossibilityReason, name: string)
    ensures Describe(reason, name).canBeResolved <==> reason != ModelUnavailable
    ensures |Describe(reason, name).resolutionSteps| == if reason == ModelUnavailable then 0 else 3
    ensures Describe(reason, name).reason == reason <==>
      reason in {ApiKeyMissing, ModelUnavailable, FreeModeLocked, EndpointUnreachable,
                 QuotaExceeded, RequiresApproval, ConfigurationError}
  {
    var i := Describe(reason, name);
    assert i.reason == Reported(reason) && i.canBeResolved == CanResolve(reason);
    assert i.resolutionSteps == ResolutionSteps(reason);
    StepsCount(reason);
    ReportedOwnBranch(reason);
  }

  lemma ReportedOwnBranch(reason: ImpossibilityReason)
    ensures Reported(reason) == reason <==>
      reason in {ApiKeyMissing, ModelUnavailable, FreeModeLocked, EndpointUnreachable,
                 QuotaExceeded, RequiresApproval, ConfigurationError}
  {
    match reason
    case ApiKeyMissing =>
    case ModelUnavailable =>
    case FreeModeLocked =>
    case EndpointUnreachable =>
    case QuotaExceeded =>
    case RequiresApproval =>
    case ConfigurationError =>
    case _ => assert Reported(reason) == ConfigurationError;
  }

  lemma StepsCount(reason: ImpossibilityReason)
    ensures |ResolutionSteps(reason)| == if reason == ModelUnavailable then 0 else 3
  {
    var steps := ResolutionSteps(reason);
    match reason
    case ModelUnavailable =>
    case ApiKeyMissing => assert steps == [steps[0], steps[1], steps[2]];
    case FreeModeLocked => assert steps == [steps[0], steps[1], steps[2]];
    case EndpointUnreachable => assert steps == [steps[0], steps[1], steps[2]];
    case QuotaExceeded => assert steps == [steps[0], steps[1], steps[2]];
    case RequiresApproval => assert steps == [steps[0], steps[1], steps[2]];
    case _ => assert steps == [steps[0], steps[1], steps[2]];
  }

  /** The reason the solver reports for an eliminated candidate, decided from its flags. */
  function ExpectedReason(p: Possibility, freeOnly: bool, freeMode: bool): ImpossibilityReason
  {
    if !IsAvailable(p) || !IsAuthenticated(p) then ApiKeyMissing
    else if freeOnly && (!IsFree(p) || RequiresPayment(p)) then
      (if freeMode then FreeModeLocked else if !IsHealthy(p) then EndpointUnreachable else ConfigurationError)
    else if IsQuotaExceeded(p) then
      (if !IsFree(p) && freeMode then FreeModeLocked
       else if !IsHealthy(p) then EndpointUnreachable else QuotaExceeded)
    else if IsAwaitingApproval(p) then
      (if !IsFree(p) && freeMode then FreeModeLocked
       else if !IsHealthy(p) then EndpointUnreachable else RequiresApproval)
    else
      (if !IsFree(p) && freeMode then FreeModeLocked else EndpointUnreachable)
  }

  /**
   * The reason each eliminated candidate is reported with. An unavailable
   * candidate is reported as a missing API key, because its solution has
   * `is_authenticated` false and that is checked first, so `ModelUnavailable`
   * is never reported.
   */
  lemma ReasonOfEliminated(p: Possibility, freeOnly: bool, freeMode: bool)
    requires !Admissible(p, freeOnly)
    ensures PrimaryReason(Evaluate(p, freeOnly), freeMode) == ExpectedReason(p, freeOnly, freeMode)
    ensures PrimaryReason(Evaluate(p, freeOnly), freeMode) != ModelUnavailable
    ensures CreateImpossibility(Evaluate(p, freeOnly), freeMode).canBeResolved
  {
    var s := Evaluate(p, freeOnly);
    var quota := "Quota exceeded";
    var approval := "Awaiting manual approval";
    if !IsAvailable(p) || !IsAuthenticated(p) {
      assert !s.isAuthenticated;
    } else if freeOnly && (!IsFree(p) || RequiresPayment(p)) {
      assert s.limitations == ["Premium/paid model in free-only mode"] && !s.isFree;
      assert quota !in s.limitations && approval !in s.limitations;
    } else if IsQuotaExceeded(p) {
      assert s.limitations == [quota];
    } else if IsAwaitingApproval(p) {
      assert s.limitations == [approval];
      assert quota !in s.limitations;
    } else {
      assert s.limitations == ["Endpoint unreachable"] && !s.isHealthy;
    }
    DescribeResolvable(PrimaryReason(s, freeMode), s.name);
  }

  // ---------------------------------------------------------------------------
  // Ranking.

  /** `_rank_solutions`' key `(tier, -score)`, turned into a descending key. */
  function RankKey(s: Solution): SortKey
  {
    SortKey(-(Tier(s.viability) as real), s.score)
  }

  function Rank(solutions: seq<Solution>): seq<Solution>
  {
    SortDesc(solutions, RankKey)
  }

  /** Solution `a` may come before `b` in the ranking: lower tier, or same tier and no lower score. */
  predicate RankedBefore(a: Solution, b: Solution)
  {
    Tier(a.viability) < Tier(b.viability)
    || (Tier(a.viability) == Tier(b.viability) && a.score >= b.score)
  }

  /**
   * The ranking is a permutation of its input, ordered by tier and then by
   * score descending, and stable among solutions with the same tier and score.
   */
  lemma RankOrders(solutions: seq<Solution>)
    ensures multiset(Rank(solutions)) == multiset(solutions)
    ensures forall i, j :: 0 <= i < j < |solutions| ==> RankedBefore(Rank(solutions)[i], Rank(solutions)[j])
    ensures forall k :: WithKey(Rank(solutions), RankKey, k) == WithKey(solutions, RankKey, k)
  {
    SortDescPermutes(solutions, RankKey);
    SortDescSorted(solutions, RankKey);
    forall k { SortDescStable(solutions, RankKey, k); }
  }

  // ---------------------------------------------------------------------------
  // Solving.

  /** The solutions `solve` keeps, in input order, before ranking. */
  function Survivors(ps: seq<Possibility>, freeOnly: bool): seq<Solution>
  {
    if ps == [] then []
    else
      var s := Evaluate(ps[|ps| - 1], freeOnly);
      Survivors(ps[..|ps| - 1], freeOnly) + (if s.IsViable() then [s] else [])
  }

  /** The impossibilities `solve` records, in input order. */
  function Eliminated(ps: seq<Possibility>, freeOnly: bool, freeMode: bool): seq<Impossibility>
  {
    if ps == [] then []
    else
      var s := Evaluate(ps[|ps| - 1], freeOnly);
      Eliminated(ps[..|ps| - 1], freeOnly, freeMode)
        + (if s.IsViable() then [] else [CreateImpossibility(s, freeMode)])
  }

  /**
   * Every candidate lands in exactly one output list, no kept solution is
   * impossible, unavailable or unauthenticated, and under free-only mode every
   * kept solution is free.
   */
  lemma {:induction false} SolvePartitions(ps: seq<Possibility>, freeOnly: bool, freeMode: bool)
    ensures |Survivors(ps, freeOnly)| + |Eliminated(ps, freeOnly, freeMode)| == |ps|
    ensures forall s :: s in Survivors(ps, freeOnly) ==>
      s.IsViable() && s.isAvailable && s.isAuthenticated && (freeOnly ==> s.isFree)
    ensures forall i :: 0 <= i < |Eliminated(ps, freeOnly, freeMode)| ==>
      Eliminated(ps, freeOnly, freeMode)[i].canBeResolved
  {
    if ps != [] {
      var init, last := ps[..|ps| - 1], ps[|ps| - 1];
      var s := Evaluate(last, freeOnly);
      SolvePartitions(init, freeOnly, freeMode);
      EvaluateViableIff(last, freeOnly);
      if Admissible(last, freeOnly) {
        EvaluateSurvivor(last, freeOnly);
        assert Survivors(ps, freeOnly) == Survivors(init, freeOnly) + [s];
        assert Eliminated(ps, freeOnly, freeMode) == Eliminated(init, freeOnly, freeMode);
      } else {
        ReasonOfEliminated(last, freeOnly, freeMode);
        assert Survivors(ps, freeOnly) == Survivors(init, freeOnly);
        assert Eliminated(ps, freeOnly, freeMode)
            == Eliminated(init, freeOnly, freeMode) + [CreateImpossibility(s, freeMode)];
      }
    }
  }

  /** A kept solution comes from a candidate that passes every elimination check. */
  lemma {:induction false} SurvivorsAdmissible(ps: seq<Possibility>, freeOnly: bool, s: Solution)
    requires s in Survivors(ps, freeOnly)
    ensures exists p :: p in ps && Admissible(p, freeOnly) && s == Evaluate(p, freeOnly)
  {
    var last := ps[|ps| - 1];
    if s in Survivors(ps[..|ps| - 1], freeOnly) {
      SurvivorsAdmissible(ps[..|ps| - 1], freeOnly, s);
      var p :| p in ps[..|ps| - 1] && Admissible(p, freeOnly) && s == Evaluate(p, freeOnly);
      assert p in ps;
    } else {
      EvaluateViableIff(last, freeOnly);
      assert last in ps;
    }
  }

  datatype Action =
    | AutoSelect | ChooseFromOptimal | ChooseWithCompromises
    | Error | GuideResolution | SuggestModeChange

  /**
   * The structured part of a recommendation: what to do, the solution to
   * select automatically, and for `GuideResolution` the impossibility whose
   * message, suggestion and steps are shown.
   */
  datatype Recommendation = Recommendation(action: Action, autoSelect: Option<Solution>,
                                           primary: Option<Impossibility>)

  function FirstResolvable(imps: seq<Impossibility>): Option<Impossibility>
  {
    if imps == [] then None
    else if imps[0].canBeResolved then Some(imps[0])
    else FirstResolvable(imps[1..])
  }

  function Optimals(solutions: seq<Solution>): seq<Solution>
  {
    if solutions == [] then []
    else (if solutions[0].viability == Optimal then [solutions[0]] else []) + Optimals(solutions[1..])
  }

  /** `_handle_no_solutions`. */
  function HandleNoSolutions(imps: seq<Impossibility>): Recommendation
  {
    if imps == [] then Recommendation(Error, None, None)
    else
      match FirstResolvable(imps)
      case Some(primary) => Recommendation(GuideResolution, None, Some(primary))
      case None => Recommendation(SuggestModeChange, None, None)
  }

  lemma {:induction false} FirstResolvableIsFirst(imps: seq<Impossibility>)
    ensures FirstResolvable(imps).Some? <==> exists i :: 0 <= i < |imps| && imps[i].canBeResolved
    ensures FirstResolvable(imps).Some? ==>
      exists i :: (0 <= i < |imps| && imps[i] == FirstResolvable(imps).value
                   && imps[i].canBeResolved && forall j :: 0 <= j < i ==> !imps[j].canBeResolved)
  {
    if imps != [] && !imps[0].canBeResolved {
      FirstResolvableIsFirst(imps[1..]);
      if FirstResolvable(imps[1..]).Some? {
        var i :| 0 <= i < |imps[1..]| && imps[1..][i] == FirstResolvable(imps).value
          && imps[1..][i].canBeResolved && forall j :: 0 <= j < i ==> !imps[1..][j].canBeResolved;
        assert imps[i + 1] == imps[1..][i];
        assert forall j :: 1 <= j <= i ==> imps[j] == imps[1..][j - 1];
      }
      if exists i :: 0 <= i < |imps| && imps[i].canBeResolved {
        var i :| 0 <= i < |imps| && imps[i].canBeResolved;
        assert imps[1..][i - 1] == imps[i];
      }
    } else if imps != [] {
      assert imps[0] == FirstResolvable(imps).value;
    }
  }

  lemma {:induction false} OptimalsAreOptimal(solutions: seq<Solution>)
    ensures forall s :: s in Optimals(solutions) <==> s in solutions && s.viability == Optimal
  {
    if solutions != [] {
      OptimalsAreOptimal(solutions[1..]);
      assert solutions == [solutions[0]] + solutions[1..];
    }
  }

  /** `i` is the one index of `solutions` whose solution is OPTIMAL. */
  predicate SingleOptimalAt(solutions: seq<Solution>, i: int)
  {
    && 0 <= i < |solutions| && solutions[i].viability == Optimal
    && forall j :: 0 <= j < |solutions| && j != i ==> solutions[j].viability != Optimal
  }

  /** There is exactly one optimal solution exactly when exactly one index holds one, and it is that one. */
  lemma {:induction false} OptimalsSingle(solutions: seq<Solution>)
    ensures |Optimals(solutions)| == 1 <==> exists i :: SingleOptimalAt(solutions, i)
    ensures forall i :: SingleOptimalAt(solutions, i) ==> Optimals(solutions) == [solutions[i]]
  {
    if solutions != [] {
      var rest := solutions[1..];
      OptimalsSingle(rest);
      OptimalsAreOptimal(rest);
      assert forall j :: 1 <= j < |solutions| ==> solutions[j] == rest[j - 1];
      if solutions[0].viability == Optimal {
        if Optimals(rest) == [] {
          forall j | 0 <= j < |solutions| && j != 0 ensures solutions[j].viability != Optimal {
            assert rest[j - 1] in rest;
          }
          assert SingleOptimalAt(solutions, 0);
        } else {
          assert Optimals(rest)[0] in Optimals(rest);
          assert !SingleOptimalAt(solutions, 0);
        }
        forall i | SingleOptimalAt(solutions, i) ensures i == 0 {
        }
      } else {
        forall i | SingleOptimalAt(solutions, i) ensures SingleOptimalAt(rest, i - 1) {
          forall j | 0 <= j < |rest| && j != i - 1 ensures rest[j].viability != Optimal {
            assert rest[j] == solutions[j + 1];
          }
        }
        forall i | SingleOptimalAt(rest, i) ensures SingleOptimalAt(solutions, i + 1) {
        }
      }
    }
  }

  /** `get_recommendation` of a solver built with `auto_select_single` as given. */
  function Recommend(autoSelectSingle: bool, solutions: seq<Solution>, imps: seq<Impossibility>): Recommendation
  {
    if solutions == [] then HandleNoSolutions(imps)
    else if |solutions| == 1 && autoSelectSingle then
      Recommendation(AutoSelect, Some(solutions[0]), None)
    else
      var optimal := Optimals(solutions);
      if optimal != [] then
        Recommendation(ChooseFromOptimal,
                       if |optimal| == 1 && autoSelectSingle then Some(optimal[0]) else None, None)
      else Recommendation(ChooseWithCompromises, None, None)
  }

  /**
   * The recommendation rules, each action with the exact condition that
   * selects it: `Error` only when there is nothing at all; guidance from
   * the first resolvable impossibility, and a mode change when none is
   * resolvable; the lone solution selected automatically when allowed;
   * otherwise a choice among the optimal solutions when there are any,
   * selecting one automatically exactly when it is the only optimal one
   * and that is allowed, and a choice with compromises when there are none.
   */
  lemma RecommendationRules(autoSelectSingle: bool, solutions: seq<Solution>, imps: seq<Impossibility>)
    ensures var r := Recommend(autoSelectSingle, solutions, imps);
      var several := solutions != [] && !(|solutions| == 1 && autoSelectSingle);
      && (r.action == Error <==> solutions == [] && imps == [])
      && (r.action == GuideResolution <==>
            solutions == [] && exists i :: 0 <= i < |imps| && imps[i].canBeResolved)
      && (r.action == GuideResolution ==>
            exists i :: (0 <= i < |imps| && imps[i] == r.primary.value
                         && imps[i].canBeResolved && forall j :: 0 <= j < i ==> !imps[j].canBeResolved))
      && (r.action != GuideResolution ==> r.primary.None?)
      && (r.action == SuggestModeChange <==>
            solutions == [] && imps != [] && forall i :: 0 <= i < |imps| ==> !imps[i].canBeResolved)
      && (r.autoSelect.Some? ==> autoSelectSingle && r.autoSelect.value in solutions)
      && (r.action == AutoSelect <==> |solutions| == 1 && autoSelectSingle)
      && (r.action == AutoSelect ==> r.autoSelect == Some(solutions[0]))
      && (r.action == ChooseFromOptimal <==> several && exists s :: s in solutions && s.viability == Optimal)
      && (r.action == ChooseWithCompromises <==> several && forall s :: s in solutions ==> s.viability != Optimal)
      && (r.action == ChooseFromOptimal ==>
            (r.autoSelect.Some? <==> autoSelectSingle && exists i :: SingleOptimalAt(solutions, i)))
      && (r.action == ChooseFromOptimal ==>
            forall i :: SingleOptimalAt(solutions, i) && autoSelectSingle ==> r.autoSelect == Some(solutions[i]))
      && (r.action != AutoSelect && r.action != ChooseFromOptimal ==> r.autoSelect.None?)
  {
    FirstResolvableIsFirst(imps);
    OptimalsAreOptimal(solutions);
    OptimalsSingle(solutions);
    var optimal := Optimals(solutions);
    if optimal != [] {
      assert optimal[0] in optimal;
    }
    if solutions == [] && imps != [] && FirstResolvable(imps).None? {
      forall i | 0 <= i < |imps| ensures !imps[i].canBeResolved {
      }
    }
  }

  /**
   * What `solve` followed by `get_recommendation` can advise: given at least
   * one candidate there is never the `Error` action, and because every
   * reported impossibility is resolvable, never `SuggestModeChange` either.
   */
  lemma NoDeadEnd(freeMode: bool, autoSelectSingle: bool, possibilities: seq<Possibility>, requestedFreeOnly: bool)
    requires possibilities != []
    ensures var freeOnly := freeMode || requestedFreeOnly;
      var r := Recommend(autoSelectSingle, Rank(Survivors(possibilities, freeOnly)),
                         Eliminated(possibilities, freeOnly, freeMode));
      r.action != Error && r.action != SuggestModeChange
  {
    var freeOnly := freeMode || requestedFreeOnly;
    var sols := Rank(Survivors(possibilities, freeOnly));
    var imps := Eliminated(possibilities, freeOnly, freeMode);
    SolvePartitions(possibilities, freeOnly, freeMode);
    RankOrders(Survivors(possibilities, freeOnly));
    assert |sols| == |Survivors(possibilities, freeOnly)|;
    RecommendationRules(autoSelectSingle, sols, imps);
    if sols == [] {
      assert imps[0].canBeResolved;
    }
  }

  class Solver {
    const freeMode: bool
    /** Stored by the constructor; no operation reads it. */
    const strictMode: bool
    const autoSelectSingle: bool
    var impossibilities: seq<Impossibility>
    var lastEvaluation: Option<int>

    constructor (freeMode: bool, strictMode: bool, autoSelectSingle: bool)
      ensures this.freeMode == freeMode && this.strictMode == strictMode
      ensures this.autoSelectSingle == autoSelectSingle
      ensures impossibilities == [] && lastEvaluation == None
    {
      this.freeMode := freeMode;
      this.strictMode := strictMode;
      this.autoSelectSingle := autoSelectSingle;
      impossibilities := [];
      lastEvaluation := None;
    }

    /**
     * `solve`: `requestedFreeOnly` is the caller's `constraints['free_only']`
     * (false when absent), `now` the clock reading stored as the evaluation time.
     */
    method Solve(possibilities: seq<Possibility>, requestedFreeOnly: bool, now: int)
      returns (solutions: seq<Solution>, imps: seq<Impossibility>)
      modifies this
      ensures var freeOnly := freeMode || requestedFreeOnly;
        solutions == Rank(Survivors(possibilities, freeOnly))
        && imps == Eliminated(possibilities, freeOnly, freeMode)
      ensures impossibilities == imps && lastEvaluation == Some(now)
    {
      impossibilities := [];
      var kept: seq<Solution> := [];
      var freeOnly := requestedFreeOnly;
      if freeMode {
        freeOnly := true;
      }
      for i := 0 to |possibilities|
        invariant kept == Survivors(possibilities[..i], freeOnly)
        invariant impossibilities == Eliminated(possibilities[..i], freeOnly, freeMode)
      {
        var solution := Evaluate(possibilities[i], freeOnly);
        assert possibilities[..i + 1][..i] == possibilities[..i];
        if solution.IsViable() {
          kept := kept + [solution];
        } else {
          impossibilities := impossibilities + [CreateImpossibility(solution, freeMode)];
        }
      }
      assert possibilities[..|possibilities|] == possibilities;
      solutions := Rank(kept);
      lastEvaluation := Some(now);
      imps := impossibilities;
    }

    /** `get_recommendation`. */
    function GetRecommendation(solutions: seq<Solution>, imps: seq<Impossibility>): Recommendation
    {
      Recommend(autoSelectSingle, solutions, imps)
    }
  }

  /**
   * `holmesian_autocorrect`: solve with no extra constraints, then recommend
   * with `auto_select_single` set, so `RecommendationRules` describes the
   * recommendation.
   */
  method Autocorrect(possibilities: seq<Possibility>, freeMode: bool, strictMode: bool, now: int)
    returns (solutions: seq<Solution>, recommendation: Recommendation)
    ensures solutions == Rank(Survivors(possibilities, freeMode))
    ensures recommendation == Recommend(true, solutions, Eliminated(possibilities, freeMode, freeMode))
    ensures possibilities != [] ==> recommendation.action != Error && recommendation.action != SuggestModeChange
  {
    var solver := new Solver(freeMode, strictMode, true);
    var imps;
    solutions, imps := solver.Solve(possibilities, false, now);
    recommendation := solver.GetRecommendation(solutions, imps);
    if possibilities != [] {
      NoDeadEnd(freeMode, true, possibilities, false);
    }
  }
}
