/**
 * The decisions the enterprise user service takes on top of the base user service:
 * the default timeout, extra resources, the licence seat check at sign-up, the
 * terms-of-service checks and automatic open-source eligibility.
 *
 * The collaborators it injects (licence evaluator, eligibility service, user
 * database, allow-list database, host-context provider) appear as plain values:
 * records of functions, or the answer they gave.
 */
module UserServiceEE {
  import opened Results
  import opened WorkspaceTimeouts

  /** The part of the server configuration the service reads. */
  datatype Config = Config(enablePayment: bool, workspaceDefaults: WorkspaceDefaults)

  /** A licensed feature; only the timeout feature is consulted here. */
  datatype Feature = FeatureSetTimeout | OtherFeature(name: string)

  /** The licence evaluator, as the two questions the service asks it. */
  datatype LicenseEvaluator = LicenseEvaluator(
    isEnabled: (Feature, nat) -> bool,
    hasEnoughSeats: nat -> bool)

  /** One login of a user with an authentication provider. */
  datatype Identity = Identity(authProviderId: string, authName: string)

  datatype User = User(id: string, identities: seq<Identity>)

  /** The SaaS eligibility service; a date is a number of milliseconds. */
  datatype EligibilityService = EligibilityService(
    defaultWorkspaceTimeout: (User, int) -> WorkspaceTimeout,
    userGetsMoreResources: User -> bool)

  /** `getDefaultWorkspaceTimeout`; `userCount` is what the user database reports. */
  function DefaultWorkspaceTimeout(
    config: Config, eligibility: EligibilityService, license: LicenseEvaluator,
    userCount: nat, user: User, date: int): (r: WorkspaceTimeout)
    ensures config.enablePayment ==> r == eligibility.defaultWorkspaceTimeout(user, date)
    ensures !config.enablePayment ==> r == DefaultShort || r == DefaultLong
    ensures !config.enablePayment ==>
              (r == DefaultLong <==> license.isEnabled(FeatureSetTimeout, userCount))
  {
    if config.enablePayment then eligibility.defaultWorkspaceTimeout(user, date)
    else if !license.isEnabled(FeatureSetTimeout, userCount) then DefaultShort
    else DefaultLong
  }

  /** `userGetsMoreResources`: only the SaaS deployment grants more resources. */
  function UserGetsMoreResources(config: Config, eligibility: EligibilityService, user: User): (r: bool)
    ensures !config.enablePayment ==> !r
    ensures config.enablePayment ==> r == eligibility.userGetsMoreResources(user)
  {
    config.enablePayment && eligibility.userGetsMoreResources(user)
  }

  /** The exception a failed check throws; its payload is not modelled. */
  datatype AuthException = AuthException(title: string, message: string)

  /** Whether a check passed or threw. */
  datatype CheckOutcome = Passed | Thrown(exception: AuthException)

  const SignUpRefusedTitle: string := "Cannot sign up"
  const SeatLimitMessage: string := "Maximum number of users permitted by the license exceeded"

  /** A run of `checkSignUp`: its outcome and whether the base checks were reached. */
  datatype SignUpRun = SignUpRun(outcome: CheckOutcome, baseChecked: bool)

  /**
   * `checkSignUp`: the licence must have a seat for the current user count
   * before the base service's own checks run.
   */
  function CheckSignUp<P>(
    license: LicenseEvaluator, userCount: nat, params: P, baseCheckSignUp: P -> CheckOutcome): (r: SignUpRun)
    ensures r.baseChecked <==> license.hasEnoughSeats(userCount)
    ensures !license.hasEnoughSeats(userCount) ==>
              r.outcome == Thrown(AuthException(SignUpRefusedTitle, SeatLimitMessage))
    ensures license.hasEnoughSeats(userCount) ==> r.outcome == baseCheckSignUp(params)
    ensures r.outcome.Passed? ==> license.hasEnoughSeats(userCount) && baseCheckSignUp(params).Passed?
  {
    if !license.hasEnoughSeats(userCount) then
      SignUpRun(Thrown(AuthException(SignUpRefusedTitle, SeatLimitMessage)), false)
    else
      SignUpRun(baseCheckSignUp(params), true)
  }

  /** `checkTermsAcceptanceRequired`: terms of service are never demanded at login. */
  function TermsAcceptanceRequired<P>(params: P): (r: bool)
    ensures !r
  {
    false
  }

  /** `checkTermsAccepted`: API calls never fail for want of accepted terms. */
  function TermsAccepted(user: User): (r: bool)
    ensures r
  {
    true
  }

  /** What the host-context provider knows of an auth provider. */
  datatype AuthProviderInfo = AuthProviderInfo(host: string)

  /** The label `host/authName` of an identity whose auth provider is known. */
  function IdentityLabel(info: AuthProviderInfo, id: Identity): string {
    info.host + "/" + id.authName
  }

  /**
   * The callback of the `map` in `checkAutomaticOssEligibility`: the label of
   * the identity, or undefined when no host context has its auth provider.
   */
  function LabelOrUndefined(findByAuthProviderId: string -> Option<AuthProviderInfo>, id: Identity): Option<string> {
    match findByAuthProviderId(id.authProviderId)
    case None => None
    case Some(info) => Some(IdentityLabel(info, id))
  }

  /** `identities.map(...)`: one entry per identity, in order. */
  function MapLabels(findByAuthProviderId: string -> Option<AuthProviderInfo>, ids: seq<Identity>): (r: seq<Option<string>>)
    ensures |r| == |ids|
    ensures forall k :: 0 <= k < |ids| ==> r[k] == LabelOrUndefined(findByAuthProviderId, ids[k])
  {
    if |ids| == 0 then []
    else [LabelOrUndefined(findByAuthProviderId, ids[0])] + MapLabels(findByAuthProviderId, ids[1..])
  }

  /** JavaScript truthiness of an optional string. */
  predicate Truthy(x: Option<string>) {
    x.Some? && x.value != ""
  }

  /** `.filter((i) => !!i)`: keeps the truthy entries, in order. */
  function KeepTruthy(xs: seq<Option<string>>): (r: seq<string>)
    ensures |r| <= |xs|
    ensures forall s :: s in r <==> Some(s) in xs && s != ""
    ensures |xs| == 1 ==> r == if Truthy(xs[0]) then [xs[0].value] else []
  {
    if |xs| == 0 then []
    else if Truthy(xs[0]) then [xs[0].value] + KeepTruthy(xs[1..])
    else KeepTruthy(xs[1..])
  }

  /**
   * The filter keeps order and multiplicity: filtering a concatenation is
   * concatenating the filtered parts.
   */
  lemma {:induction false} KeepTruthyAppend(xs: seq<Option<string>>, ys: seq<Option<string>>)
    ensures KeepTruthy(xs + ys) == KeepTruthy(xs) + KeepTruthy(ys)
    decreases |xs|
  {
    if |xs| > 0 {
      assert (xs + ys)[0] == xs[0];
      assert (xs + ys)[1..] == xs[1..] + ys;
      KeepTruthyAppend(xs[1..], ys);
    } else {
      assert xs + ys == ys;
    }
  }

  /**
   * The list `checkAutomaticOssEligibility` hands to the allow list: every
   * entry is the label of one of the identities.
   */
  function IdsWithHost(findByAuthProviderId: string -> Option<AuthProviderInfo>, ids: seq<Identity>): (r: seq<string>)
    ensures |r| <= |ids|
    ensures forall s :: s in r ==>
              exists k :: 0 <= k < |ids| && LabelOrUndefined(findByAuthProviderId, ids[k]) == Some(s)
  {
    var labels := MapLabels(findByAuthProviderId, ids);
    var r := KeepTruthy(labels);
    assert forall s :: s in r ==> exists k :: 0 <= k < |ids| && LabelOrUndefined(findByAuthProviderId, ids[k]) == Some(s) by {
      forall s | s in r
        ensures exists k :: 0 <= k < |ids| && LabelOrUndefined(findByAuthProviderId, ids[k]) == Some(s)
      {
        var k :| 0 <= k < |labels| && labels[k] == Some(s);
        assert LabelOrUndefined(findByAuthProviderId, ids[k]) == Some(s);
      }
    }
    r
  }

  /**
   * Reference definition: the labels of the identities whose auth provider is
   * known, in identity order; the others are skipped.
   */
  function KnownLabels(findByAuthProviderId: string -> Option<AuthProviderInfo>, ids: seq<Identity>): (r: seq<string>)
    ensures |r| <= |ids|
    ensures forall s :: s in r <==>
              exists k :: 0 <= k < |ids| && LabelOrUndefined(findByAuthProviderId, ids[k]) == Some(s)
  {
    if |ids| == 0 then []
    else
      var rest := KnownLabels(findByAuthProviderId, ids[1..]);
      assert forall k :: 1 <= k < |ids| ==> ids[k] == ids[1..][k - 1];
      assert forall s :: s in rest ==>
               exists k :: 0 <= k < |ids| && LabelOrUndefined(findByAuthProviderId, ids[k]) == Some(s) by {
        forall s | s in rest
          ensures exists k :: 0 <= k < |ids| && LabelOrUndefined(findByAuthProviderId, ids[k]) == Some(s)
        {
          var j :| 0 <= j < |ids[1..]| && LabelOrUndefined(findByAuthProviderId, ids[1..][j]) == Some(s);
          assert LabelOrUndefined(findByAuthProviderId, ids[j + 1]) == Some(s);
        }
      }
      match findByAuthProviderId(ids[0].authProviderId)
      case None => rest
      case Some(info) => [IdentityLabel(info, ids[0])] + rest
  }

  /** A label always contains the separating slash, so it is never falsy. */
  lemma LabelIsTruthy(findByAuthProviderId: string -> Option<AuthProviderInfo>, id: Identity)
    ensures LabelOrUndefined(findByAuthProviderId, id).Some? ==> Truthy(LabelOrUndefined(findByAuthProviderId, id))
  {
  }

  /**
   * The map-then-filter of the source computes exactly the reference list: the
   * identities with an unknown auth provider are dropped and nothing else is,
   * and the order of the identities is kept.
   */
  lemma {:induction false} IdsWithHostAreKnownLabels(findByAuthProviderId: string -> Option<AuthProviderInfo>, ids: seq<Identity>)
    ensures IdsWithHost(findByAuthProviderId, ids) == KnownLabels(findByAuthProviderId, ids)
    decreases |ids|
  {
    if |ids| > 0 {
      var labels := MapLabels(findByAuthProviderId, ids);
      assert labels[1..] == MapLabels(findByAuthProviderId, ids[1..]);
      LabelIsTruthy(findByAuthProviderId, ids[0]);
      IdsWithHostAreKnownLabels(findByAuthProviderId, ids[1..]);
    }
  }

  /** `checkAutomaticOssEligibility`; `hasAny` is the allow-list database's query. */
  function CheckAutomaticOssEligibility(
    user: User, findByAuthProviderId: string -> Option<AuthProviderInfo>, hasAny: seq<string> -> bool): (r: bool)
    ensures r == hasAny(KnownLabels(findByAuthProviderId, user.identities))
  {
    IdsWithHostAreKnownLabels(findByAuthProviderId, user.identities);
    hasAny(IdsWithHost(findByAuthProviderId, user.identities))
  }

  /**
   * With an allow list that answers `hasAny` by membership, a user is eligible
   * exactly when one of their identities with a known auth provider has its
   * `host/authName` on the list.
   */
  lemma OssEligibilityByAllowList(
    user: User, findByAuthProviderId: string -> Option<AuthProviderInfo>, allowed: set<string>)
    ensures CheckAutomaticOssEligibility(user, findByAuthProviderId,
                                         xs => exists k :: 0 <= k < |xs| && xs[k] in allowed)
            <==> (exists j, s :: 0 <= j < |user.identities| && s in allowed &&
                                 LabelOrUndefined(findByAuthProviderId, user.identities[j]) == Some(s))
  {
    var ids := user.identities;
    var known := KnownLabels(findByAuthProviderId, ids);
    if exists k :: 0 <= k < |known| && known[k] in allowed {
      var k :| 0 <= k < |known| && known[k] in allowed;
      assert known[k] in known;
    }
    if exists j, s :: 0 <= j < |ids| && s in allowed && LabelOrUndefined(findByAuthProviderId, ids[j]) == Some(s) {
      var j, s :| 0 <= j < |ids| && s in allowed && LabelOrUndefined(findByAuthProviderId, ids[j]) == Some(s);
      assert s in known;
      var k :| 0 <= k < |known| && known[k] == s;
    }
  }
}
