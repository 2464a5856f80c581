/** Provisioning and update parameters and the ERS context (internal/dto.go). */
module Parameters {
  import opened Wrappers

  datatype AutoScaler = AutoScaler(
    min: Option<int>,
    max: Option<int>,
    maxSurge: Option<int>,
    maxUnavailable: Option<int>)

  /** The autoscaler limits a plan brings when a request leaves them out. */
  datatype Bounds = Bounds(min: int, max: int)

  datatype Oidc = Oidc(
    clientID: string,
    groupsClaim: string,
    issuerURL: string,
    signingAlgs: seq<string>,
    usernameClaim: string,
    usernamePrefix: string)

  type Credentials = string

  datatype ErsContext = ErsContext(
    tenantID: string,
    subAccountID: string,
    globalAccountID: string,
    userID: string,
    credentials: Option<Credentials>,
    active: Option<bool>,
    commercialModel: Option<string>,
    licenseType: Option<string>,
    origin: Option<string>,
    platform: Option<string>,
    region: Option<string>)

  /** `rest` stands for the fields that no modelled operation touches (name, zones, networking, ...). */
  datatype RuntimeParameters = RuntimeParameters(
    autoScaler: AutoScaler,
    targetSecret: Option<string>,
    licenceType: Option<string>,
    machineType: Option<string>,
    administrators: seq<string>,
    oidc: Option<Oidc>,
    rest: string)

  datatype ProvisioningParameters = ProvisioningParameters(
    planID: string,
    serviceID: string,
    ersContext: ErsContext,
    parameters: RuntimeParameters,
    platformRegion: string,
    platformProvider: string)

  datatype UpdatingParameters = UpdatingParameters(
    autoScaler: AutoScaler,
    oidc: Option<Oidc>,
    administrators: seq<string>,
    machineType: Option<string>)

  const NO_AUTOSCALER := AutoScaler(None, None, None, None)
  const NO_UPDATE := UpdatingParameters(NO_AUTOSCALER, None, [], None)

  // ----- autoscaler -----

  /** The limits that take effect: the user's value where given, the plan's default otherwise. */
  function Effective(a: AutoScaler, plan: Bounds): Bounds {
    Bounds(GetOr(a.min, plan.min), GetOr(a.max, plan.max))
  }

  /** True when the source's Validate returns no error. */
  predicate Validates(a: AutoScaler, plan: Bounds) {
    var e := Effective(a, plan);
    e.min <= e.max
  }

  function UpdateAutoScaler(u: AutoScaler, a: AutoScaler): AutoScaler {
    AutoScaler(FirstOf(u.min, a.min), FirstOf(u.max, a.max),
               FirstOf(u.maxSurge, a.maxSurge), FirstOf(u.maxUnavailable, a.maxUnavailable))
  }

  /** True when UpdateAutoScaler reports a change, that is, when any value was given. */
  predicate UpdatesAutoScaler(u: AutoScaler) {
    u.min.Some? || u.max.Some? || u.maxSurge.Some? || u.maxUnavailable.Some?
  }

  // ----- OIDC -----

  predicate OidcProvided(o: Option<Oidc>) {
    && o.Some?
    && (o.value.clientID != "" || o.value.issuerURL != "" || o.value.groupsClaim != ""
        || o.value.usernamePrefix != "" || o.value.usernameClaim != "" || o.value.signingAlgs != [])
  }

  // ----- ERS context -----

  function InheritMissing(current: ErsContext, previous: ErsContext): ErsContext {
    current.(credentials := FirstOf(current.credentials, previous.credentials),
    commercialModel := FirstOf(current.commercialModel, previous.commercialModel),
    licenseType := FirstOf(current.licenseType, previous.licenseType),
    origin := FirstOf(current.origin, previous.origin),
    platform := FirstOf(current.platform, previous.platform),
    region := FirstOf(current.region, previous.region))
  }

  function UpdateContext(instance: ErsContext, operation: ErsContext): ErsContext {
    instance.(credentials := FirstOf(operation.credentials, instance.credentials),
    commercialModel := FirstOf(operation.commercialModel, instance.commercialModel),
    licenseType := FirstOf(operation.licenseType, instance.licenseType),
    origin := FirstOf(operation.origin, instance.origin),
    platform := FirstOf(operation.platform, instance.platform),
    region := FirstOf(operation.region, instance.region))
  }

  predicate CarriesContextUpdate(e: ErsContext) {
    || e.credentials.Some? || e.commercialModel.Some? || e.licenseType.Some?
    || e.origin.Some? || e.platform.Some? || e.region.Some?
  }

  // ----- request equality -----

  /** The replay test. The target secret is cleared on the stored side only. */
  predicate IsEqual(stored: ProvisioningParameters, input: ProvisioningParameters) {
    && stored.planID == input.planID
    && stored.serviceID == input.serviceID
    && stored.platformRegion == input.platformRegion
    && stored.ersContext == input.ersContext
    && stored.parameters.(targetSecret := None, licenceType := None) == input.parameters.(licenceType := None)
  }

  /** Two requests that differ at most in target secret, licence type and platform provider. */
  predicate SameRequest(a: ProvisioningParameters, b: ProvisioningParameters) {
    a == b.(platformProvider := a.platformProvider,
    parameters := b.parameters.(targetSecret := a.parameters.targetSecret,
    licenceType := a.parameters.licenceType))
  }

  /** IsEqual is SameRequest exactly when the incoming request names no target secret. */
  lemma IsEqualExactly(stored: ProvisioningParameters, input: ProvisioningParameters)
    ensures IsEqual(stored, input) <==> input.parameters.targetSecret.None? && SameRequest(stored, input)
  {
    var s, i := stored.parameters, input.parameters;
    if IsEqual(stored, input) {
      assert i.(licenceType := None) == s.(targetSecret := None, licenceType := None);
      assert s == i.(targetSecret := s.targetSecret, licenceType := s.licenceType);
    }
    if i.targetSecret.None? && SameRequest(stored, input) {
      assert s.(targetSecret := None, licenceType := None) == i.(licenceType := None);
    }
  }

  // ----- what the checks mean -----

  /** Limits validate when the given or else default minimum is at most the given or else default maximum. */
  lemma ValidatesExactly(a: AutoScaler, plan: Bounds)
    ensures a.min.Some? && a.max.Some? ==> (Validates(a, plan) <==> a.min.value <= a.max.value)
    ensures a.min.Some? && a.max.None? ==> (Validates(a, plan) <==> a.min.value <= plan.max)
    ensures a.min.None? && a.max.Some? ==> (Validates(a, plan) <==> plan.min <= a.max.value)
    ensures a.min.None? && a.max.None? ==> (Validates(a, plan) <==> plan.min <= plan.max)
  {
  }

  /** OIDC is provided when any of its values is given. */
  lemma OidcProvidedExactly(o: Option<Oidc>)
    ensures OidcProvided(o) <==> o.Some? && o.value != Oidc("", "", "", [], "", "")
  {
  }

  /** A request carries a context update exactly when it can change some context. */
  lemma CarriesExactly(e: ErsContext)
    ensures CarriesContextUpdate(e) <==> exists c: ErsContext :: UpdateContext(c, e) != c
  {
    var blank := ErsContext("", "", "", "", None, None, None, None, None, None, None);
    if CarriesContextUpdate(e) {
      assert UpdateContext(blank, e) != blank;
    }
  }
}
