/**
 * The integration details page: how a stored record is turned into the view
 * the page shows (legacy-shaped, wizard-shaped, or the fallback sample when
 * the id is unknown), the per-environment client settings, the display
 * labels, and the presentation-configuration id.
 */
module IntegrationDetails {
  import opened Wrappers
  import opened Text
  import opened IntegrationWizard
  import ConfigurationStep
  import ReviewStep

  type Environment = ConfigurationStep.Environment

  // ---------------------------------------------------------------------------
  // The view

  /** The JSON block offered for copying. */
  datatype ClientJson = ClientJson(clientId: string, authority: string, redirectUri: string)

  datatype EnvironmentView = EnvironmentView(
    name: string,
    idps: seq<string>,
    ready: bool,
    clientId: string,
    redirectUris: seq<string>,
    json: ClientJson)

  /** What `loadIntegrationData` returns; fields a stored record may lack are options. */
  datatype IntegrationView = IntegrationView(
    id: string,
    requestId: Option<string>,
    name: Option<string>,
    status: string,
    ministry: Option<string>,
    userTypes: seq<string>,
    privacyZone: Option<string>,
    identityProviders: seq<string>,
    productOwner: Option<Contact>,
    technicalLead: Option<Contact>,
    clientType: string,
    clientProtocol: string,
    useCase: string,
    dataClassification: string,
    attributePackage: Option<string>,
    customAttributes: Option<seq<string>>,
    environments: seq<EnvironmentView>)

  /** Reading a section the record lacks throws a TypeError. */
  datatype LoadError = MissingSection(section: string)

  // ---------------------------------------------------------------------------
  // Wizard-shaped records

  /** The record was written by the wizard: it has both projectInfo and configuration. */
  predicate HasWizardData(rec: StoredRecord) {
    rec.projectInfo.Some? && rec.configuration.Some?
  }

  function EnvironmentName(e: Environment): string {
    match e
    case Development => DevelopmentName
    case Test => TestName
    case Production => ProductionName
  }

  /** The client-id prefix of each environment. */
  function ClientPrefix(e: Environment): string {
    match e
    case Development => "dev"
    case Test => "test"
    case Production => "prod"
  }

  function Authority(e: Environment): string {
    match e
    case Development => "https://dev.loginproxy.gov.bc.ca"
    case Test => "https://test.loginproxy.gov.bc.ca"
    case Production => "https://loginproxy.gov.bc.ca"
  }

  function IsEnabled(c: Configuration, e: Environment): bool {
    match e
    case Development => c.development
    case Test => c.test
    case Production => c.production
  }

  function SettingsOf(c: Configuration, e: Environment): EnvironmentConfig {
    match e
    case Development => c.developmentConfig
    case Test => c.testConfig
    case Production => c.productionConfig
  }

  /** `${prefix}-client-${id.slice(-6)}`. */
  function ClientId(prefix: string, id: string): (r: string)
    ensures |r| == |prefix| + 8 + Min(6, |id|)
    ensures r[..|prefix| + 8] == prefix + "-client-"
    ensures id == id[..|id| - Min(6, |id|)] + r[|prefix| + 8..]
  {
    prefix + "-client-" + Suffix(id, 6)
  }

  /** The entry pushed for one enabled environment of a wizard-shaped record. */
  function WizardEnvironment(e: Environment, c: Configuration, components: seq<string>, id: string)
    : (v: EnvironmentView)
    ensures v.name == EnvironmentName(e) && v.idps == components
    ensures v.ready <==> e != ConfigurationStep.Production
    ensures v.clientId == v.json.clientId
  {
    var uris := Split(SettingsOf(c, e).redirectUris, '\n');
    EnvironmentView(
      EnvironmentName(e),
      components,
      e != ConfigurationStep.Production,
      ClientId(ClientPrefix(e), id),
      uris,
      ClientJson(ClientId(ClientPrefix(e), id), Authority(e), uris[0]))
  }

  /** The enabled environments in Development, Test, Production order. */
  function EnabledEnvironments(c: Configuration): (es: seq<Environment>)
    ensures forall e :: e in es <==> IsEnabled(c, e)
    ensures |es| == |EnvironmentNames(c)|
    ensures forall i :: 0 <= i < |es| ==> EnvironmentName(es[i]) == EnvironmentNames(c)[i]
  {
    (if c.development then [ConfigurationStep.Development] else [])
    + (if c.test then [ConfigurationStep.Test] else [])
    + (if c.production then [ConfigurationStep.Production] else [])
  }

  /** The entries for the environments `es`, in order. */
  function EnvironmentViews(es: seq<Environment>, c: Configuration, components: seq<string>, id: string)
    : (vs: seq<EnvironmentView>)
    ensures |vs| == |es|
    ensures forall i :: 0 <= i < |es| ==> vs[i] == WizardEnvironment(es[i], c, components, id)
  {
    seq(|es|, i requires 0 <= i < |es| => WizardEnvironment(es[i], c, components, id))
  }

  /** The environment list of a wizard-shaped record. */
  function WizardEnvironments(c: Configuration, components: seq<string>, id: string): seq<EnvironmentView> {
    EnvironmentViews(EnabledEnvironments(c), c, components, id)
  }

  /** One more push is one more environment. */
  lemma PushEnvironment(es: seq<Environment>, e: Environment, c: Configuration, components: seq<string>, id: string)
    ensures EnvironmentViews(es + [e], c, components, id)
         == EnvironmentViews(es, c, components, id) + [WizardEnvironment(e, c, components, id)]
  {
    var vs := EnvironmentViews(es + [e], c, components, id);
    var ws := EnvironmentViews(es, c, components, id) + [WizardEnvironment(e, c, components, id)];
    assert |vs| == |ws|;
    forall i | 0 <= i < |vs|
      ensures vs[i] == ws[i]
    {
      if i < |es| {
        assert (es + [e])[i] == es[i];
      }
    }
  }

  /** `envList.push(...)` of the entry for `e`. */
  method PushEnvironmentView(envList: seq<EnvironmentView>, ghost pushed: seq<Environment>, e: Environment,
                             c: Configuration, components: seq<string>, id: string)
    returns (r: seq<EnvironmentView>)
    requires envList == EnvironmentViews(pushed, c, components, id)
    ensures r == EnvironmentViews(pushed + [e], c, components, id)
  {
    PushEnvironment(pushed, e, c, components, id);
    r := envList + [WizardEnvironment(e, c, components, id)];
  }

  /** The `envList` pushes. */
  method BuildEnvironmentList(c: Configuration, components: seq<string>, id: string)
    returns (envList: seq<EnvironmentView>)
    ensures envList == WizardEnvironments(c, components, id)
  {
    envList := [];
    ghost var pushed: seq<Environment> := [];
    if c.development {
      envList := PushEnvironmentView(envList, pushed, ConfigurationStep.Development, c, components, id);
      pushed := pushed + [ConfigurationStep.Development];
    }
    assert pushed == if c.development then [ConfigurationStep.Development] else [];
    if c.test {
      envList := PushEnvironmentView(envList, pushed, ConfigurationStep.Test, c, components, id);
      pushed := pushed + [ConfigurationStep.Test];
    }
    assert pushed == (if c.development then [ConfigurationStep.Development] else [])
                   + (if c.test then [ConfigurationStep.Test] else []);
    if c.production {
      envList := PushEnvironmentView(envList, pushed, ConfigurationStep.Production, c, components, id);
      pushed := pushed + [ConfigurationStep.Production];
    }
    assert pushed == EnabledEnvironments(c);
  }

  /** The view of a wizard-shaped record whose solution and requirements are present. */
  function WizardView(id: string, info: ProjectInfo, requirements: Requirements, solution: Solution,
                      c: Configuration): (v: IntegrationView)
    ensures v.id == id && v.status == "Active"
    ensures v.requestId.Some? && |v.requestId.value| == 4 + Min(4, |id|)
    ensures v.name == Some(info.productName) && v.userTypes == info.userTypes
    ensures v.identityProviders == solution.components
    ensures v.clientType == requirements.clientType && v.clientProtocol == requirements.clientProtocol
    ensures v.attributePackage == c.attributePackage && v.customAttributes.Some?
  {
    IntegrationView(
      id := id,
      requestId := Some("0000" + Suffix(id, 4)),
      name := Some(info.productName),
      status := "Active",
      ministry := Some(info.ministry),
      userTypes := info.userTypes,
      privacyZone := info.privacyZone,
      identityProviders := solution.components,
      productOwner := Some(Contact(info.productOwnerName, info.productOwnerEmail)),
      technicalLead := Some(Contact(info.technicalLeadName, info.technicalLeadEmail)),
      clientType := requirements.clientType,
      clientProtocol := requirements.clientProtocol,
      useCase := requirements.useCase,
      dataClassification := requirements.dataClassification,
      attributePackage := c.attributePackage,
      customAttributes := Some(c.selectedCustomAttributes.GetOr([])),
      environments := WizardEnvironments(c, solution.components, id))
  }

  // ---------------------------------------------------------------------------
  // Legacy-shaped records

  /** The entry mapped from one environment name of a legacy record. */
  function LegacyEnvironment(env: string, services: seq<string>, id: string): (v: EnvironmentView)
    ensures v.name == env && v.idps == services
    ensures v.ready <==> env != ProductionName
    ensures v.clientId == v.json.clientId == ClientId(Lower(env), id)
    ensures v.redirectUris == [v.json.redirectUri]
  {
    var lower := Lower(env);
    var uri := "https://" + lower + ".example.com/callback";
    EnvironmentView(
      env, services, env != ProductionName, ClientId(lower, id), [uri],
      ClientJson(ClientId(lower, id),
                 "https://" + (if env == ProductionName then "" else lower + ".") + "loginproxy.gov.bc.ca",
                 uri))
  }

  /**
   * A legacy Test or Production entry signs in at the same authority as a wizard-shaped one;
   * a legacy Development entry does not, because its host is the full lower-cased name.
   */
  lemma LegacyAuthorityAgainstWizard(services: seq<string>, id: string)
    ensures LegacyEnvironment(TestName, services, id).json.authority == Authority(ConfigurationStep.Test)
    ensures LegacyEnvironment(ProductionName, services, id).json.authority == Authority(ConfigurationStep.Production)
    ensures LegacyEnvironment(DevelopmentName, services, id).json.authority != Authority(ConfigurationStep.Development)
  {
    LegacyTestAuthority(services, id);
    LegacyProductionAuthority(services, id);
    LegacyDevelopmentAuthority(services, id);
  }

  lemma LegacyTestAuthority(services: seq<string>, id: string)
    ensures LegacyEnvironment(TestName, services, id).json.authority == Authority(ConfigurationStep.Test)
  {
    assert Lower(TestName) == "test";
    assert "https://" + ("test" + ".") + "loginproxy.gov.bc.ca" == "https://test.loginproxy.gov.bc.ca";
  }

  lemma LegacyProductionAuthority(services: seq<string>, id: string)
    ensures LegacyEnvironment(ProductionName, services, id).json.authority == Authority(ConfigurationStep.Production)
  {
    assert "https://" + "" + "loginproxy.gov.bc.ca" == "https://loginproxy.gov.bc.ca";
  }

  lemma LegacyDevelopmentAuthority(services: seq<string>, id: string)
    ensures LegacyEnvironment(DevelopmentName, services, id).json.authority != Authority(ConfigurationStep.Development)
  {
    var legacy := LegacyEnvironment(DevelopmentName, services, id).json.authority;
    assert |Lower(DevelopmentName)| == |DevelopmentName| == 11;
    assert |legacy| == 40 && |Authority(ConfigurationStep.Development)| == 32;
  }

  /** `status || "Active"`: a missing or empty status reads as "Active". */
  function LegacyStatus(status: Option<string>): (r: string)
    ensures r != ""
    ensures status.Some? && status.value != "" ==> r == status.value
    ensures status.None? || status.value == "" ==> r == "Active"
  {
    if status.Some? && status.value != "" then status.value else "Active"
  }

  /**
   * A legacy record: its id, request id, name, ministry, contacts and provider list are kept, its
   * status defaults to "Active", and the requirement-like fields get fixed sample values.
   */
  function LegacyView(rec: StoredRecord, id: string): (v: IntegrationView)
    ensures v.id == rec.id && v.requestId == rec.requestId && v.name == rec.name && v.ministry == rec.ministry
    ensures v.productOwner == rec.productOwner && v.technicalLead == rec.technicalLead
    ensures v.identityProviders == rec.identityServices.GetOr([])
    ensures rec.status.Some? && rec.status.value != "" ==> v.status == rec.status.value
    ensures rec.status.None? || rec.status.value == "" ==> v.status == "Active"
    ensures v.userTypes == ["BC residents"] && v.privacyZone == Some("Citizens' Services (Citizen)")
    ensures v.clientType == "Confidential" && v.clientProtocol == "OpenID Connect"
    ensures v.useCase == "Browser Login" && v.dataClassification == "Protected B"
    ensures v.attributePackage.None? && v.customAttributes.None?
    ensures |v.environments| == |rec.environments.GetOr([])|
    ensures forall i :: 0 <= i < |v.environments| ==>
      v.environments[i] == LegacyEnvironment(rec.environments.value[i], rec.identityServices.GetOr([]), id)
  {
    var services := rec.identityServices.GetOr([]);
    var envs := rec.environments.GetOr([]);
    IntegrationView(
      id := rec.id,
      requestId := rec.requestId,
      name := rec.name,
      status := LegacyStatus(rec.status),
      ministry := rec.ministry,
      userTypes := ["BC residents"],
      privacyZone := Some("Citizens' Services (Citizen)"),
      identityProviders := services,
      productOwner := rec.productOwner,
      technicalLead := rec.technicalLead,
      clientType := "Confidential",
      clientProtocol := "OpenID Connect",
      useCase := "Browser Login",
      dataClassification := "Protected B",
      attributePackage := None,
      customAttributes := None,
      environments := seq(|envs|, i requires 0 <= i < |envs| => LegacyEnvironment(envs[i], services, id)))
  }

  // ---------------------------------------------------------------------------
  // The fallback sample

  function SampleEnvironment(e: Environment, clientId: string, uri: string): EnvironmentView {
    EnvironmentView(EnvironmentName(e), ["IDIR + MFA", "BCeID Basic"], e != ConfigurationStep.Production,
                    clientId, [uri], ClientJson(clientId, Authority(e), uri))
  }

  /** The sample integration shown for an unknown id; it carries the requested id. */
  function FallbackView(id: string): (v: IntegrationView)
    ensures v.id == id && v.status == "Active"
    ensures |v.environments| == 3
    ensures forall i :: 0 <= i < 3 ==> v.environments[i].name == [DevelopmentName, TestName, ProductionName][i]
  {
    IntegrationView(
      id := id,
      requestId := Some("00006128"),
      name := Some("Citizen Services Portal"),
      status := "Active",
      ministry := Some("Citizens' Services"),
      userTypes := ["BC residents", "Canadian residents", "Government employees"],
      privacyZone := Some("Citizens' Services (Citizen)"),
      identityProviders := ["BC Services Card", "Person Credential", "BCeID Basic", "IDIR"],
      productOwner := Some(Contact("Jane Smith", "jane.smith@gov.bc.ca")),
      technicalLead := Some(Contact("John Doe", "john.doe@gov.bc.ca")),
      clientType := "Confidential",
      clientProtocol := "OpenID Connect",
      useCase := "Browser Login and Service Account",
      dataClassification := "Protected B",
      attributePackage := None,
      customAttributes := None,
      environments := [
        SampleEnvironment(ConfigurationStep.Development, "dev-client-123", "https://dev.example.com/callback"),
        SampleEnvironment(ConfigurationStep.Test, "test-client-456", "https://test.example.com/callback"),
        SampleEnvironment(ConfigurationStep.Production, "prod-client-789", "https://example.com/callback")
      ])
  }

  // ---------------------------------------------------------------------------
  // loadIntegrationData

  /** What the page shows for `id`. */
  function IntegrationData(store: seq<StoredRecord>, id: string): (r: Result<IntegrationView, LoadError>)
    ensures r.Ok? ==> r.value.id == id
    ensures r.Err? ==> FindById(store, id).Some? && HasWizardData(FindById(store, id).value)
  {
    var found := FindById(store, id);
    if found.None? then Ok(FallbackView(id))
    else
      var rec := found.value;
      if !HasWizardData(rec) then Ok(LegacyView(rec, id))
      else if rec.solution.None? then Err(MissingSection("solution"))
      else if rec.requirements.None? then Err(MissingSection("requirements"))
      else Ok(WizardView(id, rec.projectInfo.value, rec.requirements.value, rec.solution.value,
                         rec.configuration.value))
  }

  /** `loadIntegrationData`, building the environment list by pushes. */
  method LoadIntegrationData(store: seq<StoredRecord>, id: string)
    returns (r: Result<IntegrationView, LoadError>)
    ensures r == IntegrationData(store, id)
  {
    var found := FindById(store, id);
    if found.None? {
      return Ok(FallbackView(id));
    }
    var rec := found.value;
    if !HasWizardData(rec) {
      return Ok(LegacyView(rec, id));
    }
    var c := rec.configuration.value;
    if rec.solution.None? {
      return Err(MissingSection("solution"));
    }
    var envList := BuildEnvironmentList(c, rec.solution.value.components, id);
    if rec.requirements.None? {
      return Err(MissingSection("requirements"));
    }
    var info := rec.projectInfo.value;
    var requirements := rec.requirements.value;
    r := Ok(WizardView(id, info, requirements, rec.solution.value, c).(environments := envList));
  }

  /** The three branches of the lookup. */
  lemma RecordLookup(store: seq<StoredRecord>, id: string)
    ensures FindById(store, id).None? ==> IntegrationData(store, id) == Ok(FallbackView(id))
    ensures FindById(store, id).Some? && !HasWizardData(FindById(store, id).value) ==>
      IntegrationData(store, id).Ok? && IntegrationData(store, id).value.status
        == LegacyStatus(FindById(store, id).value.status)
    ensures IntegrationData(store, id).Err? <==>
      FindById(store, id).Some? && HasWizardData(FindById(store, id).value)
      && (FindById(store, id).value.solution.None? || FindById(store, id).value.requirements.None?)
    ensures IntegrationData(store, id).Ok? ==> IntegrationData(store, id).value.id == id
  {
    var k := FindIndex(store, id);
  }

  /** A wizard-shaped view lists exactly the enabled environments, in order, with the stored names. */
  lemma WizardEnvironmentsFollowConfiguration(c: Configuration, components: seq<string>, id: string)
    ensures var vs := WizardEnvironments(c, components, id);
      |vs| == |EnvironmentNames(c)|
      && (forall i :: 0 <= i < |vs| ==> vs[i].name == EnvironmentNames(c)[i])
      && (forall i :: 0 <= i < |vs| ==> (vs[i].ready <==> vs[i].name != ProductionName))
      && (forall i :: 0 <= i < |vs| ==> vs[i].idps == components)
  {
    var es := EnabledEnvironments(c);
    var vs := WizardEnvironments(c, components, id);
    forall i | 0 <= i < |vs|
      ensures vs[i].name == EnvironmentNames(c)[i]
      ensures vs[i].ready <==> vs[i].name != ProductionName
      ensures vs[i].idps == components
    {
      assert vs[i] == WizardEnvironment(es[i], c, components, id);
      assert EnvironmentName(es[i]) == EnvironmentNames(c)[i];
      ProductionNameOnlyForProduction(es[i]);
    }
  }

  /** Only Production carries the production name. */
  lemma ProductionNameOnlyForProduction(e: Environment)
    ensures EnvironmentName(e) == ProductionName <==> e == ConfigurationStep.Production
  {
  }

  /** The redirect URIs of an environment rejoin to the stored text, one more than its line breaks. */
  lemma RedirectUrisRoundTrip(e: Environment, c: Configuration, components: seq<string>, id: string)
    ensures var v := WizardEnvironment(e, c, components, id);
      Join(v.redirectUris, "\n") == SettingsOf(c, e).redirectUris
      && |v.redirectUris| == CountChar(SettingsOf(c, e).redirectUris, '\n') + 1
      && (forall i :: 0 <= i < |v.redirectUris| ==> '\n' !in v.redirectUris[i])
  {
    JoinSplit(SettingsOf(c, e).redirectUris, '\n');
    SplitCount(SettingsOf(c, e).redirectUris, '\n');
  }

  /** The copied redirect URI is the first line of the stored text: all of it when there is one line. */
  lemma JsonRedirectUriIsFirstLine(e: Environment, c: Configuration, components: seq<string>, id: string)
    ensures var s := SettingsOf(c, e).redirectUris;
      var u := WizardEnvironment(e, c, components, id).json.redirectUri;
      '\n' !in u && u <= s && ('\n' !in s ==> u == s) && (|u| < |s| ==> s[|u|] == '\n')
  {
    FirstPiece(SettingsOf(c, e).redirectUris, '\n');
  }

  /** A record saved by the wizard in create mode is shown with the submitted environments and request id. */
  lemma SubmittedRecordIsShown(store: seq<StoredRecord>, newId: string, d: WizardData, now: string)
    requires FindById(store, newId) == None
    ensures var r := IntegrationData(CreateStore(store, newId, d, now), newId);
      r.Ok?
      && r.value.requestId == NewRecord(newId, d, now).requestId
      && |r.value.environments| == |EnvironmentNames(d.configuration)|
      && (forall i :: 0 <= i < |r.value.environments| ==>
            r.value.environments[i].name == NewRecord(newId, d, now).environments.value[i])
  {
    CreateThenFind(store, newId, d, now);
    WizardEnvironmentsFollowConfiguration(d.configuration, d.solution.components, newId);
  }

  // ---------------------------------------------------------------------------
  // Display labels

  /** `getUseCaseDisplay`: exact matches; "service-account" is accepted as well. */
  function UseCaseDisplay(useCase: string): (r: string)
    ensures useCase !in ["browser-login", "service-principal", "service-account", "browser-and-service"]
      ==> r == useCase
  {
    if useCase == "browser-login" then "Browser Login"
    else if useCase == "service-principal" || useCase == "service-account" then "Service Account"
    else if useCase == "browser-and-service" then "Browser Login and Service Account"
    else useCase
  }

  /** `getClientTypeDisplay`: matched after lower-casing. */
  function ClientTypeDisplay(clientType: string): (r: string)
    ensures Lower(clientType) != "confidential" && Lower(clientType) != "public" ==> r == clientType
  {
    var key := Lower(clientType);
    if key == "confidential" then "Confidential Client"
    else if key == "public" then "Public Client"
    else clientType
  }

  /** `getClientProtocolDisplay`: matched after lower-casing. */
  function ClientProtocolDisplay(protocol: string): (r: string)
    ensures Lower(protocol) != "oidc" && Lower(protocol) != "saml" ==> r == protocol
  {
    var key := Lower(protocol);
    if key == "oidc" then "OpenID Connect"
    else if key == "saml" then "SAML"
    else protocol
  }

  /** A known client type is shown the same whatever its letter case. */
  lemma ClientTypeIgnoresCase(clientType: string)
    requires Lower(clientType) == "confidential" || Lower(clientType) == "public"
    ensures ClientTypeDisplay(clientType) == ClientTypeDisplay(Lower(clientType))
  {
    LowerIdempotent(clientType);
  }

  /** A known protocol is shown the same whatever its letter case. */
  lemma ProtocolIgnoresCase(protocol: string)
    requires Lower(protocol) == "oidc" || Lower(protocol) == "saml"
    ensures ClientProtocolDisplay(protocol) == ClientProtocolDisplay(Lower(protocol))
  {
    LowerIdempotent(protocol);
  }

  /** On lower-case input the details page and the Review step show the same client type. */
  lemma ClientTypeAgreesWithReview(value: string)
    requires Lower(value) == value
    ensures ClientTypeDisplay(value) == ReviewStep.ClientTypeLabel(value)
  {
  }

  /** On lower-case input the details page and the Review step show the same protocol. */
  lemma ProtocolAgreesWithReview(value: string)
    requires Lower(value) == value
    ensures ClientProtocolDisplay(value) == ReviewStep.ProtocolLabel(value)
  {
  }

  /** The use-case labels agree, except that only the details page knows "service-account". */
  lemma UseCaseAgreesWithReview(value: string)
    ensures value != "service-account" ==> UseCaseDisplay(value) == ReviewStep.UseCaseLabel(value)
    ensures value == "service-account" ==> UseCaseDisplay(value) == "Service Account" != ReviewStep.UseCaseLabel(value)
  {
  }

  /** The three package ids. */
  predicate IsKnownPackage(attributePackage: Option<string>) {
    attributePackage == Some("name") || attributePackage == Some("sendInformation")
    || attributePackage == Some("ageVerification")
  }

  /** The custom list is present and not empty. */
  predicate HasCustom(customAttributes: Option<seq<string>>) {
    customAttributes.Some? && |customAttributes.value| > 0
  }

  /** `getAttributePackageDisplay`. */
  function AttributePackageDisplay(attributePackage: Option<string>, customAttributes: Option<seq<string>>)
    : (r: Option<string>)
    ensures r.None? <==> !IsKnownPackage(attributePackage) && !HasCustom(customAttributes)
    ensures !IsKnownPackage(attributePackage) && HasCustom(customAttributes) ==>
      var n := |customAttributes.value|;
      r == Some("Custom Attributes (" + NatToString(n) + " attribute" + (if n > 1 then "s" else "")
                + " selected)")
  {
    if attributePackage == Some("name") then Some("Name (Given name, Family name, Display name)")
    else if attributePackage == Some("sendInformation") then
      Some("Send Information (Name, Mailing address, Email address)")
    else if attributePackage == Some("ageVerification") then
      Some("Age Verification (Name, Mailing address, Email, Date of birth)")
    else if HasCustom(customAttributes) then
      var n := |customAttributes.value|;
      Some("Custom Attributes (" + NatToString(n) + " attribute" + (if n > 1 then "s" else "") + " selected)")
    else None
  }

  /** A known package wins over any custom list. */
  lemma PackageTakesPrecedence(attributePackage: Option<string>, custom1: Option<seq<string>>,
                               custom2: Option<seq<string>>)
    requires IsKnownPackage(attributePackage)
    ensures AttributePackageDisplay(attributePackage, custom1) == AttributePackageDisplay(attributePackage, custom2)
    ensures PresentationConfigurationId(attributePackage, custom1)
         == PresentationConfigurationId(attributePackage, custom2)
  {
  }

  /** "attribute" is plural exactly when more than one is selected. */
  lemma CustomDisplayPlural(custom: seq<string>)
    requires |custom| > 0
    ensures AttributePackageDisplay(None, Some(custom)) ==
      Some("Custom Attributes (" + NatToString(|custom|) + (if |custom| == 1 then " attribute" else " attributes")
           + " selected)")
  {
    PluralWording("Custom Attributes (" + NatToString(|custom|), |custom|);
  }

  /** " attribute" followed by "s" only for more than one. */
  lemma PluralWording(head: string, n: nat)
    ensures head + " attribute" + (if n > 1 then "s" else "") + " selected)"
         == head + (if n <= 1 then " attribute" else " attributes") + " selected)"
  {
    if n > 1 {
      assert " attribute" + "s" == " attributes";
      assert head + " attribute" + "s" == head + (" attribute" + "s");
    } else {
      assert head + " attribute" + "" == head + " attribute";
    }
  }

  const PresentationPrefix := "verified-person-bc-"

  /** `getPresentationConfigurationId`: the common prefix, then a suffix chosen by the same precedence. */
  function PresentationConfigurationId(attributePackage: Option<string>, customAttributes: Option<seq<string>>)
    : (r: string)
    ensures |r| > |PresentationPrefix| && r[..|PresentationPrefix|] == PresentationPrefix
    ensures r[|PresentationPrefix|..] in {"name", "sendinfo", "ageverification", "custom", "default"}
    ensures r == PresentationPrefix + "default" <==> AttributePackageDisplay(attributePackage, customAttributes).None?
    ensures r == PresentationPrefix + "custom" <==> !IsKnownPackage(attributePackage) && HasCustom(customAttributes)
  {
    var suffix :=
      if attributePackage == Some("name") then "name"
      else if attributePackage == Some("sendInformation") then "sendinfo"
      else if attributePackage == Some("ageVerification") then "ageverification"
      else if HasCustom(customAttributes) then "custom"
      else "default";
    var r := PresentationPrefix + suffix;
    assert r[..|PresentationPrefix|] == PresentationPrefix && r[|PresentationPrefix|..] == suffix;
    assert r == PresentationPrefix + "default" <==> suffix == "default" by {
      assert (PresentationPrefix + "default")[|PresentationPrefix|..] == "default";
    }
    assert r == PresentationPrefix + "custom" <==> suffix == "custom" by {
      assert (PresentationPrefix + "custom")[|PresentationPrefix|..] == "custom";
    }
    r
  }

  /**
   * The presentation id is the "default" one exactly when no package label is displayed, the
   * "custom" one exactly when a custom count is displayed, and otherwise names the package.
   */
  lemma PresentationIdMatchesDisplay(attributePackage: Option<string>, customAttributes: Option<seq<string>>)
    ensures var r := PresentationConfigurationId(attributePackage, customAttributes);
      var d := AttributePackageDisplay(attributePackage, customAttributes);
      (r == PresentationPrefix + "default" <==> d.None?)
      && (r == PresentationPrefix + "custom" <==> d.Some? && !IsKnownPackage(attributePackage))
      && (IsKnownPackage(attributePackage) ==> r[|PresentationPrefix|..] !in {"custom", "default"})
  {
  }

  /** Two choices with a known package get the same presentation id exactly when the package is the same. */
  lemma PresentationIdIdentifiesPackage(p1: Option<string>, c1: Option<seq<string>>,
                                        p2: Option<string>, c2: Option<seq<string>>)
    requires IsKnownPackage(p1)
    ensures PresentationConfigurationId(p1, c1) == PresentationConfigurationId(p2, c2) <==> p1 == p2
  {
    var r1 := PresentationConfigurationId(p1, c1);
    var r2 := PresentationConfigurationId(p2, c2);
    SuffixDecides(r1[|PresentationPrefix|..], r2[|PresentationPrefix|..]);
    assert r1 == PresentationPrefix + r1[|PresentationPrefix|..];
    assert r2 == PresentationPrefix + r2[|PresentationPrefix|..];
  }

  /** Ids with the common prefix are equal exactly when their suffixes are. */
  lemma SuffixDecides(a: string, b: string)
    ensures PresentationPrefix + a == PresentationPrefix + b <==> a == b
  {
    if PresentationPrefix + a == PresentationPrefix + b {
      assert a == (PresentationPrefix + a)[|PresentationPrefix|..];
    }
  }

  /** `hasPersonCredential` for the provisioned providers. */
  function HasPersonCredential(identityProviders: seq<string>): (b: bool)
    ensures b <==> exists i :: 0 <= i < |identityProviders|
                            && Contains(Lower(identityProviders[i]), "person credential")
  {
    ConfigurationStep.AnyContains(identityProviders, "person credential")
  }

  /** The presentation-id card: Person Credential is provisioned and some attribute choice was made. */
  predicate ShowsPresentationCard(v: IntegrationView): (b: bool)
    ensures b ==> HasPersonCredential(v.identityProviders)
    ensures b <==> (HasPersonCredential(v.identityProviders)
                    && (AttributePackageDisplay(v.attributePackage, v.customAttributes).Some?
                        || v.attributePackage.GetOr("") != ""))
    ensures (HasPersonCredential(v.identityProviders)
             && AttributePackageDisplay(v.attributePackage, v.customAttributes).Some?) ==> b
  {
    HasPersonCredential(v.identityProviders)
    && (v.attributePackage.GetOr("") != "" || HasCustom(v.customAttributes))
  }

  /** The fallback sample provisions Person Credential but carries no attribute choice, so it shows no card. */
  lemma FallbackShowsNoPresentationCard(id: string)
    ensures !ShowsPresentationCard(FallbackView(id))
  {
  }
}
