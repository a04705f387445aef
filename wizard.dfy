/**
 * The intake wizard: the sectioned intake record, the shallow per-section merge
 * behind `updateData`, the per-step gate `canProceed`, the clamped step
 * navigation, and the rewrite of the stored collection of integration records
 * performed by `handleSubmit` (map-replace by id when editing, append when
 * creating).
 */
module IntegrationWizard {
  import opened Wrappers
  import opened Text

  // ---------------------------------------------------------------------------
  // The intake record

  datatype ProjectInfo = ProjectInfo(
    productName: string,
    productDescription: string,
    ministry: string,
    userCategory: string,
    userTypes: seq<string>,
    privacyZone: Option<string>,
    productOwnerName: string,
    productOwnerEmail: string,
    technicalLeadName: string,
    technicalLeadEmail: string,
    // fields kept for the other steps
    description: string,
    sponsor: string,
    technicalContact: string,
    timeline: string,
    environments: seq<string>)

  datatype Requirements = Requirements(
    clientProtocol: string,
    useCase: string,
    clientType: string,
    dataClassification: string,
    requiredAttributes: seq<string>,
    customAttributes: string,
    environments: seq<string>,
    additionalRequirements: string,
    // fields kept for the other steps
    primaryPurpose: string,
    userBase: seq<string>,
    dataSensitivity: string,
    specialRequirements: seq<string>,
    assuranceLevel: string)

  datatype Solution = Solution(recommended: string, components: seq<string>, reasoning: string)

  /** One environment's settings; a date is kept as an uninterpreted token. */
  datatype EnvironmentConfig = EnvironmentConfig(
    applicationName: string,
    redirectUris: string,
    additionalNotes: string,
    goLiveDate: Option<string>,
    businessApprovalContact: Option<string>)

  datatype Configuration = Configuration(
    development: bool,
    test: bool,
    production: bool,
    developmentConfig: EnvironmentConfig,
    testConfig: EnvironmentConfig,
    productionConfig: EnvironmentConfig,
    attributePackage: Option<string>,
    selectedCustomAttributes: Option<seq<string>>,
    lastSaved: Option<string>)

  datatype WizardData = WizardData(
    projectInfo: ProjectInfo,
    requirements: Requirements,
    solution: Solution,
    configuration: Configuration)

  const EmptyEnvironmentConfig := EnvironmentConfig("", "", "", None, None)

  /** The record a new wizard starts from when it is given none. */
  function DefaultWizardData(): (d: WizardData)
    ensures d.configuration.development && !d.configuration.test && !d.configuration.production
    ensures d.projectInfo.userTypes == [] && d.solution.recommended == ""
  {
    WizardData(
      ProjectInfo("", "", "", "", [], None, "", "", "", "", "", "", "", "", []),
      Requirements("", "", "", "", [], "", [], "", "", [], "", [], ""),
      Solution("", [], ""),
      Configuration(true, false, false,
        EmptyEnvironmentConfig, EmptyEnvironmentConfig, EmptyEnvironmentConfig,
        None, None, None))
  }

  // ---------------------------------------------------------------------------
  // Partial updates: `{ ...prev[section], ...updates }`

  /** The value after a spread: the update's value when it names the field, else the old one. */
  function Pick<T>(update: Option<T>, current: T): T {
    if update.Some? then update.value else current
  }

  /** The same for a field that is itself optional. */
  function PickOptional<T>(update: Option<T>, current: Option<T>): Option<T> {
    if update.Some? then update else current
  }

  datatype ProjectInfoPatch = ProjectInfoPatch(
    productName: Option<string> := None,
    productDescription: Option<string> := None,
    ministry: Option<string> := None,
    userCategory: Option<string> := None,
    userTypes: Option<seq<string>> := None,
    privacyZone: Option<string> := None,
    productOwnerName: Option<string> := None,
    productOwnerEmail: Option<string> := None,
    technicalLeadName: Option<string> := None,
    technicalLeadEmail: Option<string> := None,
    description: Option<string> := None,
    sponsor: Option<string> := None,
    technicalContact: Option<string> := None,
    timeline: Option<string> := None,
    environments: Option<seq<string>> := None)

  datatype RequirementsPatch = RequirementsPatch(
    clientProtocol: Option<string> := None,
    useCase: Option<string> := None,
    clientType: Option<string> := None,
    dataClassification: Option<string> := None,
    requiredAttributes: Option<seq<string>> := None,
    customAttributes: Option<string> := None,
    environments: Option<seq<string>> := None,
    additionalRequirements: Option<string> := None,
    primaryPurpose: Option<string> := None,
    userBase: Option<seq<string>> := None,
    dataSensitivity: Option<string> := None,
    specialRequirements: Option<seq<string>> := None,
    assuranceLevel: Option<string> := None)

  datatype SolutionPatch = SolutionPatch(
    recommended: Option<string> := None,
    components: Option<seq<string>> := None,
    reasoning: Option<string> := None)

  datatype ConfigurationPatch = ConfigurationPatch(
    development: Option<bool> := None,
    test: Option<bool> := None,
    production: Option<bool> := None,
    developmentConfig: Option<EnvironmentConfig> := None,
    testConfig: Option<EnvironmentConfig> := None,
    productionConfig: Option<EnvironmentConfig> := None,
    attributePackage: Option<string> := None,
    selectedCustomAttributes: Option<seq<string>> := None,
    lastSaved: Option<string> := None)

  /** `updateData(section, updates)`: which section, and the fields `updates` names. */
  datatype Update =
    | ProjectInfoUpdate(projectInfo: ProjectInfoPatch)
    | RequirementsUpdate(requirements: RequirementsPatch)
    | SolutionUpdate(solution: SolutionPatch)
    | ConfigurationUpdate(configuration: ConfigurationPatch)

  function MergeProjectInfo(p: ProjectInfo, u: ProjectInfoPatch): ProjectInfo {
    ProjectInfo(
      Pick(u.productName, p.productName),
      Pick(u.productDescription, p.productDescription),
      Pick(u.ministry, p.ministry),
      Pick(u.userCategory, p.userCategory),
      Pick(u.userTypes, p.userTypes),
      PickOptional(u.privacyZone, p.privacyZone),
      Pick(u.productOwnerName, p.productOwnerName),
      Pick(u.productOwnerEmail, p.productOwnerEmail),
      Pick(u.technicalLeadName, p.technicalLeadName),
      Pick(u.technicalLeadEmail, p.technicalLeadEmail),
      Pick(u.description, p.description),
      Pick(u.sponsor, p.sponsor),
      Pick(u.technicalContact, p.technicalContact),
      Pick(u.timeline, p.timeline),
      Pick(u.environments, p.environments))
  }

  function MergeRequirements(r: Requirements, u: RequirementsPatch): Requirements {
    Requirements(
      Pick(u.clientProtocol, r.clientProtocol),
      Pick(u.useCase, r.useCase),
      Pick(u.clientType, r.clientType),
      Pick(u.dataClassification, r.dataClassification),
      Pick(u.requiredAttributes, r.requiredAttributes),
      Pick(u.customAttributes, r.customAttributes),
      Pick(u.environments, r.environments),
      Pick(u.additionalRequirements, r.additionalRequirements),
      Pick(u.primaryPurpose, r.primaryPurpose),
      Pick(u.userBase, r.userBase),
      Pick(u.dataSensitivity, r.dataSensitivity),
      Pick(u.specialRequirements, r.specialRequirements),
      Pick(u.assuranceLevel, r.assuranceLevel))
  }

  function MergeSolution(s: Solution, u: SolutionPatch): Solution {
    Solution(
      Pick(u.recommended, s.recommended),
      Pick(u.components, s.components),
      Pick(u.reasoning, s.reasoning))
  }

  function MergeConfiguration(c: Configuration, u: ConfigurationPatch): Configuration {
    Configuration(
      Pick(u.development, c.development),
      Pick(u.test, c.test),
      Pick(u.production, c.production),
      Pick(u.developmentConfig, c.developmentConfig),
      Pick(u.testConfig, c.testConfig),
      Pick(u.productionConfig, c.productionConfig),
      PickOptional(u.attributePackage, c.attributePackage),
      PickOptional(u.selectedCustomAttributes, c.selectedCustomAttributes),
      PickOptional(u.lastSaved, c.lastSaved))
  }

  /** The new record after `updateData`: only the named section changes. */
  function ApplyUpdate(d: WizardData, u: Update): (r: WizardData)
    ensures !u.ProjectInfoUpdate? ==> r.projectInfo == d.projectInfo
    ensures !u.RequirementsUpdate? ==> r.requirements == d.requirements
    ensures !u.SolutionUpdate? ==> r.solution == d.solution
    ensures !u.ConfigurationUpdate? ==> r.configuration == d.configuration
    ensures u.ProjectInfoUpdate? ==> r.projectInfo == MergeProjectInfo(d.projectInfo, u.projectInfo)
    ensures u.RequirementsUpdate? ==> r.requirements == MergeRequirements(d.requirements, u.requirements)
    ensures u.SolutionUpdate? ==> r.solution == MergeSolution(d.solution, u.solution)
    ensures u.ConfigurationUpdate? ==> r.configuration == MergeConfiguration(d.configuration, u.configuration)
  {
    match u
    case ProjectInfoUpdate(p) => d.(projectInfo := MergeProjectInfo(d.projectInfo, p))
    case RequirementsUpdate(q) => d.(requirements := MergeRequirements(d.requirements, q))
    case SolutionUpdate(s) => d.(solution := MergeSolution(d.solution, s))
    case ConfigurationUpdate(c) => d.(configuration := MergeConfiguration(d.configuration, c))
  }

  /** An update that names no field leaves the record as it was. */
  lemma EmptyUpdateIsIdentity(d: WizardData)
    ensures ApplyUpdate(d, ProjectInfoUpdate(ProjectInfoPatch())) == d
    ensures ApplyUpdate(d, RequirementsUpdate(RequirementsPatch())) == d
    ensures ApplyUpdate(d, SolutionUpdate(SolutionPatch())) == d
    ensures ApplyUpdate(d, ConfigurationUpdate(ConfigurationPatch())) == d
  {
  }

  /** Repeating an update changes nothing more. */
  lemma UpdateIdempotent(d: WizardData, u: Update)
    ensures ApplyUpdate(ApplyUpdate(d, u), u) == ApplyUpdate(d, u)
  {
  }

  /** Updates to two different sections commute. */
  lemma UpdatesOfDifferentSectionsCommute(d: WizardData, u: Update, v: Update)
    requires u.ProjectInfoUpdate? != v.ProjectInfoUpdate?
      || u.RequirementsUpdate? != v.RequirementsUpdate?
      || u.SolutionUpdate? != v.SolutionUpdate?
    ensures ApplyUpdate(ApplyUpdate(d, u), v) == ApplyUpdate(ApplyUpdate(d, v), u)
  {
  }

  // ---------------------------------------------------------------------------
  // The per-step gate `canProceed` (a string field counts as given when non-empty)

  /** `steps.length - 1`: the index of the Review step. */
  const LastStep := 4

  function CanProceed(step: int, d: WizardData): (b: bool)
    ensures step < 0 || step > 3 ==> b
    ensures step == 3 ==> (b <==> EnvironmentNames(d.configuration) != [])
  {
    if step == 0 then
      var p := d.projectInfo;
      p.productName != "" && p.productDescription != "" && p.ministry != ""
      && p.userCategory != "" && |p.userTypes| > 0
      && p.productOwnerName != "" && p.productOwnerEmail != ""
      && p.technicalLeadName != "" && p.technicalLeadEmail != ""
    else if step == 1 then
      var r := d.requirements;
      r.clientProtocol != "" && r.useCase != "" && r.clientType != "" && r.dataClassification != ""
    else if step == 2 then
      d.solution.recommended != ""
    else if step == 3 then
      d.configuration.development || d.configuration.test || d.configuration.production
    else
      true
  }

  /** The nine items the Project Information step requires. */
  datatype ProjectField =
    | ProductName | ProductDescription | Ministry | UserCategory | UserTypes
    | ProductOwnerName | ProductOwnerEmail | TechnicalLeadName | TechnicalLeadEmail

  predicate ProjectFieldMissing(p: ProjectInfo, f: ProjectField) {
    match f
    case ProductName => p.productName == ""
    case ProductDescription => p.productDescription == ""
    case Ministry => p.ministry == ""
    case UserCategory => p.userCategory == ""
    case UserTypes => p.userTypes == []
    case ProductOwnerName => p.productOwnerName == ""
    case ProductOwnerEmail => p.productOwnerEmail == ""
    case TechnicalLeadName => p.technicalLeadName == ""
    case TechnicalLeadEmail => p.technicalLeadEmail == ""
  }

  /** Step 0 can be left iff none of the nine required items is missing. */
  lemma ProjectInfoGate(d: WizardData)
    ensures CanProceed(0, d) <==> forall f: ProjectField :: !ProjectFieldMissing(d.projectInfo, f)
  {
    var p := d.projectInfo;
    if forall f: ProjectField :: !ProjectFieldMissing(p, f) {
      assert !ProjectFieldMissing(p, ProductName) && !ProjectFieldMissing(p, ProductDescription);
      assert !ProjectFieldMissing(p, Ministry) && !ProjectFieldMissing(p, UserCategory);
      assert !ProjectFieldMissing(p, UserTypes);
      assert !ProjectFieldMissing(p, ProductOwnerName) && !ProjectFieldMissing(p, ProductOwnerEmail);
      assert !ProjectFieldMissing(p, TechnicalLeadName) && !ProjectFieldMissing(p, TechnicalLeadEmail);
    }
  }

  /** A single missing item is enough to block step 0. */
  lemma OneMissingProjectFieldBlocks(d: WizardData, f: ProjectField)
    requires ProjectFieldMissing(d.projectInfo, f)
    ensures !CanProceed(0, d)
  {
    ProjectInfoGate(d);
  }

  /** The four items the Requirements step requires. */
  datatype RequirementField = ClientProtocol | UseCase | ClientType | DataClassification

  predicate RequirementFieldMissing(r: Requirements, f: RequirementField) {
    match f
    case ClientProtocol => r.clientProtocol == ""
    case UseCase => r.useCase == ""
    case ClientType => r.clientType == ""
    case DataClassification => r.dataClassification == ""
  }

  /** Step 1 can be left iff none of the four required items is missing. */
  lemma RequirementsGate(d: WizardData)
    ensures CanProceed(1, d) <==> forall f: RequirementField :: !RequirementFieldMissing(d.requirements, f)
  {
    var r := d.requirements;
    if forall f: RequirementField :: !RequirementFieldMissing(r, f) {
      assert !RequirementFieldMissing(r, ClientProtocol) && !RequirementFieldMissing(r, UseCase);
      assert !RequirementFieldMissing(r, ClientType) && !RequirementFieldMissing(r, DataClassification);
    }
  }

  /** Steps 2 and 3 each test one condition; Review and any other index always pass. */
  lemma LaterGates(d: WizardData, step: int)
    ensures step == 2 ==> (CanProceed(step, d) <==> d.solution.recommended != "")
    ensures step == 3 ==> (CanProceed(step, d) <==>
      d.configuration.development || d.configuration.test || d.configuration.production)
    ensures step !in {0, 1, 2, 3} ==> CanProceed(step, d)
  {
  }

  // ---------------------------------------------------------------------------
  // Step navigation

  /** `nextStep`: one step forward unless already at the Review step. */
  function NextIndex(step: int): int {
    if step < LastStep then step + 1 else step
  }

  /** `prevStep`: one step back unless already at the first step. */
  function PrevIndex(step: int): int {
    if step > 0 then step - 1 else step
  }

  /** A step-indicator click on button `index`, or a press of Next or Previous. */
  datatype NavAction = Next | Prev | JumpTo(index: int)

  function Navigate(step: int, a: NavAction): int {
    match a
    case Next => NextIndex(step)
    case Prev => PrevIndex(step)
    case JumpTo(i) => i
  }

  function RunNavigation(step: int, actions: seq<NavAction>): int
    decreases |actions|
  {
    if actions == [] then step else RunNavigation(Navigate(step, actions[0]), actions[1..])
  }

  /** Every jump targets one of the five rendered step buttons. */
  predicate JumpsInRange(actions: seq<NavAction>) {
    forall i :: 0 <= i < |actions| && actions[i].JumpTo? ==> 0 <= actions[i].index <= LastStep
  }

  /** From a step in 0..4, any sequence of Next, Previous and step-button clicks stays in 0..4. */
  lemma {:induction false} NavigationStaysInRange(step: int, actions: seq<NavAction>)
    requires 0 <= step <= LastStep
    requires JumpsInRange(actions)
    ensures 0 <= RunNavigation(step, actions) <= LastStep
    decreases |actions|
  {
    if actions != [] {
      assert JumpsInRange(actions[1..]) by {
        forall i | 0 <= i < |actions[1..]| && actions[1..][i].JumpTo?
          ensures 0 <= actions[1..][i].index <= LastStep
        {
          assert actions[1..][i] == actions[i + 1];
        }
      }
      NavigationStaysInRange(Navigate(step, actions[0]), actions[1..]);
    }
  }

  /** Next moves only below the Review step, Previous only above the first step, and each undoes the other. */
  lemma NextAndPrevious(step: int)
    ensures NextIndex(step) != step <==> step < LastStep
    ensures PrevIndex(step) != step <==> step > 0
    ensures 0 <= step < LastStep ==> PrevIndex(NextIndex(step)) == step
    ensures 0 < step <= LastStep ==> NextIndex(PrevIndex(step)) == step
  {
  }

  // ---------------------------------------------------------------------------
  // Environment names

  const DevelopmentName := "Development"
  const TestName := "Test"
  const ProductionName := "Production"

  /** The position of an environment name in the fixed order Development, Test, Production. */
  function EnvironmentRank(name: string): int {
    if name == DevelopmentName then 0 else if name == TestName then 1 else 2
  }

  /** The names of the chosen environments, in Development, Test, Production order. */
  function SelectedEnvironmentNames(development: bool, test: bool, production: bool): (names: seq<string>)
    ensures DevelopmentName in names <==> development
    ensures TestName in names <==> test
    ensures ProductionName in names <==> production
    ensures forall i :: 0 <= i < |names| ==> names[i] in [DevelopmentName, TestName, ProductionName]
    ensures forall i, j :: 0 <= i < j < |names| ==> EnvironmentRank(names[i]) < EnvironmentRank(names[j])
  {
    (if development then [DevelopmentName] else [])
    + (if test then [TestName] else [])
    + (if production then [ProductionName] else [])
  }

  /** The environment list stored at submission time. */
  function EnvironmentNames(c: Configuration): seq<string> {
    SelectedEnvironmentNames(c.development, c.test, c.production)
  }

  /** Submitting with only Development chosen stores exactly ["Development"]. */
  lemma OnlyDevelopmentNames()
    ensures SelectedEnvironmentNames(true, false, false) == ["Development"]
  {
  }

  // ---------------------------------------------------------------------------
  // The stored collection of integration records

  datatype Contact = Contact(name: string, email: string)

  /**
   * One element of the stored collection. Records written by other parts of
   * the application may lack any field but the id, hence the options.
   */
  datatype StoredRecord = StoredRecord(
    id: string,
    requestId: Option<string> := None,
    name: Option<string> := None,
    status: Option<string> := None,
    identityServices: Option<seq<string>> := None,
    environments: Option<seq<string>> := None,
    lastActivity: Option<string> := None,
    monthlyUsers: Option<string> := None,
    ministry: Option<string> := None,
    productOwner: Option<Contact> := None,
    technicalLead: Option<Contact> := None,
    description: Option<string> := None,
    createdAt: Option<string> := None,
    updatedAt: Option<string> := None,
    projectInfo: Option<ProjectInfo> := None,
    requirements: Option<Requirements> := None,
    solution: Option<Solution> := None,
    configuration: Option<Configuration> := None)

  /** `store.findIndex(r => r.id === id)`: the first record with that id, or -1. */
  function FindIndex(store: seq<StoredRecord>, id: string): (k: int)
    ensures -1 <= k < |store|
    ensures k >= 0 ==> store[k].id == id && forall j :: 0 <= j < k ==> store[j].id != id
    ensures k == -1 ==> forall j :: 0 <= j < |store| ==> store[j].id != id
    decreases |store|
  {
    if store == [] then -1
    else if store[0].id == id then 0
    else
      var k := FindIndex(store[1..], id);
      if k == -1 then -1 else k + 1
  }

  /** `store.find(r => r.id === id)`. */
  function FindById(store: seq<StoredRecord>, id: string): Option<StoredRecord> {
    var k := FindIndex(store, id);
    if k >= 0 then Some(store[k]) else None
  }

  /** The matching record after an edit-mode submit: the wizard's fields overwrite, the rest stays. */
  function EditedRecord(rec: StoredRecord, d: WizardData, now: string): (r: StoredRecord)
    ensures r.projectInfo == Some(d.projectInfo) && r.requirements == Some(d.requirements)
    ensures r.solution == Some(d.solution) && r.configuration == Some(d.configuration)
    ensures r.environments == Some(EnvironmentNames(d.configuration)) && r.updatedAt == Some(now)
  {
    rec.(
      name := Some(d.projectInfo.productName),
      identityServices := Some(d.solution.components),
      environments := Some(EnvironmentNames(d.configuration)),
      ministry := Some(d.projectInfo.ministry),
      productOwner := Some(Contact(d.projectInfo.productOwnerName, d.projectInfo.productOwnerEmail)),
      technicalLead := Some(Contact(d.projectInfo.technicalLeadName, d.projectInfo.technicalLeadEmail)),
      description := Some(d.projectInfo.productDescription),
      projectInfo := Some(d.projectInfo),
      requirements := Some(d.requirements),
      solution := Some(d.solution),
      configuration := Some(d.configuration),
      updatedAt := Some(now),
      lastActivity := Some("Just now"))
  }

  /** An edit keeps the id, request id, status, creation time and user count of the record. */
  lemma EditedRecordKeepsIdentity(rec: StoredRecord, d: WizardData, now: string)
    ensures var r := EditedRecord(rec, d, now);
      r.id == rec.id && r.requestId == rec.requestId && r.status == rec.status
      && r.createdAt == rec.createdAt && r.monthlyUsers == rec.monthlyUsers
  {
  }

  /** Edit mode: every record whose id is `integrationId` is replaced by its edited form. */
  function EditStore(store: seq<StoredRecord>, integrationId: Option<string>, d: WizardData, now: string)
    : (r: seq<StoredRecord>)
    ensures |r| == |store|
    ensures forall i :: 0 <= i < |store| ==>
      r[i] == if Some(store[i].id) == integrationId then EditedRecord(store[i], d, now) else store[i]
    decreases |store|
  {
    if store == [] then []
    else
      [if Some(store[0].id) == integrationId then EditedRecord(store[0], d, now) else store[0]]
      + EditStore(store[1..], integrationId, d, now)
  }

  /** Editing keeps the ids of the collection, in order. */
  lemma EditStoreKeepsIds(store: seq<StoredRecord>, integrationId: Option<string>, d: WizardData, now: string)
    ensures var r := EditStore(store, integrationId, d, now);
      forall i :: 0 <= i < |r| ==> r[i].id == store[i].id
  {
  }

  /** Editing with an id no record carries leaves the collection as it was. */
  lemma EditStoreUnknownIdIsNoOp(store: seq<StoredRecord>, id: string, d: WizardData, now: string)
    requires FindById(store, id) == None
    ensures EditStore(store, Some(id), d, now) == store
  {
  }

  /** Saving the same edit twice gives the same collection as saving it once. */
  lemma EditStoreIdempotent(store: seq<StoredRecord>, integrationId: Option<string>, d: WizardData, now: string)
    ensures EditStore(EditStore(store, integrationId, d, now), integrationId, d, now)
         == EditStore(store, integrationId, d, now)
  {
    var once := EditStore(store, integrationId, d, now);
    EditStoreKeepsIds(store, integrationId, d, now);
  }

  /** Create mode: the record appended for a new integration. */
  function NewRecord(newId: string, d: WizardData, now: string): (r: StoredRecord)
    ensures r.id == newId
    ensures r.requestId.Some? && |r.requestId.value| == 4 + Min(4, |newId|)
  {
    StoredRecord(
      id := newId,
      requestId := Some("0000" + Suffix(newId, 4)),
      name := Some(d.projectInfo.productName),
      status := Some("completed"),
      identityServices := Some(d.solution.components),
      environments := Some(EnvironmentNames(d.configuration)),
      lastActivity := Some("Just now"),
      monthlyUsers := Some("0"),
      ministry := Some(d.projectInfo.ministry),
      productOwner := Some(Contact(d.projectInfo.productOwnerName, d.projectInfo.productOwnerEmail)),
      technicalLead := Some(Contact(d.projectInfo.technicalLeadName, d.projectInfo.technicalLeadEmail)),
      description := Some(d.projectInfo.productDescription),
      createdAt := Some(now),
      updatedAt := Some(now),
      projectInfo := Some(d.projectInfo),
      requirements := Some(d.requirements),
      solution := Some(d.solution),
      configuration := Some(d.configuration))
  }

  /** The request id of a new record is "0000" followed by the last four characters of its id. */
  lemma NewRequestIdShape(newId: string, d: WizardData, now: string)
    requires |newId| >= 4
    ensures var rid := NewRecord(newId, d, now).requestId.value;
      |rid| == 8 && rid[..4] == "0000" && rid[4..] == newId[|newId| - 4..]
  {
  }

  function CreateStore(store: seq<StoredRecord>, newId: string, d: WizardData, now: string)
    : seq<StoredRecord>
  {
    store + [NewRecord(newId, d, now)]
  }

  /** A fresh id is found again after a create-mode submit, with the wizard's record kept for editing. */
  lemma {:induction false} CreateThenFind(store: seq<StoredRecord>, newId: string, d: WizardData, now: string)
    requires FindById(store, newId) == None
    ensures FindById(CreateStore(store, newId, d, now), newId) == Some(NewRecord(newId, d, now))
    ensures var r := NewRecord(newId, d, now);
      r.projectInfo == Some(d.projectInfo) && r.requirements == Some(d.requirements)
      && r.solution == Some(d.solution) && r.configuration == Some(d.configuration)
      && r.status == Some("completed")
  {
    var s := CreateStore(store, newId, d, now);
    assert s[|store|] == NewRecord(newId, d, now);
    assert forall j :: 0 <= j < |store| ==> s[j] == store[j];
    assert FindIndex(s, newId) == |store|;
  }

  /** After an edit-mode submit the record is found at the same position, carrying the wizard's record. */
  lemma {:induction false} EditThenFind(store: seq<StoredRecord>, id: string, d: WizardData, now: string)
    requires FindById(store, id).Some?
    ensures var r := FindById(EditStore(store, Some(id), d, now), id);
      r == Some(EditedRecord(FindById(store, id).value, d, now))
    ensures var r := FindById(EditStore(store, Some(id), d, now), id).value;
      r.projectInfo == Some(d.projectInfo) && r.requirements == Some(d.requirements)
      && r.solution == Some(d.solution) && r.configuration == Some(d.configuration)
  {
    var s := EditStore(store, Some(id), d, now);
    EditStoreKeepsIds(store, Some(id), d, now);
    var k := FindIndex(store, id);
    assert FindIndex(s, id) == k by {
      FindIndexSameIds(store, s, id);
    }
  }

  lemma {:induction false} FindIndexSameIds(a: seq<StoredRecord>, b: seq<StoredRecord>, id: string)
    requires |a| == |b|
    requires forall i :: 0 <= i < |a| ==> a[i].id == b[i].id
    ensures FindIndex(a, id) == FindIndex(b, id)
    decreases |a|
  {
    if a != [] && a[0].id != id {
      FindIndexSameIds(a[1..], b[1..], id);
    }
  }

  // ---------------------------------------------------------------------------
  // The wizard component's state

  class Wizard {
    const isEditMode: bool
    const integrationId: Option<string>
    var currentStep: int
    var data: WizardData
    var hasUnsavedChanges: bool

    /** The step index stays within the five steps. */
    predicate StepInRange()
      reads this
    {
      0 <= currentStep <= LastStep
    }

    constructor (isEditMode: bool, initialData: Option<WizardData>, integrationId: Option<string>,
                 initialStep: int := 0)
      ensures this.isEditMode == isEditMode && this.integrationId == integrationId
      ensures currentStep == initialStep
      ensures data == initialData.GetOr(DefaultWizardData())
      ensures !hasUnsavedChanges
    {
      this.isEditMode := isEditMode;
      this.integrationId := integrationId;
      currentStep := initialStep;
      hasUnsavedChanges := false;
      data := initialData.GetOr(DefaultWizardData());
    }

    /** `updateData(section, updates)`. */
    method UpdateData(u: Update)
      modifies this
      ensures data == ApplyUpdate(old(data), u)
      ensures hasUnsavedChanges
      ensures currentStep == old(currentStep)
    {
      data := ApplyUpdate(data, u);
      hasUnsavedChanges := true;
    }

    /** `nextStep`. */
    method NextStep()
      modifies this`currentStep
      ensures currentStep == NextIndex(old(currentStep))
      ensures old(StepInRange()) ==> StepInRange()
    {
      if currentStep < LastStep {
        currentStep := currentStep + 1;
      }
    }

    /** `prevStep`. */
    method PrevStep()
      modifies this`currentStep
      ensures currentStep == PrevIndex(old(currentStep))
      ensures old(StepInRange()) ==> StepInRange()
    {
      if currentStep > 0 {
        currentStep := currentStep - 1;
      }
    }

    /** A click on step button `index` (also the review screen's Edit buttons). */
    method GoToStep(index: int)
      requires 0 <= index <= LastStep
      modifies this`currentStep
      ensures currentStep == index && StepInRange()
    {
      currentStep := index;
    }

    /**
     * `handleSubmit`: returns the collection written back to storage; `newId`
     * and `now` stand for the generated id and the current time.
     */
    method HandleSubmit(store: seq<StoredRecord>, newId: string, now: string)
      returns (updated: seq<StoredRecord>)
      modifies this`hasUnsavedChanges
      ensures !hasUnsavedChanges
      ensures isEditMode ==> updated == EditStore(store, integrationId, data, now)
      ensures !isEditMode ==> updated == store + [NewRecord(newId, data, now)]
    {
      hasUnsavedChanges := false;
      if isEditMode {
        updated := EditStore(store, integrationId, data, now);
      } else {
        updated := CreateStore(store, newId, data, now);
      }
    }
  }
}
