/**
 * The Configuration step: the catalog of attribute packages and of the 29
 * individual attributes, the two mutually exclusive ways of choosing
 * attributes (a package, or a custom list), the per-environment toggles and
 * settings, and the detection of which identity providers were recommended.
 * Each handler returns the updates it hands to the wizard through `onUpdate`
 * (configuration section) and `onUpdateRequirements` (requirements section).
 */
module ConfigurationStep {
  import opened Wrappers
  import opened Text
  import opened IntegrationWizard

  // ---------------------------------------------------------------------------
  // The attribute catalog

  /** A catalog entry; `caption` is the source's `label`, which is a reserved word in Dafny. */
  datatype Attribute = Attribute(value: string, caption: string)

  /** `ALL_ATTRIBUTES`, in catalog order. */
  const AllAttributes: seq<Attribute> := [
    Attribute("display_name", "Name"),
    Attribute("given_name", "Given Name"),
    Attribute("given_names", "Given Names"),
    Attribute("family_name", "Surname"),
    Attribute("birthdate", "Date of Birth"),
    Attribute("age", "Age"),
    Attribute("age_19_or_over", "Age 19 Or Over"),
    Attribute("gender", "Sex"),
    Attribute("email", "Email Address"),
    Attribute("street_address", "Street Address"),
    Attribute("locality", "City/Town"),
    Attribute("region", "State Or Province"),
    Attribute("postal_code", "Postal Code"),
    Attribute("country", "Country"),
    Attribute("address", "Address (all address lines)"),
    Attribute("sub", "User Identifier"),
    Attribute("identity_assurance_level", "Identity Assurance Level"),
    Attribute("identity_assurance_level1", "Identity Assurance Level 1"),
    Attribute("identity_assurance_level2", "Identity Assurance Level 2"),
    Attribute("identity_assurance_level3", "Identity Assurance Level 3"),
    Attribute("identification_level", "Identification Level"),
    Attribute("user_type", "User Type"),
    Attribute("transaction_identifier", "Transaction Identifier"),
    Attribute("transaction_type", "Transaction Type"),
    Attribute("client_id", "Relying Party Identifier"),
    Attribute("sector_identifier_uri", "Privacy Zone Identifier"),
    Attribute("authentication_zone_identifier", "Authentication Zone Identifier"),
    Attribute("authoritative_party_identifier", "Authoritative Party Identifier"),
    Attribute("authoritative_party_name", "Authoritative Party Name")
  ]

  /** `catalog.map(a => a.value)`. */
  function Values(catalog: seq<Attribute>): (vs: seq<string>)
    ensures |vs| == |catalog|
    ensures forall i :: 0 <= i < |catalog| ==> vs[i] == catalog[i].value
  {
    seq(|catalog|, i requires 0 <= i < |catalog| => catalog[i].value)
  }

  /** `catalog.map(a => a.caption)`. */
  function CatalogLabels(catalog: seq<Attribute>): (ls: seq<string>)
    ensures |ls| == |catalog|
    ensures forall i :: 0 <= i < |catalog| ==> ls[i] == catalog[i].caption
  {
    seq(|catalog|, i requires 0 <= i < |catalog| => catalog[i].caption)
  }

  /** No two catalog entries share a value. */
  predicate DistinctValues(catalog: seq<Attribute>) {
    forall i, j :: 0 <= i < j < |catalog| ==> catalog[i].value != catalog[j].value
  }

  /** No catalog value of the first five entries recurs later. */
  lemma DistinctFirstEntries()
    ensures forall i, j :: 0 <= i < 5 && i < j < |AllAttributes| ==> AllAttributes[i].value != AllAttributes[j].value
  {
  }

  /** No catalog value of entries 5 to 11 recurs later. */
  lemma DistinctMiddleEntries()
    ensures forall i, j :: 5 <= i < 12 && i < j < |AllAttributes| ==> AllAttributes[i].value != AllAttributes[j].value
  {
  }

  /** No catalog value of entries 12 to 28 recurs later. */
  lemma DistinctLastEntries()
    ensures forall i, j :: 12 <= i < j < |AllAttributes| ==> AllAttributes[i].value != AllAttributes[j].value
  {
  }

  /** The catalog has 29 entries with pairwise distinct values. */
  lemma CatalogWellFormed()
    ensures |AllAttributes| == 29
    ensures DistinctValues(AllAttributes)
  {
    DistinctFirstEntries();
    DistinctMiddleEntries();
    DistinctLastEntries();
  }

  /** `catalog.find(a => a.value === v)`, as the index of the first match or -1. */
  function FindAttribute(catalog: seq<Attribute>, v: string): (k: int)
    ensures -1 <= k < |catalog|
    ensures k >= 0 ==> catalog[k].value == v && forall j :: 0 <= j < k ==> catalog[j].value != v
    ensures k == -1 ==> forall j :: 0 <= j < |catalog| ==> catalog[j].value != v
    decreases |catalog|
  {
    if catalog == [] then -1
    else if catalog[0].value == v then 0
    else
      var k := FindAttribute(catalog[1..], v);
      if k == -1 then -1 else k + 1
  }

  /** `attrObj ? attrObj.label : attr`: the catalog label of `v`, or `v` itself. */
  function LabelIn(catalog: seq<Attribute>, v: string): string {
    var k := FindAttribute(catalog, v);
    if k >= 0 then catalog[k].caption else v
  }

  /** The label the Configuration step reports for `v`. */
  function LabelOf(v: string): (r: string)
    ensures r != v ==> v in Values(AllAttributes)
  {
    var k := FindAttribute(AllAttributes, v);
    if k >= 0 then
      assert Values(AllAttributes)[k] == v;
      LabelIn(AllAttributes, v)
    else
      LabelIn(AllAttributes, v)
  }

  /** Every catalog value is reported with the label of its own entry. */
  lemma LabelOfCatalogEntry(i: int)
    requires 0 <= i < |AllAttributes|
    ensures LabelOf(AllAttributes[i].value) == AllAttributes[i].caption
  {
    CatalogWellFormed();
    LabelInCatalog(AllAttributes, AllAttributes[i].value);
  }

  /** A catalog value maps to its own entry's label; anything else maps to itself. */
  lemma LabelInCatalog(catalog: seq<Attribute>, v: string)
    requires DistinctValues(catalog)
    ensures forall i :: 0 <= i < |catalog| && catalog[i].value == v ==> LabelIn(catalog, v) == catalog[i].caption
    ensures v !in Values(catalog) ==> LabelIn(catalog, v) == v
  {
    var k := FindAttribute(catalog, v);
    if k >= 0 {
      assert Values(catalog)[k] == v;
    }
  }

  /** The entry found for `v` is its first occurrence. */
  lemma FirstOccurrence(catalog: seq<Attribute>, v: string, k: int)
    requires 0 <= k < |catalog| && catalog[k].value == v
    requires forall j :: 0 <= j < k ==> catalog[j].value != v
    ensures FindAttribute(catalog, v) == k
    ensures LabelIn(catalog, v) == catalog[k].caption
  {
  }

  /** `ids.map(v => LabelIn(catalog, v))`. */
  function LabelsIn(catalog: seq<Attribute>, ids: seq<string>): (ls: seq<string>)
    ensures |ls| == |ids|
    ensures forall i :: 0 <= i < |ids| ==> ls[i] == LabelIn(catalog, ids[i])
    decreases |ids|
  {
    if ids == [] then [] else [LabelIn(catalog, ids[0])] + LabelsIn(catalog, ids[1..])
  }

  /** The labels the step reports for a list of attribute values. */
  function Labels(ids: seq<string>): seq<string> {
    LabelsIn(AllAttributes, ids)
  }

  /** Each catalog value among `ids` is reported with the label of its catalog entry, anything else as itself. */
  lemma LabelsOfCatalogValues(catalog: seq<Attribute>, ids: seq<string>)
    requires DistinctValues(catalog)
    ensures forall i :: 0 <= i < |ids| && ids[i] in Values(catalog) ==>
      exists k :: 0 <= k < |catalog| && catalog[k].value == ids[i]
               && LabelsIn(catalog, ids)[i] == catalog[k].caption
    ensures forall i :: 0 <= i < |ids| && ids[i] !in Values(catalog) ==> LabelsIn(catalog, ids)[i] == ids[i]
  {
    forall i | 0 <= i < |ids|
      ensures ids[i] in Values(catalog) ==>
        exists k :: 0 <= k < |catalog| && catalog[k].value == ids[i]
                 && LabelsIn(catalog, ids)[i] == catalog[k].caption
      ensures ids[i] !in Values(catalog) ==> LabelsIn(catalog, ids)[i] == ids[i]
    {
      LabelInCatalog(catalog, ids[i]);
      if ids[i] in Values(catalog) {
        var k :| 0 <= k < |catalog| && Values(catalog)[k] == ids[i];
        assert catalog[k].value == ids[i];
      }
    }
  }

  // ---------------------------------------------------------------------------
  // The package catalog

  datatype AttributePackage = AttributePackage(
    id: string, caption: string, description: string, attributes: seq<string>)

  const NameAttributes := ["display_name", "given_name", "family_name"]
  const SendInformationAttributes :=
    NameAttributes + ["email", "street_address", "locality", "region", "postal_code", "country"]

  const NamePackage := AttributePackage(
    "name", "Name", "Includes: Given name, family name, display name", NameAttributes)
  const SendInformationPackage := AttributePackage(
    "sendInformation", "Send Information",
    "Includes: Name, mailing address, and email address",
    ["display_name", "given_name", "family_name", "email", "street_address", "locality",
     "region", "postal_code", "country"])
  const AgeVerificationPackage := AttributePackage(
    "ageVerification", "Age Verification",
    "Includes: Send information package plus date of birth",
    ["display_name", "given_name", "family_name", "email", "street_address", "locality",
     "region", "postal_code", "country", "birthdate"])

  /** `Object.values(ATTRIBUTE_PACKAGES)`, in declaration order. */
  const AttributePackages := [NamePackage, SendInformationPackage, AgeVerificationPackage]

  /** `ATTRIBUTE_PACKAGES[packageId]`. */
  function LookupPackage(packageId: string): (r: Option<AttributePackage>)
    ensures r.Some? <==> exists i :: 0 <= i < |AttributePackages| && AttributePackages[i].id == packageId
    ensures r.Some? ==> r.value in AttributePackages && r.value.id == packageId
  {
    assert AttributePackages[0].id == "name" && AttributePackages[1].id == "sendInformation";
    assert AttributePackages[2].id == "ageVerification";
    if packageId == "name" then Some(NamePackage)
    else if packageId == "sendInformation" then Some(SendInformationPackage)
    else if packageId == "ageVerification" then Some(AgeVerificationPackage)
    else None
  }

  /** Where each attribute of the largest package sits in the catalog. */
  const AgeVerificationIndexes := [0, 1, 3, 8, 9, 10, 11, 12, 13, 4]

  /** Send Information starts with the Name list; Age Verification is Send Information plus "birthdate". */
  lemma PackagesNest()
    ensures SendInformationPackage.attributes == SendInformationAttributes
    ensures SendInformationPackage.attributes[..3] == NamePackage.attributes
    ensures AgeVerificationPackage.attributes == SendInformationPackage.attributes + ["birthdate"]
  {
  }

  /** Every attribute of the Age Verification package is a catalog value. */
  lemma AgeVerificationInCatalog()
    ensures forall a :: a in AgeVerificationPackage.attributes ==> a in Values(AllAttributes)
  {
    var age := AgeVerificationPackage.attributes;
    forall i | 0 <= i < |age| ensures age[i] in Values(AllAttributes) {
      var k := AgeVerificationIndexes[i];
      assert AllAttributes[k].value == age[i];
      ValueInValues(AllAttributes, k);
    }
  }

  lemma ValueInValues(catalog: seq<Attribute>, k: int)
    requires 0 <= k < |catalog|
    ensures catalog[k].value in Values(catalog)
  {
    assert Values(catalog)[k] == catalog[k].value;
  }

  /** Every attribute of every package is a catalog value. */
  lemma PackageAttributesInCatalog()
    ensures forall p, a :: p in AttributePackages && a in p.attributes ==> a in Values(AllAttributes)
  {
    AgeVerificationInCatalog();
    PackagesNest();
    var age := AgeVerificationPackage.attributes;
    assert forall a :: a in NamePackage.attributes ==> a in age;
    assert forall a :: a in SendInformationPackage.attributes ==> a in age;
  }

  lemma GivenNameLabel()
    ensures LabelOf("given_name") == "Given Name"
  {
    FirstOccurrence(AllAttributes, "given_name", 1);
  }

  lemma FamilyNameLabel()
    ensures LabelOf("family_name") == "Surname"
  {
    assert AllAttributes[0].value != "family_name";
    assert AllAttributes[1].value != "family_name";
    GivenNamesIsNotFamilyName();
    assert AllAttributes[2].value != "family_name";
    FirstOccurrence(AllAttributes, "family_name", 3);
  }

  /** The one catalog value before "family_name" of the same length. */
  lemma GivenNamesIsNotFamilyName()
    ensures "given_names" != "family_name"
  {
  }

  /** Choosing the Name package reports "Name", "Given Name" and "Surname", in that order. */
  lemma NamePackageLabels()
    ensures Labels(NamePackage.attributes) == ["Name", "Given Name", "Surname"]
  {
    GivenNameLabel();
    FamilyNameLabel();
    var ls := Labels(NameAttributes);
    assert ls[0] == "Name" && ls[1] == "Given Name" && ls[2] == "Surname";
  }

  // ---------------------------------------------------------------------------
  // The custom selection

  /** `list.filter(x => x !== v)`. */
  function RemoveAll(list: seq<string>, v: string): (r: seq<string>)
    ensures v !in r
    ensures multiset(r) == multiset(list)[v := 0]
    decreases |list|
  {
    if list == [] then []
    else
      assert list == [list[0]] + list[1..];
      (if list[0] == v then [] else [list[0]]) + RemoveAll(list[1..], v)
  }

  /** Removal works piecewise, so the remaining entries keep their order. */
  lemma {:induction false} RemoveAllConcat(a: seq<string>, b: seq<string>, v: string)
    ensures RemoveAll(a + b, v) == RemoveAll(a, v) + RemoveAll(b, v)
    decreases |a|
  {
    if a != [] {
      assert (a + b)[0] == a[0] && (a + b)[1..] == a[1..] + b;
      RemoveAllConcat(a[1..], b, v);
    } else {
      assert a + b == b;
    }
  }

  /** Removing a value that is not there changes nothing. */
  lemma {:induction false} RemoveAllAbsent(list: seq<string>, v: string)
    requires v !in list
    ensures RemoveAll(list, v) == list
    decreases |list|
  {
    if list != [] {
      RemoveAllAbsent(list[1..], v);
      assert [list[0]] + list[1..] == list;
    }
  }

  /** `prev.includes(v) ? prev.filter(x => x !== v) : [...prev, v]`. */
  function Toggle(list: seq<string>, v: string): (r: seq<string>)
    ensures v in list ==> v !in r && multiset(r) == multiset(list)[v := 0]
    ensures v !in list ==> r == list + [v]
  {
    if v in list then RemoveAll(list, v) else list + [v]
  }

  /** Toggling a value that was not selected, then toggling it again, restores the list. */
  lemma ToggleTwiceRestores(list: seq<string>, v: string)
    requires v !in list
    ensures Toggle(Toggle(list, v), v) == list
  {
    RemoveAllConcat(list, [v], v);
    RemoveAllAbsent(list, v);
    assert RemoveAll([v], v) == [];
  }

  /** Toggling a selected value twice moves it, once, to the end of the list. */
  lemma ToggleSelectedTwice(list: seq<string>, v: string)
    requires v in list
    ensures Toggle(Toggle(list, v), v) == RemoveAll(list, v) + [v]
  {
  }

  // ---------------------------------------------------------------------------
  // Which identity providers were recommended (case-insensitive substring tests)

  /** `components.some(c => c.toLowerCase().includes(needle))`. */
  function AnyContains(components: seq<string>, needle: string): (b: bool)
    ensures b <==> exists i :: 0 <= i < |components| && Contains(Lower(components[i]), needle)
    decreases |components|
  {
    if components == [] then false
    else if Contains(Lower(components[0]), needle) then true
    else
      var b := AnyContains(components[1..], needle);
      assert forall i :: 1 <= i < |components| ==> components[1..][i - 1] == components[i];
      b
  }

  function HasBCSC(components: seq<string>): (b: bool)
    ensures b <==> exists i :: 0 <= i < |components| && (Contains(Lower(components[i]), "bc services card")
                                                          || Contains(Lower(components[i]), "bcsc"))
  {
    AnyContains(components, "bc services card") || AnyContains(components, "bcsc")
  }

  function HasPersonCredential(components: seq<string>): (b: bool)
    ensures b <==> exists i :: 0 <= i < |components| && Contains(Lower(components[i]), "person credential")
  {
    AnyContains(components, "person credential")
  }

  function HasBCeID(components: seq<string>): (b: bool)
    ensures b <==> exists i :: 0 <= i < |components| && Contains(Lower(components[i]), "bceid")
  {
    AnyContains(components, "bceid")
  }

  /** The four phrases that reveal a provider with configurable attributes. */
  const IdpPhrases := ["bc services card", "bcsc", "person credential", "bceid"]

  /** Some component mentions, ignoring case, one of the four phrases. */
  function HasAnyIDP(components: seq<string>): (b: bool)
    ensures b <==> exists i, k :: 0 <= i < |components| && 0 <= k < |IdpPhrases|
                               && Contains(Lower(components[i]), IdpPhrases[k])
  {
    var b := HasBCSC(components) || HasPersonCredential(components) || HasBCeID(components);
    assert b ==> exists i, k :: 0 <= i < |components| && 0 <= k < |IdpPhrases|
                             && Contains(Lower(components[i]), IdpPhrases[k]) by {
      if AnyContains(components, "bc services card") {
        var i :| 0 <= i < |components| && Contains(Lower(components[i]), "bc services card");
        assert Contains(Lower(components[i]), IdpPhrases[0]);
      } else if AnyContains(components, "bcsc") {
        var i :| 0 <= i < |components| && Contains(Lower(components[i]), "bcsc");
        assert Contains(Lower(components[i]), IdpPhrases[1]);
      } else if HasPersonCredential(components) {
        var i :| 0 <= i < |components| && Contains(Lower(components[i]), "person credential");
        assert Contains(Lower(components[i]), IdpPhrases[2]);
      } else if HasBCeID(components) {
        var i :| 0 <= i < |components| && Contains(Lower(components[i]), "bceid");
        assert Contains(Lower(components[i]), IdpPhrases[3]);
      }
    }
    b
  }

  /** `components.map(c => c.toLowerCase())`. */
  function LowerAll(components: seq<string>): (r: seq<string>)
    ensures |r| == |components|
    ensures forall i :: 0 <= i < |components| ==> r[i] == Lower(components[i])
  {
    seq(|components|, i requires 0 <= i < |components| => Lower(components[i]))
  }

  /** The detection ignores case: lower-casing the components first changes nothing. */
  lemma DetectionIgnoresCase(components: seq<string>, needle: string)
    ensures AnyContains(LowerAll(components), needle) == AnyContains(components, needle)
  {
    forall i | 0 <= i < |components| ensures Lower(LowerAll(components)[i]) == Lower(components[i]) {
      LowerIdempotent(components[i]);
    }
  }

  /** A component named "BCSC", in capitals, is detected. */
  lemma DetectsCapitalisedProvider()
    ensures HasBCSC(["BCSC"])
  {
    assert Lower("BCSC") == "bcsc";
    assert OccursAt(Lower(["BCSC"][0]), "bcsc", 0);
  }

  // ---------------------------------------------------------------------------
  // The environment settings edited on this step

  /** The step's own `configData`: the three toggles and the three settings blocks. */
  datatype ConfigurationData = ConfigurationData(
    development: bool,
    test: bool,
    production: bool,
    developmentConfig: EnvironmentConfig,
    testConfig: EnvironmentConfig,
    productionConfig: EnvironmentConfig)

  datatype Environment = Development | Test | Production

  datatype EnvironmentField =
    | ApplicationName | RedirectUris | AdditionalNotes | GoLiveDate | BusinessApprovalContact

  function Enabled(cd: ConfigurationData, env: Environment): bool {
    match env
    case Development => cd.development
    case Test => cd.test
    case Production => cd.production
  }

  function ConfigOf(cd: ConfigurationData, env: Environment): EnvironmentConfig {
    match env
    case Development => cd.developmentConfig
    case Test => cd.testConfig
    case Production => cd.productionConfig
  }

  /** The value of one settings field, `None` when an optional field is absent. */
  function FieldValue(c: EnvironmentConfig, f: EnvironmentField): Option<string> {
    match f
    case ApplicationName => Some(c.applicationName)
    case RedirectUris => Some(c.redirectUris)
    case AdditionalNotes => Some(c.additionalNotes)
    case GoLiveDate => c.goLiveDate
    case BusinessApprovalContact => c.businessApprovalContact
  }

  /** `{ ...config, [field]: value }`. */
  function SetField(c: EnvironmentConfig, f: EnvironmentField, value: string): EnvironmentConfig {
    match f
    case ApplicationName => c.(applicationName := value)
    case RedirectUris => c.(redirectUris := value)
    case AdditionalNotes => c.(additionalNotes := value)
    case GoLiveDate => c.(goLiveDate := Some(value))
    case BusinessApprovalContact => c.(businessApprovalContact := Some(value))
  }

  /** `{ ...prev, [environment]: enabled }`. */
  function WithEnabled(cd: ConfigurationData, env: Environment, enabled: bool): ConfigurationData {
    match env
    case Development => cd.(development := enabled)
    case Test => cd.(test := enabled)
    case Production => cd.(production := enabled)
  }

  /** `{ ...prev, [env + "Config"]: c }`. */
  function WithConfig(cd: ConfigurationData, env: Environment, c: EnvironmentConfig): ConfigurationData {
    match env
    case Development => cd.(developmentConfig := c)
    case Test => cd.(testConfig := c)
    case Production => cd.(productionConfig := c)
  }

  /** Setting a field changes that field and no other. */
  lemma SetFieldChangesOnlyThatField(c: EnvironmentConfig, f: EnvironmentField, g: EnvironmentField, value: string)
    ensures FieldValue(SetField(c, f, value), g) == if g == f then Some(value) else FieldValue(c, g)
  {
  }

  /** A toggle changes that environment's flag and nothing else. */
  lemma WithEnabledChangesOnlyThatFlag(cd: ConfigurationData, env: Environment, e: Environment, enabled: bool)
    ensures Enabled(WithEnabled(cd, env, enabled), e) == if e == env then enabled else Enabled(cd, e)
    ensures ConfigOf(WithEnabled(cd, env, enabled), e) == ConfigOf(cd, e)
  {
  }

  /** Replacing a settings block changes that block and nothing else. */
  lemma WithConfigChangesOnlyThatBlock(cd: ConfigurationData, env: Environment, e: Environment, c: EnvironmentConfig)
    ensures ConfigOf(WithConfig(cd, env, c), e) == if e == env then c else ConfigOf(cd, e)
    ensures Enabled(WithConfig(cd, env, c), e) == Enabled(cd, e)
  {
  }

  /** `productName || 'Product'`. */
  function ProductOrDefault(productName: string): string {
    if productName == "" then "Product" else productName
  }

  /** The settings the step starts from. */
  function InitialConfig(productName: string): (cd: ConfigurationData)
    ensures cd.development && !cd.test && !cd.production
    ensures cd.developmentConfig.applicationName == ProductOrDefault(productName) + " - Dev"
    ensures cd.testConfig.applicationName == ProductOrDefault(productName) + " - Test"
    ensures cd.productionConfig.applicationName == ProductOrDefault(productName)
    ensures cd.productionConfig.businessApprovalContact == Some("")
  {
    var name := ProductOrDefault(productName);
    ConfigurationData(
      true, false, false,
      EnvironmentConfig(name + " - Dev",
        "http://localhost:3000/auth/callback\nhttp://localhost:8080/auth/callback", "", None, None),
      EnvironmentConfig(name + " - Test", "https://test.example.com/auth/callback", "", None, None),
      EnvironmentConfig(name, "https://example.com/auth/callback", "", None, Some("")))
  }

  /** The configuration update the auto-save sends: every field of `configData`. */
  function AutosaveUpdate(cd: ConfigurationData): Update {
    ConfigurationUpdate(ConfigurationPatch(
      development := Some(cd.development),
      test := Some(cd.test),
      production := Some(cd.production),
      developmentConfig := Some(cd.developmentConfig),
      testConfig := Some(cd.testConfig),
      productionConfig := Some(cd.productionConfig)))
  }

  /** After the auto-save the wizard holds the step's toggles and settings, and its attribute choice is untouched. */
  lemma AutosaveCopiesSettings(d: WizardData, cd: ConfigurationData)
    ensures var c := ApplyUpdate(d, AutosaveUpdate(cd)).configuration;
      c.development == cd.development && c.test == cd.test && c.production == cd.production
      && c.developmentConfig == cd.developmentConfig && c.testConfig == cd.testConfig
      && c.productionConfig == cd.productionConfig
      && c.attributePackage == d.configuration.attributePackage
      && c.selectedCustomAttributes == d.configuration.selectedCustomAttributes
  {
  }

  // ---------------------------------------------------------------------------
  // The updates the attribute handlers send

  /** `onUpdate({ attributePackage, selectedCustomAttributes })`. */
  function SelectionUpdate(attributePackage: string, custom: seq<string>): Update {
    ConfigurationUpdate(ConfigurationPatch(
      attributePackage := Some(attributePackage),
      selectedCustomAttributes := Some(custom)))
  }

  /** What a package choice reports: the labels of a known package's attributes, when the wizard listens. */
  function PackageRequirementsUpdate(packageId: string, notifies: bool): Option<Update> {
    if notifies && LookupPackage(packageId).Some?
    then Some(RequiredAttributesUpdate(Labels(LookupPackage(packageId).value.attributes)))
    else None
  }

  /** `onUpdateRequirements({ requiredAttributes })`. */
  function RequiredAttributesUpdate(labels: seq<string>): Update {
    RequirementsUpdate(RequirementsPatch(requiredAttributes := Some(labels)))
  }

  /** A selection update sets the two attribute fields and leaves every other field as it was. */
  lemma SelectionUpdateEffect(d: WizardData, attributePackage: string, custom: seq<string>)
    ensures var r := ApplyUpdate(d, SelectionUpdate(attributePackage, custom));
      r.configuration == d.configuration.(attributePackage := Some(attributePackage),
                                          selectedCustomAttributes := Some(custom))
      && r.projectInfo == d.projectInfo && r.requirements == d.requirements && r.solution == d.solution
  {
  }

  // ---------------------------------------------------------------------------
  // The step's state

  class ConfigurationEditor {
    /** Whether the wizard passed `onUpdateRequirements`. */
    const notifiesRequirements: bool
    /** The recommended providers, `data.solution.components`. */
    const components: seq<string>
    var selectedPackage: string
    var customAttributes: seq<string>
    var configData: ConfigurationData

    /** A package and a custom list are never chosen together. */
    predicate Valid()
      reads this
    {
      customAttributes != [] ==> selectedPackage == ""
    }

    constructor (data: WizardData, notifiesRequirements: bool)
      ensures Valid()
      ensures this.notifiesRequirements == notifiesRequirements
      ensures components == data.solution.components
      ensures selectedPackage == "name" && customAttributes == []
      ensures configData == InitialConfig(data.projectInfo.productName)
    {
      this.notifiesRequirements := notifiesRequirements;
      components := data.solution.components;
      selectedPackage := "name";
      customAttributes := [];
      configData := InitialConfig(data.projectInfo.productName);
    }

    /** `handlePackageChange(packageId)`. */
    method HandlePackageChange(packageId: string)
      returns (requirementsUpdate: Option<Update>, configurationUpdate: Update)
      requires Valid()
      modifies this`selectedPackage, this`customAttributes
      ensures Valid()
      ensures selectedPackage == packageId && customAttributes == []
      ensures requirementsUpdate ==
        if notifiesRequirements && LookupPackage(packageId).Some?
        then Some(RequiredAttributesUpdate(Labels(LookupPackage(packageId).value.attributes)))
        else None
      ensures configurationUpdate == SelectionUpdate(packageId, [])
    {
      selectedPackage := packageId;
      customAttributes := [];
      requirementsUpdate := PackageRequirementsUpdate(packageId, notifiesRequirements);
      configurationUpdate := SelectionUpdate(packageId, []);
    }

    /** `handleCustomAttributeToggle(v)` on its own. */
    method ToggleCustomAttribute(v: string)
      returns (requirementsUpdate: Option<Update>, configurationUpdate: Update)
      modifies this`customAttributes
      ensures customAttributes == Toggle(old(customAttributes), v)
      ensures requirementsUpdate ==
        if notifiesRequirements then Some(RequiredAttributesUpdate(Labels(customAttributes))) else None
      ensures configurationUpdate == SelectionUpdate("", customAttributes)
    {
      customAttributes := Toggle(customAttributes, v);
      requirementsUpdate := None;
      if notifiesRequirements {
        requirementsUpdate := Some(RequiredAttributesUpdate(Labels(customAttributes)));
      }
      configurationUpdate := SelectionUpdate("", customAttributes);
    }

    /** A click on an attribute in the list: toggle it, then clear the package. */
    method ClickAttribute(v: string)
      returns (requirementsUpdate: Option<Update>, configurationUpdate: Update)
      requires Valid()
      modifies this`customAttributes, this`selectedPackage
      ensures Valid()
      ensures customAttributes == Toggle(old(customAttributes), v) && selectedPackage == ""
      ensures requirementsUpdate ==
        if notifiesRequirements then Some(RequiredAttributesUpdate(Labels(customAttributes))) else None
      ensures configurationUpdate == SelectionUpdate("", customAttributes)
    {
      requirementsUpdate, configurationUpdate := ToggleCustomAttribute(v);
      selectedPackage := "";
    }

    /**
     * A click on the checkbox of an attribute in the list. The checkbox's own change handler
     * toggles the value and clears the package, and the click then reaches the enclosing row,
     * whose handler does the same again. Both pairs of updates are returned in order.
     */
    method ClickCheckbox(v: string)
      returns (firstRequirements: Option<Update>, firstConfiguration: Update,
               requirementsUpdate: Option<Update>, configurationUpdate: Update)
      requires Valid()
      modifies this`customAttributes, this`selectedPackage
      ensures Valid()
      ensures customAttributes == Toggle(Toggle(old(customAttributes), v), v) && selectedPackage == ""
      ensures v !in old(customAttributes) ==> customAttributes == old(customAttributes)
      ensures v in old(customAttributes) ==> customAttributes == RemoveAll(old(customAttributes), v) + [v]
      ensures firstConfiguration == SelectionUpdate("", Toggle(old(customAttributes), v))
      ensures configurationUpdate == SelectionUpdate("", customAttributes)
      ensures requirementsUpdate ==
        if notifiesRequirements then Some(RequiredAttributesUpdate(Labels(customAttributes))) else None
    {
      ghost var before := customAttributes;
      firstRequirements, firstConfiguration := ClickAttribute(v);
      requirementsUpdate, configurationUpdate := ClickAttribute(v);
      if v in before {
        ToggleSelectedTwice(before, v);
      } else {
        ToggleTwiceRestores(before, v);
      }
    }

    /** The remove mark on the badge of a selected attribute: toggle only. */
    method RemoveBadge(v: string)
      returns (requirementsUpdate: Option<Update>, configurationUpdate: Update)
      requires Valid()
      requires v in customAttributes
      modifies this`customAttributes
      ensures Valid()
      ensures customAttributes == RemoveAll(old(customAttributes), v)
      ensures selectedPackage == old(selectedPackage)
      ensures requirementsUpdate ==
        if notifiesRequirements then Some(RequiredAttributesUpdate(Labels(customAttributes))) else None
      ensures configurationUpdate == SelectionUpdate("", customAttributes)
    {
      requirementsUpdate, configurationUpdate := ToggleCustomAttribute(v);
    }

    /** Select All. */
    method SelectAll()
      returns (requirementsUpdate: Option<Update>, configurationUpdate: Update)
      requires Valid()
      modifies this`customAttributes, this`selectedPackage
      ensures Valid()
      ensures customAttributes == Values(AllAttributes) && selectedPackage == ""
      ensures requirementsUpdate ==
        if notifiesRequirements then Some(RequiredAttributesUpdate(CatalogLabels(AllAttributes))) else None
      ensures configurationUpdate == SelectionUpdate("", Values(AllAttributes))
    {
      var all := Values(AllAttributes);
      customAttributes := all;
      selectedPackage := "";
      requirementsUpdate := None;
      if notifiesRequirements {
        requirementsUpdate := Some(RequiredAttributesUpdate(CatalogLabels(AllAttributes)));
      }
      configurationUpdate := SelectionUpdate("", all);
    }

    /** Clear All; the package choice is left as it was. */
    method ClearAll()
      returns (requirementsUpdate: Option<Update>, configurationUpdate: Update)
      requires Valid()
      modifies this`customAttributes
      ensures Valid()
      ensures customAttributes == [] && selectedPackage == old(selectedPackage)
      ensures requirementsUpdate == if notifiesRequirements then Some(RequiredAttributesUpdate([])) else None
      ensures configurationUpdate == SelectionUpdate("", [])
    {
      customAttributes := [];
      requirementsUpdate := None;
      if notifiesRequirements {
        requirementsUpdate := Some(RequiredAttributesUpdate([]));
      }
      configurationUpdate := SelectionUpdate("", []);
    }

    /** `updateEnvironment(environment, enabled)`. */
    method UpdateEnvironment(env: Environment, enabled: bool)
      modifies this`configData
      ensures configData == WithEnabled(old(configData), env, enabled)
    {
      configData := WithEnabled(configData, env, enabled);
    }

    /** `updateEnvironmentConfig(environment, field, value)`. */
    method UpdateEnvironmentConfig(env: Environment, field: EnvironmentField, value: string)
      modifies this`configData
      ensures configData == WithConfig(old(configData), env, SetField(ConfigOf(old(configData), env), field, value))
    {
      configData := WithConfig(configData, env, SetField(ConfigOf(configData, env), field, value));
    }
  }

  /** Select All chooses the 29 catalog values in catalog order. */
  lemma SelectAllChoosesWholeCatalog()
    ensures |Values(AllAttributes)| == 29
    ensures Values(AllAttributes)[0] == "display_name" && Values(AllAttributes)[28] == "authoritative_party_name"
  {
  }

  /**
   * Choosing the Age Verification package and then clicking "email" in the
   * list leaves the wizard with no package and "email" as the only custom
   * attribute.
   */
  method PackageThenAttribute(d: WizardData) returns (w: WizardData)
    ensures w.configuration.attributePackage == Some("")
    ensures w.configuration.selectedCustomAttributes == Some(["email"])
  {
    var editor := new ConfigurationEditor(d, false);
    var _, configuration1 := editor.HandlePackageChange("ageVerification");
    w := ApplyUpdate(d, configuration1);
    var _, configuration2 := editor.ClickAttribute("email");
    assert [] + ["email"] == ["email"];
    w := ApplyUpdate(w, configuration2);
  }

  /**
   * Clicking the checkbox of an unselected attribute toggles it twice, so the list ends as it
   * began, while a click elsewhere on the row selects the attribute.
   */
  lemma CheckboxClickIsLost()
    ensures Toggle(Toggle([], "email"), "email") == []
    ensures Toggle([], "email") == ["email"]
  {
    assert [] + ["email"] == ["email"];
    ToggleTwiceRestores([], "email");
  }
}
