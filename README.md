# Identity-integration wizard: a Dafny model

This project models the logic under the presentation layer of a prototype portal. The portal lets a team register an application with a government identity service. It covers four pieces of logic:

- **The intake wizard** (`IntegrationWizard`, wizard.dfy). It holds a sectioned intake record across five steps: Project Information, Requirements, Solution, Configuration and Review.
  - It merges partial updates one section at a time, gates each step on its required fields, and clamps Next/Previous navigation to the five steps.
  - On submit it rewrites the stored collection of integration records:
    - in edit mode, the record with the edited id is replaced in place;
    - in create mode, a new record is appended, with a request id built from the tail of its id.
- **The Configuration step** (`ConfigurationStep`, configuration_step.dfy). It holds:
  - the three attribute packages and the 29-entry attribute catalog;
  - the two mutually exclusive ways of choosing attributes: one package, or a custom list edited by toggles, Select All and Clear All;
  - the mapping from attribute values to labels, the per-environment toggles and settings, the initial settings, and the case-insensitive detection of recommended providers.

  Each handler is a method of the class `ConfigurationEditor`. It returns the updates it hands to the wizard.
- **The Review step** (`ReviewStep`, review_step.dfy). It holds:
  - the provider recommendation per user type and data classification;
  - the two dictionaries built by pushing in loops (`userTypeGroups` and `providerGroups`);
  - the environment line;
  - the attribute summary, whose lists are cut at seven or five labels followed by "and N more...".
- **The integration details page** (`IntegrationDetails`, integration_details.dfy). It turns a stored record into the view the page shows:
  - a legacy-shaped record keeps its id, request id, name, ministry, contacts and provider list. Its status becomes "Active" when missing or empty. Its user types, privacy zone, client type, protocol, use case and data classification get fixed sample values;
  - a wizard-shaped record has its environment list built by pushes, its redirect URIs split on line breaks and its client ids built from the record id;
  - an unknown id gets a sample record that carries the requested id.

  The module also holds the display-label tables and the presentation-configuration id.

`Text` (text.dfy) models the JavaScript string operations these rely on: ASCII `toLowerCase`, `includes`, `split` on one character, `join`, `slice(-k)` and the decimal rendering of a count. `Wrappers` (wrappers.dfy) holds `Option` and `Result`.

Storage is a `seq<StoredRecord>` passed in and returned. The generated id and the current time are parameters. A wizard-shaped record that lacks a section the page reads makes the page throw; the model returns `Err(MissingSection(...))` instead.

Three facts about the code shape the model:

- `nextStep` is a plain clamped increment. No user category skips a step.
- `userTypeGroups` gives an unrecognised user type an empty provider list, because that switch has no default.
- The Configuration step's own settings start from fixed defaults (`InitialConfig`), not from the wizard's stored configuration.

In the attribute list of the Configuration step, each row has a click handler, and so does the checkbox inside it. A click on the checkbox also reaches the row, so the model runs both handlers (`ClickCheckbox`). A click elsewhere on the row runs only the row's handler (`ClickAttribute`).

## Model

| member | source | states |
|---|---|---|
| Text.Lower | src/components/wizard/ConfigurationStep.tsx:110-112 | same length as the input; every ASCII capital is lower-cased and every other character kept |
| Text.LowerIdempotent | src/components/wizard/ConfigurationStep.tsx:110-112 | lower-casing twice equals lower-casing once |
| Text.Contains | src/components/wizard/ConfigurationStep.tsx:110-112 | `includes` is true iff the needle occurs at some position of the text |
| Text.Split | src/pages/IntegrationDetails.tsx:89 | a split yields at least one piece, and no piece contains the separator |
| Text.JoinSplit | src/pages/IntegrationDetails.tsx:89 | re-joining the pieces with the separator gives back the original string |
| Text.SplitCount | src/pages/IntegrationDetails.tsx:89 | the number of pieces is the number of separators plus one |
| Text.SplitWithoutSeparator | src/pages/IntegrationDetails.tsx:89 | a string without the separator splits into itself alone |
| Text.SplitAtSeparator | src/pages/IntegrationDetails.tsx:89 | splitting at a separator splits the two sides independently |
| Text.SplitJoin | src/pages/IntegrationDetails.tsx:89 | joining separator-free pieces and splitting again gives back the pieces |
| Text.FirstPiece | src/pages/IntegrationDetails.tsx:93 | the first piece is a separator-free prefix that is followed by a separator or ends the string; it is the whole string when there is no separator |
| Text.JoinTwo | src/components/wizard/ReviewStep.tsx:350-354 | joining two names puts one separator between them |
| Text.JoinThree | src/components/wizard/ReviewStep.tsx:350-354 | joining three names puts a separator between each neighbouring pair |
| Text.JoinStartsWithFirst | src/components/wizard/ReviewStep.tsx:350-354 | a join of a non-empty list starts with its first piece |
| Text.Suffix | src/components/IntegrationWizard.tsx:294 | `slice(-k)` has length min(k, length), or the whole length for k = 0, and the string ends with it |
| Text.NatToString | src/components/wizard/ReviewStep.tsx:422 | a count renders as a non-empty string of digits with no leading zero |
| Text.ParseNatToString | src/components/wizard/ReviewStep.tsx:422 | reading the rendered digits back gives the count |
| Text.NatToStringInjective | src/components/wizard/ReviewStep.tsx:422 | different counts render as different text |
| IntegrationWizard.DefaultWizardData | src/components/IntegrationWizard.tsx:95-155 | a new wizard starts with only Development chosen, no user types and no recommendation |
| IntegrationWizard.CanProceed | src/components/IntegrationWizard.tsx:217-240 | every index outside 0..3 passes, and step 3 can be left iff the stored environment list would be non-empty |
| IntegrationWizard.ApplyUpdate | src/components/IntegrationWizard.tsx:197-203 | only the named section changes; within it, each field the update names is overwritten and the others are kept |
| IntegrationWizard.EmptyUpdateIsIdentity | src/components/IntegrationWizard.tsx:197-203 | an update that names no field leaves the record as it was |
| IntegrationWizard.UpdateIdempotent | src/components/IntegrationWizard.tsx:197-203 | applying the same update twice equals applying it once |
| IntegrationWizard.UpdatesOfDifferentSectionsCommute | src/components/IntegrationWizard.tsx:197-203 | updates to two different sections can be applied in either order |
| IntegrationWizard.ProjectInfoGate | src/components/IntegrationWizard.tsx:219-228 | step 0 can be left iff none of the eight text fields is empty and the user-type list is not empty |
| IntegrationWizard.OneMissingProjectFieldBlocks | src/components/IntegrationWizard.tsx:219-228 | any single missing item blocks step 0 |
| IntegrationWizard.RequirementsGate | src/components/IntegrationWizard.tsx:229-230 | step 1 can be left iff protocol, use case, client type and data classification are all non-empty |
| IntegrationWizard.LaterGates | src/components/IntegrationWizard.tsx:231-239 | step 2 needs a recommendation, step 3 at least one environment, and every other index always passes |
| IntegrationWizard.NavigationStaysInRange | src/components/IntegrationWizard.tsx:205-215 | from a step in 0..4, any sequence of Next, Previous and step-button jumps stays in 0..4 |
| IntegrationWizard.NextAndPrevious | src/components/IntegrationWizard.tsx:205-215 | Next moves iff below the Review step, Previous moves iff above the first step, and each undoes the other |
| IntegrationWizard.SelectedEnvironmentNames | src/components/IntegrationWizard.tsx:256-260 | each name is present iff its flag is set; only the three names occur, in Development, Test, Production order |
| IntegrationWizard.OnlyDevelopmentNames | src/components/IntegrationWizard.tsx:298-302 | with only Development chosen, the stored list is exactly ["Development"] |
| IntegrationWizard.FindIndex | src/pages/IntegrationDetails.tsx:43 | the index of the first record with the id, or -1 when no record has it |
| IntegrationWizard.EditedRecord | src/components/IntegrationWizard.tsx:250-278 | the edited record carries the wizard's four sections, the environment names of its configuration and the new update time |
| IntegrationWizard.EditedRecordKeepsIdentity | src/components/IntegrationWizard.tsx:250-278 | an edited record keeps its id, request id, status, creation time and user count |
| IntegrationWizard.EditStore | src/components/IntegrationWizard.tsx:249-280 | same length and order; a record with the edited id becomes its edited form and every other record is unchanged |
| IntegrationWizard.EditStoreKeepsIds | src/components/IntegrationWizard.tsx:250-278 | editing keeps the ids of the collection, position by position |
| IntegrationWizard.EditStoreUnknownIdIsNoOp | src/components/IntegrationWizard.tsx:250-278 | editing with an id no record carries leaves the collection unchanged |
| IntegrationWizard.EditStoreIdempotent | src/components/IntegrationWizard.tsx:250-278 | saving the same edit twice equals saving it once |
| IntegrationWizard.FindIndexSameIds | src/components/IntegrationWizard.tsx:250-278 | collections with the same ids in the same order find an id at the same index |
| IntegrationWizard.EditThenFind | src/components/IntegrationWizard.tsx:249-280 | after an edit-mode submit the record is found as the edited form of the old one, carrying the wizard's four sections |
| IntegrationWizard.NewRecord | src/components/IntegrationWizard.tsx:289-322 | the new record has the new id and a request id of length 4 + min(4, length of the id) |
| IntegrationWizard.NewRequestIdShape | src/components/IntegrationWizard.tsx:294 | the request id is "0000" followed by the last four characters of the id |
| IntegrationWizard.CreateThenFind | src/components/IntegrationWizard.tsx:324-325 | after a create-mode submit with a fresh id, looking the id up finds the new record: status "completed", with the wizard's four sections |
| IntegrationWizard.Wizard.constructor | src/components/IntegrationWizard.tsx:90-155 | starts at the given step with the given record or the default one, with no unsaved changes |
| IntegrationWizard.Wizard.UpdateData | src/components/IntegrationWizard.tsx:197-203 | the record becomes the merged one, unsaved changes are flagged and the step is kept |
| IntegrationWizard.Wizard.NextStep | src/components/IntegrationWizard.tsx:205-209 | the clamped increment; a step in range stays in range |
| IntegrationWizard.Wizard.PrevStep | src/components/IntegrationWizard.tsx:211-215 | the clamped decrement; a step in range stays in range |
| IntegrationWizard.Wizard.GoToStep | src/components/IntegrationWizard.tsx:417-420 | a step-button click lands on that step, which is in range |
| IntegrationWizard.Wizard.HandleSubmit | src/components/IntegrationWizard.tsx:243-335 | clears the unsaved flag; the written collection is the edited one in edit mode and the old one plus the new record in create mode |
| ConfigurationStep.CatalogWellFormed | src/components/wizard/ConfigurationStep.tsx:68-98 | the catalog has 29 entries with pairwise distinct values |
| ConfigurationStep.DistinctFirstEntries | src/components/wizard/ConfigurationStep.tsx:69-73 | no value among the first five entries recurs later |
| ConfigurationStep.DistinctMiddleEntries | src/components/wizard/ConfigurationStep.tsx:74-80 | no value among entries 5 to 11 recurs later |
| ConfigurationStep.DistinctLastEntries | src/components/wizard/ConfigurationStep.tsx:81-97 | no value among entries 12 to 28 recurs later |
| ConfigurationStep.Values | src/components/wizard/ConfigurationStep.tsx:330 | the values of the catalog, entry by entry |
| ConfigurationStep.CatalogLabels | src/components/wizard/ConfigurationStep.tsx:334 | the labels of the catalog, entry by entry |
| ConfigurationStep.FindAttribute | src/components/wizard/ConfigurationStep.tsx:153 | `find` gives the first entry with the value, or -1 when there is none |
| ConfigurationStep.LabelInCatalog | src/components/wizard/ConfigurationStep.tsx:152-155 | in a catalog with distinct values, a value maps to the label of its entry and anything else maps to itself |
| ConfigurationStep.FirstOccurrence | src/components/wizard/ConfigurationStep.tsx:153 | the first entry carrying a value is the one found, and its label is reported |
| ConfigurationStep.LabelOf | src/components/wizard/ConfigurationStep.tsx:152-155 | a value is reported as something other than itself only if it is a catalog value |
| ConfigurationStep.LabelOfCatalogEntry | src/components/wizard/ConfigurationStep.tsx:152-155 | every catalog value is reported with the label of its own entry |
| ConfigurationStep.LabelsIn | src/components/wizard/ConfigurationStep.tsx:176-179 | the reported labels have one entry per id, in order, each the label of that id |
| ConfigurationStep.LabelsOfCatalogValues | src/components/wizard/ConfigurationStep.tsx:176-179 | each catalog value is reported with the label of its entry, and any other id as itself |
| ConfigurationStep.LookupPackage | src/components/wizard/ConfigurationStep.tsx:150-151 | a package is found iff some catalog package has that id, and the result is that package |
| ConfigurationStep.PackagesNest | src/components/wizard/ConfigurationStep.tsx:46-65 | Send Information starts with the Name list, and Age Verification is Send Information plus "birthdate" |
| ConfigurationStep.AgeVerificationInCatalog | src/components/wizard/ConfigurationStep.tsx:59-64 | every attribute of Age Verification is a catalog value |
| ConfigurationStep.PackageAttributesInCatalog | src/components/wizard/ConfigurationStep.tsx:46-65 | every attribute of every package is a catalog value |
| ConfigurationStep.GivenNameLabel | src/components/wizard/ConfigurationStep.tsx:70 | "given_name" is reported as "Given Name" |
| ConfigurationStep.FamilyNameLabel | src/components/wizard/ConfigurationStep.tsx:72 | "family_name" is reported as "Surname" |
| ConfigurationStep.NamePackageLabels | src/components/wizard/ConfigurationStep.tsx:150-156 | choosing the Name package reports ["Name", "Given Name", "Surname"] |
| ConfigurationStep.RemoveAll | src/components/wizard/ConfigurationStep.tsx:171 | `filter` removes every occurrence of the value and keeps every other entry, counted with multiplicity |
| ConfigurationStep.RemoveAllConcat | src/components/wizard/ConfigurationStep.tsx:171 | removal works piecewise over a concatenation, so the kept entries stay in order |
| ConfigurationStep.RemoveAllAbsent | src/components/wizard/ConfigurationStep.tsx:171 | removing a value that is absent changes nothing |
| ConfigurationStep.Toggle | src/components/wizard/ConfigurationStep.tsx:170-172 | a selected value is removed entirely; an unselected one is appended at the end |
| ConfigurationStep.ToggleTwiceRestores | src/components/wizard/ConfigurationStep.tsx:170-172 | toggling an unselected value twice restores the list |
| ConfigurationStep.ToggleSelectedTwice | src/components/wizard/ConfigurationStep.tsx:170-172 | toggling a selected value twice removes every copy and appends one at the end |
| ConfigurationStep.AnyContains | src/components/wizard/ConfigurationStep.tsx:110-112 | true iff some component, lower-cased, contains the phrase |
| ConfigurationStep.HasAnyIDP | src/components/wizard/ConfigurationStep.tsx:109-113 | true iff some component, lower-cased, contains one of "bc services card", "bcsc", "person credential" or "bceid" |
| ConfigurationStep.HasBCSC | src/components/wizard/ConfigurationStep.tsx:110 | true iff some component, lower-cased, contains "bc services card" or "bcsc" |
| ConfigurationStep.HasPersonCredential | src/components/wizard/ConfigurationStep.tsx:111 | true iff some component, lower-cased, contains "person credential" |
| ConfigurationStep.HasBCeID | src/components/wizard/ConfigurationStep.tsx:112 | true iff some component, lower-cased, contains "bceid" |
| ConfigurationStep.LowerAll | src/components/wizard/ConfigurationStep.tsx:110-112 | every component lower-cased, position by position |
| ConfigurationStep.DetectionIgnoresCase | src/components/wizard/ConfigurationStep.tsx:110-112 | lower-casing the components first does not change the detection |
| ConfigurationStep.DetectsCapitalisedProvider | src/components/wizard/ConfigurationStep.tsx:110 | a component written "BCSC" in capitals counts as BC Services Card |
| ConfigurationStep.SetFieldChangesOnlyThatField | src/components/wizard/ConfigurationStep.tsx:210-219 | setting one settings field changes that field and no other |
| ConfigurationStep.WithEnabledChangesOnlyThatFlag | src/components/wizard/ConfigurationStep.tsx:203-208 | a toggle changes that environment's flag only, and no settings block |
| ConfigurationStep.WithConfigChangesOnlyThatBlock | src/components/wizard/ConfigurationStep.tsx:210-219 | replacing one environment's settings changes that block only, and no flag |
| ConfigurationStep.InitialConfig | src/components/wizard/ConfigurationStep.tsx:115-139 | only Development is on; application names are "<name or Product> - Dev", "... - Test" and "<name or Product>"; production has an empty approval contact |
| ConfigurationStep.AutosaveCopiesSettings | src/components/wizard/ConfigurationStep.tsx:194-201 | after the auto-save the wizard holds the step's flags and settings, and its attribute choice is untouched |
| ConfigurationStep.SelectionUpdateEffect | src/components/wizard/ConfigurationStep.tsx:161-164 | a selection update sets the package and custom list and leaves every other field and section unchanged |
| ConfigurationStep.ConfigurationEditor.constructor | src/components/wizard/ConfigurationStep.tsx:100-139 | starts with the Name package, no custom list and the initial settings |
| ConfigurationStep.ConfigurationEditor.HandlePackageChange | src/components/wizard/ConfigurationStep.tsx:144-165 | selects the package and empties the custom list; reports the package's labels only for a known package when the wizard listens; persists the package with an empty list |
| ConfigurationStep.ConfigurationEditor.ToggleCustomAttribute | src/components/wizard/ConfigurationStep.tsx:168-191 | the list becomes its toggle; reports its labels; persists an empty package with the new list |
| ConfigurationStep.ConfigurationEditor.ClickAttribute | src/components/wizard/ConfigurationStep.tsx:367-370 | toggles the value and clears the package, so a package and a custom list are never chosen together |
| ConfigurationStep.ConfigurationEditor.ClickCheckbox | src/components/wizard/ConfigurationStep.tsx:367-377 | the checkbox handler and then the row handler both run: the list is toggled twice, so an unselected value is left out and a selected one moves to the end; the package is cleared and both updates are persisted |
| ConfigurationStep.ConfigurationEditor.RemoveBadge | src/components/wizard/ConfigurationStep.tsx:396 | removes the value from the list and keeps the package choice; reports and persists the new list |
| ConfigurationStep.ConfigurationEditor.SelectAll | src/components/wizard/ConfigurationStep.tsx:329-340 | the list becomes all catalog values in order, the package is cleared, and all labels are reported |
| ConfigurationStep.ConfigurationEditor.ClearAll | src/components/wizard/ConfigurationStep.tsx:348-357 | the list becomes empty, no labels are reported, and an empty package with an empty list is persisted |
| ConfigurationStep.ConfigurationEditor.UpdateEnvironment | src/components/wizard/ConfigurationStep.tsx:203-208 | sets the one environment flag |
| ConfigurationStep.ConfigurationEditor.UpdateEnvironmentConfig | src/components/wizard/ConfigurationStep.tsx:210-219 | sets one field of one environment's settings |
| ConfigurationStep.SelectAllChoosesWholeCatalog | src/components/wizard/ConfigurationStep.tsx:330 | Select All chooses 29 values, from "display_name" to "authoritative_party_name" |
| ConfigurationStep.PackageThenAttribute | src/components/wizard/ConfigurationStep.tsx:144-191 | choosing Age Verification and then clicking "email" leaves no package and ["email"] as the custom list |
| ConfigurationStep.CheckboxClickIsLost | src/components/wizard/ConfigurationStep.tsx:367-377 | a checkbox click on unselected "email" leaves the list empty, while a row click selects it |
| ReviewStep.RecommendationFollowsTable | src/components/wizard/ReviewStep.tsx:231-284 | the string switch agrees with the provider table for every user type and classification |
| ReviewStep.RecommendedProviders | src/components/wizard/ReviewStep.tsx:231-284 | at most two providers, and none iff the user type is unrecognised |
| ReviewStep.GroupProvider | src/components/wizard/ReviewStep.tsx:195-215 | residents go under "To be determined"; any other provider is exactly the one the user type is recommended |
| ReviewStep.BCResidentsRecommendation | src/components/wizard/ReviewStep.tsx:232-249 | BC residents get BCeID Basic for public data, Person Credential then BC Services Card for protected data, and BC Services Card otherwise, including for an empty classification |
| ReviewStep.CoupledPairOnlyForProtectedBCResidents | src/components/wizard/ReviewStep.tsx:231-284 | at most two providers are recommended, and two exactly for BC residents with protected data |
| ReviewStep.CanadianResidentsRecommendation | src/components/wizard/ReviewStep.tsx:250-256 | Canadian residents get BCeID Basic for public and Protected A data, and BC Services Card otherwise |
| ReviewStep.IdirRecommendation | src/components/wizard/ReviewStep.tsx:263-283 | the three IDIR user types get "IDIR + MFA" iff the data is Protected B or C, and "IDIR" otherwise |
| ReviewStep.OtherTypesMatchTheirGroup | src/components/wizard/ReviewStep.tsx:195-215 | a recognised non-resident type gets exactly the provider it is grouped under; a type is unrecognised iff it is grouped under "To be determined", and then it gets no provider |
| ReviewStep.HasCoupledCredentials | src/components/wizard/ReviewStep.tsx:182-186 | true iff some user type receives a two-provider recommendation |
| ReviewStep.Dedup | src/components/wizard/ReviewStep.tsx:226-229 | the keys in order of first appearance: distinct, each present iff it occurs in the input, and ordered by the index of their first occurrence |
| ReviewStep.FirstIndexOf | src/components/wizard/ReviewStep.tsx:227 | the index of the first occurrence: it holds the value and no earlier index does |
| ReviewStep.GroupIndex | src/components/wizard/ReviewStep.tsx:227 | the dictionary entry under a key, or -1 iff no entry has that key |
| ReviewStep.PushKeepsGrouped | src/components/wizard/ReviewStep.tsx:217-220 | creating an entry when missing and then pushing keeps one entry per distinct key, each holding everything pushed under it |
| ReviewStep.GatheredProviders | src/components/wizard/ReviewStep.tsx:226-285 | each occurrence of a user type contributes its recommendation once more |
| ReviewStep.BuildUserTypeGroups | src/components/wizard/ReviewStep.tsx:224-285 | one entry per distinct user type in first-appearance order, holding its recommendation once per occurrence |
| ReviewStep.UnrecognisedTypeHasEmptyGroup | src/components/wizard/ReviewStep.tsx:226-231 | an unrecognised user type still gets an entry, with an empty list |
| ReviewStep.DuplicateTypeGetsTwoCopies | src/components/wizard/ReviewStep.tsx:226-285 | a type listed twice has its recommendation twice, under a single key |
| ReviewStep.OtherUserTypes | src/components/wizard/ReviewStep.tsx:189-191 | the user types other than BC and Canadian residents |
| ReviewStep.WithProvider | src/components/wizard/ReviewStep.tsx:193-221 | the other user types served by a provider, as a filter keeping input order |
| ReviewStep.GatheredByProvider | src/components/wizard/ReviewStep.tsx:193-221 | what is pushed under a provider is exactly its user types, in input order |
| ReviewStep.BuildProviderGroups | src/components/wizard/ReviewStep.tsx:193-221 | one entry per distinct provider in first-appearance order, holding the other user types it serves, in input order |
| ReviewStep.EachOtherTypeInExactlyOneGroup | src/components/wizard/ReviewStep.tsx:189-221 | residents are in no entry; every other user type is in exactly the entry for its provider; keys are distinct |
| ReviewStep.SelectedEnvironmentsText | src/components/wizard/ReviewStep.tsx:350-354 | the line is empty iff no environment name is stored, and otherwise starts with the first one |
| ReviewStep.EnvironmentsTextTable | src/components/wizard/ReviewStep.tsx:350-354 | the environment line for each of the eight flag combinations |
| ReviewStep.EnvironmentsTextEmpty | src/components/wizard/ReviewStep.tsx:350-354 | the line is empty iff the Configuration gate would block |
| ReviewStep.CatalogsAgree | src/components/wizard/ReviewStep.tsx:32-62 | the Review step's catalog equals the Configuration step's entry for entry, with distinct values |
| ReviewStep.CaptionsNonEmpty | src/components/wizard/ReviewStep.tsx:32-62 | every catalog label is non-empty |
| ReviewStep.LabelOrValueAgrees | src/components/wizard/ReviewStep.tsx:416-418 | with no empty label, the `?.label \|\| value` fallback agrees with the Configuration step's conditional |
| ReviewStep.ReviewLabels | src/components/wizard/ReviewStep.tsx:415-419 | one label per value, in order |
| ReviewStep.ReviewLabelMatchesConfiguration | src/components/wizard/ReviewStep.tsx:416-418 | every value is labelled here exactly as on the Configuration step |
| ReviewStep.PackageSummaryOf | src/components/wizard/ReviewStep.tsx:16-29 | a summary exists iff the id is a configuration package, with the same label |
| ReviewStep.Truncate | src/components/wizard/ReviewStep.tsx:415-423 | the first min(limit, n) labels, and "and (n - limit) more..." iff n > limit |
| ReviewStep.ScenariosAreExclusive | src/components/wizard/ReviewStep.tsx:397-428 | the three scenarios exclude each other, and none applies iff there is neither a package nor a custom list |
| ReviewStep.Summary | src/components/wizard/ReviewStep.tsx:397-448 | the scenario whose condition holds; package-only shows that package's label and description, package-and-custom shows its label as the base package, custom lists are cut at seven (custom only) or five (with a package) |
| ReviewStep.SummaryTruncation | src/components/wizard/ReviewStep.tsx:410-448 | custom-only shows min(7, n) labels with a remainder line iff n > 7; package-and-custom shows min(5, n) with one iff n > 5 |
| ReviewStep.AttributeSectionOf | src/components/wizard/ReviewStep.tsx:389-395 | the section appears iff BC Services Card or Person Credential was recommended; its heading is "BC Services Card & Person Credential" when Person Credential is present and "BC Services Card" otherwise |
| ReviewStep.ProtocolLabel | src/components/wizard/ReviewStep.tsx:141 | any value other than "oidc" and "saml" is shown unchanged |
| ReviewStep.UseCaseLabel | src/components/wizard/ReviewStep.tsx:145-148 | any value outside the three known use cases is shown unchanged |
| ReviewStep.ClientTypeLabel | src/components/wizard/ReviewStep.tsx:152-154 | any value other than "confidential" and "public" is shown unchanged |
| IntegrationDetails.ClientId | src/pages/IntegrationDetails.tsx:88 | the prefix, then "-client-", then the last min(6, length) characters of the id |
| IntegrationDetails.WizardEnvironment | src/pages/IntegrationDetails.tsx:84-95 | the entry for one environment has its name and providers, is ready unless Production, and uses one client id in both places |
| IntegrationDetails.EnabledEnvironments | src/pages/IntegrationDetails.tsx:82-124 | exactly the enabled environments, named as the stored environment list |
| IntegrationDetails.EnvironmentViews | src/pages/IntegrationDetails.tsx:82-124 | one entry per environment, in order |
| IntegrationDetails.PushEnvironment | src/pages/IntegrationDetails.tsx:82-124 | one more push adds one more entry at the end |
| IntegrationDetails.PushEnvironmentView | src/pages/IntegrationDetails.tsx:84-95 | a push extends the list with the entry for that environment |
| IntegrationDetails.BuildEnvironmentList | src/pages/IntegrationDetails.tsx:82-124 | the pushed list is the entries of the enabled environments, in Development, Test, Production order |
| IntegrationDetails.WizardView | src/pages/IntegrationDetails.tsx:79-150 | a wizard-shaped record is shown with the requested id, status "Active", a request id from the tail of the id, and its project, requirement, provider and attribute choices |
| IntegrationDetails.LegacyEnvironment | src/pages/IntegrationDetails.tsx:66-77 | a legacy entry keeps its name and providers, is ready unless Production, and uses the lower-cased name in its client id |
| IntegrationDetails.LegacyAuthorityAgainstWizard | src/pages/IntegrationDetails.tsx:74-120 | a legacy Test or Production entry signs in at the same authority as a wizard-shaped one; a legacy Development entry signs in at a different one |
| IntegrationDetails.LegacyStatus | src/pages/IntegrationDetails.tsx:55 | `status \|\| "Active"`: a missing or empty status reads as "Active", any other is kept |
| IntegrationDetails.LegacyView | src/pages/IntegrationDetails.tsx:49-78 | id, request id, name, ministry, contacts and providers are kept; a missing or empty status becomes "Active"; the requirement-like fields get the fixed sample values; one entry per stored environment name |
| IntegrationDetails.FallbackView | src/pages/IntegrationDetails.tsx:153-213 | an unknown id gets the sample, which carries that id and the three environments in order |
| IntegrationDetails.LoadIntegrationData | src/pages/IntegrationDetails.tsx:41-214 | the imperative lookup computes the view of the record |
| IntegrationDetails.IntegrationData | src/pages/IntegrationDetails.tsx:41-214 | a view always carries the requested id, and an error only arises from a stored wizard-shaped record |
| IntegrationDetails.RecordLookup | src/pages/IntegrationDetails.tsx:41-214 | not found gives the fallback; found without wizard data gives the legacy view with its status defaulted; an error iff wizard data lacks its solution or requirements; every view carries the requested id |
| IntegrationDetails.WizardEnvironmentsFollowConfiguration | src/pages/IntegrationDetails.tsx:82-124 | the view lists exactly the stored environment names, in order, with readiness for all but Production and the recommended providers |
| IntegrationDetails.RedirectUrisRoundTrip | src/pages/IntegrationDetails.tsx:89 | the URIs re-join to the stored text, number one more than its line breaks, and contain no line break |
| IntegrationDetails.JsonRedirectUriIsFirstLine | src/pages/IntegrationDetails.tsx:93 | the copied URI is the first line of the stored text, and all of it when there is one line |
| IntegrationDetails.SubmittedRecordIsShown | src/pages/IntegrationDetails.tsx:126-150 | a record created by the wizard is shown with its request id and its submitted environment names |
| IntegrationDetails.UseCaseDisplay | src/pages/IntegrationDetails.tsx:219-231 | any value outside the four known use cases is shown unchanged |
| IntegrationDetails.ClientTypeDisplay | src/pages/IntegrationDetails.tsx:233-242 | a value is shown unchanged unless, lower-cased, it is "confidential" or "public" |
| IntegrationDetails.ClientProtocolDisplay | src/pages/IntegrationDetails.tsx:244-253 | a value is shown unchanged unless, lower-cased, it is "oidc" or "saml" |
| IntegrationDetails.ClientTypeIgnoresCase | src/pages/IntegrationDetails.tsx:233-242 | a known client type is shown the same whatever its letter case |
| IntegrationDetails.ProtocolIgnoresCase | src/pages/IntegrationDetails.tsx:244-253 | a known protocol is shown the same whatever its letter case |
| IntegrationDetails.ClientTypeAgreesWithReview | src/pages/IntegrationDetails.tsx:233-242 | on lower-case input the page and the Review step show the same client type |
| IntegrationDetails.ProtocolAgreesWithReview | src/pages/IntegrationDetails.tsx:244-253 | on lower-case input the page and the Review step show the same protocol |
| IntegrationDetails.UseCaseAgreesWithReview | src/pages/IntegrationDetails.tsx:219-231 | the use-case labels agree except on "service-account", which only the page knows |
| IntegrationDetails.AttributePackageDisplay | src/pages/IntegrationDetails.tsx:255-266 | nothing is shown iff there is neither a known package nor a custom list; otherwise a custom list without a package shows its count |
| IntegrationDetails.PackageTakesPrecedence | src/pages/IntegrationDetails.tsx:255-289 | with a known package, neither the display nor the presentation id depends on the custom list |
| IntegrationDetails.CustomDisplayPlural | src/pages/IntegrationDetails.tsx:263 | "attribute" for one selected, "attributes" for more |
| IntegrationDetails.PresentationConfigurationId | src/pages/IntegrationDetails.tsx:274-289 | always "verified-person-bc-" followed by one of five suffixes; "default" iff no package label is displayed; "custom" iff a custom list is shown without a known package |
| IntegrationDetails.PresentationIdMatchesDisplay | src/pages/IntegrationDetails.tsx:255-289 | "default" iff nothing is displayed, "custom" iff a count is displayed without a known package, and a known package never gets either |
| IntegrationDetails.PresentationIdIdentifiesPackage | src/pages/IntegrationDetails.tsx:274-289 | two choices, one with a known package, get the same id iff they name the same package |
| IntegrationDetails.HasPersonCredential | src/pages/IntegrationDetails.tsx:269-271 | true iff some provisioned provider, lower-cased, contains "person credential" |
| IntegrationDetails.ShowsPresentationCard | src/pages/IntegrationDetails.tsx:571 | the card appears exactly when Person Credential is provisioned and either a package label is displayed or the package id is non-empty, so a record with neither a package id nor a custom list shows none, while an unknown non-empty package id still shows one |
| IntegrationDetails.FallbackShowsNoPresentationCard | src/pages/IntegrationDetails.tsx:571 | the sample provisions Person Credential but has no attribute choice, so it shows no presentation card |

## Left out

- Rendering (JSX, styling, icons, tooltips, collapsibles, dialogs, tabs) is presentation only. The icons and tooltips attached to `userTypeGroups` items are dropped; only provider names are kept.
- The step forms (project information, requirements, solution) are not part of this model, so any validation they do is unknown. The navigation model lets any step be left.
- Storage reads and writes and JSON (de)serialisation: the collection is a sequence passed in and returned.
- Navigation, toasts, clipboard and file download are browser I/O.
- `console.log` in `handleSubmit` is output only.
- Id and timestamp generation (`Date.now()`, `new Date()`) are nondeterministic; the id and the time are parameters.
- The one-second auto-save debounce and the copied-flag reset timers involve timing. The auto-save is modelled as the single update it sends (`AutosaveUpdate`). The `lastSaved` time it records is left out.
- The `beforeunload` warning is a browser event.
- The progress value is floating-point division.
- Dates (`goLiveDate`, `lastSaved`) and their formatting are kept as uninterpreted strings.
- `toLowerCase` is ASCII only; Unicode case mapping is not modelled.
- Property lookups on plain objects do not model inherited prototype keys. This applies to a package id or user type such as "constructor" in `ATTRIBUTE_PACKAGES[...]` and `userTypeGroups[...]`.
- Dictionary keys are kept in insertion order; the rule that `Object.entries` lists integer-like keys first is not modelled.
- IntegrationWizard.ApplyUpdate: an update cannot unset a field by passing `undefined`, and keys outside the section's fields are not modelled.
- The wizard's `onUpdate` call made inside the toggle's state updater is treated as a plain call, not a deferred one.
- A details route without an id is not modelled; the id is always a string.
- A wizard-shaped record whose configuration lacks an environment's settings block is not modelled. The settings blocks are always present, so the `?.` and `|| []` fallbacks on lines 89-121 never fire.
- IntegrationDetails.IntegrationView: a legacy record's absent `attributePackage` and `customAttributes` are `None`. A wizard-shaped record's missing custom list becomes `Some([])`.
- Legacy client ids are built from the full lower-cased name (for example "development-client-"). Wizard client ids use "dev-client-". The same holds for the sign-in host: a legacy Development entry uses "development.loginproxy.gov.bc.ca", a wizard-shaped one "dev.loginproxy.gov.bc.ca". Both are modelled as written.
- ConfigurationStep.ConfigurationEditor.RemoveBadge: it requires the value to be selected, because a badge is only rendered for selected values.
- IntegrationWizard.Wizard.GoToStep: it requires an index in 0..4, because only five step buttons are rendered.
- ConfigurationStep.ConfigurationEditor.ClickCheckbox: it takes as given that the click on the checkbox reaches the row and that the two handlers run in that order. Browser event dispatch is not modelled. The two state updates are functional, so they compose whatever the batching.

## Findings

| source | as written | input that shows it | evidently intended | confidence | as-written member | corrected member |
|---|---|---|---|---|---|---|
| src/components/wizard/ConfigurationStep.tsx:367-377 | the checkbox inside each attribute row has its own toggle handler, and the click then reaches the row, whose handler toggles again | with no custom attributes, click the checkbox of "email": the list is toggled twice and ends empty, and two updates are persisted | one click toggles the attribute once, as a click elsewhere on the row does | medium (relies on the click reaching the row), not executed | ConfigurationStep.ConfigurationEditor.ClickCheckbox, ConfigurationStep.CheckboxClickIsLost | ConfigurationStep.ConfigurationEditor.ClickAttribute |
