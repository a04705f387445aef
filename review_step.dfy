/**
 * The Review step: the identity-provider recommendation per user type and
 * data classification, the grouping of the other user types by provider, the
 * environment line, and the summary of the chosen attributes.
 */
module ReviewStep {
  import opened Wrappers
  import opened Text
  import opened IntegrationWizard
  import ConfigurationStep

  // ---------------------------------------------------------------------------
  // Provider names, user types and data classifications

  const BCeIDBasic := "BCeID Basic"
  const BCeIDBusiness := "BCeID Business"
  const PersonCredential := "Person Credential"
  const BCServicesCard := "BC Services Card"
  const IDIR := "IDIR"
  const IDIRWithMFA := "IDIR + MFA"
  const ToBeDetermined := "To be determined"

  const BCResidents := "BC residents"
  const CanadianResidents := "Canadian residents"
  const InternationalUsers := "International users"
  const BusinessRepresentatives := "Individuals representing businesses or organizations"
  const GovernmentEmployees := "Government employees"
  const GovernmentContractors := "Government contractors"
  const BroaderPublicService := "Broader public service employees (with IDIR access)"

  /** Protected A, B or C. */
  predicate IsProtected(dc: string) {
    dc == "protected-a" || dc == "protected-b" || dc == "protected-c"
  }

  /** Protected B or C: the classifications that call for multi-factor sign-in. */
  predicate NeedsMFA(dc: string) {
    dc == "protected-b" || dc == "protected-c"
  }

  /** One of the three user types that sign in with IDIR. */
  predicate IsIdirUserType(userType: string) {
    userType == GovernmentEmployees || userType == GovernmentContractors || userType == BroaderPublicService
  }

  /** `IDIR + MFA` for Protected B/C data, plain `IDIR` otherwise. */
  function IdirProvider(dc: string): string {
    if NeedsMFA(dc) then IDIRWithMFA else IDIR
  }

  // ---------------------------------------------------------------------------
  // The recommendation for one user type (one pass of the `userTypeGroups` switch)

  /** The providers pushed for one occurrence of `userType`; the switch has no default. */
  function RecommendedProviders(userType: string, dc: string): (r: seq<string>)
    ensures |r| <= 2
    ensures r == [] <==> KindOf(userType) == Unrecognised
  {
    if userType == BCResidents then
      if dc == "public" then [BCeIDBasic]
      else if IsProtected(dc) then [PersonCredential, BCServicesCard]
      else [BCServicesCard]
    else if userType == CanadianResidents then
      if dc == "public" || dc == "protected-a" then [BCeIDBasic] else [BCServicesCard]
    else if userType == InternationalUsers then [BCeIDBasic]
    else if userType == BusinessRepresentatives then [BCeIDBusiness]
    else if IsIdirUserType(userType) then [IdirProvider(dc)]
    else []
  }

  /** The provider of one of the other user types (the `providerGroups` switch). */
  function GroupProvider(userType: string, dc: string): (p: string)
    ensures p != ToBeDetermined ==> RecommendedProviders(userType, dc) == [p]
    ensures userType == BCResidents || userType == CanadianResidents ==> p == ToBeDetermined
  {
    if userType == InternationalUsers then BCeIDBasic
    else if userType == BusinessRepresentatives then BCeIDBusiness
    else if IsIdirUserType(userType) then IdirProvider(dc)
    else ToBeDetermined
  }

  // The same decision, as a table over enumerations.

  datatype UserKind =
    | BCResident | CanadianResident | International | Business
    | Government | Contractor | BroaderPublic | Unrecognised

  datatype Tier = Public | ProtectedA | ProtectedB | ProtectedC | Unclassified

  function KindOf(userType: string): UserKind {
    if userType == BCResidents then BCResident
    else if userType == CanadianResidents then CanadianResident
    else if userType == InternationalUsers then International
    else if userType == BusinessRepresentatives then Business
    else if userType == GovernmentEmployees then Government
    else if userType == GovernmentContractors then Contractor
    else if userType == BroaderPublicService then BroaderPublic
    else Unrecognised
  }

  function TierOf(dc: string): Tier {
    if dc == "public" then Public
    else if dc == "protected-a" then ProtectedA
    else if dc == "protected-b" then ProtectedB
    else if dc == "protected-c" then ProtectedC
    else Unclassified
  }

  /** The recommendation table, row by row. */
  function ProviderTable(kind: UserKind, tier: Tier): seq<string> {
    match kind
    case BCResident =>
      (match tier
       case Public => [BCeIDBasic]
       case ProtectedA => [PersonCredential, BCServicesCard]
       case ProtectedB => [PersonCredential, BCServicesCard]
       case ProtectedC => [PersonCredential, BCServicesCard]
       case Unclassified => [BCServicesCard])
    case CanadianResident =>
      (match tier
       case Public => [BCeIDBasic]
       case ProtectedA => [BCeIDBasic]
       case _ => [BCServicesCard])
    case International => [BCeIDBasic]
    case Business => [BCeIDBusiness]
    case Unrecognised => []
    case _ =>
      (match tier
       case ProtectedB => [IDIRWithMFA]
       case ProtectedC => [IDIRWithMFA]
       case _ => [IDIR])
  }

  /** The string switch agrees with the table for every user type and classification. */
  lemma RecommendationFollowsTable(userType: string, dc: string)
    ensures RecommendedProviders(userType, dc) == ProviderTable(KindOf(userType), TierOf(dc))
  {
  }

  /** BC residents: BCeID Basic for public data, the coupled pair for protected data, else the card. */
  lemma BCResidentsRecommendation(dc: string)
    ensures dc == "public" ==> RecommendedProviders(BCResidents, dc) == [BCeIDBasic]
    ensures IsProtected(dc) ==> RecommendedProviders(BCResidents, dc) == [PersonCredential, BCServicesCard]
    ensures dc != "public" && !IsProtected(dc) ==> RecommendedProviders(BCResidents, dc) == [BCServicesCard]
    ensures RecommendedProviders(BCResidents, "") == [BCServicesCard]
  {
  }

  /** The only two-entry recommendation is the coupled pair for BC residents with protected data. */
  lemma CoupledPairOnlyForProtectedBCResidents(userType: string, dc: string)
    ensures |RecommendedProviders(userType, dc)| <= 2
    ensures |RecommendedProviders(userType, dc)| == 2 <==> userType == BCResidents && IsProtected(dc)
  {
  }

  /** The other recognised user types get exactly one provider each, the one they are grouped under. */
  lemma OtherTypesMatchTheirGroup(userType: string, dc: string)
    requires userType != BCResidents && userType != CanadianResidents
    ensures KindOf(userType) != Unrecognised ==> RecommendedProviders(userType, dc) == [GroupProvider(userType, dc)]
    ensures KindOf(userType) == Unrecognised <==> GroupProvider(userType, dc) == ToBeDetermined
    ensures KindOf(userType) == Unrecognised ==> RecommendedProviders(userType, dc) == []
  {
  }

  /** Canadian residents: BCeID Basic for public and Protected A data, the card otherwise. */
  lemma CanadianResidentsRecommendation(dc: string)
    ensures RecommendedProviders(CanadianResidents, dc)
         == if dc == "public" || dc == "protected-a" then [BCeIDBasic] else [BCServicesCard]
  {
  }

  /** The IDIR user types get multi-factor sign-in exactly for Protected B and C. */
  lemma IdirRecommendation(userType: string, dc: string)
    requires IsIdirUserType(userType)
    ensures RecommendedProviders(userType, dc) == [IDIRWithMFA] <==> NeedsMFA(dc)
    ensures RecommendedProviders(userType, dc) == [IDIR] <==> !NeedsMFA(dc)
  {
  }

  /** `hasCoupledCredentials`: BC residents are among the user types and the data is protected. */
  function HasCoupledCredentials(userTypes: seq<string>, dc: string): (b: bool)
    ensures b <==> exists i :: 0 <= i < |userTypes| && |RecommendedProviders(userTypes[i], dc)| == 2
  {
    var b := BCResidents in userTypes && IsProtected(dc);
    assert b ==> exists i :: 0 <= i < |userTypes| && |RecommendedProviders(userTypes[i], dc)| == 2 by {
      if b {
        var i :| 0 <= i < |userTypes| && userTypes[i] == BCResidents;
        CoupledPairOnlyForProtectedBCResidents(userTypes[i], dc);
      }
    }
    assert (exists i :: 0 <= i < |userTypes| && |RecommendedProviders(userTypes[i], dc)| == 2) ==> b by {
      if exists i :: 0 <= i < |userTypes| && |RecommendedProviders(userTypes[i], dc)| == 2 {
        var i :| 0 <= i < |userTypes| && |RecommendedProviders(userTypes[i], dc)| == 2;
        CoupledPairOnlyForProtectedBCResidents(userTypes[i], dc);
      }
    }
    b
  }

  // ---------------------------------------------------------------------------
  // Dictionaries built by pushing: `Record<string, string[]>` in insertion order

  datatype Group = Group(key: string, members: seq<string>)

  function Keys(groups: seq<Group>): (ks: seq<string>)
    ensures |ks| == |groups|
    ensures forall g :: 0 <= g < |groups| ==> ks[g] == groups[g].key
  {
    seq(|groups|, g requires 0 <= g < |groups| => groups[g].key)
  }

  /** No key repeats. */
  predicate Distinct(xs: seq<string>) {
    forall i, j :: 0 <= i < j < |xs| ==> xs[i] != xs[j]
  }

  /** The index of the first occurrence of `x` in `xs`. */
  function FirstIndexOf(xs: seq<string>, x: string): (k: nat)
    requires x in xs
    ensures k < |xs| && xs[k] == x && x !in xs[..k]
  {
    if xs[0] == x then 0
    else
      var k := FirstIndexOf(xs[1..], x);
      assert xs[..k + 1] == [xs[0]] + xs[1..][..k];
      k + 1
  }

  /** A value occurring before `m` has the same first index in `xs` and in `xs[..m]`. */
  lemma FirstIndexOfPrefix(xs: seq<string>, m: nat, y: string)
    requires m <= |xs| && y in xs[..m]
    ensures y in xs && FirstIndexOf(xs, y) == FirstIndexOf(xs[..m], y)
  {
    var b := FirstIndexOf(xs[..m], y);
    assert xs[b] == y;
    var a := FirstIndexOf(xs, y);
    assert xs[..m][..b] == xs[..b];
  }

  /** Everything in `r` occurs in `xs`, and `r` lists it in order of first appearance in `xs`. */
  predicate InFirstAppearanceOrder(xs: seq<string>, r: seq<string>) {
    (forall x :: x in r ==> x in xs)
    && forall i, j :: 0 <= i < j < |r| ==> FirstIndexOf(xs, r[i]) < FirstIndexOf(xs, r[j])
  }

  /** The keys of `xs` in order of first appearance. */
  function Dedup(xs: seq<string>): (r: seq<string>)
    ensures Distinct(r)
    ensures forall x :: x in r <==> x in xs
    ensures InFirstAppearanceOrder(xs, r)
    decreases |xs|
  {
    if xs == [] then []
    else
      var init := xs[..|xs| - 1];
      var last := xs[|xs| - 1];
      var prefix := Dedup(init);
      assert forall x :: x in xs <==> x in init || x == last by {
        assert xs == init + [last];
      }
      DedupOrderStep(xs, prefix);
      if last in init then prefix
      else prefix + [last]
  }

  /** Appending one value keeps the order of the earlier ones, and a new value comes after all of them. */
  lemma DedupOrderStep(xs: seq<string>, prefix: seq<string>)
    requires xs != []
    requires InFirstAppearanceOrder(xs[..|xs| - 1], prefix)
    ensures InFirstAppearanceOrder(xs, prefix)
    ensures xs[|xs| - 1] !in xs[..|xs| - 1] ==> InFirstAppearanceOrder(xs, prefix + [xs[|xs| - 1]])
  {
    PrefixOrderKept(xs, prefix);
    if xs[|xs| - 1] !in xs[..|xs| - 1] {
      NewValueComesLast(xs, prefix);
    }
  }

  lemma PrefixOrderKept(xs: seq<string>, prefix: seq<string>)
    requires xs != []
    requires InFirstAppearanceOrder(xs[..|xs| - 1], prefix)
    ensures InFirstAppearanceOrder(xs, prefix)
  {
    var init := xs[..|xs| - 1];
    forall y | y in prefix
      ensures y in xs && FirstIndexOf(xs, y) == FirstIndexOf(init, y)
    {
      FirstIndexOfPrefix(xs, |xs| - 1, y);
    }
  }

  lemma NewValueComesLast(xs: seq<string>, prefix: seq<string>)
    requires xs != [] && xs[|xs| - 1] !in xs[..|xs| - 1]
    requires InFirstAppearanceOrder(xs, prefix)
    requires forall x :: x in prefix ==> x in xs[..|xs| - 1]
    ensures InFirstAppearanceOrder(xs, prefix + [xs[|xs| - 1]])
  {
    var last := xs[|xs| - 1];
    assert xs[..|xs| - 1] + [last] == xs;
    assert FirstIndexOf(xs, last) == |xs| - 1;
    var r := prefix + [last];
    forall i, j | 0 <= i < j < |r| ensures FirstIndexOf(xs, r[i]) < FirstIndexOf(xs, r[j]) {
      assert r[i] == prefix[i];
      if j == |prefix| {
        assert prefix[i] in xs[..|xs| - 1];
      } else {
        assert r[j] == prefix[j];
      }
    }
  }

  /** The index of the group under `key`, or -1. */
  function GroupIndex(groups: seq<Group>, key: string): (k: int)
    ensures -1 <= k < |groups|
    ensures k >= 0 ==> groups[k].key == key
    ensures k == -1 <==> key !in Keys(groups)
    decreases |groups|
  {
    if groups == [] then -1
    else if groups[|groups| - 1].key == key then |groups| - 1
    else
      var k := GroupIndex(groups[..|groups| - 1], key);
      assert Keys(groups) == Keys(groups[..|groups| - 1]) + [groups[|groups| - 1].key];
      k
  }

  /** `if (!groups[key]) groups[key] = []; groups[key].push(...items)`. */
  function Push(groups: seq<Group>, key: string, items: seq<string>): seq<Group> {
    var k := GroupIndex(groups, key);
    if k >= 0 then groups[k := Group(key, groups[k].members + items)]
    else groups + [Group(key, items)]
  }

  /** Everything pushed under `key`, in order, when `items[i]` was pushed under `keys[i]`. */
  function Gathered(keys: seq<string>, items: seq<seq<string>>, key: string): seq<string>
    requires |keys| == |items|
    decreases |keys|
  {
    if keys == [] then []
    else
      var n := |keys| - 1;
      Gathered(keys[..n], items[..n], key) + (if keys[n] == key then items[n] else [])
  }

  /**
   * `groups` is what pushing `items[i]` under `keys[i]`, for each i in turn,
   * builds from an empty dictionary: one group per distinct key in order of
   * first appearance, each holding everything pushed under its key.
   */
  predicate Grouped(groups: seq<Group>, keys: seq<string>, items: seq<seq<string>>)
    requires |keys| == |items|
  {
    Keys(groups) == Dedup(keys)
    && forall g :: 0 <= g < |groups| ==> groups[g].members == Gathered(keys, items, groups[g].key)
  }

  lemma {:induction false} GatheredAbsent(keys: seq<string>, items: seq<seq<string>>, key: string)
    requires |keys| == |items|
    requires key !in keys
    ensures Gathered(keys, items, key) == []
    decreases |keys|
  {
    if keys != [] {
      var n := |keys| - 1;
      assert keys[n] in keys;
      assert forall x :: x in keys[..n] ==> x in keys;
      GatheredAbsent(keys[..n], items[..n], key);
    }
  }

  /** One more push keeps the dictionary grouped. */
  lemma PushKeepsGrouped(groups: seq<Group>, keys: seq<string>, items: seq<seq<string>>, key: string, it: seq<string>)
    requires |keys| == |items|
    requires Grouped(groups, keys, items)
    ensures Grouped(Push(groups, key, it), keys + [key], items + [it])
  {
    GatheredExtend(keys, items, key, it);
    if GroupIndex(groups, key) >= 0 {
      PushExisting(groups, keys, items, key, it);
    } else {
      PushNew(groups, keys, items, key, it);
    }
  }

  /** A push extends what is gathered under its own key, and nothing else. */
  lemma GatheredExtend(keys: seq<string>, items: seq<seq<string>>, key: string, it: seq<string>)
    requires |keys| == |items|
    ensures forall k :: Gathered(keys + [key], items + [it], k) == Gathered(keys, items, k) + (if k == key then it else [])
  {
    assert (keys + [key])[..|keys|] == keys && (items + [it])[..|keys|] == items;
  }

  lemma PushExisting(groups: seq<Group>, keys: seq<string>, items: seq<seq<string>>, key: string, it: seq<string>)
    requires |keys| == |items|
    requires Grouped(groups, keys, items)
    requires GroupIndex(groups, key) >= 0
    requires forall k :: Gathered(keys + [key], items + [it], k) == Gathered(keys, items, k) + (if k == key then it else [])
    ensures Grouped(Push(groups, key, it), keys + [key], items + [it])
  {
    var idx := GroupIndex(groups, key);
    assert key in keys by {
      assert Keys(groups)[idx] == key;
    }
    DedupKnownKey(keys, key);
    PushExistingMembers(groups, keys, items, key, it, idx);
  }

  lemma PushExistingMembers(groups: seq<Group>, keys: seq<string>, items: seq<seq<string>>, key: string, it: seq<string>, idx: nat)
    requires |keys| == |items|
    requires idx < |groups| && groups[idx].key == key && Distinct(Keys(groups))
    requires forall g :: 0 <= g < |groups| ==> groups[g].members == Gathered(keys, items, groups[g].key)
    requires forall k :: Gathered(keys + [key], items + [it], k) == Gathered(keys, items, k) + (if k == key then it else [])
    ensures var r := groups[idx := Group(key, groups[idx].members + it)];
      Keys(r) == Keys(groups)
      && forall g :: 0 <= g < |r| ==> r[g].members == Gathered(keys + [key], items + [it], r[g].key)
  {
    var r := groups[idx := Group(key, groups[idx].members + it)];
    var ks := Keys(groups);
    assert Keys(r) == ks;
    forall g | 0 <= g < |r| ensures r[g].members == Gathered(keys + [key], items + [it], r[g].key) {
      if g != idx {
        assert ks[g] != ks[idx];
      }
    }
  }

  lemma PushNew(groups: seq<Group>, keys: seq<string>, items: seq<seq<string>>, key: string, it: seq<string>)
    requires |keys| == |items|
    requires Grouped(groups, keys, items)
    requires GroupIndex(groups, key) == -1
    requires forall k :: Gathered(keys + [key], items + [it], k) == Gathered(keys, items, k) + (if k == key then it else [])
    ensures Grouped(Push(groups, key, it), keys + [key], items + [it])
  {
    assert key !in keys by {
      assert key !in Keys(groups);
    }
    DedupNewKey(keys, key);
    var r := groups + [Group(key, it)];
    assert Keys(r) == Keys(groups) + [key];
    PushNewMembers(groups, keys, items, key, it);
  }

  lemma PushNewMembers(groups: seq<Group>, keys: seq<string>, items: seq<seq<string>>, key: string, it: seq<string>)
    requires |keys| == |items|
    requires key !in keys && key !in Keys(groups)
    requires forall g :: 0 <= g < |groups| ==> groups[g].members == Gathered(keys, items, groups[g].key)
    requires forall k :: Gathered(keys + [key], items + [it], k) == Gathered(keys, items, k) + (if k == key then it else [])
    ensures var r := groups + [Group(key, it)];
      forall g :: 0 <= g < |r| ==> r[g].members == Gathered(keys + [key], items + [it], r[g].key)
  {
    GatheredAbsent(keys, items, key);
    var r := groups + [Group(key, it)];
    forall g | 0 <= g < |r| ensures r[g].members == Gathered(keys + [key], items + [it], r[g].key) {
      if g < |groups| {
        assert r[g] == groups[g];
        assert Keys(groups)[g] == groups[g].key;
      }
    }
  }

  /** A repeated key adds nothing to the first-appearance order. */
  lemma DedupKnownKey(keys: seq<string>, key: string)
    requires key in keys
    ensures Dedup(keys + [key]) == Dedup(keys)
  {
    assert (keys + [key])[..|keys|] == keys;
  }

  /** A new key goes at the end of the first-appearance order. */
  lemma DedupNewKey(keys: seq<string>, key: string)
    requires key !in keys
    ensures Dedup(keys + [key]) == Dedup(keys) + [key]
  {
    assert (keys + [key])[..|keys|] == keys;
  }

  // ---------------------------------------------------------------------------
  // userTypeGroups

  /** The provider list pushed for each entry of `userTypes`. */
  function ProvidersPerEntry(userTypes: seq<string>, dc: string): (items: seq<seq<string>>)
    ensures |items| == |userTypes|
    ensures forall i :: 0 <= i < |userTypes| ==> items[i] == RecommendedProviders(userTypes[i], dc)
  {
    seq(|userTypes|, i requires 0 <= i < |userTypes| => RecommendedProviders(userTypes[i], dc))
  }

  /** Number of occurrences of `x` in `xs`. */
  function Count(xs: seq<string>, x: string): nat
    decreases |xs|
  {
    if xs == [] then 0
    else Count(xs[..|xs| - 1], x) + (if xs[|xs| - 1] == x then 1 else 0)
  }

  /** `n` copies of `s`, one after the other. */
  function Repeat(s: seq<string>, n: nat): (r: seq<string>)
    ensures |r| == n * |s|
  {
    if n == 0 then [] else Repeat(s, n - 1) + s
  }

  /** Every occurrence of a user type contributes its recommendation once more. */
  lemma {:induction false} GatheredProviders(userTypes: seq<string>, dc: string, userType: string)
    ensures Gathered(userTypes, ProvidersPerEntry(userTypes, dc), userType)
         == Repeat(RecommendedProviders(userType, dc), Count(userTypes, userType))
    decreases |userTypes|
  {
    if userTypes != [] {
      var n := |userTypes| - 1;
      assert ProvidersPerEntry(userTypes, dc)[..n] == ProvidersPerEntry(userTypes[..n], dc);
      GatheredProviders(userTypes[..n], dc, userType);
    }
  }

  /** What the `userTypeGroups` loop builds: one group per distinct user type, holding its recommendation once per occurrence. */
  predicate UserTypeGrouping(groups: seq<Group>, userTypes: seq<string>, dc: string) {
    Keys(groups) == Dedup(userTypes)
    && forall g :: 0 <= g < |groups| ==>
         groups[g].members == Repeat(RecommendedProviders(groups[g].key, dc), Count(userTypes, groups[g].key))
  }

  /** Extending the processed prefix by one entry extends the pushed provider lists by one. */
  lemma UserTypePrefixStep(userTypes: seq<string>, dc: string, i: int)
    requires 0 <= i < |userTypes|
    ensures userTypes[..i + 1] == userTypes[..i] + [userTypes[i]]
    ensures ProvidersPerEntry(userTypes[..i + 1], dc)
         == ProvidersPerEntry(userTypes[..i], dc) + [RecommendedProviders(userTypes[i], dc)]
  {
  }

  /** The `userTypeGroups` loop. */
  method BuildUserTypeGroups(userTypes: seq<string>, dc: string) returns (groups: seq<Group>)
    ensures UserTypeGrouping(groups, userTypes, dc)
  {
    groups := [];
    for i := 0 to |userTypes|
      invariant Grouped(groups, userTypes[..i], ProvidersPerEntry(userTypes[..i], dc))
    {
      PushKeepsGrouped(groups, userTypes[..i], ProvidersPerEntry(userTypes[..i], dc),
                       userTypes[i], RecommendedProviders(userTypes[i], dc));
      groups := Push(groups, userTypes[i], RecommendedProviders(userTypes[i], dc));
      UserTypePrefixStep(userTypes, dc, i);
    }
    assert userTypes[..|userTypes|] == userTypes;
    forall g | 0 <= g < |groups|
      ensures groups[g].members == Repeat(RecommendedProviders(groups[g].key, dc), Count(userTypes, groups[g].key))
    {
      GatheredProviders(userTypes, dc, groups[g].key);
    }
  }

  /** A user type with no recommendation still gets its own, empty, group. */
  lemma UnrecognisedTypeHasEmptyGroup(groups: seq<Group>, userTypes: seq<string>, dc: string, userType: string)
    requires UserTypeGrouping(groups, userTypes, dc)
    requires userType in userTypes && KindOf(userType) == Unrecognised
    ensures exists g :: 0 <= g < |groups| && groups[g].key == userType && groups[g].members == []
  {
    assert userType in Keys(groups);
    var g :| 0 <= g < |groups| && Keys(groups)[g] == userType;
    assert RecommendedProviders(userType, dc) == [];
  }

  /** A user type listed twice has its recommendation twice, under one key. */
  lemma DuplicateTypeGetsTwoCopies(groups: seq<Group>, userTypes: seq<string>, dc: string, g: int)
    requires UserTypeGrouping(groups, userTypes, dc)
    requires 0 <= g < |groups| && Count(userTypes, groups[g].key) == 2
    ensures groups[g].members == RecommendedProviders(groups[g].key, dc) + RecommendedProviders(groups[g].key, dc)
    ensures forall h :: 0 <= h < |groups| && h != g ==> groups[h].key != groups[g].key
  {
    var s := RecommendedProviders(groups[g].key, dc);
    assert groups[g].members == Repeat(s, 2);
    assert Repeat(s, 2) == Repeat(s, 1) + s;
    assert Repeat(s, 1) == [] + s;
    var ks := Keys(groups);
    assert Distinct(ks) by {
      assert ks == Dedup(userTypes);
    }
    forall h | 0 <= h < |groups| && h != g
      ensures groups[h].key != groups[g].key
    {
      assert ks[h] != ks[g];
    }
  }

  // ---------------------------------------------------------------------------
  // providerGroups

  /** `userTypes.filter(type => type !== "BC residents" && type !== "Canadian residents")`. */
  function OtherUserTypes(userTypes: seq<string>): (others: seq<string>)
    ensures forall t :: t in others <==> t in userTypes && t != BCResidents && t != CanadianResidents
    decreases |userTypes|
  {
    if userTypes == [] then []
    else
      var n := |userTypes| - 1;
      assert userTypes == userTypes[..n] + [userTypes[n]];
      var prefix := OtherUserTypes(userTypes[..n]);
      if userTypes[n] != BCResidents && userTypes[n] != CanadianResidents
      then prefix + [userTypes[n]] else prefix
  }

  /** The provider of each entry, used as its group key. */
  function ProviderKeys(others: seq<string>, dc: string): (keys: seq<string>)
    ensures |keys| == |others|
    ensures forall i :: 0 <= i < |others| ==> keys[i] == GroupProvider(others[i], dc)
  {
    seq(|others|, i requires 0 <= i < |others| => GroupProvider(others[i], dc))
  }

  /** Each entry pushes itself. */
  function Singletons(others: seq<string>): (items: seq<seq<string>>)
    ensures |items| == |others|
    ensures forall i :: 0 <= i < |others| ==> items[i] == [others[i]]
  {
    seq(|others|, i requires 0 <= i < |others| => [others[i]])
  }

  /** The entries of `others` whose provider is `provider`, in input order. */
  function WithProvider(others: seq<string>, dc: string, provider: string): (r: seq<string>)
    ensures forall t :: t in r <==> t in others && GroupProvider(t, dc) == provider
    decreases |others|
  {
    if others == [] then []
    else
      var n := |others| - 1;
      assert others == others[..n] + [others[n]];
      WithProvider(others[..n], dc, provider) + (if GroupProvider(others[n], dc) == provider then [others[n]] else [])
  }

  lemma {:induction false} GatheredByProvider(others: seq<string>, dc: string, provider: string)
    ensures Gathered(ProviderKeys(others, dc), Singletons(others), provider) == WithProvider(others, dc, provider)
    decreases |others|
  {
    if others != [] {
      var n := |others| - 1;
      assert ProviderKeys(others, dc)[..n] == ProviderKeys(others[..n], dc);
      assert Singletons(others)[..n] == Singletons(others[..n]);
      GatheredByProvider(others[..n], dc, provider);
    }
  }

  /** What the `providerGroups` loop builds: one group per provider, holding the other user types it serves, in input order. */
  predicate ProviderGrouping(groups: seq<Group>, userTypes: seq<string>, dc: string) {
    var others := OtherUserTypes(userTypes);
    Keys(groups) == Dedup(ProviderKeys(others, dc))
    && forall g :: 0 <= g < |groups| ==> groups[g].members == WithProvider(others, dc, groups[g].key)
  }

  /** Extending the processed prefix by one entry extends the keys and the pushed items by one. */
  lemma ProviderPrefixStep(others: seq<string>, dc: string, i: int)
    requires 0 <= i < |others|
    ensures ProviderKeys(others[..i + 1], dc) == ProviderKeys(others[..i], dc) + [GroupProvider(others[i], dc)]
    ensures Singletons(others[..i + 1]) == Singletons(others[..i]) + [[others[i]]]
  {
  }

  /** The `providerGroups` loop over the other user types. */
  method BuildProviderGroups(userTypes: seq<string>, dc: string) returns (groups: seq<Group>)
    ensures ProviderGrouping(groups, userTypes, dc)
  {
    var others := OtherUserTypes(userTypes);
    groups := [];
    for i := 0 to |others|
      invariant Grouped(groups, ProviderKeys(others[..i], dc), Singletons(others[..i]))
    {
      var provider := GroupProvider(others[i], dc);
      PushKeepsGrouped(groups, ProviderKeys(others[..i], dc), Singletons(others[..i]), provider, [others[i]]);
      groups := Push(groups, provider, [others[i]]);
      ProviderPrefixStep(others, dc, i);
    }
    assert others[..|others|] == others;
    forall g | 0 <= g < |groups| ensures groups[g].members == WithProvider(others, dc, groups[g].key) {
      GatheredByProvider(others, dc, groups[g].key);
    }
  }

  /**
   * Residents are in no group; every other user type is in exactly one group,
   * the one keyed by its provider ("To be determined" when unrecognised).
   */
  lemma EachOtherTypeInExactlyOneGroup(groups: seq<Group>, userTypes: seq<string>, dc: string, t: string)
    requires ProviderGrouping(groups, userTypes, dc)
    ensures forall g :: 0 <= g < |groups| ==>
      (t in groups[g].members <==> t in userTypes && t != BCResidents && t != CanadianResidents
                                   && groups[g].key == GroupProvider(t, dc))
    ensures t in userTypes && t != BCResidents && t != CanadianResidents ==>
      exists g :: 0 <= g < |groups| && groups[g].key == GroupProvider(t, dc)
    ensures forall g, h :: 0 <= g < h < |groups| ==> groups[g].key != groups[h].key
  {
    var others := OtherUserTypes(userTypes);
    assert Distinct(Keys(groups));
    assert forall g, h :: 0 <= g < h < |groups| ==> Keys(groups)[g] != Keys(groups)[h];
    if t in others {
      var i :| 0 <= i < |others| && others[i] == t;
      assert ProviderKeys(others, dc)[i] == GroupProvider(t, dc);
      assert GroupProvider(t, dc) in Keys(groups);
    }
  }

  // ---------------------------------------------------------------------------
  // The environment line

  /** `[dev && 'Development', test && 'Test', prod && 'Production'].filter(Boolean).join(', ')`. */
  function SelectedEnvironmentsText(c: Configuration): (s: string)
    ensures s == "" <==> EnvironmentNames(c) == []
    ensures EnvironmentNames(c) != [] ==> EnvironmentNames(c)[0] <= s
  {
    var names := EnvironmentNames(c);
    if names != [] then
      JoinStartsWithFirst(names, ", ");
      assert names[0] in [DevelopmentName, TestName, ProductionName];
      Join(names, ", ")
    else
      Join(names, ", ")
  }

  /** The eight possible environment lines. */
  lemma EnvironmentsTextTable(c: Configuration)
    ensures SelectedEnvironmentsText(c) ==
      match (c.development, c.test, c.production)
      case (false, false, false) => ""
      case (true, false, false) => "Development"
      case (false, true, false) => "Test"
      case (false, false, true) => "Production"
      case (true, true, false) => "Development" + ", " + "Test"
      case (true, false, true) => "Development" + ", " + "Production"
      case (false, true, true) => "Test" + ", " + "Production"
      case (true, true, true) => "Development" + ", " + "Test" + ", " + "Production"
  {
    var names := EnvironmentNames(c);
    match (c.development, c.test, c.production)
    case (true, true, false) =>
      assert names == [DevelopmentName, TestName];
      JoinTwo(DevelopmentName, TestName, ", ");
    case (true, false, true) =>
      assert names == [DevelopmentName, ProductionName];
      JoinTwo(DevelopmentName, ProductionName, ", ");
    case (false, true, true) =>
      assert names == [TestName, ProductionName];
      JoinTwo(TestName, ProductionName, ", ");
    case (true, true, true) =>
      assert names == [DevelopmentName, TestName, ProductionName];
      JoinThree(DevelopmentName, TestName, ProductionName, ", ");
    case _ =>
  }

  /** The line is empty exactly when no environment is chosen, which the Configuration gate forbids. */
  lemma EnvironmentsTextEmpty(d: WizardData)
    ensures SelectedEnvironmentsText(d.configuration) == "" <==> !CanProceed(3, d)
  {
    EnvironmentsTextTable(d.configuration);
  }

  // ---------------------------------------------------------------------------
  // The attribute summary

  /** The Review step's own copy of the attribute catalog. */
  const ReviewAttributes: seq<ConfigurationStep.Attribute> := [
    ConfigurationStep.Attribute("display_name", "Name"),
    ConfigurationStep.Attribute("given_name", "Given Name"),
    ConfigurationStep.Attribute("given_names", "Given Names"),
    ConfigurationStep.Attribute("family_name", "Surname"),
    ConfigurationStep.Attribute("birthdate", "Date of Birth"),
    ConfigurationStep.Attribute("age", "Age"),
    ConfigurationStep.Attribute("age_19_or_over", "Age 19 Or Over"),
    ConfigurationStep.Attribute("gender", "Sex"),
    ConfigurationStep.Attribute("email", "Email Address"),
    ConfigurationStep.Attribute("street_address", "Street Address"),
    ConfigurationStep.Attribute("locality", "City/Town"),
    ConfigurationStep.Attribute("region", "State Or Province"),
    ConfigurationStep.Attribute("postal_code", "Postal Code"),
    ConfigurationStep.Attribute("country", "Country"),
    ConfigurationStep.Attribute("address", "Address (all address lines)"),
    ConfigurationStep.Attribute("sub", "User Identifier"),
    ConfigurationStep.Attribute("identity_assurance_level", "Identity Assurance Level"),
    ConfigurationStep.Attribute("identity_assurance_level1", "Identity Assurance Level 1"),
    ConfigurationStep.Attribute("identity_assurance_level2", "Identity Assurance Level 2"),
    ConfigurationStep.Attribute("identity_assurance_level3", "Identity Assurance Level 3"),
    ConfigurationStep.Attribute("identification_level", "Identification Level"),
    ConfigurationStep.Attribute("user_type", "User Type"),
    ConfigurationStep.Attribute("transaction_identifier", "Transaction Identifier"),
    ConfigurationStep.Attribute("transaction_type", "Transaction Type"),
    ConfigurationStep.Attribute("client_id", "Relying Party Identifier"),
    ConfigurationStep.Attribute("sector_identifier_uri", "Privacy Zone Identifier"),
    ConfigurationStep.Attribute("authentication_zone_identifier", "Authentication Zone Identifier"),
    ConfigurationStep.Attribute("authoritative_party_identifier", "Authoritative Party Identifier"),
    ConfigurationStep.Attribute("authoritative_party_name", "Authoritative Party Name")
  ]

  /** The two screens use the same catalog, entry for entry, so its values are distinct here too. */
  lemma CatalogsAgree()
    ensures ReviewAttributes == ConfigurationStep.AllAttributes
    ensures ConfigurationStep.DistinctValues(ReviewAttributes)
  {
    ConfigurationStep.CatalogWellFormed();
  }

  /** `catalog.find(a => a.value === v)?.label || v`: an empty label also falls back to `v`. */
  function LabelOrValue(catalog: seq<ConfigurationStep.Attribute>, v: string): string {
    var k := ConfigurationStep.FindAttribute(catalog, v);
    if k >= 0 && catalog[k].caption != "" then catalog[k].caption else v
  }

  /** `ids.map(v => LabelOrValue(catalog, v))`. */
  function LabelsOrValues(catalog: seq<ConfigurationStep.Attribute>, ids: seq<string>): (ls: seq<string>)
    ensures |ls| == |ids|
    ensures forall i :: 0 <= i < |ids| ==> ls[i] == LabelOrValue(catalog, ids[i])
    decreases |ids|
  {
    if ids == [] then [] else [LabelOrValue(catalog, ids[0])] + LabelsOrValues(catalog, ids[1..])
  }

  /** With no empty label in the catalog, the `||` fallback agrees with the Configuration step's `? :`. */
  lemma LabelOrValueAgrees(catalog: seq<ConfigurationStep.Attribute>, v: string)
    requires forall i :: 0 <= i < |catalog| ==> catalog[i].caption != ""
    ensures LabelOrValue(catalog, v) == ConfigurationStep.LabelIn(catalog, v)
  {
  }

  /** Every catalog entry has a non-empty label. */
  lemma CaptionsNonEmpty()
    ensures forall i :: 0 <= i < |ReviewAttributes| ==> |ReviewAttributes[i].caption| >= 3
  {
  }

  function ReviewLabel(v: string): string {
    LabelOrValue(ReviewAttributes, v)
  }

  function ReviewLabels(ids: seq<string>): (ls: seq<string>)
    ensures |ls| == |ids|
    ensures forall i :: 0 <= i < |ids| ==> ls[i] == ReviewLabel(ids[i])
  {
    LabelsOrValues(ReviewAttributes, ids)
  }

  /** The Review step labels an attribute exactly as the Configuration step does. */
  lemma ReviewLabelMatchesConfiguration(v: string)
    ensures ReviewLabel(v) == ConfigurationStep.LabelOf(v)
  {
    CatalogsAgree();
    CaptionsNonEmpty();
    LabelOrValueAgrees(ReviewAttributes, v);
  }

  /** The label and description shown for a package id, if it is one. */
  datatype PackageSummary = PackageSummary(caption: string, description: string)

  function PackageSummaryOf(packageId: string): (r: Option<PackageSummary>)
    ensures r.Some? <==> ConfigurationStep.LookupPackage(packageId).Some?
    ensures r.Some? ==> r.value.caption == ConfigurationStep.LookupPackage(packageId).value.caption
  {
    if packageId == "name" then Some(PackageSummary("Name", "Given name, Family name, Display name"))
    else if packageId == "sendInformation" then
      Some(PackageSummary("Send Information", "Name, Mailing address, Email address"))
    else if packageId == "ageVerification" then
      Some(PackageSummary("Age Verification", "Name, Mailing address, Email address, Date of birth"))
    else None
  }

  /** A list cut at `limit` entries, with the count of the rest when there is one. */
  datatype Truncated = Truncated(items: seq<string>, more: Option<string>)

  /** `list.slice(0, limit).map(label)` and "and {n - limit} more..." when `n > limit`. */
  function Truncate(custom: seq<string>, limit: nat): (t: Truncated)
    ensures |t.items| == Min(limit, |custom|)
    ensures forall i :: 0 <= i < |t.items| ==> t.items[i] == ReviewLabel(custom[i])
    ensures t.more.Some? <==> |custom| > limit
    ensures t.more.Some? ==> t.more.value == "and " + NatToString(|custom| - limit) + " more..."
  {
    var items := ReviewLabels(custom[..Min(limit, |custom|)]);
    if |custom| > limit then
      Truncated(items, Some("and " + NatToString(|custom| - limit) + " more..."))
    else
      Truncated(items, None)
  }

  /** What the summary shows. */
  datatype AttributeSummary =
    | NothingShown
    | PackageOnly(package: Option<PackageSummary>)
    | CustomOnly(custom: Truncated)
    | PackageAndCustom(basePackage: Option<string>, additional: Truncated)

  /** The three rendering conditions; the package test is truthiness of a possibly missing string. */
  predicate ShowsPackageOnly(c: Configuration) {
    c.attributePackage.GetOr("") != "" && c.selectedCustomAttributes.GetOr([]) == []
  }

  predicate ShowsCustomOnly(c: Configuration) {
    c.attributePackage.GetOr("") == "" && c.selectedCustomAttributes.Some? && |c.selectedCustomAttributes.value| > 0
  }

  predicate ShowsPackageAndCustom(c: Configuration) {
    c.attributePackage.GetOr("") != "" && c.selectedCustomAttributes.Some? && |c.selectedCustomAttributes.value| > 0
  }

  /** At most one scenario renders, and none does exactly when there is neither a package nor a custom list. */
  lemma ScenariosAreExclusive(c: Configuration)
    ensures !(ShowsPackageOnly(c) && ShowsCustomOnly(c))
    ensures !(ShowsPackageOnly(c) && ShowsPackageAndCustom(c))
    ensures !(ShowsCustomOnly(c) && ShowsPackageAndCustom(c))
    ensures !ShowsPackageOnly(c) && !ShowsCustomOnly(c) && !ShowsPackageAndCustom(c)
        <==> c.attributePackage.GetOr("") == "" && c.selectedCustomAttributes.GetOr([]) == []
  {
  }

  /** The attribute summary for a configuration. */
  function Summary(c: Configuration): (s: AttributeSummary)
    ensures s.PackageOnly? <==> ShowsPackageOnly(c)
    ensures s.CustomOnly? <==> ShowsCustomOnly(c)
    ensures s.PackageAndCustom? <==> ShowsPackageAndCustom(c)
    ensures s.CustomOnly? ==> s.custom == Truncate(c.selectedCustomAttributes.value, 7)
    ensures s.PackageAndCustom? ==> s.additional == Truncate(c.selectedCustomAttributes.value, 5)
    ensures s.PackageOnly? ==> s.package == PackageSummaryOf(c.attributePackage.value)
    ensures s.PackageAndCustom? ==>
      (s.basePackage.Some? <==> PackageSummaryOf(c.attributePackage.value).Some?)
      && (s.basePackage.Some? ==> s.basePackage.value == PackageSummaryOf(c.attributePackage.value).value.caption)
  {
    var pkg := c.attributePackage.GetOr("");
    if ShowsPackageOnly(c) then PackageOnly(PackageSummaryOf(pkg))
    else if ShowsCustomOnly(c) then CustomOnly(Truncate(c.selectedCustomAttributes.value, 7))
    else if ShowsPackageAndCustom(c) then
      var base := PackageSummaryOf(pkg);
      PackageAndCustom(if base.Some? then Some(base.value.caption) else None,
                       Truncate(c.selectedCustomAttributes.value, 5))
    else NothingShown
  }

  /** Custom-only lists at most seven labels and "both" at most five, with the rest counted. */
  lemma SummaryTruncation(c: Configuration)
    ensures Summary(c).CustomOnly? ==>
      |Summary(c).custom.items| == Min(7, |c.selectedCustomAttributes.value|)
      && (Summary(c).custom.more.Some? <==> |c.selectedCustomAttributes.value| > 7)
    ensures Summary(c).PackageAndCustom? ==>
      |Summary(c).additional.items| == Min(5, |c.selectedCustomAttributes.value|)
      && (Summary(c).additional.more.Some? <==> |c.selectedCustomAttributes.value| > 5)
  {
  }

  /** The attribute section: shown only when BC Services Card or Person Credential was recommended. */
  datatype AttributeSection = AttributeSection(heading: string, summary: AttributeSummary)

  function AttributeSectionOf(d: WizardData): (r: Option<AttributeSection>)
    ensures r.Some? <==> (ConfigurationStep.HasBCSC(d.solution.components)
                          || ConfigurationStep.HasPersonCredential(d.solution.components))
    ensures r.Some? ==> r.value.summary == Summary(d.configuration)
    ensures r.Some? && ConfigurationStep.HasPersonCredential(d.solution.components) ==>
      r.value.heading == "BC Services Card & Person Credential"
    ensures r.Some? && !ConfigurationStep.HasPersonCredential(d.solution.components) ==>
      r.value.heading == "BC Services Card"
  {
    var components := d.solution.components;
    if ConfigurationStep.HasBCSC(components) || ConfigurationStep.HasPersonCredential(components) then
      Some(AttributeSection(
        if ConfigurationStep.HasPersonCredential(components) then "BC Services Card & Person Credential"
        else "BC Services Card",
        Summary(d.configuration)))
    else None
  }

  // ---------------------------------------------------------------------------
  // Requirement labels on the Review step (exact, case-sensitive matches)

  function ProtocolLabel(protocol: string): (r: string)
    ensures protocol != "oidc" && protocol != "saml" ==> r == protocol
  {
    if protocol == "oidc" then "OpenID Connect" else if protocol == "saml" then "SAML" else protocol
  }

  function UseCaseLabel(useCase: string): (r: string)
    ensures useCase !in ["browser-login", "service-principal", "browser-and-service"] ==> r == useCase
  {
    if useCase == "browser-login" then "Browser Login"
    else if useCase == "service-principal" then "Service Account"
    else if useCase == "browser-and-service" then "Browser Login and Service Account"
    else useCase
  }

  function ClientTypeLabel(clientType: string): (r: string)
    ensures clientType != "confidential" && clientType != "public" ==> r == clientType
  {
    if clientType == "confidential" then "Confidential Client"
    else if clientType == "public" then "Public Client"
    else clientType
  }
}
