/** The licence checks of license_helper.py: the active licence, its
    validity, the seat limits for users and doors, the feature flags, the
    licence summary, licence keys, and licence creation from the preset
    tiers.

    "Today" is a parameter, as are the counts of active users and doors
    and the random bytes behind a key. The database keeps licences in row
    order and creation appends a row. */
module Licensing {
  import opened Common
  import opened Models

  // =====================================================================
  // The active licence and its validity

  /** get_active_license: the first active row. */
  function ActiveLicense(licenses: seq<License>): (r: Option<License>)
    ensures r.None? <==> forall i :: 0 <= i < |licenses| ==> !licenses[i].isActive
    ensures r.Some? ==> r.value in licenses && r.value.isActive
  {
    if licenses == [] then None
    else if licenses[0].isActive then Some(licenses[0])
    else ActiveLicense(licenses[1..])
  }

  /** The active licence is the earliest active row. */
  lemma {:induction false} ActiveIsFirst(licenses: seq<License>, i: nat)
    requires i < |licenses| && licenses[i].isActive
    requires forall j :: 0 <= j < i ==> !licenses[j].isActive
    ensures ActiveLicense(licenses) == Some(licenses[i])
  {
    if i > 0 {
      ActiveIsFirst(licenses[1..], i - 1);
    }
  }

  /** A verdict with its message, as the helpers return them. */
  datatype Check = Check(ok: bool, message: string)

  /** validate_license. */
  function ValidateLicense(active: Option<License>, today: int): (c: Check)
    ensures c.ok <==> active.Some? && IsValid(active.value, today)
    ensures active.None? ==> c.message == "No active license found"
    ensures active.Some? && !c.ok ==> c.message == GetStatus(active.value, today)
    ensures c.ok ==> c.message == "License is valid"
  {
    if active.None? then Check(false, "No active license found")
    else if !IsValid(active.value, today) then Check(false, GetStatus(active.value, today))
    else Check(true, "License is valid")
  }

  /** The active licence can only be refused for having expired: its
      status then says so, and a missing licence says that instead. */
  lemma RefusalExplains(licenses: seq<License>, today: int)
    ensures var c := ValidateLicense(ActiveLicense(licenses), today);
      !c.ok ==> c.message == "No active license found" || c.message == "License has expired"
  {
    var active := ActiveLicense(licenses);
    if active.Some? {
      ValidIffActiveStatus(active.value, today);
    }
  }

  // =====================================================================
  // Seat limits

  function LimitReached(limit: int, noun: string, licenseType: string): string {
    "License limit reached: " + IntToString(limit) + " " + noun + " maximum (Type: " + licenseType + ")"
  }

  function CanAddMore(remaining: int, noun: string): string {
    "Can add " + IntToString(remaining) + " more " + noun
  }

  /** can_add_user, given the number of active users. */
  function CanAddUser(active: Option<License>, today: int, currentUsers: nat): (c: Check)
    ensures c.ok <==> active.Some? && IsValid(active.value, today) && currentUsers < active.value.maxUsers
    ensures active.None? ==> c.message == "No active license"
    ensures active.Some? && !IsValid(active.value, today) ==> c.message == GetStatus(active.value, today)
    ensures active.Some? && IsValid(active.value, today) && currentUsers >= active.value.maxUsers ==>
      c.message == LimitReached(active.value.maxUsers, "users", active.value.licenseType)
    ensures c.ok ==> (active.value.maxUsers - currentUsers > 0 &&
                      c.message == CanAddMore(active.value.maxUsers - currentUsers, "user(s)"))
  {
    if active.None? then Check(false, "No active license")
    else
      var l := active.value;
      if !IsValid(l, today) then Check(false, GetStatus(l, today))
      else if currentUsers >= l.maxUsers then Check(false, LimitReached(l.maxUsers, "users", l.licenseType))
      else Check(true, CanAddMore(l.maxUsers - currentUsers, "user(s)"))
  }

  /** can_add_door, given the number of active doors. */
  function CanAddDoor(active: Option<License>, today: int, currentDoors: nat): (c: Check)
    ensures c.ok <==> active.Some? && IsValid(active.value, today) && currentDoors < active.value.maxDoors
    ensures active.None? ==> c.message == "No active license"
    ensures active.Some? && !IsValid(active.value, today) ==> c.message == GetStatus(active.value, today)
    ensures active.Some? && IsValid(active.value, today) && currentDoors >= active.value.maxDoors ==>
      c.message == LimitReached(active.value.maxDoors, "door(s)", active.value.licenseType)
    ensures c.ok ==> (active.value.maxDoors - currentDoors > 0 &&
                      c.message == CanAddMore(active.value.maxDoors - currentDoors, "door(s)"))
  {
    if active.None? then Check(false, "No active license")
    else
      var l := active.value;
      if !IsValid(l, today) then Check(false, GetStatus(l, today))
      else if currentDoors >= l.maxDoors then Check(false, LimitReached(l.maxDoors, "door(s)", l.licenseType))
      else Check(true, CanAddMore(l.maxDoors - currentDoors, "door(s)"))
  }

  // =====================================================================
  // Feature flags

  const FeatureNames: seq<string> := ["anomaly_detection", "pdf_reports", "scheduled_reports", "api_access"]

  /** The four feature flags of a licence, in the order of FeatureNames. */
  function Flags(l: License): (f: seq<bool>)
    ensures |f| == |FeatureNames|
  {
    [l.anomalyDetectionEnabled, l.pdfReportsEnabled, l.scheduledReportsEnabled, l.apiAccessEnabled]
  }

  /** check_feature_enabled: false without a valid licence, and false for
      a name that is none of the four. */
  function CheckFeatureEnabled(active: Option<License>, today: int, name: string): (enabled: bool)
    ensures enabled <==> (active.Some? && IsValid(active.value, today) &&
                          exists i :: 0 <= i < |FeatureNames| && FeatureNames[i] == name && Flags(active.value)[i])
  {
    if active.None? || !IsValid(active.value, today) then false
    else
      var f := Flags(active.value);
      if name == "anomaly_detection" then assert FeatureNames[0] == name; f[0]
      else if name == "pdf_reports" then assert FeatureNames[1] == name; f[1]
      else if name == "scheduled_reports" then assert FeatureNames[2] == name; f[2]
      else if name == "api_access" then assert FeatureNames[3] == name; f[3]
      else false
  }

  // =====================================================================
  // The licence summary

  datatype Features = Features(anomalyDetection: bool, pdfReports: bool, scheduledReports: bool, apiAccess: bool)

  datatype LicenseInfo =
    | NoLicense(message: string)
    | Info(active: bool, licenseType: string, licenseKey: string, status: string,
           maxUsers: int, currentUsers: nat, usersRemaining: nat,
           maxDoors: int, currentDoors: nat, doorsRemaining: nat,
           features: Features, expirationDate: string, supportExpiration: string)

  function Remaining(limit: int, current: nat): (r: nat)
    ensures r == 0 || r + current == limit
    ensures r + current >= limit
    ensures r > 0 <==> current < limit
  {
    if limit - current > 0 then limit - current else 0
  }

  /** get_license_info. Dates are shown with `dateText` (the %Y-%m-%d
      rendering of a day number). */
  function GetLicenseInfo(active: Option<License>, today: int, currentUsers: nat, currentDoors: nat,
                          dateText: int -> string): (info: LicenseInfo)
    ensures info.NoLicense? <==> active.None?
    ensures info.NoLicense? ==> info.message == "No license found"
    ensures info.Info? ==> info.active == IsValid(active.value, today) && info.status == GetStatus(active.value, today)
    ensures info.Info? ==> (info.usersRemaining == Remaining(active.value.maxUsers, currentUsers) &&
                            info.doorsRemaining == Remaining(active.value.maxDoors, currentDoors))
    ensures info.Info? ==> (info.expirationDate ==
      if active.value.expirationDate.Some? then dateText(active.value.expirationDate.value) else "Lifetime")
    ensures info.Info? ==> (info.supportExpiration ==
      if active.value.supportExpirationDate.Some? then dateText(active.value.supportExpirationDate.value) else "N/A")
  {
    if active.None? then NoLicense("No license found")
    else
      var l := active.value;
      Info(IsValid(l, today), l.licenseType, l.licenseKey, GetStatus(l, today),
           l.maxUsers, currentUsers, Remaining(l.maxUsers, currentUsers),
           l.maxDoors, currentDoors, Remaining(l.maxDoors, currentDoors),
           Features(l.anomalyDetectionEnabled, l.pdfReportsEnabled, l.scheduledReportsEnabled, l.apiAccessEnabled),
           if l.expirationDate.Some? then dateText(l.expirationDate.value) else "Lifetime",
           if l.supportExpirationDate.Some? then dateText(l.supportExpirationDate.value) else "N/A")
  }

  /** The summary agrees with the checks: a user or a door can be added
      exactly when the licence is active in the summary and has a seat
      left, and a feature is enabled exactly when the summary lists it and
      the licence is active. */
  lemma InfoAgreesWithChecks(active: Option<License>, today: int, currentUsers: nat, currentDoors: nat,
                             dateText: int -> string)
    ensures var info := GetLicenseInfo(active, today, currentUsers, currentDoors, dateText);
      && (CanAddUser(active, today, currentUsers).ok <==> info.Info? && info.active && info.usersRemaining > 0)
      && (CanAddDoor(active, today, currentDoors).ok <==> info.Info? && info.active && info.doorsRemaining > 0)
      && (CheckFeatureEnabled(active, today, "api_access") <==> info.Info? && info.active && info.features.apiAccess)
      && (CheckFeatureEnabled(active, today, "pdf_reports") <==> info.Info? && info.active && info.features.pdfReports)
  {
    if active.Some? {
      var f := Flags(active.value);
      assert FeatureNames[3] == "api_access" && FeatureNames[1] == "pdf_reports";
    }
  }

  // =====================================================================
  // Licence keys

  /** The key prefix of a licence type, EDOMOS for an unknown one. */
  function KeyPrefix(licenseType: string): (p: string)
    ensures '-' !in p && p != []
  {
    if licenseType == "starter" then "START"
    else if licenseType == "professional" then "PRO"
    else if licenseType == "enterprise" then "ENT"
    else if licenseType == "custom" then "CUSTOM"
    else "EDOMOS"
  }

  predicate Bytes(random: seq<nat>) { forall i :: 0 <= i < |random| ==> IsByte(random[i]) }

  /** generate_license_key, from the 8 random bytes of token_hex(8). */
  function GenerateLicenseKey(licenseType: string, random: seq<nat>): (key: string)
    requires |random| == 8 && Bytes(random)
    ensures |key| == 7 + |KeyPrefix(licenseType)| + 1 + 16
    ensures StartsWith(key, "EDOMOS-")
  {
    "EDOMOS-" + KeyPrefix(licenseType) + "-" + HexUpper(random)
  }

  /** A key splits at its dashes into EDOMOS, the type's prefix and
      sixteen upper-case hex digits, which decode back to the random bytes. */
  lemma KeyRoundTrip(licenseType: string, random: seq<nat>)
    requires |random| == 8 && Bytes(random)
    ensures var parts := SplitOn(GenerateLicenseKey(licenseType, random), '-');
      && |parts| == 3 && parts[0] == "EDOMOS" && parts[1] == KeyPrefix(licenseType)
      && |parts[2]| == 16 && (forall i :: 0 <= i < 16 ==> IsUpperHex(parts[2][i]))
      && HexDecode(parts[2]) == random
  {
    KeySplits(licenseType, random);
    HexRoundTrip(random);
  }

  /** Hex digits never include the dash that separates a key's parts. */
  lemma HexHasNoDash(random: seq<nat>)
    requires Bytes(random)
    ensures '-' !in HexUpper(random)
  {
    var hex := HexUpper(random);
    forall k | 0 <= k < |hex| ensures hex[k] != '-' {
      assert IsUpperHex(hex[k]);
    }
  }

  /** A key is EDOMOS, the type's prefix and the hex digits, joined by dashes. */
  lemma KeyShape(licenseType: string, random: seq<nat>)
    requires |random| == 8 && Bytes(random)
    ensures GenerateLicenseKey(licenseType, random)
      == "EDOMOS" + ['-'] + (KeyPrefix(licenseType) + ['-'] + HexUpper(random))
  {
  }

  /** A key's three dash-separated parts. */
  lemma KeySplits(licenseType: string, random: seq<nat>)
    requires |random| == 8 && Bytes(random)
    ensures SplitOn(GenerateLicenseKey(licenseType, random), '-') == ["EDOMOS", KeyPrefix(licenseType), HexUpper(random)]
  {
    var hex := HexUpper(random);
    var prefix := KeyPrefix(licenseType);
    HexHasNoDash(random);
    SplitNoSep(hex, '-');
    SplitPrefix(prefix, hex, '-');
    assert '-' !in "EDOMOS";
    SplitPrefix("EDOMOS", prefix + ['-'] + hex, '-');
    KeyShape(licenseType, random);
  }

  /** Keys of types with different prefixes, or from different random
      bytes, never coincide. */
  lemma KeysDistinct(t1: string, r1: seq<nat>, t2: string, r2: seq<nat>)
    requires |r1| == 8 && Bytes(r1) && |r2| == 8 && Bytes(r2)
    requires KeyPrefix(t1) != KeyPrefix(t2) || r1 != r2
    ensures GenerateLicenseKey(t1, r1) != GenerateLicenseKey(t2, r2)
  {
    KeyRoundTrip(t1, r1);
    KeyRoundTrip(t2, r2);
  }

  // =====================================================================
  // Tiers and licence creation

  datatype Tier = Tier(maxUsers: int, maxDoors: int, anomalyDetectionEnabled: bool, pdfReportsEnabled: bool,
                       scheduledReportsEnabled: bool, apiAccessEnabled: bool)

  /** LICENSE_TIERS as the module defines it. */
  const LicenseTiers: map<string, Tier> := map[
    "starter" := Tier(2, 1, false, false, false, false),
    "professional" := Tier(10, 5, true, true, true, false),
    "enterprise" := Tier(50, 20, true, true, true, true),
    "custom" := Tier(999, 999, true, true, true, true)]

  /** The keys of custom_limits that a licence reads; absent means not
      overridden. */
  datatype Overrides = Overrides(maxUsers: Option<int>, maxDoors: Option<int>,
                                 anomalyDetectionEnabled: Option<bool>, pdfReportsEnabled: Option<bool>,
                                 scheduledReportsEnabled: Option<bool>, apiAccessEnabled: Option<bool>)

  const NoOverrides: Overrides := Overrides(None, None, None, None, None, None)

  function Pick<T>(o: Option<T>, preset: T): T {
    if o.Some? then o.value else preset
  }

  /** dict.update: every given key replaces the tier's value. */
  function Merge(t: Tier, o: Overrides): (r: Tier)
    ensures r.maxUsers == Pick(o.maxUsers, t.maxUsers) && r.maxDoors == Pick(o.maxDoors, t.maxDoors)
    ensures r.anomalyDetectionEnabled == Pick(o.anomalyDetectionEnabled, t.anomalyDetectionEnabled)
    ensures r.pdfReportsEnabled == Pick(o.pdfReportsEnabled, t.pdfReportsEnabled)
    ensures r.scheduledReportsEnabled == Pick(o.scheduledReportsEnabled, t.scheduledReportsEnabled)
    ensures r.apiAccessEnabled == Pick(o.apiAccessEnabled, t.apiAccessEnabled)
  {
    Tier(Pick(o.maxUsers, t.maxUsers), Pick(o.maxDoors, t.maxDoors),
         Pick(o.anomalyDetectionEnabled, t.anomalyDetectionEnabled),
         Pick(o.pdfReportsEnabled, t.pdfReportsEnabled),
         Pick(o.scheduledReportsEnabled, t.scheduledReportsEnabled),
         Pick(o.apiAccessEnabled, t.apiAccessEnabled))
  }

  /** Updating with nothing changes nothing, and updating twice with the
      same limits is updating once. */
  lemma MergeLaws(t: Tier, o: Overrides)
    ensures Merge(t, NoOverrides) == t
    ensures Merge(Merge(t, o), o) == Merge(t, o)
  {
  }

  /** The tier entry a licence type reads: its own, or professional's. */
  function TierKey(tiers: map<string, Tier>, licenseType: string): (k: string)
    ensures k in tiers || k == "professional"
    ensures k == licenseType || k == "professional"
  {
    if licenseType in tiers then licenseType else "professional"
  }

  /** Creation details besides the type and the limits. */
  datatype Customer = Customer(name: string, email: string, company: Option<string>,
                               expirationDate: Option<int>, supportExpirationDate: Option<int>)

  /** The new row create_license builds from a configuration. */
  function NewLicense(licenseType: string, config: Tier, key: string, c: Customer): (l: License)
    ensures l.isActive && l.licenseKey == key && l.licenseType == licenseType
    ensures l.maxUsers == config.maxUsers && l.maxDoors == config.maxDoors
    ensures Flags(l) == [config.anomalyDetectionEnabled, config.pdfReportsEnabled,
                         config.scheduledReportsEnabled, config.apiAccessEnabled]
    ensures l.expirationDate == c.expirationDate && l.supportExpirationDate == c.supportExpirationDate
  {
    License(key, licenseType, config.maxUsers, config.maxDoors, config.anomalyDetectionEnabled,
            config.pdfReportsEnabled, config.scheduledReportsEnabled, config.apiAccessEnabled, true,
            c.expirationDate, c.supportExpirationDate, c.name, c.email, c.company)
  }

  /** create_license as written: the configuration is the tier table's own
      entry, so the update writes the overrides into the table, where the
      next licence of that type (or, for an unknown type, the next
      professional one) reads them. */
  function CreateAsWritten(tiers: map<string, Tier>, licenseType: string, o: Overrides, key: string, c: Customer)
    : (r: (License, map<string, Tier>))
    requires "professional" in tiers
    ensures var k := TierKey(tiers, licenseType);
      r.0 == NewLicense(licenseType, Merge(tiers[k], o), key, c) && r.1 == tiers[k := Merge(tiers[k], o)]
  {
    var k := TierKey(tiers, licenseType);
    var config := Merge(tiers[k], o);
    (NewLicense(licenseType, config, key, c), tiers[k := config])
  }

  /** The leak: a starter licence with 100 users makes the next starter
      licence, created without overrides, a 100-user licence too; and a
      licence of unknown type with overrides changes the professional tier. */
  lemma OverridesLeakIntoTiers(key1: string, key2: string, c: Customer)
    ensures var first := CreateAsWritten(LicenseTiers, "starter", NoOverrides.(maxUsers := Some(100)), key1, c);
      var second := CreateAsWritten(first.1, "starter", NoOverrides, key2, c);
      second.0.maxUsers == 100 && LicenseTiers["starter"].maxUsers == 2
    ensures var odd := CreateAsWritten(LicenseTiers, "gold", NoOverrides.(maxDoors := Some(7)), key1, c);
      odd.1["professional"].maxDoors == 7 && LicenseTiers["professional"].maxDoors == 5
  {
    var first := CreateAsWritten(LicenseTiers, "starter", NoOverrides.(maxUsers := Some(100)), key1, c);
    assert first.1["starter"].maxUsers == 100;
    assert "gold" !in LicenseTiers;
  }

  /** create_license on a copy of the tier entry: the overrides apply to
      this licence alone and the table keeps its presets. */
  function CreateLicenseSpec(licenseType: string, o: Overrides, key: string, c: Customer): (l: License)
    ensures var preset := LicenseTiers[TierKey(LicenseTiers, licenseType)];
      l == NewLicense(licenseType, Merge(preset, o), key, c)
  {
    NewLicense(licenseType, Merge(LicenseTiers[TierKey(LicenseTiers, licenseType)], o), key, c)
  }

  /** Without overrides a licence gets exactly its tier's preset, an
      unknown type the professional one, whatever was created before. */
  lemma CreateUsesPreset(licenseType: string, key: string, c: Customer)
    ensures var l := CreateLicenseSpec(licenseType, NoOverrides, key, c);
      && (licenseType == "starter" ==> l.maxUsers == 2 && l.maxDoors == 1 && Flags(l) == [false, false, false, false])
      && (licenseType == "professional" ==> l.maxUsers == 10 && l.maxDoors == 5 && Flags(l) == [true, true, true, false])
      && (licenseType == "enterprise" ==> l.maxUsers == 50 && l.maxDoors == 20 && Flags(l) == [true, true, true, true])
      && (licenseType == "custom" ==> l.maxUsers == 999 && l.maxDoors == 999 && Flags(l) == [true, true, true, true])
      && (licenseType !in LicenseTiers ==> l.maxUsers == 10 && l.maxDoors == 5 && Flags(l) == [true, true, true, false])
  {
    MergeLaws(LicenseTiers[TierKey(LicenseTiers, licenseType)], NoOverrides);
  }

  /** A new licence becomes the active one only when no earlier row is
      active; otherwise the active licence stays as it was. */
  lemma {:induction false} CreateThenActive(licenses: seq<License>, l: License)
    requires l.isActive
    ensures ActiveLicense(licenses + [l]) == if ActiveLicense(licenses).Some? then ActiveLicense(licenses) else Some(l)
  {
    if licenses != [] {
      assert (licenses + [l])[1..] == licenses[1..] + [l];
      CreateThenActive(licenses[1..], l);
    }
  }

  /** The licence table. */
  class LicenseStore {
    var licenses: seq<License>

    constructor (rows: seq<License>)
      ensures licenses == rows
    {
      licenses := rows;
    }

    /** create_license with a copied tier entry: a new active row keyed
        from the random bytes. */
    method CreateLicense(licenseType: string, c: Customer, o: Overrides, random: seq<nat>) returns (l: License)
      requires |random| == 8 && Bytes(random)
      modifies this
      ensures l == CreateLicenseSpec(licenseType, o, GenerateLicenseKey(licenseType, random), c)
      ensures licenses == old(licenses) + [l]
    {
      var config := Merge(LicenseTiers[TierKey(LicenseTiers, licenseType)], o);
      var key := GenerateLicenseKey(licenseType, random);
      l := NewLicense(licenseType, config, key, c);
      licenses := licenses + [l];
    }
  }
}
