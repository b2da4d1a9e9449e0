/** The versioned settings record (src/SettingsManager.cpp,
    include/SettingsManager.h): validation, an XOR checksum, defaults, and
    load/save over a store with a version slot and a record slot. */
module Settings {
  import opened Basics

  const SETTINGS_VERSION: bv8 := 2

  datatype Settings = Settings(
    version: bv8,
    maxConcurrent: bv8,
    activeRelays: bv8,
    maxCallDelay: bv16,
    ringerHangTime: bv8,
    checksum: bv8)

  /** validateSettings(): concurrent limit 1..8, at most 8 relays, call delay
      10..1000 s. The version, the hang time and the checksum are not checked. */
  predicate ValidateSettings(s: Settings)
  {
    1 <= s.maxConcurrent <= 8 && s.activeRelays <= 8 && 10 <= s.maxCallDelay <= 1000
  }

  function LowByte(w: bv16): bv8 { (w & 0xFF) as bv8 }

  function HighByte(w: bv16): bv8 { (w >> 8) as bv8 }

  /** calculateChecksum(): the XOR of the version, the two counts and both
      bytes of the call delay. */
  function CalculateChecksum(s: Settings): bv8
  {
    s.version ^ s.maxConcurrent ^ s.activeRelays ^ LowByte(s.maxCallDelay) ^ HighByte(s.maxCallDelay)
  }

  /** What getDefaultSettings() fixes; the hang time it leaves uninitialised. */
  predicate IsDefault(s: Settings)
  {
    s.version == SETTINGS_VERSION && s.maxConcurrent == 4 && s.activeRelays == 8 &&
    s.maxCallDelay == 30 && s.checksum == 0
  }

  /** getDefaultSettings(): the hang time is whatever the stack held. */
  method GetDefaultSettings() returns (s: Settings)
    ensures IsDefault(s)
    ensures ValidateSettings(s)
  {
    var hang: bv8 :| true;
    s := Settings(SETTINGS_VERSION, 4, 8, 30, hang, 0);
  }

  /** The record saveSettings() writes: version 2 and a matching checksum. */
  function Stamped(s: Settings): (r: Settings)
    ensures r.version == SETTINGS_VERSION
    ensures r.checksum == CalculateChecksum(r)
    ensures r.(version := s.version, checksum := s.checksum) == s
  {
    var v := s.(version := SETTINGS_VERSION);
    v.(checksum := CalculateChecksum(v))
  }

  /** What loadSettings() accepts from a store: None when the version slot,
      the checksum or the validation fails. */
  function Loaded(version: bv8, record: Settings): Option<Settings>
  {
    if version != SETTINGS_VERSION then None
    else if record.checksum != CalculateChecksum(record) then None
    else if !ValidateSettings(record) then None
    else Some(record)
  }

  // ---------------------------------------------------------------------------
  // Properties

  /** The checksum covers neither the hang time nor itself. */
  lemma ChecksumIgnoresHangTime(s: Settings, hang: bv8, sum: bv8)
    ensures CalculateChecksum(s.(ringerHangTime := hang, checksum := sum)) == CalculateChecksum(s)
  {
  }

  /** Hence a stored hang time can be changed without loadSettings() noticing. */
  lemma HangTimeUnprotected(s: Settings, hang: bv8)
    requires Loaded(SETTINGS_VERSION, s).Some?
    ensures Loaded(SETTINGS_VERSION, s.(ringerHangTime := hang)) == Some(s.(ringerHangTime := hang))
  {
    ChecksumIgnoresHangTime(s, hang, s.checksum);
  }

  /** XOR with the same four bytes keeps two different bytes different. */
  lemma XorKeepsDifference(x: bv8, y: bv8, p: bv8, q: bv8, r: bv8, t: bv8)
    requires x != y
    ensures p ^ x ^ q ^ r ^ t != p ^ y ^ q ^ r ^ t
    ensures x ^ p ^ q ^ r ^ t != y ^ p ^ q ^ r ^ t
    ensures p ^ q ^ x ^ r ^ t != p ^ q ^ y ^ r ^ t
  {
  }

  lemma ChecksumSeesMaxConcurrent(v: bv8, m: bv8, a: bv8, d: bv16, h: bv8, c: bv8, b: bv8)
    requires b != m
    ensures CalculateChecksum(Settings(v, b, a, d, h, c)) != CalculateChecksum(Settings(v, m, a, d, h, c))
  {
    XorKeepsDifference(b, m, v, a, LowByte(d), HighByte(d));
  }

  lemma ChecksumSeesActiveRelays(v: bv8, m: bv8, a: bv8, d: bv16, h: bv8, c: bv8, b: bv8)
    requires b != a
    ensures CalculateChecksum(Settings(v, m, b, d, h, c)) != CalculateChecksum(Settings(v, m, a, d, h, c))
  {
    XorKeepsDifference(b, a, v, m, LowByte(d), HighByte(d));
  }

  lemma ChecksumSeesVersion(v: bv8, m: bv8, a: bv8, d: bv16, h: bv8, c: bv8, b: bv8)
    requires b != v
    ensures CalculateChecksum(Settings(b, m, a, d, h, c)) != CalculateChecksum(Settings(v, m, a, d, h, c))
  {
    XorKeepsDifference(b, v, m, a, LowByte(d), HighByte(d));
  }

  /** Changing maxConcurrent, activeRelays or the version alone alters the checksum. */
  lemma ChecksumDetectsOneByteField(s: Settings, b: bv8)
    ensures b != s.maxConcurrent ==> CalculateChecksum(s.(maxConcurrent := b)) != CalculateChecksum(s)
    ensures b != s.activeRelays ==> CalculateChecksum(s.(activeRelays := b)) != CalculateChecksum(s)
    ensures b != s.version ==> CalculateChecksum(s.(version := b)) != CalculateChecksum(s)
  {
    var Settings(v, m, a, d, h, c) := s;
    if b != m {
      ChecksumSeesMaxConcurrent(v, m, a, d, h, c, b);
    }
    if b != a {
      ChecksumSeesActiveRelays(v, m, a, d, h, c, b);
    }
    if b != v {
      ChecksumSeesVersion(v, m, a, d, h, c, b);
    }
  }

  /** Two valid call delays whose bytes XOR to the same value share a
      checksum: 257 s and 514 s are indistinguishable to it. */
  lemma ChecksumMissesSomeDelayChanges(s: Settings)
    ensures CalculateChecksum(s.(maxCallDelay := 257)) == CalculateChecksum(s.(maxCallDelay := 514))
    ensures ValidateSettings(s.(maxCallDelay := 257)) <==> ValidateSettings(s.(maxCallDelay := 514))
    ensures ValidateSettings(s) ==>
      ValidateSettings(s.(maxCallDelay := 257)) && ValidateSettings(s.(maxCallDelay := 514))
  {
    assert LowByte(257) == 1 && HighByte(257) == 1;
    assert LowByte(514) == 2 && HighByte(514) == 2;
  }

  /** Whatever the store holds, an accepted record is valid, has a matching
      checksum, and was found behind version 2. */
  lemma LoadedIsSound(version: bv8, record: Settings)
    ensures Loaded(version, record).Some? <==>
      version == SETTINGS_VERSION && record.checksum == CalculateChecksum(record) && ValidateSettings(record)
    ensures Loaded(version, record).Some? ==> Loaded(version, record).value == record
  {
  }

  /** Save then load: a valid record comes back with every field as given,
      except version 2 and the recomputed checksum. */
  lemma SaveThenLoad(s: Settings)
    requires ValidateSettings(s)
    ensures Loaded(SETTINGS_VERSION, Stamped(s)) == Some(Stamped(s))
    ensures var r := Stamped(s);
      r.maxConcurrent == s.maxConcurrent && r.activeRelays == s.activeRelays &&
      r.maxCallDelay == s.maxCallDelay && r.ringerHangTime == s.ringerHangTime
  {
  }

  // ---------------------------------------------------------------------------
  // The store and the two operations that use it

  /** The EEPROM seen by the settings code: a version byte and a record. */
  class SettingsStore {
    var version: bv8
    var record: Settings

    constructor (version: bv8, record: Settings)
      ensures this.version == version && this.record == record
    {
      this.version := version;
      this.record := record;
    }
  }

  /** loadSettings(settings): true with the stored record if it passes the
      version, checksum and validation tests; otherwise false with the defaults. */
  method LoadSettings(store: SettingsStore) returns (ok: bool, settings: Settings)
    ensures ok <==> Loaded(store.version, store.record).Some?
    ensures ok ==> settings == store.record
    ensures !ok ==> IsDefault(settings)
    ensures ValidateSettings(settings)
  {
    var version := store.version;
    if version != SETTINGS_VERSION {
      settings := GetDefaultSettings();
      return false, settings;
    }
    settings := store.record;
    var expectedChecksum := CalculateChecksum(settings);
    if settings.checksum != expectedChecksum {
      settings := GetDefaultSettings();
      return false, settings;
    }
    if !ValidateSettings(settings) {
      settings := GetDefaultSettings();
      return false, settings;
    }
    return true, settings;
  }

  /** saveSettings(settings): refuses an invalid record and leaves the store
      alone; otherwise writes version 2 and the stamped copy. */
  method SaveSettings(store: SettingsStore, settings: Settings) returns (ok: bool)
    modifies store
    ensures ok <==> ValidateSettings(settings)
    ensures !ok ==> store.version == old(store.version) && store.record == old(store.record)
    ensures ok ==> store.version == SETTINGS_VERSION && store.record == Stamped(settings)
  {
    if !ValidateSettings(settings) {
      return false;
    }
    var settingsToSave := settings;
    settingsToSave := settingsToSave.(version := SETTINGS_VERSION);
    settingsToSave := settingsToSave.(checksum := CalculateChecksum(settingsToSave));
    store.version := SETTINGS_VERSION;
    store.record := settingsToSave;
    return true;
  }
}
