/** The persistent system configuration (src/Config.cpp, include/Config.h):
    range-checked setters, the validity test, the clamping pass run before
    every save, the ring timing chosen by the ring style, and load/save of a
    magic number and the record in a two-slot store. */
module Config {

  type u8 = x: int | 0 <= x < 0x100
  type u16 = x: int | 0 <= x < 0x1_0000

  /** The RingStyle and PatternMode enumerations. */
  const RING_STYLE_US: nat := 0
  const RING_STYLE_UK: nat := 1
  const RING_STYLE_MIXED: nat := 2
  const RING_STYLE_CUSTOM: nat := 3
  const PATTERN_RANDOM: nat := 0
  const PATTERN_CUSTOM: nat := 5

  /** Marks a store that holds a configuration. */
  const CONFIG_MAGIC_NUMBER: u16 := 0xABCD

  /** The UK ring cadence, simplified to one on and one off time. */
  const UKRingOn: nat := 400
  const UKRingOff: nat := 2000

  datatype SystemConfig = SystemConfig(
    activeRelayCount: u8,
    maxSimultaneousRings: u8,
    maxRingsPerCall: u8,
    ringOnDuration: u16,
    ringOffDuration: u16,
    minWaitTime: u16,
    maxWaitTime: u16,
    shortRingDuration: u16,
    answerProbability: u8,
    ringStyle: u8,
    patternMode: u8,
    statusDisplayEnabled: bool,
    displayBrightness: u8,
    displayTimeout: u8,
    sequentialDelay: u16,
    waveSpeed: u8,
    debugOutput: bool)

  const DEFAULT_CONFIG: SystemConfig :=
    SystemConfig(8, 3, 8, 2000, 4000, 5000, 30000, 300, 70, RING_STYLE_US as u8, PATTERN_RANDOM as u8,
                 true, 8, 30, 1000, 5, true)

  /** isConfigValid(): the fields the firmware relies on are in range. Wait
      times, display and pattern parameters are not checked. */
  predicate IsConfigValid(c: SystemConfig)
  {
    1 <= c.activeRelayCount <= 8 &&
    1 <= c.maxSimultaneousRings <= c.activeRelayCount &&
    1 <= c.maxRingsPerCall <= 15 &&
    100 <= c.ringOnDuration <= 10000 &&
    100 <= c.ringOffDuration <= 20000 &&
    c.answerProbability <= 100 &&
    c.ringStyle <= RING_STYLE_CUSTOM &&
    c.patternMode <= PATTERN_CUSTOM
  }

  /** Arduino's constrain(amt, low, high). */
  function Constrain(amt: int, low: int, high: int): int
  {
    if amt < low then low else if amt > high then high else amt
  }

  /** Every field constrainValues() clamps lies in its clamping range. */
  predicate Clamped(c: SystemConfig)
  {
    1 <= c.activeRelayCount <= 8 &&
    1 <= c.maxSimultaneousRings <= c.activeRelayCount &&
    1 <= c.maxRingsPerCall <= 15 &&
    100 <= c.ringOnDuration <= 10000 &&
    100 <= c.ringOffDuration <= 20000 &&
    1000 <= c.minWaitTime && c.minWaitTime <= c.maxWaitTime &&
    c.answerProbability <= 100 &&
    c.displayBrightness <= 15 &&
    100 <= c.sequentialDelay <= 5000 &&
    1 <= c.waveSpeed <= 10
  }

  /** The fields constrainValues() leaves alone. */
  predicate SameUnclampedFields(a: SystemConfig, b: SystemConfig)
  {
    a.shortRingDuration == b.shortRingDuration && a.ringStyle == b.ringStyle &&
    a.patternMode == b.patternMode && a.statusDisplayEnabled == b.statusDisplayEnabled &&
    a.displayTimeout == b.displayTimeout && a.debugOutput == b.debugOutput
  }

  /** constrainValues(), field by field in the source's order: the bound of
      maxSimultaneousRings is the already clamped activeRelayCount, the floor
      of maxWaitTime the already clamped minWaitTime. The upper bounds 120000
      and 300000 lie above every 16-bit value and never bind. */
  function Constrained(c: SystemConfig): (r: SystemConfig)
    ensures Clamped(r)
    ensures SameUnclampedFields(r, c)
  {
    var relays := Constrain(c.activeRelayCount, 1, 8);
    var minWait := Constrain(c.minWaitTime, 1000, 120000);
    c.(activeRelayCount := relays,
       maxSimultaneousRings := Constrain(c.maxSimultaneousRings, 1, relays),
       maxRingsPerCall := Constrain(c.maxRingsPerCall, 1, 15),
       ringOnDuration := Constrain(c.ringOnDuration, 100, 10000),
       ringOffDuration := Constrain(c.ringOffDuration, 100, 20000),
       minWaitTime := minWait,
       maxWaitTime := Constrain(c.maxWaitTime, minWait, 300000),
       answerProbability := Constrain(c.answerProbability, 0, 100),
       displayBrightness := Constrain(c.displayBrightness, 0, 15),
       sequentialDelay := Constrain(c.sequentialDelay, 100, 5000),
       waveSpeed := Constrain(c.waveSpeed, 1, 10))
  }

  /** getRingTiming(on, off, isUKStyle), with the two out-parameters returned as a pair. */
  function RingTiming(c: SystemConfig, isUKStyle: bool): (nat, nat)
  {
    if c.ringStyle == RING_STYLE_UK || (c.ringStyle == RING_STYLE_MIXED && isUKStyle)
    then (UKRingOn, UKRingOff)
    else (c.ringOnDuration, c.ringOffDuration)
  }

  /** What loadConfig() leaves in memory: the stored record if the magic
      number matches and the record is valid, otherwise the defaults. */
  function LoadedConfig(magic: u16, stored: SystemConfig): SystemConfig
  {
    if magic == CONFIG_MAGIC_NUMBER && IsConfigValid(stored) then stored else Constrained(DEFAULT_CONFIG)
  }

  /** The setters as updates of a configuration: a value outside the accepted
      range leaves the configuration as it is. */
  function WithActiveRelayCount(c: SystemConfig, count: u8): SystemConfig
  {
    if 1 <= count <= 8 then c.(activeRelayCount := count) else c
  }

  function WithMaxSimultaneousRings(c: SystemConfig, max: u8): SystemConfig
  {
    if 1 <= max <= c.activeRelayCount then c.(maxSimultaneousRings := max) else c
  }

  function WithMaxRingsPerCall(c: SystemConfig, max: u8): SystemConfig
  {
    if 1 <= max <= 15 then c.(maxRingsPerCall := max) else c
  }

  function WithRingStyle(c: SystemConfig, style: nat): SystemConfig
  {
    if style <= RING_STYLE_CUSTOM then c.(ringStyle := style) else c
  }

  function WithPatternMode(c: SystemConfig, mode: nat): SystemConfig
  {
    if mode <= PATTERN_CUSTOM then c.(patternMode := mode) else c
  }

  function WithAnswerProbability(c: SystemConfig, probability: u8): SystemConfig
  {
    if probability <= 100 then c.(answerProbability := probability) else c
  }

  function WithDisplayBrightness(c: SystemConfig, brightness: u8): SystemConfig
  {
    if brightness <= 15 then c.(displayBrightness := brightness) else c
  }

  // ---------------------------------------------------------------------------
  // Properties

  /** The defaults are valid and already clamped, so constrainValues() keeps them. */
  lemma DefaultIsValidAndClamped()
    ensures IsConfigValid(DEFAULT_CONFIG)
    ensures Clamped(DEFAULT_CONFIG)
    ensures Constrained(DEFAULT_CONFIG) == DEFAULT_CONFIG
  {
  }

  /** A configuration already in range is left as it is by constrainValues(). */
  lemma ClampedIsFixpoint(c: SystemConfig)
    requires Clamped(c)
    ensures Constrained(c) == c
  {
  }

  /** constrainValues() is idempotent. */
  lemma ConstrainIdempotent(c: SystemConfig)
    ensures Constrained(Constrained(c)) == Constrained(c)
  {
    ClampedIsFixpoint(Constrained(c));
  }

  /** After constrainValues() the configuration is valid exactly when the two
      fields it does not clamp, ring style and pattern mode, are in range. */
  lemma ConstrainedValidity(c: SystemConfig)
    ensures IsConfigValid(Constrained(c)) <==> c.ringStyle <= RING_STYLE_CUSTOM && c.patternMode <= PATTERN_CUSTOM
  {
  }

  /** constrainValues() does not alter any field that isConfigValid() checks
      when those fields are already valid. */
  lemma ConstrainKeepsValidFields(c: SystemConfig)
    requires IsConfigValid(c)
    ensures var r := Constrained(c);
      r.activeRelayCount == c.activeRelayCount && r.maxSimultaneousRings == c.maxSimultaneousRings &&
      r.maxRingsPerCall == c.maxRingsPerCall && r.ringOnDuration == c.ringOnDuration &&
      r.ringOffDuration == c.ringOffDuration && r.answerProbability == c.answerProbability &&
      IsConfigValid(r)
  {
  }

  /** Of all the setters only setActiveRelayCount() can turn a valid
      configuration invalid: it never lowers maxSimultaneousRings along with it. */
  lemma SettersKeepValidity(c: SystemConfig, m: u8, style: nat, mode: nat, b: bool)
    requires IsConfigValid(c)
    ensures IsConfigValid(WithMaxSimultaneousRings(c, m))
    ensures IsConfigValid(WithMaxRingsPerCall(c, m))
    ensures IsConfigValid(WithRingStyle(c, style))
    ensures IsConfigValid(WithPatternMode(c, mode))
    ensures IsConfigValid(WithAnswerProbability(c, m))
    ensures IsConfigValid(WithDisplayBrightness(c, m))
    ensures IsConfigValid(c.(debugOutput := b))
  {
  }

  /** setActiveRelayCount() keeps a valid configuration valid exactly when it
      rejects the count or the count is not below maxSimultaneousRings. */
  lemma ActiveRelayCountValidity(c: SystemConfig, count: u8)
    requires IsConfigValid(c)
    ensures IsConfigValid(WithActiveRelayCount(c, count)) <==>
              count < 1 || 8 < count || c.maxSimultaneousRings <= count
  {
  }

  /** The defaults with two relays: accepted by the setter, yet invalid. */
  lemma RelayCountCanInvalidate()
    ensures IsConfigValid(DEFAULT_CONFIG)
    ensures WithActiveRelayCount(DEFAULT_CONFIG, 2).activeRelayCount == 2
    ensures !IsConfigValid(WithActiveRelayCount(DEFAULT_CONFIG, 2))
  {
  }

  /** UK timing for the UK style and for the mixed style asked for UK;
      the configured timing otherwise, which a valid configuration bounds. */
  lemma RingTimingChoice(c: SystemConfig, isUKStyle: bool)
    ensures var uk := c.ringStyle == RING_STYLE_UK || (c.ringStyle == RING_STYLE_MIXED && isUKStyle);
      (uk ==> RingTiming(c, isUKStyle) == (400, 2000)) &&
      (!uk ==> RingTiming(c, isUKStyle) == (c.ringOnDuration, c.ringOffDuration))
    ensures IsConfigValid(c) ==>
      100 <= RingTiming(c, isUKStyle).0 <= 10000 && 100 <= RingTiming(c, isUKStyle).1 <= 20000
  {
  }

  /** Whatever the store holds, loadConfig() ends with a valid configuration,
      and loading what it left behind gives the same configuration again. */
  lemma LoadedIsValidAndStable(magic: u16, stored: SystemConfig)
    ensures IsConfigValid(LoadedConfig(magic, stored))
    ensures LoadedConfig(CONFIG_MAGIC_NUMBER, LoadedConfig(magic, stored)) == LoadedConfig(magic, stored)
    ensures magic != CONFIG_MAGIC_NUMBER ==> LoadedConfig(magic, stored) == DEFAULT_CONFIG
  {
    DefaultIsValidAndClamped();
  }

  /** Save then load: a configuration whose style and pattern are in range
      comes back as saved (clamped); any other comes back as the defaults. */
  lemma SaveThenLoad(c: SystemConfig)
    ensures c.ringStyle <= RING_STYLE_CUSTOM && c.patternMode <= PATTERN_CUSTOM ==>
              LoadedConfig(CONFIG_MAGIC_NUMBER, Constrained(c)) == Constrained(c)
    ensures !(c.ringStyle <= RING_STYLE_CUSTOM && c.patternMode <= PATTERN_CUSTOM) ==>
              LoadedConfig(CONFIG_MAGIC_NUMBER, Constrained(c)) == DEFAULT_CONFIG
  {
    ConstrainedValidity(c);
    DefaultIsValidAndClamped();
  }

  // ---------------------------------------------------------------------------
  // The objects

  /** The configuration area of the EEPROM: a magic number, then the record. */
  class ConfigStore {
    var magic: u16
    var record: SystemConfig

    constructor (magic: u16, record: SystemConfig)
      ensures this.magic == magic && this.record == record
    {
      this.magic := magic;
      this.record := record;
    }
  }

  class ConfigManager {
    var config: SystemConfig
    var configChanged: bool
    const store: ConfigStore

    /** ConfigManager(): the defaults, unchanged. */
    constructor (store: ConfigStore)
      ensures config == DEFAULT_CONFIG && !configChanged && this.store == store
    {
      config := DEFAULT_CONFIG;
      configChanged := false;
      this.store := store;
    }

    /** loadConfig(): keep a stored valid configuration; otherwise install and save the defaults. */
    method LoadConfig()
      modifies this, store
      ensures config == LoadedConfig(old(store.magic), old(store.record))
      ensures !configChanged
      ensures if old(store.magic) == CONFIG_MAGIC_NUMBER && IsConfigValid(old(store.record))
              then store.magic == old(store.magic) && store.record == old(store.record)
              else store.magic == CONFIG_MAGIC_NUMBER && store.record == DEFAULT_CONFIG
    {
      var magic := store.magic;
      if magic == CONFIG_MAGIC_NUMBER {
        config := store.record;
        if IsConfigValid(config) {
          configChanged := false;
          return;
        }
      }
      config := DEFAULT_CONFIG;
      SaveConfig();
      DefaultIsValidAndClamped();
    }

    /** saveConfig(): clamp, then write the magic number and the record. */
    method SaveConfig()
      modifies this, store
      ensures config == Constrained(old(config))
      ensures store.magic == CONFIG_MAGIC_NUMBER && store.record == config
      ensures !configChanged
    {
      ConstrainValues();
      store.magic := CONFIG_MAGIC_NUMBER;
      store.record := config;
      configChanged := false;
    }

    /** resetToDefaults(): the defaults, saved. */
    method ResetToDefaults()
      modifies this, store
      ensures config == DEFAULT_CONFIG
      ensures store.magic == CONFIG_MAGIC_NUMBER && store.record == DEFAULT_CONFIG
      ensures !configChanged
    {
      config := DEFAULT_CONFIG;
      configChanged := true;
      SaveConfig();
      DefaultIsValidAndClamped();
    }

    /** constrainValues() */
    method ConstrainValues()
      modifies this
      ensures config == Constrained(old(config))
      ensures configChanged == old(configChanged)
    {
      var c := config;
      c := c.(activeRelayCount := Constrain(c.activeRelayCount, 1, 8));
      c := c.(maxSimultaneousRings := Constrain(c.maxSimultaneousRings, 1, c.activeRelayCount));
      c := c.(maxRingsPerCall := Constrain(c.maxRingsPerCall, 1, 15));
      c := c.(ringOnDuration := Constrain(c.ringOnDuration, 100, 10000));
      c := c.(ringOffDuration := Constrain(c.ringOffDuration, 100, 20000));
      c := c.(minWaitTime := Constrain(c.minWaitTime, 1000, 120000));
      c := c.(maxWaitTime := Constrain(c.maxWaitTime, c.minWaitTime, 300000));
      c := c.(answerProbability := Constrain(c.answerProbability, 0, 100));
      c := c.(displayBrightness := Constrain(c.displayBrightness, 0, 15));
      c := c.(sequentialDelay := Constrain(c.sequentialDelay, 100, 5000));
      c := c.(waveSpeed := Constrain(c.waveSpeed, 1, 10));
      config := c;
    }

    function IsValid(): (r: bool)
      reads this
      ensures r <==> IsConfigValid(config)
      ensures r ==> 1 <= config.maxSimultaneousRings <= config.activeRelayCount <= 8
    {
      IsConfigValid(config)
    }

    function GetRingTiming(isUKStyle: bool): (r: (nat, nat))
      reads this
      ensures IsConfigValid(config) ==> 100 <= r.0 <= 10000 && 100 <= r.1 <= 20000
      ensures config.ringStyle == RING_STYLE_UK ==> r == (400, 2000)
    {
      RingTimingChoice(config, isUKStyle);
      RingTiming(config, isUKStyle)
    }

    method SetActiveRelayCount(count: u8)
      modifies this
      ensures config == WithActiveRelayCount(old(config), count)
      ensures configChanged == (old(configChanged) || 1 <= count <= 8)
    {
      if count >= 1 && count <= 8 {
        config := config.(activeRelayCount := count);
        configChanged := true;
      }
    }

    method SetMaxSimultaneousRings(max: u8)
      modifies this
      ensures config == WithMaxSimultaneousRings(old(config), max)
      ensures configChanged == (old(configChanged) || 1 <= max <= old(config).activeRelayCount)
    {
      if max >= 1 && max <= config.activeRelayCount {
        config := config.(maxSimultaneousRings := max);
        configChanged := true;
      }
    }

    method SetMaxRingsPerCall(max: u8)
      modifies this
      ensures config == WithMaxRingsPerCall(old(config), max)
      ensures configChanged == (old(configChanged) || 1 <= max <= 15)
    {
      if max >= 1 && max <= 15 {
        config := config.(maxRingsPerCall := max);
        configChanged := true;
      }
    }

    method SetRingStyle(style: nat)
      modifies this
      ensures config == WithRingStyle(old(config), style)
      ensures configChanged == (old(configChanged) || style <= RING_STYLE_CUSTOM)
    {
      if style <= RING_STYLE_CUSTOM {
        config := config.(ringStyle := style);
        configChanged := true;
      }
    }

    method SetPatternMode(mode: nat)
      modifies this
      ensures config == WithPatternMode(old(config), mode)
      ensures configChanged == (old(configChanged) || mode <= PATTERN_CUSTOM)
    {
      if mode <= PATTERN_CUSTOM {
        config := config.(patternMode := mode);
        configChanged := true;
      }
    }

    method SetAnswerProbability(probability: u8)
      modifies this
      ensures config == WithAnswerProbability(old(config), probability)
      ensures configChanged == (old(configChanged) || probability <= 100)
    {
      if probability <= 100 {
        config := config.(answerProbability := probability);
        configChanged := true;
      }
    }

    method SetDisplayBrightness(brightness: u8)
      modifies this
      ensures config == WithDisplayBrightness(old(config), brightness)
      ensures configChanged == (old(configChanged) || brightness <= 15)
    {
      if brightness <= 15 {
        config := config.(displayBrightness := brightness);
        configChanged := true;
      }
    }

    method SetDebugOutput(enabled: bool)
      modifies this
      ensures config == old(config).(debugOutput := enabled)
      ensures configChanged
    {
      config := config.(debugOutput := enabled);
      configChanged := true;
    }
  }
}
