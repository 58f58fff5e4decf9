/** `ApplyReadFallbackConfig` (storage_settings_scheme.cpp:1056-1087): once
    every block is read, the fallback production configuration is either
    rebuilt from the stored configuration blob or patched field by field
    with the legacy values the oldest blocks left in the context. */
module FallbackConfig {
  import opened Ints
  import opened Types
  import opened State

  /** The part of `MTP::Config` the legacy fields can set. */
  datatype ConfigValue = ConfigValue(
    dcOptions: seq<DcOption>,
    chatSizeMax: i32,
    savedGifsLimit: i32,
    stickersRecentLimit: i32,
    stickersFavedLimit: i32,
    megagroupSizeMax: i32,
    txtDomainString: string)

  /** The two foreign operations involved: building a configuration from
      its serialized form (`constructFallbackProductionConfig`) and merging
      DC options into a configuration's own (`DcOptions::addFromOther`). */
  datatype ConfigEnv = ConfigEnv(
    fromSerialized: seq<byte> -> ConfigValue,
    addFromOther: (seq<DcOption>, seq<DcOption>) -> seq<DcOption>)

  /** `Core::App().fallbackProductionConfig()`, updated in place. */
  class ProductionConfig {
    var value: ConfigValue

    function Value(): ConfigValue
      reads this
    {
      value
    }

    constructor (v: ConfigValue)
      ensures Value() == v
    {
      value := v;
    }

    /** `constructFallbackProductionConfig`: the whole configuration is
        replaced by one built elsewhere. */
    method Replace(v: ConfigValue)
      modifies this
      ensures Value() == v
    {
      value := v;
    }

    method SetDcOptions(v: seq<DcOption>)
      modifies this
      ensures Value() == old(Value()).(dcOptions := v)
    {
      value := value.(dcOptions := v);
    }

    method SetChatSizeMax(v: i32)
      modifies this
      ensures Value() == old(Value()).(chatSizeMax := v)
    {
      value := value.(chatSizeMax := v);
    }

    method SetSavedGifsLimit(v: i32)
      modifies this
      ensures Value() == old(Value()).(savedGifsLimit := v)
    {
      value := value.(savedGifsLimit := v);
    }

    method SetStickersRecentLimit(v: i32)
      modifies this
      ensures Value() == old(Value()).(stickersRecentLimit := v)
    {
      value := value.(stickersRecentLimit := v);
    }

    method SetStickersFavedLimit(v: i32)
      modifies this
      ensures Value() == old(Value()).(stickersFavedLimit := v)
    {
      value := value.(stickersFavedLimit := v);
    }

    method SetMegagroupSizeMax(v: i32)
      modifies this
      ensures Value() == old(Value()).(megagroupSizeMax := v)
    {
      value := value.(megagroupSizeMax := v);
    }

    method SetTxtDomainString(v: string)
      modifies this
      ensures Value() == old(Value()).(txtDomainString := v)
    {
      value := value.(txtDomainString := v);
    }
  }

  /** A legacy limit overrides the configured one only when it is positive;
      zero, the value a block never read leaves, keeps the configured one. */
  function Limit(legacy: i32, configured: i32): (v: i32)
    ensures legacy > 0 ==> v == legacy
    ensures legacy <= 0 ==> v == configured
  {
    if legacy > 0 then legacy else configured
  }

  /** Lines 1057-1083: the legacy fields merged into the configuration. */
  function LegacyPatched(c: ContextValue, cfg: ConfigValue, env: ConfigEnv): ConfigValue {
    ConfigValue(
      env.addFromOther(cfg.dcOptions, c.legacyDcOptions),
      Limit(c.legacyChatSizeMax, cfg.chatSizeMax),
      Limit(c.legacySavedGifsLimit, cfg.savedGifsLimit),
      Limit(c.legacyStickersRecentLimit, cfg.stickersRecentLimit),
      Limit(c.legacyStickersFavedLimit, cfg.stickersFavedLimit),
      Limit(c.legacyMegagroupSizeMax, cfg.megagroupSizeMax),
      if c.legacyTxtDomainString != [] then c.legacyTxtDomainString else cfg.txtDomainString)
  }

  /** Lines 1056-1087: the configuration after `ApplyReadFallbackConfig`,
      from the context and the configuration before it. */
  function ResolvedConfig(c: ContextValue, cfg: ConfigValue, env: ConfigEnv): ConfigValue {
    if c.fallbackConfig == [] then LegacyPatched(c, cfg, env) else env.fromSerialized(c.fallbackConfig)
  }

  /** `ApplyReadFallbackConfig(context)`, one conditional setter per legacy
      field as the source has them. */
  method ApplyReadFallbackConfig(ctx: Context, config: ProductionConfig, env: ConfigEnv)
    modifies config
    ensures config.Value() == ResolvedConfig(ctx.Value(), old(config.Value()), env)
  {
    var c := ctx.Value();
    if c.fallbackConfig == [] {
      config.SetDcOptions(env.addFromOther(config.Value().dcOptions, c.legacyDcOptions));
      if c.legacyChatSizeMax > 0 {
        config.SetChatSizeMax(c.legacyChatSizeMax);
      }
      if c.legacySavedGifsLimit > 0 {
        config.SetSavedGifsLimit(c.legacySavedGifsLimit);
      }
      if c.legacyStickersRecentLimit > 0 {
        config.SetStickersRecentLimit(c.legacyStickersRecentLimit);
      }
      if c.legacyStickersFavedLimit > 0 {
        config.SetStickersFavedLimit(c.legacyStickersFavedLimit);
      }
      if c.legacyMegagroupSizeMax > 0 {
        config.SetMegagroupSizeMax(c.legacyMegagroupSizeMax);
      }
      if c.legacyTxtDomainString != [] {
        config.SetTxtDomainString(c.legacyTxtDomainString);
      }
    } else {
      config.Replace(env.fromSerialized(c.fallbackConfig));
    }
  }

  /** A stored blob decides the configuration alone: two contexts with the
      same non-empty blob give the same configuration, whatever their legacy
      fields and whatever the configuration was before. */
  lemma BlobTakesPrecedence(c: ContextValue, c': ContextValue, cfg: ConfigValue, cfg': ConfigValue, env: ConfigEnv)
    requires c.fallbackConfig != [] && c'.fallbackConfig == c.fallbackConfig
    ensures ResolvedConfig(c, cfg, env) == ResolvedConfig(c', cfg', env) == env.fromSerialized(c.fallbackConfig)
  {
  }

  /** Without a blob, each legacy limit is taken exactly when positive and
      the TXT domain exactly when non-empty; otherwise the configured value
      stays. The legacy DC options are always merged in. */
  lemma LegacyFieldsWhenNoBlob(c: ContextValue, cfg: ConfigValue, env: ConfigEnv)
    requires c.fallbackConfig == []
    ensures var r := ResolvedConfig(c, cfg, env);
            r.dcOptions == env.addFromOther(cfg.dcOptions, c.legacyDcOptions) &&
            (r.chatSizeMax == c.legacyChatSizeMax <== c.legacyChatSizeMax > 0) &&
            (r.chatSizeMax == cfg.chatSizeMax <== c.legacyChatSizeMax <= 0) &&
            (r.savedGifsLimit == c.legacySavedGifsLimit <== c.legacySavedGifsLimit > 0) &&
            (r.savedGifsLimit == cfg.savedGifsLimit <== c.legacySavedGifsLimit <= 0) &&
            (r.stickersRecentLimit == c.legacyStickersRecentLimit <== c.legacyStickersRecentLimit > 0) &&
            (r.stickersRecentLimit == cfg.stickersRecentLimit <== c.legacyStickersRecentLimit <= 0) &&
            (r.stickersFavedLimit == c.legacyStickersFavedLimit <== c.legacyStickersFavedLimit > 0) &&
            (r.stickersFavedLimit == cfg.stickersFavedLimit <== c.legacyStickersFavedLimit <= 0) &&
            (r.megagroupSizeMax == c.legacyMegagroupSizeMax <== c.legacyMegagroupSizeMax > 0) &&
            (r.megagroupSizeMax == cfg.megagroupSizeMax <== c.legacyMegagroupSizeMax <= 0) &&
            (r.txtDomainString == c.legacyTxtDomainString <== c.legacyTxtDomainString != []) &&
            (r.txtDomainString == cfg.txtDomainString <== c.legacyTxtDomainString == [])
  {
  }

  /** Without a blob, positive configured limits stay positive: a legacy
      value replaces one only when it is positive itself. */
  lemma NoBlobLimitsStayPositive(c: ContextValue, cfg: ConfigValue, env: ConfigEnv)
    requires c.fallbackConfig == []
    requires cfg.chatSizeMax > 0 && cfg.savedGifsLimit > 0 && cfg.stickersRecentLimit > 0
    requires cfg.stickersFavedLimit > 0 && cfg.megagroupSizeMax > 0
    ensures var r := ResolvedConfig(c, cfg, env);
            r.chatSizeMax > 0 && r.savedGifsLimit > 0 && r.stickersRecentLimit > 0 &&
            r.stickersFavedLimit > 0 && r.megagroupSizeMax > 0
  {
  }

  /** Without a blob, a context whose legacy fields were never read (all
      zero or empty) changes nothing but the DC options, which absorb an
      empty list. */
  lemma UnreadLegacyKeepsDefaults(c: ContextValue, cfg: ConfigValue, env: ConfigEnv)
    requires c.fallbackConfig == [] && c.legacyTxtDomainString == []
    requires c.legacyChatSizeMax == 0 && c.legacySavedGifsLimit == 0 && c.legacyStickersRecentLimit == 0
    requires c.legacyStickersFavedLimit == 0 && c.legacyMegagroupSizeMax == 0
    ensures ResolvedConfig(c, cfg, env) == cfg.(dcOptions := env.addFromOther(cfg.dcOptions, c.legacyDcOptions))
  {
  }

  /** Without a blob, applying the legacy fields a second time changes no
      limit and no TXT domain: each is either the legacy value or untouched. */
  lemma LegacyLimitsIdempotent(c: ContextValue, cfg: ConfigValue, env: ConfigEnv)
    requires c.fallbackConfig == []
    ensures var once := ResolvedConfig(c, cfg, env);
            var twice := ResolvedConfig(c, once, env);
            twice == once.(dcOptions := twice.dcOptions)
  {
  }
}
