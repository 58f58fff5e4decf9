/** Properties of `ReadSettingSpec` that the source promises across blocks:
    a bad stream or an unknown id fails, validation decides the blocks that
    validate, and the invariants of the proxy and notification settings
    survive every block. */
module BlockProperties {
  import opened Ints
  import opened Stream
  import opened Types
  import opened CacheLimits
  import opened EmojiMigration
  import opened ProxyList
  import opened SettingsSpec

  /** The stream is good and its next fields are `fs`. */
  predicate Next(r: Reader, fs: seq<Field>) {
    r.ok && r.pos + |fs| <= |r.fields| && r.fields[r.pos..r.pos + |fs|] == fs
  }

  // ---------------------------------------------------------------------
  // A stream that has already gone bad fails every block, without moving.

  lemma LegacyConfigBadStream(id: LegacyConfigId, r: Reader, w: World)
    requires !r.ok
    ensures LegacyConfigSpec(id, r, w) == Failed(r)
  {
  }

  lemma CacheBadStream(id: CacheId, r: Reader, maxDataSize: int, w: World)
    requires !r.ok
    ensures CacheSpec(id, r, maxDataSize, w) == Failed(r)
  {
  }

  lemma SessionBadStream(id: SessionId, r: Reader, w: World)
    requires !r.ok
    ensures SessionSpec(id, r, w) == Failed(r)
  {
  }

  lemma ThemeBadStream(id: ThemeId, r: Reader, version: int, w: World)
    requires !r.ok
    ensures ThemeSpec(id, r, version, w) == Failed(r)
  {
  }

  lemma GlobalFlagBadStream(id: GlobalFlagId, r: Reader, configScale: int, checkScale: int -> int, w: World)
    requires !r.ok
    ensures GlobalFlagSpec(id, r, configScale, checkScale, w) == Failed(r)
  {
  }

  lemma EmojiBadStream(id: EmojiId, r: Reader, env: Env, w: World)
    requires !r.ok
    ensures EmojiSpec(id, r, env, w) == Failed(r)
  {
  }

  lemma ProxyBadStream(id: ProxyId, r: Reader, valid: Proxy -> bool, w: World)
    requires !r.ok
    ensures ProxySpec(id, r, valid, w) == Failed(r)
  {
  }

  lemma AppInterfaceBadStream(id: AppInterfaceId, r: Reader, w: World)
    requires !r.ok
    ensures AppInterfaceSpec(id, r, w) == Failed(r)
  {
  }

  lemma AppMediaBadStream(id: AppMediaId, r: Reader, readCallSettings: seq<byte> -> Option<CallSettings>, w: World)
    requires !r.ok
    ensures AppMediaSpec(id, r, readCallSettings, w) == Failed(r)
  {
  }

  lemma DiscardedBadStream(id: DiscardedId, r: Reader, w: World)
    requires !r.ok
    ensures DiscardedSpec(id, r, w) == Failed(r)
  {
  }

  /** Whatever the block id, a stream already bad makes `ReadSetting`
      return false with the stream where it was; an unrecognised id does so
      even on a good stream. */
  lemma BadStreamOrUnknownIdFails(id: BlockId, r: Reader, version: int, env: Env, w: World)
    requires !r.ok || id.Unrecognised?
    ensures ReadSettingSpec(id, r, version, env, w) == Failed(r)
  {
    match id
    case LegacyConfigBlock(b) => LegacyConfigBadStream(b, r, w);
    case CacheBlock(b) => CacheBadStream(b, r, env.maxDataSize, w);
    case SessionBlock(b) => SessionBadStream(b, r, w);
    case ThemeBlock(b) => ThemeBadStream(b, r, version, w);
    case GlobalFlagBlock(b) => GlobalFlagBadStream(b, r, env.configScale, env.checkScale, w);
    case EmojiBlock(b) => EmojiBadStream(b, r, env, w);
    case ProxyBlock(b) => ProxyBadStream(b, r, env.proxyValid, w);
    case AppInterfaceBlock(b) => AppInterfaceBadStream(b, r, w);
    case AppMediaBlock(b) => AppMediaBadStream(b, r, env.readCallSettings, w);
    case DiscardedBlock(b) => DiscardedBadStream(b, r, w);
    case Unrecognised(_) =>
  }

  // ---------------------------------------------------------------------
  // Blocks whose values are validated.

  /** Reading the next field of a stream whose next fields are known. */
  lemma TakeNext(r: Reader, f: Field, fs: seq<Field>)
    requires Next(r, [f] + fs)
    ensures r.Take(f.KindOf()) == (r.(pos := r.pos + 1), f)
    ensures Next(r.(pos := r.pos + 1), fs)
  {
    assert r.fields[r.pos] == ([f] + fs)[0];
    assert r.fields[r.pos + 1..r.pos + 1 + |fs|] == r.fields[r.pos..r.pos + 1 + |fs|][1..];
  }

  /** Lines 207-224: the current cache block succeeds exactly when both
      sizes exceed the largest database entry and both times are valid;
      then it stores the four limits, a sentinel time as 0, and changes
      nothing else. */
  lemma CacheSettingsValidated(r: Reader, size: i64, time: i32, sizeBig: i64, timeBig: i32, maxDataSize: int, w: World)
    requires Next(r, [Int64(size), Int32(time), Int64(sizeBig), Int32(timeBig)])
    ensures var out := CacheSpec(CacheSettings, r, maxDataSize, w);
            && out.rest == r.(pos := r.pos + 4)
            && (out.Applied? <==>
                  size > maxDataSize && sizeBig > maxDataSize &&
                  (time >= 0 || NoTimeLimit(time)) && (timeBig >= 0 || NoTimeLimit(timeBig)))
            && (out.Applied? ==>
                  out.world == w.(ctx := w.ctx.(cacheTotalSizeLimit := size, cacheTotalTimeLimit := StoredTime(time),
                                                cacheBigFileTotalSizeLimit := sizeBig,
                                                cacheBigFileTotalTimeLimit := StoredTime(timeBig))))
  {
    TakeNext(r, Int64(size), [Int32(time), Int64(sizeBig), Int32(timeBig)]);
    var r1 := r.(pos := r.pos + 1);
    TakeNext(r1, Int32(time), [Int64(sizeBig), Int32(timeBig)]);
    var r2 := r1.(pos := r1.pos + 1);
    TakeNext(r2, Int64(sizeBig), [Int32(timeBig)]);
    var r3 := r2.(pos := r2.pos + 1);
    TakeNext(r3, Int32(timeBig), []);
  }

  /** Lines 193-205: the oldest cache block validates its one size and time
      the same way and stores them for big files too. */
  lemma CacheSettingsOldValidated(r: Reader, size: i64, time: i32, maxDataSize: int, w: World)
    requires Next(r, [Int64(size), Int32(time)])
    ensures var out := CacheSpec(CacheSettingsOld, r, maxDataSize, w);
            && out.rest == r.(pos := r.pos + 2)
            && (out.Applied? <==> size > maxDataSize && (time >= 0 || NoTimeLimit(time)))
            && (out.Applied? ==>
                  out.world == w.(ctx := w.ctx.(cacheTotalSizeLimit := size, cacheTotalTimeLimit := StoredTime(time),
                                                cacheBigFileTotalSizeLimit := size,
                                                cacheBigFileTotalTimeLimit := StoredTime(time))))
  {
    TakeNext(r, Int64(size), [Int32(time)]);
    TakeNext(r.(pos := r.pos + 1), Int32(time), []);
  }

  /** Lines 726-733: the send key must be Enter or Ctrl+Enter; any other
      value fails the block without setting anything. */
  lemma SendKeyValidated(r: Reader, v: i32, w: World)
    requires Next(r, [Int32(v)])
    ensures var out := AppInterfaceSpec(SendKeyOld, r, w);
            && out.rest == r.(pos := r.pos + 1)
            && (out.Applied? <==> v == SubmitEnter || v == SubmitCtrlEnter)
            && (out.Applied? ==> out.world == w.(app := w.app.(sendSubmitWay := if v == SubmitEnter then Enter else CtrlEnter)))
  {
    TakeNext(r, Int32(v), []);
  }

  /** Lines 886-904: the oldest recent-emoji block keeps, in order, the
      entries whose remapped key has an emoji; the ten legacy flag keys are
      remapped to their composite keys first. An empty list changes nothing. */
  lemma RecentEmojiOldOldRemapped(r: Reader, v: seq<(u32, u16)>, env: Env, w: World)
    requires Next(r, [RecentOldOld(v)])
    ensures var out := EmojiSpec(RecentEmojiOldOld, r, env, w);
            && out.Applied? && out.rest == r.(pos := r.pos + 1)
            && (v == [] ==> out.world == w)
            && (v != [] ==> out.world == w.(glob := w.glob.(recentEmojiPreload := out.world.glob.recentEmojiPreload)))
            && (forall e :: e in out.world.glob.recentEmojiPreload && v != [] <==>
                  exists i :: 0 <= i < |v| && e == (env.idFromOldKey(RemapFlagKey(v[i].0 as u64)), v[i].1) && e.0 != "")
  {
    TakeNext(r, RecentOldOld(v), []);
    if v != [] {
      forall e ensures e in RecentFromKeys(RemapAll(v), env.idFromOldKey) <==>
        exists i :: 0 <= i < |v| && e == (env.idFromOldKey(RemapFlagKey(v[i].0 as u64)), v[i].1) && e.0 != ""
      {
        RecentFromKeysMembers(RemapAll(v), env.idFromOldKey, e);
      }
    }
  }

  /** Lines 45-92: each DC option block appends exactly one entry to the
      legacy DC options and changes nothing else. */
  lemma DcOptionBlocksAppend(id: LegacyConfigId, r: Reader, w: World)
    requires id == DcOptionOldOld || id == DcOptionOld || id == DcOptionsOld
    ensures var out := LegacyConfigSpec(id, r, w);
            var before := w.ctx.legacyDcOptions;
            out.Applied? ==>
              && |out.world.ctx.legacyDcOptions| == |before| + 1
              && out.world.ctx.legacyDcOptions[..|before|] == before
              && out.world == w.(ctx := w.ctx.(legacyDcOptions := out.world.ctx.legacyDcOptions))
  {
  }

  // ---------------------------------------------------------------------
  // What each group writes, and the invariants every block keeps.

  /** The selected proxy is a usable proxy of the list or none, every proxy
      of the list is usable, and an enabled proxy mode has a selected proxy. */
  predicate ProxyStateWellFormed(g: GlobalsValue, valid: Proxy -> bool) {
    && (forall p :: p in g.proxiesList ==> valid(p))
    && (g.selectedProxy in g.proxiesList || g.selectedProxy == NoProxy)
    && (g.proxySettings == Enabled ==> g.selectedProxy in g.proxiesList)
  }

  predicate SameProxyState(g: GlobalsValue, g': GlobalsValue) {
    g.proxiesList == g'.proxiesList && g.selectedProxy == g'.selectedProxy && g.proxySettings == g'.proxySettings
  }

  /** The ranges the decoder normalises into: a positive notification
      count, volumes between 0 and 1, and non-negative cache time limits. */
  predicate InRange(w: World) {
    && w.app.notificationsCount > 0
    && 0 <= w.app.songVolumeMillionths <= 1000000
    && 0 <= w.app.videoVolumeMillionths <= 1000000
    && w.ctx.cacheTotalTimeLimit >= 0
    && w.ctx.cacheBigFileTotalTimeLimit >= 0
  }

  /** What every block keeps: values in range and a well-formed proxy state. */
  predicate SettingsInvariant(w: World, valid: Proxy -> bool) {
    InRange(w) && ProxyStateWellFormed(w.glob, valid)
  }

  /** Lines 45-160, 412-424, 1040-1046: the legacy fallback-config blocks write only the context. */
  lemma LegacyConfigPreserves(id: LegacyConfigId, r: Reader, w: World, valid: Proxy -> bool)
    requires SettingsInvariant(w, valid)
    ensures var out := LegacyConfigSpec(id, r, w);
            out.Applied? ==> out.world.app == w.app && out.world.glob == w.glob && SettingsInvariant(out.world, valid)
  {
  }

  /** Lines 193-225: the cache blocks write only the context. */
  lemma CachePreserves(id: CacheId, r: Reader, maxDataSize: int, w: World, valid: Proxy -> bool)
    requires SettingsInvariant(w, valid)
    ensures var out := CacheSpec(id, r, maxDataSize, w);
            out.Applied? ==> out.world.app == w.app && out.world.glob == w.glob && SettingsInvariant(out.world, valid)
  {
  }

  /** Lines 246-311, 389-395, 968-978: the session blocks write only the context. */
  lemma SessionPreserves(id: SessionId, r: Reader, w: World, valid: Proxy -> bool)
    requires SettingsInvariant(w, valid)
    ensures var out := SessionSpec(id, r, w);
            out.Applied? ==> out.world.app == w.app && out.world.glob == w.glob && SettingsInvariant(out.world, valid)
  {
  }

  /** Lines 561-604, 741-765: the theme, language and background blocks
      write the context and, for the theme keys, the night mode. */
  lemma ThemePreserves(id: ThemeId, r: Reader, version: int, w: World, valid: Proxy -> bool)
    requires SettingsInvariant(w, valid)
    ensures var out := ThemeSpec(id, r, version, w);
            out.Applied? ==> out.world.app == w.app && SameProxyState(out.world.glob, w.glob) &&
                             SettingsInvariant(out.world, valid)
  {
  }

  /** The global flags, window and scale blocks write only globals, and no proxy setting. */
  lemma GlobalFlagPreserves(id: GlobalFlagId, r: Reader, configScale: int, checkScale: int -> int, w: World, valid: Proxy -> bool)
    requires SettingsInvariant(w, valid)
    ensures var out := GlobalFlagSpec(id, r, configScale, checkScale, w);
            out.Applied? ==> out.world.ctx == w.ctx && out.world.app == w.app && SameProxyState(out.world.glob, w.glob) && SettingsInvariant(out.world, valid)
  {
  }

  /** Lines 877-966: the emoji and sticker blocks write only globals, and no proxy setting. */
  lemma EmojiPreserves(id: EmojiId, r: Reader, env: Env, w: World, valid: Proxy -> bool)
    requires SettingsInvariant(w, valid)
    ensures var out := EmojiSpec(id, r, env, w);
            out.Applied? ==> out.world.ctx == w.ctx && out.world.app == w.app && SameProxyState(out.world.glob, w.glob) && SettingsInvariant(out.world, valid)
  {
  }

  /** Lines 83-89, 237-244, 313-387, 720-733, 767-782, 814-824: the notification, window and send blocks write only the application settings. */
  lemma AppInterfacePreserves(id: AppInterfaceId, r: Reader, w: World, valid: Proxy -> bool)
    requires SettingsInvariant(w, valid)
    ensures var out := AppInterfaceSpec(id, r, w);
            out.Applied? ==> out.world.ctx == w.ctx && out.world.glob == w.glob && SettingsInvariant(out.world, valid)
  {
  }

  /** Lines 826-875, 980-1038: the emoji-suggestion, download, volume and call blocks write only the application settings. */
  lemma AppMediaPreserves(id: AppMediaId, r: Reader, readCallSettings: seq<byte> -> Option<CallSettings>, w: World, valid: Proxy -> bool)
    requires SettingsInvariant(w, valid)
    ensures var out := AppMediaSpec(id, r, readCallSettings, w);
            out.Applied? ==> out.world.ctx == w.ctx && out.world.glob == w.glob && SettingsInvariant(out.world, valid)
  {
  }

  /** Blocks whose value is read and dropped change nothing. */
  lemma DiscardedPreserves(id: DiscardedId, r: Reader, w: World, valid: Proxy -> bool)
    requires SettingsInvariant(w, valid)
    ensures var out := DiscardedSpec(id, r, w);
            out.Applied? ==> out.world == w && SettingsInvariant(out.world, valid)
  {
  }

  /** Lines 486-537: a proxy list sets a well-formed proxy state. */
  lemma ProxyListWellFormed(r: Reader, oldFormat: bool, valid: Proxy -> bool, w: World)
    requires !valid(NoProxy)
    ensures var out := ProxyListSpec(r, oldFormat, valid, w);
            out.Applied? ==> ProxyStateWellFormed(out.world.glob, valid)
  {
    var (r1, count, index, settings, calls) := ProxyListHeader(r, oldFormat);
    var (r2, ps) := ReadProxies(r1, if count > 0 then count as nat else 0);
    ResolvedProxyListWellFormed(oldFormat, count, index, settings, calls, ps, valid);
  }

  /** Lines 426-559: a proxy block sets a well-formed proxy state whatever
      was there before, and writes nothing but globals. */
  lemma ProxyBlocksWellFormed(id: ProxyId, r: Reader, valid: Proxy -> bool, w: World)
    requires !valid(NoProxy)
    ensures var out := ProxySpec(id, r, valid, w);
            out.Applied? ==> out.world.ctx == w.ctx && out.world.app == w.app &&
                             ProxyStateWellFormed(out.world.glob, valid)
  {
    if id == ConnectionType {
      var (r1, connectionType) := r.TakeI32();
      if r1.ok && (connectionType == ConnectionProxiesListOld || connectionType == ConnectionProxiesList) {
        ProxyListWellFormed(r1, connectionType == ConnectionProxiesListOld, valid, w);
      }
    }
  }

  /** Every block `ReadSetting` applies keeps the settings invariant, given
      that the empty proxy is not usable. */
  lemma ReadSettingPreservesInvariant(id: BlockId, r: Reader, version: int, env: Env, w: World)
    requires !env.proxyValid(NoProxy) && SettingsInvariant(w, env.proxyValid)
    ensures var out := ReadSettingSpec(id, r, version, env, w);
            out.Applied? ==> SettingsInvariant(out.world, env.proxyValid)
  {
    var valid := env.proxyValid;
    match id
    case LegacyConfigBlock(b) => LegacyConfigPreserves(b, r, w, valid);
    case CacheBlock(b) => CachePreserves(b, r, env.maxDataSize, w, valid);
    case SessionBlock(b) => SessionPreserves(b, r, w, valid);
    case ThemeBlock(b) => ThemePreserves(b, r, version, w, valid);
    case GlobalFlagBlock(b) => GlobalFlagPreserves(b, r, env.configScale, env.checkScale, w, valid);
    case EmojiBlock(b) => EmojiPreserves(b, r, env, w, valid);
    case ProxyBlock(b) => ProxyBlocksWellFormed(b, r, valid, w);
    case AppInterfaceBlock(b) => AppInterfacePreserves(b, r, w, valid);
    case AppMediaBlock(b) => AppMediaPreserves(b, r, env.readCallSettings, w, valid);
    case DiscardedBlock(b) => DiscardedPreserves(b, r, w, valid);
    case Unrecognised(_) =>
  }
}
