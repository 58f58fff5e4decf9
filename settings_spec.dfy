/** What `ReadSetting` (storage_settings_scheme.cpp:39-1054) does to the
    stream, the migration context, the application settings and the globals,
    as a function of their values: one case per block id, grouped by the
    objects the block writes. Every case performs all its reads first and
    yields `Failed` when the stream status is bad after them, before any
    value is written. */
module SettingsSpec {
  import opened Ints
  import opened Stream
  import opened Types
  import opened CacheLimits
  import opened EmojiMigration
  import opened ProxyList

  /** `CheckStreamStatus` after the reads of a block: the new world when the
      stream is still good, otherwise nothing. */
  function Done(r: Reader, w: World): (out: Outcome)
    ensures out.rest == r
    ensures out.Applied? <==> r.ok
    ensures out.Applied? ==> out.world == w
  {
    if r.ok then Applied(w, r) else Failed(r)
  }

  // ---------------------------------------------------------------------
  // Values derived from what was read.

  /** Lines 253-266: the auto-download limits after a legacy mask for one
      file type; bit 0 disables private chats, bit 1 groups and channels. */
  function DisableByMask(m: map<(DownloadSource, DownloadType), int>, t: DownloadType, value: i32):
    (m': map<(DownloadSource, DownloadType), int>)
    ensures m'.Keys == m.Keys + (if Bit(value, 0) then {(FromUser, t)} else {})
                              + (if Bit(value, 1) then {(FromGroup, t), (FromChannel, t)} else {})
    ensures forall k :: k in m' && k.1 != t ==> m'[k] == m[k]
    ensures Bit(value, 0) ==> m'[(FromUser, t)] == 0
    ensures Bit(value, 1) ==> m'[(FromGroup, t)] == 0 && m'[(FromChannel, t)] == 0
    ensures !Bit(value, 0) && (FromUser, t) in m ==> m'[(FromUser, t)] == m[(FromUser, t)]
    ensures !Bit(value, 1) && (FromGroup, t) in m ==> m'[(FromGroup, t)] == m[(FromGroup, t)]
    ensures !Bit(value, 1) && (FromChannel, t) in m ==> m'[(FromChannel, t)] == m[(FromChannel, t)]
  {
    var m1 := if Bit(value, 0) then m[(FromUser, t) := 0] else m;
    if Bit(value, 1) then m1[(FromGroup, t) := 0][(FromChannel, t) := 0] else m1
  }

  /** Lines 267-270: the three legacy masks applied in turn. */
  function AutoDownloadFromOld(m: map<(DownloadSource, DownloadType), int>, photo: i32, audio: i32, gif: i32):
    map<(DownloadSource, DownloadType), int>
  {
    DisableByMask(DisableByMask(DisableByMask(DisableByMask(m, Photo, photo), VoiceMessage, audio), AutoPlayGif, gif),
                  AutoPlayVideoMessage, gif)
  }

  const AutoPlayTypes: set<DownloadType> := {AutoPlayGif, AutoPlayVideo, AutoPlayVideoMessage}
  const AllSources: set<DownloadSource> := {FromUser, FromGroup, FromChannel}

  /** Lines 278-296: autoplay switched off sets the limit of every autoplayed
      type from every source to zero, the two loops over the fixed source and
      type lists written as one map. */
  function AutoPlayOff(m: map<(DownloadSource, DownloadType), int>): (m': map<(DownloadSource, DownloadType), int>)
    ensures forall k :: k in m' <==> k in m || k.1 in AutoPlayTypes
    ensures forall k :: k in m' ==> m'[k] == if k.1 in AutoPlayTypes then 0 else m[k]
  {
    var keys := set s, t | s in AllSources && t in AutoPlayTypes :: (s, t);
    assert forall k: (DownloadSource, DownloadType) :: k.1 in AutoPlayTypes ==> k in keys by {
      forall k: (DownloadSource, DownloadType) | k.1 in AutoPlayTypes ensures k in keys {
        assert k.0.FromUser? || k.0.FromGroup? || k.0.FromChannel?;
      }
    }
    map k | k in m.Keys + keys :: if k.1 in AutoPlayTypes then 0 else m[k]
  }

  /** Lines 402-408: unknown work modes fall back to window and tray. */
  function WorkModeOf(v: i32): (m: WorkModeValue)
    ensures m == TrayOnly <==> v == WorkModeTrayOnly
    ensures m == WindowOnly <==> v == WorkModeWindowOnly
  {
    if v == WorkModeTrayOnly then TrayOnly
    else if v == WorkModeWindowOnly then WindowOnly
    else WindowAndTray
  }

  /** Lines 646-660: the five legacy scale steps, anything else keeping the
      scale given on the command line. */
  function ScaleFromOld(v: i32, configScale: int): (s: int)
    ensures 0 <= v <= 4 ==> s == [ScaleAuto, 100, 125, 150, 200][v]
    ensures !(0 <= v <= 4) ==> s == configScale
  {
    match v
    case 0 => ScaleAuto
    case 1 => 100
    case 2 => 125
    case 3 => 150
    case 4 => 200
    case _ => configScale
  }

  /** Lines 819-823: unknown notification views show the preview. */
  function NotifyViewOf(v: i32): (n: NotifyView)
    ensures n == ShowNothing <==> v == NotifyShowNothing
    ensures n == ShowName <==> v == NotifyShowName
  {
    if v == NotifyShowNothing then ShowNothing
    else if v == NotifyShowName then ShowName
    else ShowPreview
  }

  /** Lines 839 and 852: a download folder other than the empty one and the
      temporary one gets a trailing slash, unless it already ends in one. */
  function NormalisedDownloadPath(v: string): (p: string)
    ensures v == "" || v == "tmp" ==> p == v
    ensures v != "" && v != "tmp" ==> |v| <= |p| <= |v| + 1 && p[..|v|] == v && p[|p| - 1] == '/'
    ensures v != "" && v[|v| - 1] == '/' ==> p == v
  {
    if v != "" && v != "tmp" && v[|v| - 1] != '/' then v + "/" else v
  }

  /** Normalising a folder a second time leaves it as it is. */
  lemma NormalisedDownloadPathIdempotent(v: string)
    ensures NormalisedDownloadPath(NormalisedDownloadPath(v)) == NormalisedDownloadPath(v)
  {
    var p := NormalisedDownloadPath(v);
    if v != "" && v != "tmp" {
      assert p[|p| - 1] != "tmp"[2];
    }
  }

  /** `snap(v / 1e6, 0., 1.)` in millionths: the volume is clamped to [0, 1]. */
  function VolumeMillionths(v: i32): (m: int)
    ensures 0 <= m <= 1000000
    ensures 0 <= v <= 1000000 ==> m == v
    ensures v < 0 ==> m == 0
    ensures v > 1000000 ==> m == 1000000
  {
    if v < 0 then 0 else if v > 1000000 then 1000000 else v
  }

  /** Lines 746-754: the one tiling flag of the oldest format, forced off for
      versions before 8005 unless a custom day background exists, and stored
      in the day slot while night mode is on and in the night slot otherwise. */
  function TileFromOld(c: ContextValue, version: int, nightMode: bool, v: i32): (c': ContextValue)
    ensures c'.tileRead
    ensures c' == c.(tileDay := c'.tileDay, tileNight := c'.tileNight, tileRead := true)
    ensures var tile := !(version < TileFixVersion && !c.legacyHasCustomDayBackground) && v == 1;
            if nightMode then c'.tileDay == tile && c'.tileNight == c.tileNight
            else c'.tileNight == tile && c'.tileDay == c.tileDay
  {
    var tile := if version < TileFixVersion && !c.legacyHasCustomDayBackground then false else v == 1;
    if nightMode then c.(tileDay := tile, tileRead := true) else c.(tileNight := tile, tileRead := true)
  }

  // ---------------------------------------------------------------------
  // The groups.

  /** Lines 45-160 and 412-424, 1040-1046: the legacy fallback-config fields,
      the legacy authorization and the serialised fallback config. */
  function DcOptionOldOldSpec(r: Reader, w: World): Outcome {
    var c := w.ctx;
    var (r1, dcId) := r.TakeU32();
    var (r2, host) := r1.TakeStr();
    var (r3, ip) := r2.TakeStr();
    var (r4, port) := r3.TakeU32();
    Done(r4, w.(ctx := c.(legacyDcOptions := c.legacyDcOptions + [AddOne(dcId, 0, ip, port)])))
  }

  function DcOptionOldSpec(r: Reader, w: World): Outcome {
    var c := w.ctx;
    var (r1, dcIdWithShift) := r.TakeU32();
    var (r2, flags) := r1.TakeI32();
    var (r3, ip) := r2.TakeStr();
    var (r4, port) := r3.TakeU32();
    Done(r4, w.(ctx := c.(legacyDcOptions := c.legacyDcOptions + [AddOne(dcIdWithShift, flags, ip, port)])))
  }

  function DcOptionsOldSpec(r: Reader, w: World): Outcome {
    var c := w.ctx;
    var (r1, serialized) := r.TakeBytes();
    Done(r1, w.(ctx := c.(legacyDcOptions := c.legacyDcOptions + [FromSerialized(serialized)])))
  }

  function ChatSizeMaxOldSpec(r: Reader, w: World): Outcome {
    var c := w.ctx;
    var (r1, v) := r.TakeI32();
    Done(r1, w.(ctx := c.(legacyChatSizeMax := v)))
  }

  function SavedGifsLimitOldSpec(r: Reader, w: World): Outcome {
    var c := w.ctx;
    var (r1, v) := r.TakeI32();
    Done(r1, w.(ctx := c.(legacySavedGifsLimit := v)))
  }

  function StickersRecentLimitOldSpec(r: Reader, w: World): Outcome {
    var c := w.ctx;
    var (r1, v) := r.TakeI32();
    Done(r1, w.(ctx := c.(legacyStickersRecentLimit := v)))
  }

  function StickersFavedLimitOldSpec(r: Reader, w: World): Outcome {
    var c := w.ctx;
    var (r1, v) := r.TakeI32();
    Done(r1, w.(ctx := c.(legacyStickersFavedLimit := v)))
  }

  function MegagroupSizeMaxOldSpec(r: Reader, w: World): Outcome {
    var c := w.ctx;
    var (r1, v) := r.TakeI32();
    Done(r1, w.(ctx := c.(legacyMegagroupSizeMax := v)))
  }

  function TxtDomainStringOldSpec(r: Reader, w: World): Outcome {
    var c := w.ctx;
    var (r1, v) := r.TakeStr();
    Done(r1, w.(ctx := c.(legacyTxtDomainString := v)))
  }

  function FallbackProductionConfigSpec(r: Reader, w: World): Outcome {
    var c := w.ctx;
    var (r1, v) := r.TakeBytes();
    Done(r1, w.(ctx := c.(fallbackConfig := v)))
  }

  function UserSpec(r: Reader, w: World): Outcome {
    var c := w.ctx;
    var (r1, userId) := r.TakeI32();
    var (r2, dcId) := r1.TakeU32();
    Done(r2, w.(ctx := c.(legacyMainDcId := dcId, legacyUserId := userId)))
  }

  function KeySpec(r: Reader, w: World): Outcome {
    var c := w.ctx;
    var (r1, dcId) := r.TakeI32();
    var (r2, key) := r1.TakeKey();
    Done(r2, w.(ctx := c.(legacyKeys := c.legacyKeys + [LegacyKey(dcId, key)])))
  }

  function MtpAuthorizationSpec(r: Reader, w: World): Outcome {
    var c := w.ctx;
    var (r1, v) := r.TakeBytes();
    Done(r1, w.(ctx := c.(mtpAuthorization := v)))
  }

  function LegacyConfigSpec(id: LegacyConfigId, r: Reader, w: World): (out: Outcome)
  {
    match id
    case DcOptionOldOld => DcOptionOldOldSpec(r, w)
    case DcOptionOld => DcOptionOldSpec(r, w)
    case DcOptionsOld => DcOptionsOldSpec(r, w)
    case ChatSizeMaxOld => ChatSizeMaxOldSpec(r, w)
    case SavedGifsLimitOld => SavedGifsLimitOldSpec(r, w)
    case StickersRecentLimitOld => StickersRecentLimitOldSpec(r, w)
    case StickersFavedLimitOld => StickersFavedLimitOldSpec(r, w)
    case MegagroupSizeMaxOld => MegagroupSizeMaxOldSpec(r, w)
    case TxtDomainStringOld => TxtDomainStringOldSpec(r, w)
    case FallbackProductionConfig => FallbackProductionConfigSpec(r, w)
    case User => UserSpec(r, w)
    case Key => KeySpec(r, w)
    case MtpAuthorization => MtpAuthorizationSpec(r, w)
  }

  /** Lines 194-225: both cache blocks validate every size and time before
      storing anything. */
  function CacheSettingsOldSpec(r: Reader, maxDataSize: int, w: World): Outcome {
    var c := w.ctx;
    var (r1, size) := r.TakeI64();
    var (r2, time) := r1.TakeI32();
    if !r2.ok || !ValidSize(size, maxDataSize) || !ValidTime(time) then Failed(r2)
    else Applied(w.(ctx := c.(cacheTotalSizeLimit := size, cacheTotalTimeLimit := StoredTime(time),
                              cacheBigFileTotalSizeLimit := size, cacheBigFileTotalTimeLimit := StoredTime(time))), r2)
  }

  function CacheSettingsSpec(r: Reader, maxDataSize: int, w: World): Outcome {
    var c := w.ctx;
    var (r1, size) := r.TakeI64();
    var (r2, time) := r1.TakeI32();
    var (r3, sizeBig) := r2.TakeI64();
    var (r4, timeBig) := r3.TakeI32();
    if !r4.ok || !ValidSize(size, maxDataSize) || !ValidSize(sizeBig, maxDataSize) ||
       !ValidTime(time) || !ValidTime(timeBig) then Failed(r4)
    else Applied(w.(ctx := c.(cacheTotalSizeLimit := size, cacheTotalTimeLimit := StoredTime(time),
                              cacheBigFileTotalSizeLimit := sizeBig, cacheBigFileTotalTimeLimit := StoredTime(timeBig))), r4)
  }

  function CacheSpec(id: CacheId, r: Reader, maxDataSize: int, w: World): (out: Outcome)
  {
    match id
    case CacheSettingsOld => CacheSettingsOldSpec(r, maxDataSize, w)
    case CacheSettings => CacheSettingsSpec(r, maxDataSize, w)
  }

  /** Lines 246-311, 389-395, 968-978: the session settings owned by the
      context. */
  function AutoDownloadOldSpec(r: Reader, w: World): Outcome {
    var c := w.ctx;
    var (r1, photo) := r.TakeI32();
    var (r2, audio) := r1.TakeI32();
    var (r3, gif) := r2.TakeI32();
    Done(r3, w.(ctx := c.(autoDownloadLimits := AutoDownloadFromOld(c.autoDownloadLimits, photo, audio, gif))))
  }

  function AutoPlayOldSpec(r: Reader, w: World): Outcome {
    var c := w.ctx;
    var (r1, gif) := r.TakeI32();
    Done(r1, if gif == 0 then w.(ctx := c.(autoDownloadLimits := AutoPlayOff(c.autoDownloadLimits))) else w)
  }

  function DialogsFiltersOldSpec(r: Reader, w: World): Outcome {
    var c := w.ctx;
    var (r1, enabled) := r.TakeI32();
    Done(r1, w.(ctx := c.(dialogsFiltersEnabled := enabled == 1)))
  }

  function SessionSettingsSpec(r: Reader, w: World): Outcome {
    var c := w.ctx;
    var (r1, v) := r.TakeBytes();
    Done(r1, w.(ctx := c.(sessionSerialized := c.sessionSerialized + [v])))
  }

  function HiddenPinnedMessagesOldSpec(r: Reader, w: World): Outcome {
    var c := w.ctx;
    var (r1, v) := r.TakePinnedOld();
    Done(r1, w.(ctx := c.(hiddenPinnedMessages := c.hiddenPinnedMessages + v)))
  }

  function SessionSpec(id: SessionId, r: Reader, w: World): (out: Outcome)
  {
    match id
    case AutoDownloadOld => AutoDownloadOldSpec(r, w)
    case AutoPlayOld => AutoPlayOldSpec(r, w)
    case DialogsFiltersOld => DialogsFiltersOldSpec(r, w)
    case SessionSettings => SessionSettingsSpec(r, w)
    case HiddenPinnedMessagesOld => HiddenPinnedMessagesOldSpec(r, w)
  }

  /** Lines 561-604, 741-765: theme, background and language keys, and the
      tiling flags. */
  function ThemeKeyOldSpec(r: Reader, w: World): Outcome {
    var c := w.ctx;
    var (r1, key) := r.TakeU64();
    Done(r1, w.(ctx := c.(themeKeyLegacy := key)))
  }

  function ThemeKeySpec(r: Reader, w: World): Outcome {
    var c := w.ctx;
    var (r1, keyDay) := r.TakeU64();
    var (r2, keyNight) := r1.TakeU64();
    var (r3, nightMode) := r2.TakeU32();
    Done(r3, w.(ctx := c.(themeKeyDay := keyDay, themeKeyNight := keyNight),
                glob := w.glob.(nightMode := nightMode == 1)))
  }

  function BackgroundKeySpec(r: Reader, w: World): Outcome {
    var c := w.ctx;
    var (r1, keyDay) := r.TakeU64();
    var (r2, keyNight) := r1.TakeU64();
    Done(r2, w.(ctx := c.(backgroundKeyDay := keyDay, backgroundKeyNight := keyNight, backgroundKeysRead := true)))
  }

  function LangPackKeySpec(r: Reader, w: World): Outcome {
    var c := w.ctx;
    var (r1, key) := r.TakeU64();
    Done(r1, w.(ctx := c.(langPackKey := key)))
  }

  function LanguagesKeySpec(r: Reader, w: World): Outcome {
    var c := w.ctx;
    var (r1, key) := r.TakeU64();
    Done(r1, w.(ctx := c.(languagesKey := key)))
  }

  function TileBackgroundOldSpec(r: Reader, version: int, w: World): Outcome {
    var c := w.ctx;
    var (r1, v) := r.TakeI32();
    Done(r1, w.(ctx := TileFromOld(c, version, w.glob.nightMode, v)))
  }

  function TileBackgroundSpec(r: Reader, w: World): Outcome {
    var c := w.ctx;
    var (r1, tileDay) := r.TakeI32();
    var (r2, tileNight) := r1.TakeI32();
    Done(r2, w.(ctx := c.(tileDay := tileDay != 0, tileNight := tileNight != 0, tileRead := true)))
  }

  function ThemeSpec(id: ThemeId, r: Reader, version: int, w: World): (out: Outcome)
  {
    match id
    case ThemeKeyOld => ThemeKeyOldSpec(r, w)
    case ThemeKey => ThemeKeySpec(r, w)
    case BackgroundKey => BackgroundKeySpec(r, w)
    case LangPackKey => LangPackKeySpec(r, w)
    case LanguagesKey => LanguagesKeySpec(r, w)
    case TileBackgroundOld => TileBackgroundOldSpec(r, version, w)
    case TileBackground => TileBackgroundSpec(r, w)
  }

  /** Lines 162-192, 227-235, 397-410, 606-694, 980-986: process-wide flags,
      the work mode, the interface scale and the window geometry. */
  function AutoStartSpec(r: Reader, w: World): Outcome {
    var g := w.glob;
    var (r1, v) := r.TakeI32();
    Done(r1, w.(glob := g.(autoStart := v == 1)))
  }

  function StartMinimizedSpec(r: Reader, w: World): Outcome {
    var g := w.glob;
    var (r1, v) := r.TakeI32();
    Done(r1, w.(glob := g.(startMinimized := v == 1)))
  }

  function SendToMenuSpec(r: Reader, w: World): Outcome {
    var g := w.glob;
    var (r1, v) := r.TakeI32();
    Done(r1, w.(glob := g.(sendToMenu := v == 1)))
  }

  function UseExternalVideoPlayerSpec(r: Reader, w: World): Outcome {
    var g := w.glob;
    var (r1, v) := r.TakeI32();
    Done(r1, w.(glob := g.(useExternalVideoPlayer := v == 1)))
  }

  function AnimationsDisabledSpec(r: Reader, w: World): Outcome {
    var g := w.glob;
    var (r1, v) := r.TakeI32();
    Done(r1, w.(glob := g.(animationsDisabled := v == 1)))
  }

  function WorkModeSpec(r: Reader, w: World): Outcome {
    var g := w.glob;
    var (r1, v) := r.TakeI32();
    Done(r1, w.(glob := g.(workMode := WorkModeOf(v))))
  }

  function TryIPv6Spec(r: Reader, w: World): Outcome {
    var g := w.glob;
    var (r1, v) := r.TakeI32();
    Done(r1, w.(glob := g.(tryIPv6 := v == 1)))
  }

  function SeenTrayTooltipSpec(r: Reader, w: World): Outcome {
    var g := w.glob;
    var (r1, v) := r.TakeI32();
    Done(r1, w.(glob := g.(seenTrayTooltip := v == 1)))
  }

  function AutoUpdateSpec(r: Reader, w: World): Outcome {
    var g := w.glob;
    var (r1, v) := r.TakeI32();
    Done(r1, w.(glob := g.(autoUpdate := v == 1)))
  }

  function LastUpdateCheckSpec(r: Reader, w: World): Outcome {
    var g := w.glob;
    var (r1, v) := r.TakeI32();
    Done(r1, w.(glob := g.(lastUpdateCheck := v)))
  }

  function ScaleOldSpec(r: Reader, configScale: int, checkScale: int -> int, w: World): Outcome {
    var g := w.glob;
    var (r1, v) := r.TakeI32();
    Done(r1, w.(glob := g.(scale := checkScale(ScaleFromOld(v, configScale)))))
  }

  function ScalePercentSpec(r: Reader, configScale: int, checkScale: int -> int, w: World): Outcome {
    var g := w.glob;
    var (r1, v) := r.TakeI32();
    Done(r1, if configScale == ScaleAuto then w.(glob := g.(scale := checkScale(v))) else w)
  }

  function WindowPositionSpec(r: Reader, w: World): Outcome {
    var g := w.glob;
    var (r1, x) := r.TakeI32();
    var (r2, y) := r1.TakeI32();
    var (r3, wd) := r2.TakeI32();
    var (r4, h) := r3.TakeI32();
    var (r5, moncrc) := r4.TakeI32();
    var (r6, maximized) := r5.TakeI32();
    Done(r6, w.(glob := g.(windowPos := WindowPos(x, y, wd, h, moncrc, maximized))))
  }

  function DialogLastPathSpec(r: Reader, w: World): Outcome {
    var g := w.glob;
    var (r1, path) := r.TakeStr();
    Done(r1, w.(glob := g.(dialogLastPath := path)))
  }

  function GlobalFlagSpec(id: GlobalFlagId, r: Reader, configScale: int, checkScale: int -> int, w: World): (out: Outcome)
  {
    match id
    case AutoStart => AutoStartSpec(r, w)
    case StartMinimized => StartMinimizedSpec(r, w)
    case SendToMenu => SendToMenuSpec(r, w)
    case UseExternalVideoPlayer => UseExternalVideoPlayerSpec(r, w)
    case AnimationsDisabled => AnimationsDisabledSpec(r, w)
    case WorkMode => WorkModeSpec(r, w)
    case TryIPv6 => TryIPv6Spec(r, w)
    case SeenTrayTooltip => SeenTrayTooltipSpec(r, w)
    case AutoUpdate => AutoUpdateSpec(r, w)
    case LastUpdateCheck => LastUpdateCheckSpec(r, w)
    case ScaleOld => ScaleOldSpec(r, configScale, checkScale, w)
    case ScalePercent => ScalePercentSpec(r, configScale, checkScale, w)
    case WindowPosition => WindowPositionSpec(r, w)
    case DialogLastPath => DialogLastPathSpec(r, w)
  }

  /** Lines 877-966: recent emoji and stickers and the emoji colour variants. */
  function RecentEmojiOldOldSpec(r: Reader, env: Env, w: World): Outcome {
    var g := w.glob;
    var (r1, v) := r.TakeRecentOldOld();
    Done(r1, if v != [] then w.(glob := g.(recentEmojiPreload := RecentFromKeys(RemapAll(v), env.idFromOldKey))) else w)
  }

  function RecentEmojiOldSpec(r: Reader, env: Env, w: World): Outcome {
    var g := w.glob;
    var (r1, v) := r.TakeRecentOld();
    Done(r1, if v != [] then w.(glob := g.(recentEmojiPreload := RecentFromKeys(v, env.idFromOldKey))) else w)
  }

  function RecentEmojiSpec(r: Reader, w: World): Outcome {
    var g := w.glob;
    var (r1, v) := r.TakeRecent();
    Done(r1, w.(glob := g.(recentEmojiPreload := v)))
  }

  function RecentStickersSpec(r: Reader, w: World): Outcome {
    var g := w.glob;
    var (r1, v) := r.TakeStickers();
    Done(r1, w.(glob := g.(recentStickersPreload := v)))
  }

  function EmojiVariantsOldSpec(r: Reader, env: Env, w: World): Outcome {
    var g := w.glob;
    var (r1, v) := r.TakeVariantsOld();
    Done(r1, w.(glob := g.(emojiVariants := VariantsFromOld(v, env.idFromOldKey, env.colorIndexFromOldKey))))
  }

  function EmojiVariantsSpec(r: Reader, w: World): Outcome {
    var g := w.glob;
    var (r1, v) := r.TakeVariants();
    Done(r1, w.(glob := g.(emojiVariants := v)))
  }

  function EmojiSpec(id: EmojiId, r: Reader, env: Env, w: World): (out: Outcome)
  {
    match id
    case RecentEmojiOldOld => RecentEmojiOldOldSpec(r, env, w)
    case RecentEmojiOld => RecentEmojiOldSpec(r, env, w)
    case RecentEmoji => RecentEmojiSpec(r, w)
    case RecentStickers => RecentStickersSpec(r, w)
    case EmojiVariantsOld => EmojiVariantsOldSpec(r, env, w)
    case EmojiVariants => EmojiVariantsSpec(r, w)
  }

  /** Lines 426-455: the oldest single-proxy block; only the two proxy
      connection types carry a proxy record. */
  function ConnectionTypeOldSpec(r: Reader, valid: Proxy -> bool, w: World): (out: Outcome)
    ensures out.rest.fields == r.fields
    ensures out.Applied? ==> out.rest.ok && out.world.app == w.app && out.world.ctx == w.ctx
  {
    var (r1, v) := r.TakeI32();
    if !r1.ok then Failed(r1)
    else
      var (r2, proxy) := OldProxyRecord(r1, v);
      Done(r2, w.(glob := SingleProxy(w.glob, proxy, valid(proxy), true)))
  }

  /** Lines 431-443: the proxy of the oldest proxy block; only the two proxy
      connection types carry one, the others leave the empty proxy. */
  function OldProxyRecord(r: Reader, v: i32): (res: (Reader, Proxy))
    ensures res.0.fields == r.fields
    ensures !(v == ConnectionHttpProxy || v == ConnectionTcpProxy) ==> res == (r, NoProxy)
    ensures (v == ConnectionHttpProxy || v == ConnectionTcpProxy) ==> res.1.kind == (if v == ConnectionTcpProxy then Socks5 else Http)
  {
    if v == ConnectionHttpProxy || v == ConnectionTcpProxy then
      var (r1, host) := r.TakeStr();
      var (r2, port) := r1.TakeI32();
      var (r3, user) := r2.TakeStr();
      var (r4, password) := r3.TakeStr();
      (r4, Proxy(if v == ConnectionTcpProxy then Socks5 else Http, host, ToUInt32(port), user, password))
    else (r, NoProxy)
  }

  /** The globals after a block that stores one proxy: a usable proxy becomes
      the whole list and the selected proxy, with the mode `Enabled` when
      `enable` holds and `System` otherwise; an unusable one clears the list. */
  function SingleProxy(g: GlobalsValue, proxy: Proxy, usable: bool, enable: bool): (g': GlobalsValue)
    ensures g'.proxiesList == (if usable then [proxy] else [])
    ensures g'.selectedProxy == (if usable then proxy else NoProxy)
    ensures g'.proxySettings == (if usable && enable then Enabled else System)
    ensures g' == g.(proxiesList := g'.proxiesList, selectedProxy := g'.selectedProxy, proxySettings := g'.proxySettings)
  {
    if usable then g.(proxiesList := [proxy], selectedProxy := proxy, proxySettings := if enable then Enabled else System)
    else g.(proxiesList := [], selectedProxy := NoProxy, proxySettings := System)
  }

  /** Lines 457-559: the current proxy block, either a list of proxies or a
      single proxy record. */
  function ConnectionTypeSpec(r: Reader, valid: Proxy -> bool, w: World): (out: Outcome)
    ensures out.rest.fields == r.fields
    ensures out.Applied? ==> out.rest.ok && out.world.app == w.app && out.world.ctx == w.ctx
  {
    var (r1, connectionType) := r.TakeI32();
    if !r1.ok then Failed(r1)
    else if connectionType == ConnectionProxiesListOld || connectionType == ConnectionProxiesList then
      ProxyListSpec(r1, connectionType == ConnectionProxiesListOld, valid, w)
    else
      ProxyRecordSpec(r1, connectionType, valid, w)
  }

  /** Lines 486-488: the list header; the oldest format stores neither the
      mode nor the calls flag, which then read as 0. */
  function ProxyListHeader(r: Reader, oldFormat: bool): (h: (Reader, i32, i32, i32, i32))
    ensures h.0.fields == r.fields
  {
    var (r1, count) := r.TakeI32();
    var (r2, index) := r1.TakeI32();
    if oldFormat then (r2, count, index, 0, 0)
    else
      var (r3, settings) := r2.TakeI32();
      var (r4, calls) := r3.TakeI32();
      (r4, count, index, settings, calls)
  }

  /** Lines 486-537: a proxy list, in the oldest list format when `oldFormat`
      holds. */
  function ProxyListSpec(r: Reader, oldFormat: bool, valid: Proxy -> bool, w: World): (out: Outcome)
    ensures out.rest.fields == r.fields
    ensures out.Applied? ==> out.rest.ok && out.world.app == w.app && out.world.ctx == w.ctx
  {
    var (r1, count, index, settings, calls) := ProxyListHeader(r, oldFormat);
    ProxyListBodySpec(r1, oldFormat, count, index, settings, calls, valid, w)
  }

  /** Lines 489-537: the proxy list after its header. */
  function ProxyListBodySpec(r: Reader, oldFormat: bool, count: i32, index: i32, settings: i32, calls: i32,
                             valid: Proxy -> bool, w: World): (out: Outcome)
    ensures out.rest.fields == r.fields
    ensures out.Applied? ==> out.rest.ok && out.world.app == w.app && out.world.ctx == w.ctx
  {
    var (r1, ps) := ReadProxies(r, if count > 0 then count as nat else 0);
    var st := ResolveProxyList(oldFormat, count, index, settings, calls, ps, valid);
    Done(r1, w.(glob := w.glob.(proxiesList := st.list, selectedProxy := st.selected,
                                proxySettings := st.settings, useProxyForCalls := st.forCalls)))
  }

  /** Lines 538-557: one proxy record under the connection type read. */
  function ProxyRecordSpec(r: Reader, connectionType: i32, valid: Proxy -> bool, w: World): (out: Outcome)
    ensures out.rest.fields == r.fields
    ensures out.Applied? ==> out.rest.ok && out.world.app == w.app && out.world.ctx == w.ctx
  {
    var (r1, proxy) := ReadProxy(r);
    var enable := connectionType == ConnectionTcpProxy || connectionType == ConnectionHttpProxy;
    Done(r1, w.(glob := SingleProxy(w.glob, proxy, valid(proxy), enable)))
  }

  function ProxySpec(id: ProxyId, r: Reader, valid: Proxy -> bool, w: World): (out: Outcome)
  {
    match id
    case ConnectionTypeOld => ConnectionTypeOldSpec(r, valid, w)
    case ConnectionType => ConnectionTypeSpec(r, valid, w)
  }

  /** Lines 83-89, 237-244, 313-387, 720-733, 767-782, 814-824: the
      application settings about notifications, the chat window and sending. */
  function ApplicationSettingsSpec(r: Reader, w: World): Outcome {
    var a := w.app;
    var (r1, v) := r.TakeBytes();
    Done(r1, w.(app := a.(serialized := a.serialized + [v])))
  }

  function SoundFlashBounceNotifyOldSpec(r: Reader, w: World): Outcome {
    var a := w.app;
    var (r1, v) := r.TakeI32();
    Done(r1, w.(app := a.(soundNotify := Bit(v, 0), flashBounceNotify := !Bit(v, 1))))
  }

  function ModerateModeOldSpec(r: Reader, w: World): Outcome {
    var a := w.app;
    var (r1, v) := r.TakeI32();
    Done(r1, w.(app := a.(moderateModeEnabled := v == 1)))
  }

  function IncludeMutedOldSpec(r: Reader, w: World): Outcome {
    var a := w.app;
    var (r1, v) := r.TakeI32();
    Done(r1, w.(app := a.(includeMutedCounter := v == 1)))
  }

  function DesktopNotifyOldSpec(r: Reader, w: World): Outcome {
    var a := w.app;
    var (r1, v) := r.TakeI32();
    Done(r1, w.(app := a.(desktopNotify := v == 1)))
  }

  function NativeNotificationsOldSpec(r: Reader, w: World): Outcome {
    var a := w.app;
    var (r1, v) := r.TakeI32();
    Done(r1, w.(app := a.(nativeNotifications := v == 1)))
  }

  function NotificationsCountOldSpec(r: Reader, w: World): Outcome {
    var a := w.app;
    var (r1, v) := r.TakeI32();
    Done(r1, w.(app := a.(notificationsCount := if v > 0 then v else 3)))
  }

  function NotificationsCornerOldSpec(r: Reader, w: World): Outcome {
    var a := w.app;
    var (r1, v) := r.TakeI32();
    Done(r1, w.(app := a.(notificationsCorner := if 0 <= v < 4 then v else 2)))
  }

  function DialogsWidthRatioOldSpec(r: Reader, w: World): Outcome {
    var a := w.app;
    var (r1, v) := r.TakeI32();
    Done(r1, w.(app := a.(dialogsWidthRatioMillionths := v)))
  }

  function LastSeenWarningSeenOldSpec(r: Reader, w: World): Outcome {
    var a := w.app;
    var (r1, v) := r.TakeI32();
    Done(r1, w.(app := a.(lastSeenWarningSeen := v == 1)))
  }

  function SendKeyOldSpec(r: Reader, w: World): Outcome {
    var a := w.app;
    var (r1, v) := r.TakeI32();
    if !r1.ok || (v != SubmitEnter && v != SubmitCtrlEnter) then Failed(r1)
    else Applied(w.(app := a.(sendSubmitWay := if v == SubmitEnter then Enter else CtrlEnter)), r1)
  }

  function AdaptiveForWideOldSpec(r: Reader, w: World): Outcome {
    var a := w.app;
    var (r1, v) := r.TakeI32();
    Done(r1, w.(app := a.(adaptiveForWide := v == 1)))
  }

  function AutoLockOldSpec(r: Reader, w: World): Outcome {
    var a := w.app;
    var (r1, v) := r.TakeI32();
    Done(r1, w.(app := a.(autoLock := v)))
  }

  function NotifyViewOldSpec(r: Reader, w: World): Outcome {
    var a := w.app;
    var (r1, v) := r.TakeI32();
    Done(r1, w.(app := a.(notifyView := NotifyViewOf(v))))
  }

  function AppInterfaceSpec(id: AppInterfaceId, r: Reader, w: World): (out: Outcome)
  {
    match id
    case ApplicationSettings => ApplicationSettingsSpec(r, w)
    case SoundFlashBounceNotifyOld => SoundFlashBounceNotifyOldSpec(r, w)
    case ModerateModeOld => ModerateModeOldSpec(r, w)
    case IncludeMutedOld => IncludeMutedOldSpec(r, w)
    case DesktopNotifyOld => DesktopNotifyOldSpec(r, w)
    case NativeNotificationsOld => NativeNotificationsOldSpec(r, w)
    case NotificationsCountOld => NotificationsCountOldSpec(r, w)
    case NotificationsCornerOld => NotificationsCornerOldSpec(r, w)
    case DialogsWidthRatioOld => DialogsWidthRatioOldSpec(r, w)
    case LastSeenWarningSeenOld => LastSeenWarningSeenOldSpec(r, w)
    case SendKeyOld => SendKeyOldSpec(r, w)
    case AdaptiveForWideOld => AdaptiveForWideOldSpec(r, w)
    case AutoLockOld => AutoLockOldSpec(r, w)
    case NotifyViewOld => NotifyViewOldSpec(r, w)
  }

  /** Lines 784-806, 826-867, 988-1038: the application settings about emoji
      input, downloads, media playback and calls. */
  function ReplaceEmojiOldSpec(r: Reader, w: World): Outcome {
    var a := w.app;
    var (r1, v) := r.TakeI32();
    Done(r1, w.(app := a.(replaceEmoji := v == 1)))
  }

  function SuggestEmojiOldSpec(r: Reader, w: World): Outcome {
    var a := w.app;
    var (r1, v) := r.TakeI32();
    Done(r1, w.(app := a.(suggestEmoji := v == 1)))
  }

  function SuggestStickersByEmojiOldSpec(r: Reader, w: World): Outcome {
    var a := w.app;
    var (r1, v) := r.TakeI32();
    Done(r1, w.(app := a.(suggestStickersByEmoji := v == 1)))
  }

  function AskDownloadPathOldSpec(r: Reader, w: World): Outcome {
    var a := w.app;
    var (r1, v) := r.TakeI32();
    Done(r1, w.(app := a.(askDownloadPath := v == 1)))
  }

  function DownloadPathOldOldSpec(r: Reader, w: World): Outcome {
    var a := w.app;
    var (r1, v) := r.TakeStr();
    Done(r1, w.(app := a.(downloadPathBookmark := [], downloadPath := NormalisedDownloadPath(v))))
  }

  function DownloadPathOldSpec(r: Reader, w: World): Outcome {
    var a := w.app;
    var (r1, v) := r.TakeStr();
    var (r2, bookmark) := r1.TakeBytes();
    Done(r2, w.(app := a.(downloadPathBookmark := bookmark, downloadPath := NormalisedDownloadPath(v))))
  }

  function CompressPastedImageOldSpec(r: Reader, w: World): Outcome {
    var a := w.app;
    var (r1, v) := r.TakeI32();
    Done(r1, w.(app := a.(sendFilesWay := if v == 1 then Album else Files)))
  }

  function SongVolumeOldSpec(r: Reader, w: World): Outcome {
    var a := w.app;
    var (r1, v) := r.TakeI32();
    Done(r1, w.(app := a.(songVolumeMillionths := VolumeMillionths(v))))
  }

  function VideoVolumeOldSpec(r: Reader, w: World): Outcome {
    var a := w.app;
    var (r1, v) := r.TakeI32();
    Done(r1, w.(app := a.(videoVolumeMillionths := VolumeMillionths(v))))
  }

  function PlaybackSpeedOldSpec(r: Reader, w: World): Outcome {
    var a := w.app;
    var (r1, v) := r.TakeI32();
    Done(r1, w.(app := a.(voiceMsgPlaybackDoubled := v == 2)))
  }

  function CallSettingsOldSpec(r: Reader, readCallSettings: seq<byte> -> Option<CallSettings>, w: World): Outcome {
    var a := w.app;
    var (r1, v) := r.TakeBytes();
    Done(r1, match readCallSettings(v)
             case None => w
             case Some(cs) => w.(app := a.(callOutputDeviceId := cs.outputDeviceId, callOutputVolume := cs.outputVolume,
                                           callInputDeviceId := cs.inputDeviceId, callInputVolume := cs.inputVolume,
                                           callAudioDuckingEnabled := cs.duckingEnabled != 0)))
  }

  function AppMediaSpec(id: AppMediaId, r: Reader, readCallSettings: seq<byte> -> Option<CallSettings>, w: World):
    (out: Outcome)
  {
    match id
    case ReplaceEmojiOld => ReplaceEmojiOldSpec(r, w)
    case SuggestEmojiOld => SuggestEmojiOldSpec(r, w)
    case SuggestStickersByEmojiOld => SuggestStickersByEmojiOldSpec(r, w)
    case AskDownloadPathOld => AskDownloadPathOldSpec(r, w)
    case DownloadPathOldOld => DownloadPathOldOldSpec(r, w)
    case DownloadPathOld => DownloadPathOldSpec(r, w)
    case CompressPastedImageOld => CompressPastedImageOldSpec(r, w)
    case SongVolumeOld => SongVolumeOldSpec(r, w)
    case VideoVolumeOld => VideoVolumeOldSpec(r, w)
    case PlaybackSpeedOld => PlaybackSpeedOldSpec(r, w)
    case CallSettingsOld => CallSettingsOldSpec(r, readCallSettings, w)
  }

  /** Lines 299-303, 329-347, 412-416, 674-684, 696-718, 735-739, 808-812,
      869-875: deprecated blocks, read and dropped. */
  function DialogsModeOldSpec(r: Reader, w: World): Outcome {
    Done(r.TakeI32().0.TakeI32().0, w)
  }

  function ShowingSavedGifsOldSpec(r: Reader, w: World): Outcome {
    Done(r.TakeI32().0, w)
  }

  function WindowsNotificationsOldSpec(r: Reader, w: World): Outcome {
    Done(r.TakeI32().0, w)
  }

  function TxtDomainStringOldOldSpec(r: Reader, w: World): Outcome {
    Done(r.TakeStr().0, w)
  }

  function LangOldSpec(r: Reader, w: World): Outcome {
    Done(r.TakeI32().0, w)
  }

  function LangFileOldSpec(r: Reader, w: World): Outcome {
    Done(r.TakeStr().0, w)
  }

  function LoggedPhoneNumberOldSpec(r: Reader, w: World): Outcome {
    Done(r.TakeStr().0, w)
  }

  function MutePeerOldSpec(r: Reader, w: World): Outcome {
    Done(r.TakeU64().0, w)
  }

  function MutedPeersOldSpec(r: Reader, w: World): Outcome {
    var (r1, count) := r.TakeU32();
    if !r1.ok then Failed(r1) else Done(r1.TakeMany(KUInt64, count), w)
  }

  function CatsAndDogsSpec(r: Reader, w: World): Outcome {
    Done(r.TakeI32().0, w)
  }

  function DefaultAttachSpec(r: Reader, w: World): Outcome {
    Done(r.TakeI32().0, w)
  }

  function EmojiTabOldSpec(r: Reader, w: World): Outcome {
    Done(r.TakeI32().0, w)
  }

  function DiscardedSpec(id: DiscardedId, r: Reader, w: World): (out: Outcome)
  {
    match id
    case DialogsModeOld => DialogsModeOldSpec(r, w)
    case ShowingSavedGifsOld => ShowingSavedGifsOldSpec(r, w)
    case WindowsNotificationsOld => WindowsNotificationsOldSpec(r, w)
    case TxtDomainStringOldOld => TxtDomainStringOldOldSpec(r, w)
    case LangOld => LangOldSpec(r, w)
    case LangFileOld => LangFileOldSpec(r, w)
    case LoggedPhoneNumberOld => LoggedPhoneNumberOldSpec(r, w)
    case MutePeerOld => MutePeerOldSpec(r, w)
    case MutedPeersOld => MutedPeersOldSpec(r, w)
    case CatsAndDogs => CatsAndDogsSpec(r, w)
    case DefaultAttach => DefaultAttachSpec(r, w)
    case EmojiTabOld => EmojiTabOldSpec(r, w)
  }

  // ---------------------------------------------------------------------
  // The whole decoder.

  /** `ReadSetting(blockId, stream, version, context)`: `Failed` is the
      `false` return, after which the caller abandons the stream. Every
      block reads at least one value, so a stream that is already bad fails
      whatever the block; an unrecognised id fails without reading. */
  function ReadSettingSpec(id: BlockId, r: Reader, version: int, env: Env, w: World): (out: Outcome)
  {
    match id
    case LegacyConfigBlock(legacyConfig) => LegacyConfigSpec(legacyConfig, r, w)
    case CacheBlock(cache) => CacheSpec(cache, r, env.maxDataSize, w)
    case SessionBlock(session) => SessionSpec(session, r, w)
    case ThemeBlock(theme) => ThemeSpec(theme, r, version, w)
    case GlobalFlagBlock(globalFlag) => GlobalFlagSpec(globalFlag, r, env.configScale, env.checkScale, w)
    case EmojiBlock(emoji) => EmojiSpec(emoji, r, env, w)
    case ProxyBlock(proxy) => ProxySpec(proxy, r, env.proxyValid, w)
    case AppInterfaceBlock(appInterface) => AppInterfaceSpec(appInterface, r, w)
    case AppMediaBlock(appMedia) => AppMediaSpec(appMedia, r, env.readCallSettings, w)
    case DiscardedBlock(discarded) => DiscardedSpec(discarded, r, w)
    case Unrecognised(_) => Failed(r)
  }
}
