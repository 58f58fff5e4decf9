/** The entities the settings decoder reads and writes: block ids, proxy
    records, the value of the migration context, of the application settings
    and of the process-wide globals, and the foreign functions the decoder
    calls, passed in as an environment. */
module Types {
  import opened Ints
  import opened Stream

  datatype Option<T> = None | Some(value: T)

  /** The legacy settings block ids that `ReadSetting` recognises. Their
      numeric values are declared in storage_settings_scheme.h, which is not
      part of this model; `Unrecognised` stands for every other id. */
  datatype LegacyConfigId =
    | DcOptionOldOld | DcOptionOld | DcOptionsOld | ChatSizeMaxOld | SavedGifsLimitOld
    | StickersRecentLimitOld | StickersFavedLimitOld | MegagroupSizeMaxOld | TxtDomainStringOld | FallbackProductionConfig
    | User | Key | MtpAuthorization

  datatype CacheId =
    | CacheSettingsOld | CacheSettings

  datatype SessionId =
    | AutoDownloadOld | AutoPlayOld | DialogsFiltersOld | SessionSettings | HiddenPinnedMessagesOld

  datatype ThemeId =
    | ThemeKeyOld | ThemeKey | BackgroundKey | LangPackKey | LanguagesKey
    | TileBackgroundOld | TileBackground

  datatype GlobalFlagId =
    | AutoStart | StartMinimized | SendToMenu | UseExternalVideoPlayer | AnimationsDisabled
    | WorkMode | TryIPv6 | SeenTrayTooltip | AutoUpdate | LastUpdateCheck
    | ScaleOld | ScalePercent | WindowPosition | DialogLastPath

  datatype EmojiId =
    | RecentEmojiOldOld | RecentEmojiOld | RecentEmoji | RecentStickers | EmojiVariantsOld
    | EmojiVariants

  datatype ProxyId =
    | ConnectionTypeOld | ConnectionType

  datatype AppInterfaceId =
    | ApplicationSettings | SoundFlashBounceNotifyOld | ModerateModeOld | IncludeMutedOld | DesktopNotifyOld
    | NativeNotificationsOld | NotificationsCountOld | NotificationsCornerOld | DialogsWidthRatioOld | LastSeenWarningSeenOld
    | SendKeyOld | AdaptiveForWideOld | AutoLockOld | NotifyViewOld

  datatype AppMediaId =
    | ReplaceEmojiOld | SuggestEmojiOld | SuggestStickersByEmojiOld | AskDownloadPathOld | DownloadPathOldOld
    | DownloadPathOld | CompressPastedImageOld | SongVolumeOld | VideoVolumeOld | PlaybackSpeedOld
    | CallSettingsOld

  datatype DiscardedId =
    | DialogsModeOld | ShowingSavedGifsOld | WindowsNotificationsOld | TxtDomainStringOldOld | LangOld
    | LangFileOld | LoggedPhoneNumberOld | MutePeerOld | MutedPeersOld | CatsAndDogs
    | DefaultAttach | EmojiTabOld

  datatype BlockId =
    | LegacyConfigBlock(legacyConfig: LegacyConfigId)
    | CacheBlock(cache: CacheId)
    | SessionBlock(session: SessionId)
    | ThemeBlock(theme: ThemeId)
    | GlobalFlagBlock(globalFlag: GlobalFlagId)
    | EmojiBlock(emoji: EmojiId)
    | ProxyBlock(proxy: ProxyId)
    | AppInterfaceBlock(appInterface: AppInterfaceId)
    | AppMediaBlock(appMedia: AppMediaId)
    | DiscardedBlock(discarded: DiscardedId)
    | Unrecognised(raw: u32)

  // Raw enum values stored in the stream, as the project's headers declare them.
  const ConnectionHttpProxy: int := 2     // dbictHttpProxy
  const ConnectionTcpProxy: int := 3      // dbictTcpProxy
  const ConnectionProxiesListOld: int := 4
  const ConnectionProxiesList: int := 5
  const ProxyTypeShift: int := 1024       // kProxyTypeShift
  const WorkModeTrayOnly: int := 1        // dbiwmTrayOnly
  const WorkModeWindowOnly: int := 2      // dbiwmWindowOnly
  const NotifyShowName: int := 1          // dbinvShowName
  const NotifyShowNothing: int := 2       // dbinvShowNothing
  const SubmitEnter: int := 0             // Ui::InputSubmitSettings::Enter
  const SubmitCtrlEnter: int := 1         // Ui::InputSubmitSettings::CtrlEnter
  const ScaleAuto: int := 0               // style::kScaleAuto
  const TileFixVersion: int := 8005

  /** `MTP::ProxyData::Type`, numbered None = 0 .. Mtproto = 3. */
  datatype ProxyType = NoType | Socks5 | Http | Mtproto {
    function Raw(): int {
      match this
      case NoType => 0
      case Socks5 => 1
      case Http => 2
      case Mtproto => 3
    }
  }

  /** `MTP::ProxyData::Settings`, numbered System = 0, Enabled = 1, Disabled = 2. */
  datatype ProxySettings = System | Enabled | Disabled {
    function Raw(): int {
      match this
      case System => 0
      case Enabled => 1
      case Disabled => 2
    }
  }

  datatype Proxy = Proxy(kind: ProxyType, host: string, port: u32, user: string, password: string)

  /** `MTP::ProxyData()`. */
  const NoProxy: Proxy := Proxy(NoType, "", 0, "", "")

  datatype WorkModeValue = WindowAndTray | TrayOnly | WindowOnly
  datatype NotifyView = ShowPreview | ShowName | ShowNothing
  datatype SubmitWay = Enter | CtrlEnter
  datatype SendFilesWay = Album | Files
  type ScreenCorner = x: int | 0 <= x < 4

  datatype WindowPos = WindowPos(x: i32, y: i32, w: i32, h: i32, moncrc: i32, maximized: i32)

  /** One legacy data-center option source, in the order the records were read. */
  datatype DcOption =
    | AddOne(dcId: u32, flags: i32, ip: string, port: u32)
    | FromSerialized(serialized: seq<byte>)

  datatype LegacyKey = LegacyKey(dcId: i32, key: AuthKeyData)

  datatype DownloadSource = FromUser | FromGroup | FromChannel
  datatype DownloadType = Photo | VoiceMessage | AutoPlayVideo | AutoPlayVideoMessage | AutoPlayGif

  /** The value of a `ReadSettingsContext`, including the session settings it owns. */
  datatype ContextValue = ContextValue(
    legacyDcOptions: seq<DcOption>,
    legacyChatSizeMax: i32,
    legacySavedGifsLimit: i32,
    legacyStickersRecentLimit: i32,
    legacyStickersFavedLimit: i32,
    legacyMegagroupSizeMax: i32,
    legacyTxtDomainString: string,
    legacyMainDcId: u32,
    legacyUserId: i32,
    legacyKeys: seq<LegacyKey>,
    mtpAuthorization: seq<byte>,
    cacheTotalSizeLimit: i64,
    cacheTotalTimeLimit: i32,
    cacheBigFileTotalSizeLimit: i64,
    cacheBigFileTotalTimeLimit: i32,
    themeKeyLegacy: u64,
    themeKeyDay: u64,
    themeKeyNight: u64,
    backgroundKeyDay: u64,
    backgroundKeyNight: u64,
    backgroundKeysRead: bool,
    langPackKey: u64,
    languagesKey: u64,
    tileDay: bool,
    tileNight: bool,
    tileRead: bool,
    legacyHasCustomDayBackground: bool,
    fallbackConfig: seq<byte>,
    sessionSerialized: seq<seq<byte>>,
    autoDownloadLimits: map<(DownloadSource, DownloadType), int>,
    dialogsFiltersEnabled: bool,
    hiddenPinnedMessages: map<u64, i32>)

  /** The value of `Core::App().settings()` as far as the decoder writes it.
      Volumes and the dialogs width ratio are kept in millionths: the source
      passes them on as doubles (see README). `serialized` lists the blobs
      handed to `addFromSerialized`, in order. */
  datatype AppSettingsValue = AppSettingsValue(
    serialized: seq<seq<byte>>,
    soundNotify: bool,
    flashBounceNotify: bool,
    moderateModeEnabled: bool,
    includeMutedCounter: bool,
    desktopNotify: bool,
    nativeNotifications: bool,
    notificationsCount: int,
    notificationsCorner: ScreenCorner,
    dialogsWidthRatioMillionths: i32,
    lastSeenWarningSeen: bool,
    sendSubmitWay: SubmitWay,
    adaptiveForWide: bool,
    autoLock: i32,
    replaceEmoji: bool,
    suggestEmoji: bool,
    suggestStickersByEmoji: bool,
    notifyView: NotifyView,
    askDownloadPath: bool,
    downloadPath: string,
    downloadPathBookmark: seq<byte>,
    sendFilesWay: SendFilesWay,
    songVolumeMillionths: int,
    videoVolumeMillionths: int,
    voiceMsgPlaybackDoubled: bool,
    callOutputDeviceId: string,
    callOutputVolume: i32,
    callInputDeviceId: string,
    callInputVolume: i32,
    callAudioDuckingEnabled: bool)

  /** The value of the process-wide settings the decoder sets: the `c*`
      globals, `Global::*`, the animation switch and the theme's night mode.
      `scale` is the argument of the last `SetScaleChecked` call. */
  datatype GlobalsValue = GlobalsValue(
    autoStart: bool,
    startMinimized: bool,
    sendToMenu: bool,
    useExternalVideoPlayer: bool,
    animationsDisabled: bool,
    workMode: WorkModeValue,
    proxiesList: seq<Proxy>,
    selectedProxy: Proxy,
    proxySettings: ProxySettings,
    useProxyForCalls: bool,
    nightMode: bool,
    tryIPv6: bool,
    seenTrayTooltip: bool,
    autoUpdate: bool,
    lastUpdateCheck: i32,
    scale: int,
    windowPos: WindowPos,
    recentEmojiPreload: seq<(string, u16)>,
    recentStickersPreload: seq<(u64, u16)>,
    emojiVariants: map<string, int>,
    dialogLastPath: string)

  datatype World = World(ctx: ContextValue, app: AppSettingsValue, glob: GlobalsValue)

  /** The outcome of decoding one block: `Failed` is `ReadSetting` returning
      false, after which the caller abandons the stream. */
  datatype Outcome = Failed(rest: Reader) | Applied(world: World, rest: Reader)

  datatype CallSettings = CallSettings(
    outputDeviceId: string, outputVolume: i32, inputDeviceId: string, inputVolume: i32, duckingEnabled: i32)

  /** What the decoder takes from outside the shown source:
      `maxDataSize` is `Database::Settings().maxDataSize`, `configScale` is
      `cConfigScale()` (a scale given on the command line), `checkScale` is
      the validation `SetScaleChecked` applies before storing a scale,
      `proxyValid` is
      `MTP::ProxyData`'s test for a usable proxy, the two emoji functions are
      `Ui::Emoji::IdFromOldKey` and `ColorIndexFromOldKey`, and
      `readCallSettings` is the nested call-settings stream of lines
      1017-1030 (`None` when its status check fails). */
  datatype Env = Env(
    maxDataSize: int,
    configScale: int,
    checkScale: int -> int,
    proxyValid: Proxy -> bool,
    idFromOldKey: u64 -> string,
    colorIndexFromOldKey: u64 -> int,
    readCallSettings: seq<byte> -> Option<CallSettings>)
}
