/** The objects `ReadSetting` updates in place. Each class keeps the value of
    its object in one field, read through `Value`, and has a setter per
    setting the decoder writes; a block that writes several settings at once
    uses one of the combined setters. */
module State {
  import opened Ints
  import opened Stream
  import opened Types

  /** `ReadSettingsContext`: the accumulator the decoder fills, together
      with the session settings it owns. */
  class Context {
    var value: ContextValue

    function Value(): ContextValue
      reads this
    {
      value
    }

    method SetLegacyDcOptions(v: seq<DcOption>)
      modifies this
      ensures Value() == old(Value()).(legacyDcOptions := v)
    {
      value := value.(legacyDcOptions := v);
    }

    method SetLegacyChatSizeMax(v: i32)
      modifies this
      ensures Value() == old(Value()).(legacyChatSizeMax := v)
    {
      value := value.(legacyChatSizeMax := v);
    }

    method SetLegacySavedGifsLimit(v: i32)
      modifies this
      ensures Value() == old(Value()).(legacySavedGifsLimit := v)
    {
      value := value.(legacySavedGifsLimit := v);
    }

    method SetLegacyStickersRecentLimit(v: i32)
      modifies this
      ensures Value() == old(Value()).(legacyStickersRecentLimit := v)
    {
      value := value.(legacyStickersRecentLimit := v);
    }

    method SetLegacyStickersFavedLimit(v: i32)
      modifies this
      ensures Value() == old(Value()).(legacyStickersFavedLimit := v)
    {
      value := value.(legacyStickersFavedLimit := v);
    }

    method SetLegacyMegagroupSizeMax(v: i32)
      modifies this
      ensures Value() == old(Value()).(legacyMegagroupSizeMax := v)
    {
      value := value.(legacyMegagroupSizeMax := v);
    }

    method SetLegacyTxtDomainString(v: string)
      modifies this
      ensures Value() == old(Value()).(legacyTxtDomainString := v)
    {
      value := value.(legacyTxtDomainString := v);
    }

    method SetLegacyMainDcId(v: u32)
      modifies this
      ensures Value() == old(Value()).(legacyMainDcId := v)
    {
      value := value.(legacyMainDcId := v);
    }

    method SetLegacyUserId(v: i32)
      modifies this
      ensures Value() == old(Value()).(legacyUserId := v)
    {
      value := value.(legacyUserId := v);
    }

    method SetLegacyKeys(v: seq<LegacyKey>)
      modifies this
      ensures Value() == old(Value()).(legacyKeys := v)
    {
      value := value.(legacyKeys := v);
    }

    method SetMtpAuthorization(v: seq<byte>)
      modifies this
      ensures Value() == old(Value()).(mtpAuthorization := v)
    {
      value := value.(mtpAuthorization := v);
    }

    method SetCacheLimits(size: i64, time: i32, sizeBig: i64, timeBig: i32)
      modifies this
      ensures Value() == old(Value()).(cacheTotalSizeLimit := size, cacheTotalTimeLimit := time,
                                       cacheBigFileTotalSizeLimit := sizeBig, cacheBigFileTotalTimeLimit := timeBig)
    {
      value := value.(cacheTotalSizeLimit := size, cacheTotalTimeLimit := time,
                      cacheBigFileTotalSizeLimit := sizeBig, cacheBigFileTotalTimeLimit := timeBig);
    }

    method SetThemeKeyLegacy(v: u64)
      modifies this
      ensures Value() == old(Value()).(themeKeyLegacy := v)
    {
      value := value.(themeKeyLegacy := v);
    }

    method SetThemeKeyDay(v: u64)
      modifies this
      ensures Value() == old(Value()).(themeKeyDay := v)
    {
      value := value.(themeKeyDay := v);
    }

    method SetThemeKeyNight(v: u64)
      modifies this
      ensures Value() == old(Value()).(themeKeyNight := v)
    {
      value := value.(themeKeyNight := v);
    }

    method SetBackgroundKeyDay(v: u64)
      modifies this
      ensures Value() == old(Value()).(backgroundKeyDay := v)
    {
      value := value.(backgroundKeyDay := v);
    }

    method SetBackgroundKeyNight(v: u64)
      modifies this
      ensures Value() == old(Value()).(backgroundKeyNight := v)
    {
      value := value.(backgroundKeyNight := v);
    }

    method SetBackgroundKeysRead(v: bool)
      modifies this
      ensures Value() == old(Value()).(backgroundKeysRead := v)
    {
      value := value.(backgroundKeysRead := v);
    }

    method SetLangPackKey(v: u64)
      modifies this
      ensures Value() == old(Value()).(langPackKey := v)
    {
      value := value.(langPackKey := v);
    }

    method SetLanguagesKey(v: u64)
      modifies this
      ensures Value() == old(Value()).(languagesKey := v)
    {
      value := value.(languagesKey := v);
    }

    method SetTileDay(v: bool)
      modifies this
      ensures Value() == old(Value()).(tileDay := v)
    {
      value := value.(tileDay := v);
    }

    method SetTileNight(v: bool)
      modifies this
      ensures Value() == old(Value()).(tileNight := v)
    {
      value := value.(tileNight := v);
    }

    method SetTileRead(v: bool)
      modifies this
      ensures Value() == old(Value()).(tileRead := v)
    {
      value := value.(tileRead := v);
    }

    method SetFallbackConfig(v: seq<byte>)
      modifies this
      ensures Value() == old(Value()).(fallbackConfig := v)
    {
      value := value.(fallbackConfig := v);
    }

    method SetSessionSerialized(v: seq<seq<byte>>)
      modifies this
      ensures Value() == old(Value()).(sessionSerialized := v)
    {
      value := value.(sessionSerialized := v);
    }

    method SetAutoDownloadLimits(v: map<(DownloadSource, DownloadType), int>)
      modifies this
      ensures Value() == old(Value()).(autoDownloadLimits := v)
    {
      value := value.(autoDownloadLimits := v);
    }

    method SetDialogsFiltersEnabled(v: bool)
      modifies this
      ensures Value() == old(Value()).(dialogsFiltersEnabled := v)
    {
      value := value.(dialogsFiltersEnabled := v);
    }

    method SetHiddenPinnedMessages(v: map<u64, i32>)
      modifies this
      ensures Value() == old(Value()).(hiddenPinnedMessages := v)
    {
      value := value.(hiddenPinnedMessages := v);
    }

    constructor (v: ContextValue)
      ensures Value() == v
    {
      value := v;
    }
  }

  /** The part of `Core::App().settings()` the decoder writes. */
  class AppSettings {
    var value: AppSettingsValue

    function Value(): AppSettingsValue
      reads this
    {
      value
    }

    method SetSerialized(v: seq<seq<byte>>)
      modifies this
      ensures Value() == old(Value()).(serialized := v)
    {
      value := value.(serialized := v);
    }

    method SetSoundNotify(v: bool)
      modifies this
      ensures Value() == old(Value()).(soundNotify := v)
    {
      value := value.(soundNotify := v);
    }

    method SetFlashBounceNotify(v: bool)
      modifies this
      ensures Value() == old(Value()).(flashBounceNotify := v)
    {
      value := value.(flashBounceNotify := v);
    }

    method SetModerateModeEnabled(v: bool)
      modifies this
      ensures Value() == old(Value()).(moderateModeEnabled := v)
    {
      value := value.(moderateModeEnabled := v);
    }

    method SetIncludeMutedCounter(v: bool)
      modifies this
      ensures Value() == old(Value()).(includeMutedCounter := v)
    {
      value := value.(includeMutedCounter := v);
    }

    method SetDesktopNotify(v: bool)
      modifies this
      ensures Value() == old(Value()).(desktopNotify := v)
    {
      value := value.(desktopNotify := v);
    }

    method SetNativeNotifications(v: bool)
      modifies this
      ensures Value() == old(Value()).(nativeNotifications := v)
    {
      value := value.(nativeNotifications := v);
    }

    method SetNotificationsCount(v: int)
      modifies this
      ensures Value() == old(Value()).(notificationsCount := v)
    {
      value := value.(notificationsCount := v);
    }

    method SetNotificationsCorner(v: ScreenCorner)
      modifies this
      ensures Value() == old(Value()).(notificationsCorner := v)
    {
      value := value.(notificationsCorner := v);
    }

    method SetDialogsWidthRatioMillionths(v: i32)
      modifies this
      ensures Value() == old(Value()).(dialogsWidthRatioMillionths := v)
    {
      value := value.(dialogsWidthRatioMillionths := v);
    }

    method SetLastSeenWarningSeen(v: bool)
      modifies this
      ensures Value() == old(Value()).(lastSeenWarningSeen := v)
    {
      value := value.(lastSeenWarningSeen := v);
    }

    method SetSendSubmitWay(v: SubmitWay)
      modifies this
      ensures Value() == old(Value()).(sendSubmitWay := v)
    {
      value := value.(sendSubmitWay := v);
    }

    method SetAdaptiveForWide(v: bool)
      modifies this
      ensures Value() == old(Value()).(adaptiveForWide := v)
    {
      value := value.(adaptiveForWide := v);
    }

    method SetAutoLock(v: i32)
      modifies this
      ensures Value() == old(Value()).(autoLock := v)
    {
      value := value.(autoLock := v);
    }

    method SetReplaceEmoji(v: bool)
      modifies this
      ensures Value() == old(Value()).(replaceEmoji := v)
    {
      value := value.(replaceEmoji := v);
    }

    method SetSuggestEmoji(v: bool)
      modifies this
      ensures Value() == old(Value()).(suggestEmoji := v)
    {
      value := value.(suggestEmoji := v);
    }

    method SetSuggestStickersByEmoji(v: bool)
      modifies this
      ensures Value() == old(Value()).(suggestStickersByEmoji := v)
    {
      value := value.(suggestStickersByEmoji := v);
    }

    method SetNotifyView(v: NotifyView)
      modifies this
      ensures Value() == old(Value()).(notifyView := v)
    {
      value := value.(notifyView := v);
    }

    method SetAskDownloadPath(v: bool)
      modifies this
      ensures Value() == old(Value()).(askDownloadPath := v)
    {
      value := value.(askDownloadPath := v);
    }

    method SetDownloadFolder(path: string, bookmark: seq<byte>)
      modifies this
      ensures Value() == old(Value()).(downloadPathBookmark := bookmark, downloadPath := path)
    {
      value := value.(downloadPathBookmark := bookmark, downloadPath := path);
    }

    method SetSendFilesWay(v: SendFilesWay)
      modifies this
      ensures Value() == old(Value()).(sendFilesWay := v)
    {
      value := value.(sendFilesWay := v);
    }

    method SetSongVolumeMillionths(v: int)
      modifies this
      ensures Value() == old(Value()).(songVolumeMillionths := v)
    {
      value := value.(songVolumeMillionths := v);
    }

    method SetVideoVolumeMillionths(v: int)
      modifies this
      ensures Value() == old(Value()).(videoVolumeMillionths := v)
    {
      value := value.(videoVolumeMillionths := v);
    }

    method SetVoiceMsgPlaybackDoubled(v: bool)
      modifies this
      ensures Value() == old(Value()).(voiceMsgPlaybackDoubled := v)
    {
      value := value.(voiceMsgPlaybackDoubled := v);
    }

    method SetCallOutputDeviceId(v: string)
      modifies this
      ensures Value() == old(Value()).(callOutputDeviceId := v)
    {
      value := value.(callOutputDeviceId := v);
    }

    method SetCallOutputVolume(v: i32)
      modifies this
      ensures Value() == old(Value()).(callOutputVolume := v)
    {
      value := value.(callOutputVolume := v);
    }

    method SetCallInputDeviceId(v: string)
      modifies this
      ensures Value() == old(Value()).(callInputDeviceId := v)
    {
      value := value.(callInputDeviceId := v);
    }

    method SetCallInputVolume(v: i32)
      modifies this
      ensures Value() == old(Value()).(callInputVolume := v)
    {
      value := value.(callInputVolume := v);
    }

    method SetCallAudioDuckingEnabled(v: bool)
      modifies this
      ensures Value() == old(Value()).(callAudioDuckingEnabled := v)
    {
      value := value.(callAudioDuckingEnabled := v);
    }

    constructor (v: AppSettingsValue)
      ensures Value() == v
    {
      value := v;
    }
  }

  /** The process-wide settings the decoder sets through the `c*`,
      `Global::*`, animation and theme setters. */
  class Globals {
    var value: GlobalsValue

    function Value(): GlobalsValue
      reads this
    {
      value
    }

    method SetAutoStart(v: bool)
      modifies this
      ensures Value() == old(Value()).(autoStart := v)
    {
      value := value.(autoStart := v);
    }

    method SetStartMinimized(v: bool)
      modifies this
      ensures Value() == old(Value()).(startMinimized := v)
    {
      value := value.(startMinimized := v);
    }

    method SetSendToMenu(v: bool)
      modifies this
      ensures Value() == old(Value()).(sendToMenu := v)
    {
      value := value.(sendToMenu := v);
    }

    method SetUseExternalVideoPlayer(v: bool)
      modifies this
      ensures Value() == old(Value()).(useExternalVideoPlayer := v)
    {
      value := value.(useExternalVideoPlayer := v);
    }

    method SetAnimationsDisabled(v: bool)
      modifies this
      ensures Value() == old(Value()).(animationsDisabled := v)
    {
      value := value.(animationsDisabled := v);
    }

    method SetWorkMode(v: WorkModeValue)
      modifies this
      ensures Value() == old(Value()).(workMode := v)
    {
      value := value.(workMode := v);
    }

    method SetProxyState(list: seq<Proxy>, selected: Proxy, settings: ProxySettings)
      modifies this
      ensures Value() == old(Value()).(proxiesList := list, selectedProxy := selected, proxySettings := settings)
    {
      value := value.(proxiesList := list, selectedProxy := selected, proxySettings := settings);
    }

    method SetUseProxyForCalls(v: bool)
      modifies this
      ensures Value() == old(Value()).(useProxyForCalls := v)
    {
      value := value.(useProxyForCalls := v);
    }

    method SetNightMode(v: bool)
      modifies this
      ensures Value() == old(Value()).(nightMode := v)
    {
      value := value.(nightMode := v);
    }

    method SetTryIPv6(v: bool)
      modifies this
      ensures Value() == old(Value()).(tryIPv6 := v)
    {
      value := value.(tryIPv6 := v);
    }

    method SetSeenTrayTooltip(v: bool)
      modifies this
      ensures Value() == old(Value()).(seenTrayTooltip := v)
    {
      value := value.(seenTrayTooltip := v);
    }

    method SetAutoUpdate(v: bool)
      modifies this
      ensures Value() == old(Value()).(autoUpdate := v)
    {
      value := value.(autoUpdate := v);
    }

    method SetLastUpdateCheck(v: i32)
      modifies this
      ensures Value() == old(Value()).(lastUpdateCheck := v)
    {
      value := value.(lastUpdateCheck := v);
    }

    method SetScale(v: int)
      modifies this
      ensures Value() == old(Value()).(scale := v)
    {
      value := value.(scale := v);
    }

    method SetWindowPos(v: WindowPos)
      modifies this
      ensures Value() == old(Value()).(windowPos := v)
    {
      value := value.(windowPos := v);
    }

    method SetRecentEmojiPreload(v: seq<(string, u16)>)
      modifies this
      ensures Value() == old(Value()).(recentEmojiPreload := v)
    {
      value := value.(recentEmojiPreload := v);
    }

    method SetRecentStickersPreload(v: seq<(u64, u16)>)
      modifies this
      ensures Value() == old(Value()).(recentStickersPreload := v)
    {
      value := value.(recentStickersPreload := v);
    }

    method SetEmojiVariants(v: map<string, int>)
      modifies this
      ensures Value() == old(Value()).(emojiVariants := v)
    {
      value := value.(emojiVariants := v);
    }

    method SetDialogLastPath(v: string)
      modifies this
      ensures Value() == old(Value()).(dialogLastPath := v)
    {
      value := value.(dialogLastPath := v);
    }

    constructor (v: GlobalsValue)
      ensures Value() == v
    {
      value := v;
    }
  }
}
