# Legacy settings decoder of Telegram Desktop, modelled in Dafny

This project models the decoder of Telegram Desktop's legacy settings file.
The decoder lives in `Telegram/SourceFiles/storage/details/storage_settings_scheme.cpp`.
Three parts are modelled:

- `NoTimeLimit`: the three stored values that mean "no cache time limit".
- `ReadSetting`: decodes one settings block, chosen by its block id, from a
  `QDataStream`. It writes the migration context (`ReadSettingsContext`), the
  application settings (`Core::App().settings()`) and the globals (`Global::`,
  `c*` settings, `anim::`, the scale). It returns whether the caller may go on
  reading the stream.
- `ApplyReadFallbackConfig`: after every block is read, it either rebuilds the
  fallback production configuration from the stored blob or patches it with
  the legacy limits the oldest blocks left in the context.

## How the model is laid out

- `Ints`: the 32- and 64-bit conversions the C++ code relies on.
- `Stream`: the stream as a sequence of typed fields, a read position and the
  status flag that `CheckStreamStatus` tests. `Stream.Cursor` is the stream
  object the decoder reads from in place.
- `Types`: the block ids, the values of the three written objects, and the
  foreign functions the decoder calls, passed in as the `Env` parameter.
  A block id is grouped by the object it writes (`LegacyConfigBlock`,
  `CacheBlock`, ...); any id not handled is `Unrecognised`.
- `State`: the three written objects as classes (`Context`, `AppSettings`,
  `Globals`). Each holds one value and has one setter per setting.
- `SettingsSpec`: what every block does, as functions of the values.
  `ReadSettingSpec` gives, for a block id, a stream and the three values,
  an `Outcome`: `Applied(world, rest)` or `Failed(rest)`.
- `CacheLimits`, `ProxyList`, `EmojiMigration`: the validation and conversion
  logic some blocks share. This covers the cache-limit sentinels, the proxy
  list with its selected-index adjustment (the decoder runs it as the C++
  text writes it; the intended rule is modelled beside it), and the recent-emoji and
  colour-variant migration.
- `LegacyConfigBlocks` ... `DiscardedBlocks`, then `Decoder`: the imperative
  decoder. There is one method per block, grouped as the ids are, and
  `Decoder.ReadSetting` dispatches on the id. Each method reads through the
  cursor, makes the status check, then calls the setters. Each is proved to
  produce the outcome `SettingsSpec` gives. When it returns false, the
  context, the application settings and the globals are exactly as they were.
- `BlockProperties`: the properties of the blocks, stated over
  `ReadSettingSpec`. These cover the bad-stream and unknown-id failures,
  cache and send-key validation, the emoji remap, what each group of blocks
  writes, and a settings invariant every block keeps.
- `FallbackConfig`: `ApplyReadFallbackConfig` over the fallback configuration
  object, with its precedence rules.

All line numbers below refer to
`Telegram/SourceFiles/storage/details/storage_settings_scheme.cpp`.

## Model

| member | source | states |
|---|---|---|
| AppInterfaceBlocks.ReadApplicationSettings | Telegram/SourceFiles/storage/details/storage_settings_scheme.cpp:83-89 | Follows `ApplicationSettingsSpec`: on false, which is returned exactly when the stream status check after the reads fails, the context, settings and globals are exactly as before; otherwise it keeps the serialised application settings read, writing nothing else |
| AppInterfaceBlocks.ReadSoundFlashBounceNotifyOld | Telegram/SourceFiles/storage/details/storage_settings_scheme.cpp:237-244 | Follows `SoundFlashBounceNotifyOldSpec`: on false, which is returned exactly when the stream status check after the reads fails, the context, settings and globals are exactly as before; otherwise it bit 0 turns sound on, bit 1 turns flashing off, writing nothing else |
| AppInterfaceBlocks.ReadModerateModeOld | Telegram/SourceFiles/storage/details/storage_settings_scheme.cpp:313-319 | Follows `ModerateModeOldSpec`: on false, which is returned exactly when the stream status check after the reads fails, the context, settings and globals are exactly as before; otherwise it sets moderate mode when the value read is 1, writing nothing else |
| AppInterfaceBlocks.ReadIncludeMutedOld | Telegram/SourceFiles/storage/details/storage_settings_scheme.cpp:321-327 | Follows `IncludeMutedOldSpec`: on false, which is returned exactly when the stream status check after the reads fails, the context, settings and globals are exactly as before; otherwise it sets include-muted when the value read is 1, writing nothing else |
| AppInterfaceBlocks.ReadDesktopNotifyOld | Telegram/SourceFiles/storage/details/storage_settings_scheme.cpp:335-341 | Follows `DesktopNotifyOldSpec`: on false, which is returned exactly when the stream status check after the reads fails, the context, settings and globals are exactly as before; otherwise it sets desktop notifications when the value read is 1, writing nothing else |
| AppInterfaceBlocks.ReadNativeNotificationsOld | Telegram/SourceFiles/storage/details/storage_settings_scheme.cpp:349-355 | Follows `NativeNotificationsOldSpec`: on false, which is returned exactly when the stream status check after the reads fails, the context, settings and globals are exactly as before; otherwise it sets native notifications when the value read is 1, writing nothing else |
| AppInterfaceBlocks.ReadNotificationsCountOld | Telegram/SourceFiles/storage/details/storage_settings_scheme.cpp:357-363 | Follows `NotificationsCountOldSpec`: on false, which is returned exactly when the stream status check after the reads fails, the context, settings and globals are exactly as before; otherwise it stores the count, a non-positive one meaning 3, writing nothing else |
| AppInterfaceBlocks.ReadNotificationsCornerOld | Telegram/SourceFiles/storage/details/storage_settings_scheme.cpp:365-371 | Follows `NotificationsCornerOldSpec`: on false, which is returned exactly when the stream status check after the reads fails, the context, settings and globals are exactly as before; otherwise it stores the corner, values outside 0..3 meaning 2, writing nothing else |
| AppInterfaceBlocks.ReadDialogsWidthRatioOld | Telegram/SourceFiles/storage/details/storage_settings_scheme.cpp:373-379 | Follows `DialogsWidthRatioOldSpec`: on false, which is returned exactly when the stream status check after the reads fails, the context, settings and globals are exactly as before; otherwise it stores the ratio read, in millionths, writing nothing else |
| AppInterfaceBlocks.ReadLastSeenWarningSeenOld | Telegram/SourceFiles/storage/details/storage_settings_scheme.cpp:381-387 | Follows `LastSeenWarningSeenOldSpec`: on false, which is returned exactly when the stream status check after the reads fails, the context, settings and globals are exactly as before; otherwise it sets the last-seen warning flag when the value read is 1, writing nothing else |
| AppInterfaceBlocks.ReadSendKeyOld | Telegram/SourceFiles/storage/details/storage_settings_scheme.cpp:720-733 | Follows `SendKeyOldSpec`: on false, which is returned exactly when the stream status check after the reads fails or the values read are rejected, the context, settings and globals are exactly as before; otherwise it fails, changing nothing, unless the value is Enter or Ctrl+Enter, which it stores, writing nothing else |
| AppInterfaceBlocks.ReadAdaptiveForWideOld | Telegram/SourceFiles/storage/details/storage_settings_scheme.cpp:767-773 | Follows `AdaptiveForWideOldSpec`: on false, which is returned exactly when the stream status check after the reads fails, the context, settings and globals are exactly as before; otherwise it sets adaptive-for-wide when the value read is 1, writing nothing else |
| AppInterfaceBlocks.ReadAutoLockOld | Telegram/SourceFiles/storage/details/storage_settings_scheme.cpp:775-782 | Follows `AutoLockOldSpec`: on false, which is returned exactly when the stream status check after the reads fails, the context, settings and globals are exactly as before; otherwise it stores the auto-lock time, writing nothing else |
| AppInterfaceBlocks.ReadNotifyViewOld | Telegram/SourceFiles/storage/details/storage_settings_scheme.cpp:814-824 | Follows `NotifyViewOldSpec`: on false, which is returned exactly when the stream status check after the reads fails, the context, settings and globals are exactly as before; otherwise it stores the notification view, unknown values meaning the full preview, writing nothing else |
| AppInterfaceBlocks.ReadAppInterface | Telegram/SourceFiles/storage/details/storage_settings_scheme.cpp:39-1054 | Dispatches each block id of the group writing the notification, chat-window and send settings to its reader; the outcome is `AppInterfaceSpec` and on false, which is returned exactly when the chosen block's reader returns false, the context, settings and globals are exactly as before |
| AppMediaBlocks.ReadReplaceEmojiOld | Telegram/SourceFiles/storage/details/storage_settings_scheme.cpp:784-790 | Follows `ReplaceEmojiOldSpec`: on false, which is returned exactly when the stream status check after the reads fails, the context, settings and globals are exactly as before; otherwise it sets emoji replacement when the value read is 1, writing nothing else |
| AppMediaBlocks.ReadSuggestEmojiOld | Telegram/SourceFiles/storage/details/storage_settings_scheme.cpp:792-798 | Follows `SuggestEmojiOldSpec`: on false, which is returned exactly when the stream status check after the reads fails, the context, settings and globals are exactly as before; otherwise it sets emoji suggestion when the value read is 1, writing nothing else |
| AppMediaBlocks.ReadSuggestStickersByEmojiOld | Telegram/SourceFiles/storage/details/storage_settings_scheme.cpp:800-806 | Follows `SuggestStickersByEmojiOldSpec`: on false, which is returned exactly when the stream status check after the reads fails, the context, settings and globals are exactly as before; otherwise it sets sticker suggestion when the value read is 1, writing nothing else |
| AppMediaBlocks.ReadAskDownloadPathOld | Telegram/SourceFiles/storage/details/storage_settings_scheme.cpp:826-832 | Follows `AskDownloadPathOldSpec`: on false, which is returned exactly when the stream status check after the reads fails, the context, settings and globals are exactly as before; otherwise it sets ask-download-path when the value read is 1, writing nothing else |
| AppMediaBlocks.ReadDownloadPathOldOld | Telegram/SourceFiles/storage/details/storage_settings_scheme.cpp:834-843 | Follows `DownloadPathOldOldSpec`: on false, which is returned exactly when the stream status check after the reads fails, the context, settings and globals are exactly as before; otherwise it stores the normalised download folder and clears the bookmark, writing nothing else |
| AppMediaBlocks.ReadDownloadPathOld | Telegram/SourceFiles/storage/details/storage_settings_scheme.cpp:845-857 | Follows `DownloadPathOldSpec`: on false, which is returned exactly when the stream status check after the reads fails, the context, settings and globals are exactly as before; otherwise it stores the normalised download folder and the bookmark read, writing nothing else |
| AppMediaBlocks.ReadCompressPastedImageOld | Telegram/SourceFiles/storage/details/storage_settings_scheme.cpp:859-867 | Follows `CompressPastedImageOldSpec`: on false, which is returned exactly when the stream status check after the reads fails, the context, settings and globals are exactly as before; otherwise it a value of 1 sends files as an album, any other as files, writing nothing else |
| AppMediaBlocks.ReadSongVolumeOld | Telegram/SourceFiles/storage/details/storage_settings_scheme.cpp:988-994 | Follows `SongVolumeOldSpec`: on false, which is returned exactly when the stream status check after the reads fails, the context, settings and globals are exactly as before; otherwise it stores the song volume clamped to [0, 1], writing nothing else |
| AppMediaBlocks.ReadVideoVolumeOld | Telegram/SourceFiles/storage/details/storage_settings_scheme.cpp:996-1002 | Follows `VideoVolumeOldSpec`: on false, which is returned exactly when the stream status check after the reads fails, the context, settings and globals are exactly as before; otherwise it stores the video volume clamped to [0, 1], writing nothing else |
| AppMediaBlocks.ReadPlaybackSpeedOld | Telegram/SourceFiles/storage/details/storage_settings_scheme.cpp:1004-1010 | Follows `PlaybackSpeedOldSpec`: on false, which is returned exactly when the stream status check after the reads fails, the context, settings and globals are exactly as before; otherwise it sets doubled voice playback when the value read is 2, writing nothing else |
| AppMediaBlocks.ReadCallSettingsOld | Telegram/SourceFiles/storage/details/storage_settings_scheme.cpp:1012-1038 | Follows `CallSettingsOldSpec`: on false, which is returned exactly when the stream status check after the reads fails, the context, settings and globals are exactly as before; otherwise it stores the five call settings when the sub-stream decodes, nothing otherwise, writing nothing else |
| AppMediaBlocks.ReadAppMedia | Telegram/SourceFiles/storage/details/storage_settings_scheme.cpp:39-1054 | Dispatches each block id of the group writing the emoji-suggestion, download, volume and call settings to its reader; the outcome is `AppMediaSpec` and on false, which is returned exactly when the chosen block's reader returns false, the context, settings and globals are exactly as before |
| CacheBlocks.ReadCacheSettingsOld | Telegram/SourceFiles/storage/details/storage_settings_scheme.cpp:194-207 | Follows `CacheSettingsOldSpec`: on false, which is returned exactly when the stream status check after the reads fails or the values read are rejected, the context, settings and globals are exactly as before; otherwise it fails, changing nothing, when the size is not above the largest entry or the time is negative and not a sentinel; otherwise stores size and time (a sentinel as 0) for both caches, writing nothing else |
| CacheBlocks.ReadCacheSettings | Telegram/SourceFiles/storage/details/storage_settings_scheme.cpp:209-225 | Follows `CacheSettingsSpec`: on false, which is returned exactly when the stream status check after the reads fails or the values read are rejected, the context, settings and globals are exactly as before; otherwise it fails, changing nothing, when either size is not above the largest entry or either time is negative and not a sentinel; otherwise stores the four limits, sentinel times as 0, writing nothing else |
| CacheBlocks.ReadCache | Telegram/SourceFiles/storage/details/storage_settings_scheme.cpp:39-1054 | Dispatches each block id of the group writing the cache limits to its reader; the outcome is `CacheSpec` and on false, which is returned exactly when the chosen block's reader returns false, the context, settings and globals are exactly as before |
| DiscardedBlocks.ReadDialogsModeOld | Telegram/SourceFiles/storage/details/storage_settings_scheme.cpp:299-303 | Follows `DialogsModeOldSpec`: on false, which is returned exactly when the stream status check after the reads fails, the context, settings and globals are exactly as before; otherwise it reads two values and changes nothing, writing nothing else |
| DiscardedBlocks.ReadShowingSavedGifsOld | Telegram/SourceFiles/storage/details/storage_settings_scheme.cpp:329-333 | Follows `ShowingSavedGifsOldSpec`: on false, which is returned exactly when the stream status check after the reads fails, the context, settings and globals are exactly as before; otherwise it reads one value and changes nothing, writing nothing else |
| DiscardedBlocks.ReadWindowsNotificationsOld | Telegram/SourceFiles/storage/details/storage_settings_scheme.cpp:343-347 | Follows `WindowsNotificationsOldSpec`: on false, which is returned exactly when the stream status check after the reads fails, the context, settings and globals are exactly as before; otherwise it reads one value and changes nothing, writing nothing else |
| DiscardedBlocks.ReadTxtDomainStringOldOld | Telegram/SourceFiles/storage/details/storage_settings_scheme.cpp:412-416 | Follows `TxtDomainStringOldOldSpec`: on false, which is returned exactly when the stream status check after the reads fails, the context, settings and globals are exactly as before; otherwise it reads one string and changes nothing, writing nothing else |
| DiscardedBlocks.ReadLangOld | Telegram/SourceFiles/storage/details/storage_settings_scheme.cpp:674-678 | Follows `LangOldSpec`: on false, which is returned exactly when the stream status check after the reads fails, the context, settings and globals are exactly as before; otherwise it reads one value and changes nothing, writing nothing else |
| DiscardedBlocks.ReadLangFileOld | Telegram/SourceFiles/storage/details/storage_settings_scheme.cpp:680-684 | Follows `LangFileOldSpec`: on false, which is returned exactly when the stream status check after the reads fails, the context, settings and globals are exactly as before; otherwise it reads one string and changes nothing, writing nothing else |
| DiscardedBlocks.ReadLoggedPhoneNumberOld | Telegram/SourceFiles/storage/details/storage_settings_scheme.cpp:696-700 | Follows `LoggedPhoneNumberOldSpec`: on false, which is returned exactly when the stream status check after the reads fails, the context, settings and globals are exactly as before; otherwise it reads one string and changes nothing, writing nothing else |
| DiscardedBlocks.ReadMutePeerOld | Telegram/SourceFiles/storage/details/storage_settings_scheme.cpp:702-706 | Follows `MutePeerOldSpec`: on false, which is returned exactly when the stream status check after the reads fails, the context, settings and globals are exactly as before; otherwise it reads one peer id and changes nothing, writing nothing else |
| DiscardedBlocks.ReadMutedPeersOld | Telegram/SourceFiles/storage/details/storage_settings_scheme.cpp:708-718 | Follows `MutedPeersOldSpec`: on false, which is returned exactly when the stream status check after the reads fails, the context, settings and globals are exactly as before; otherwise it reads a count and that many peer ids and changes nothing, writing nothing else |
| DiscardedBlocks.ReadCatsAndDogs | Telegram/SourceFiles/storage/details/storage_settings_scheme.cpp:735-739 | Follows `CatsAndDogsSpec`: on false, which is returned exactly when the stream status check after the reads fails, the context, settings and globals are exactly as before; otherwise it reads one value and changes nothing, writing nothing else |
| DiscardedBlocks.ReadDefaultAttach | Telegram/SourceFiles/storage/details/storage_settings_scheme.cpp:808-812 | Follows `DefaultAttachSpec`: on false, which is returned exactly when the stream status check after the reads fails, the context, settings and globals are exactly as before; otherwise it reads one value and changes nothing, writing nothing else |
| DiscardedBlocks.ReadEmojiTabOld | Telegram/SourceFiles/storage/details/storage_settings_scheme.cpp:869-875 | Follows `EmojiTabOldSpec`: on false, which is returned exactly when the stream status check after the reads fails, the context, settings and globals are exactly as before; otherwise it reads one value and changes nothing, writing nothing else |
| DiscardedBlocks.ReadDiscarded | Telegram/SourceFiles/storage/details/storage_settings_scheme.cpp:39-1054 | Dispatches each block id of the group writing the deprecated values it reads and drops to its reader; the outcome is `DiscardedSpec` and on false, which is returned exactly when the chosen block's reader returns false, the context, settings and globals are exactly as before |
| EmojiBlocks.ReadRecentEmojiOldOld | Telegram/SourceFiles/storage/details/storage_settings_scheme.cpp:877-906 | Follows `RecentEmojiOldOldSpec`: on false, which is returned exactly when the stream status check after the reads fails, the context, settings and globals are exactly as before; otherwise it a non-empty list replaces the recent emoji with its entries, legacy flag keys remapped, converted in order and those without an emoji dropped; an empty list changes nothing, writing nothing else |
| EmojiBlocks.ReadRecentEmojiOld | Telegram/SourceFiles/storage/details/storage_settings_scheme.cpp:908-924 | Follows `RecentEmojiOldSpec`: on false, which is returned exactly when the stream status check after the reads fails, the context, settings and globals are exactly as before; otherwise it a non-empty list replaces the recent emoji with its entries converted in order, those without an emoji dropped; an empty list changes nothing, writing nothing else |
| EmojiBlocks.ReadRecentEmoji | Telegram/SourceFiles/storage/details/storage_settings_scheme.cpp:926-932 | Follows `RecentEmojiSpec`: on false, which is returned exactly when the stream status check after the reads fails, the context, settings and globals are exactly as before; otherwise it replaces the recent emoji with the list read, writing nothing else |
| EmojiBlocks.ReadRecentStickers | Telegram/SourceFiles/storage/details/storage_settings_scheme.cpp:934-940 | Follows `RecentStickersSpec`: on false, which is returned exactly when the stream status check after the reads fails, the context, settings and globals are exactly as before; otherwise it replaces the recent stickers with the list read, writing nothing else |
| EmojiBlocks.ReadEmojiVariantsOld | Telegram/SourceFiles/storage/details/storage_settings_scheme.cpp:942-958 | Follows `EmojiVariantsOldSpec`: on false, which is returned exactly when the stream status check after the reads fails, the context, settings and globals are exactly as before; otherwise it replaces the colour variants with the converted map, entries without an emoji dropped, writing nothing else |
| EmojiBlocks.ReadEmojiVariants | Telegram/SourceFiles/storage/details/storage_settings_scheme.cpp:960-966 | Follows `EmojiVariantsSpec`: on false, which is returned exactly when the stream status check after the reads fails, the context, settings and globals are exactly as before; otherwise it replaces the colour variants with the map read, writing nothing else |
| EmojiBlocks.ReadEmoji | Telegram/SourceFiles/storage/details/storage_settings_scheme.cpp:39-1054 | Dispatches each block id of the group writing the recent emoji, stickers and colour variants to its reader; the outcome is `EmojiSpec` and on false, which is returned exactly when the chosen block's reader returns false, the context, settings and globals are exactly as before |
| GlobalFlagBlocks.ReadAutoStart | Telegram/SourceFiles/storage/details/storage_settings_scheme.cpp:162-168 | Follows `AutoStartSpec`: on false, which is returned exactly when the stream status check after the reads fails, the context, settings and globals are exactly as before; otherwise it sets auto-start when the value read is 1, writing nothing else |
| GlobalFlagBlocks.ReadStartMinimized | Telegram/SourceFiles/storage/details/storage_settings_scheme.cpp:170-176 | Follows `StartMinimizedSpec`: on false, which is returned exactly when the stream status check after the reads fails, the context, settings and globals are exactly as before; otherwise it sets start-minimized when the value read is 1, writing nothing else |
| GlobalFlagBlocks.ReadSendToMenu | Telegram/SourceFiles/storage/details/storage_settings_scheme.cpp:178-184 | Follows `SendToMenuSpec`: on false, which is returned exactly when the stream status check after the reads fails, the context, settings and globals are exactly as before; otherwise it sets the send-to menu entry when the value read is 1, writing nothing else |
| GlobalFlagBlocks.ReadUseExternalVideoPlayer | Telegram/SourceFiles/storage/details/storage_settings_scheme.cpp:186-192 | Follows `UseExternalVideoPlayerSpec`: on false, which is returned exactly when the stream status check after the reads fails, the context, settings and globals are exactly as before; otherwise it sets the external video player switch when the value read is 1, writing nothing else |
| GlobalFlagBlocks.ReadAnimationsDisabled | Telegram/SourceFiles/storage/details/storage_settings_scheme.cpp:227-235 | Follows `AnimationsDisabledSpec`: on false, which is returned exactly when the stream status check after the reads fails, the context, settings and globals are exactly as before; otherwise it sets the animations-disabled switch when the value read is 1, writing nothing else |
| GlobalFlagBlocks.ReadWorkMode | Telegram/SourceFiles/storage/details/storage_settings_scheme.cpp:397-410 | Follows `WorkModeSpec`: on false, which is returned exactly when the stream status check after the reads fails, the context, settings and globals are exactly as before; otherwise it sets the work mode, unknown values meaning window and tray, writing nothing else |
| GlobalFlagBlocks.ReadTryIPv6 | Telegram/SourceFiles/storage/details/storage_settings_scheme.cpp:606-612 | Follows `TryIPv6Spec`: on false, which is returned exactly when the stream status check after the reads fails, the context, settings and globals are exactly as before; otherwise it sets try-IPv6 when the value read is 1, writing nothing else |
| GlobalFlagBlocks.ReadSeenTrayTooltip | Telegram/SourceFiles/storage/details/storage_settings_scheme.cpp:614-620 | Follows `SeenTrayTooltipSpec`: on false, which is returned exactly when the stream status check after the reads fails, the context, settings and globals are exactly as before; otherwise it sets the seen-tray-tooltip flag when the value read is 1, writing nothing else |
| GlobalFlagBlocks.ReadAutoUpdate | Telegram/SourceFiles/storage/details/storage_settings_scheme.cpp:622-631 | Follows `AutoUpdateSpec`: on false, which is returned exactly when the stream status check after the reads fails, the context, settings and globals are exactly as before; otherwise it sets auto-update when the value read is 1, writing nothing else |
| GlobalFlagBlocks.ReadLastUpdateCheck | Telegram/SourceFiles/storage/details/storage_settings_scheme.cpp:633-639 | Follows `LastUpdateCheckSpec`: on false, which is returned exactly when the stream status check after the reads fails, the context, settings and globals are exactly as before; otherwise it stores the last update check time, writing nothing else |
| GlobalFlagBlocks.ReadScaleOld | Telegram/SourceFiles/storage/details/storage_settings_scheme.cpp:641-661 | Follows `ScaleOldSpec`: on false, which is returned exactly when the stream status check after the reads fails, the context, settings and globals are exactly as before; otherwise it sets the scale, passed through the `SetScaleChecked` validation, from the five legacy steps, other values keeping the configured scale, writing nothing else |
| GlobalFlagBlocks.ReadScalePercent | Telegram/SourceFiles/storage/details/storage_settings_scheme.cpp:663-672 | Follows `ScalePercentSpec`: on false, which is returned exactly when the stream status check after the reads fails, the context, settings and globals are exactly as before; otherwise it sets the scale read, passed through the `SetScaleChecked` validation, only while the configured scale is automatic, writing nothing else |
| GlobalFlagBlocks.ReadWindowPosition | Telegram/SourceFiles/storage/details/storage_settings_scheme.cpp:686-694 | Follows `WindowPositionSpec`: on false, which is returned exactly when the stream status check after the reads fails, the context, settings and globals are exactly as before; otherwise it stores the six window-position values read, writing nothing else |
| GlobalFlagBlocks.ReadDialogLastPath | Telegram/SourceFiles/storage/details/storage_settings_scheme.cpp:980-986 | Follows `DialogLastPathSpec`: on false, which is returned exactly when the stream status check after the reads fails, the context, settings and globals are exactly as before; otherwise it stores the last dialog path, writing nothing else |
| GlobalFlagBlocks.ReadGlobalFlag | Telegram/SourceFiles/storage/details/storage_settings_scheme.cpp:39-1054 | Dispatches each block id of the group writing the global flags, window position and scale to its reader; the outcome is `GlobalFlagSpec` and on false, which is returned exactly when the chosen block's reader returns false, the context, settings and globals are exactly as before |
| LegacyConfigBlocks.ReadDcOptionOldOld | Telegram/SourceFiles/storage/details/storage_settings_scheme.cpp:45-57 | Follows `DcOptionOldOldSpec`: on false, which is returned exactly when the stream status check after the reads fails, the context, settings and globals are exactly as before; otherwise it appends one DC option built from the id, ip and port read (the host name is read and dropped) to the legacy DC options, writing nothing else |
| LegacyConfigBlocks.ReadDcOptionOld | Telegram/SourceFiles/storage/details/storage_settings_scheme.cpp:59-72 | Follows `DcOptionOldSpec`: on false, which is returned exactly when the stream status check after the reads fails, the context, settings and globals are exactly as before; otherwise it appends one DC option built from the shifted id, flags, ip and port to the legacy DC options, writing nothing else |
| LegacyConfigBlocks.ReadDcOptionsOld | Telegram/SourceFiles/storage/details/storage_settings_scheme.cpp:74-81 | Follows `DcOptionsOldSpec`: on false, which is returned exactly when the stream status check after the reads fails, the context, settings and globals are exactly as before; otherwise it appends the serialised DC option list, kept whole, to the legacy DC options, writing nothing else |
| LegacyConfigBlocks.ReadChatSizeMaxOld | Telegram/SourceFiles/storage/details/storage_settings_scheme.cpp:91-97 | Follows `ChatSizeMaxOldSpec`: on false, which is returned exactly when the stream status check after the reads fails, the context, settings and globals are exactly as before; otherwise it stores the value read as the legacy chat size limit, writing nothing else |
| LegacyConfigBlocks.ReadSavedGifsLimitOld | Telegram/SourceFiles/storage/details/storage_settings_scheme.cpp:99-105 | Follows `SavedGifsLimitOldSpec`: on false, which is returned exactly when the stream status check after the reads fails, the context, settings and globals are exactly as before; otherwise it stores the value read as the legacy saved-GIFs limit, writing nothing else |
| LegacyConfigBlocks.ReadStickersRecentLimitOld | Telegram/SourceFiles/storage/details/storage_settings_scheme.cpp:107-113 | Follows `StickersRecentLimitOldSpec`: on false, which is returned exactly when the stream status check after the reads fails, the context, settings and globals are exactly as before; otherwise it stores the value read as the legacy recent-stickers limit, writing nothing else |
| LegacyConfigBlocks.ReadStickersFavedLimitOld | Telegram/SourceFiles/storage/details/storage_settings_scheme.cpp:115-121 | Follows `StickersFavedLimitOldSpec`: on false, which is returned exactly when the stream status check after the reads fails, the context, settings and globals are exactly as before; otherwise it stores the value read as the legacy faved-stickers limit, writing nothing else |
| LegacyConfigBlocks.ReadMegagroupSizeMaxOld | Telegram/SourceFiles/storage/details/storage_settings_scheme.cpp:123-129 | Follows `MegagroupSizeMaxOldSpec`: on false, which is returned exactly when the stream status check after the reads fails, the context, settings and globals are exactly as before; otherwise it stores the value read as the legacy megagroup size limit, writing nothing else |
| LegacyConfigBlocks.ReadTxtDomainStringOld | Telegram/SourceFiles/storage/details/storage_settings_scheme.cpp:418-424 | Follows `TxtDomainStringOldSpec`: on false, which is returned exactly when the stream status check after the reads fails, the context, settings and globals are exactly as before; otherwise it stores the string read as the legacy TXT domain, writing nothing else |
| LegacyConfigBlocks.ReadFallbackProductionConfig | Telegram/SourceFiles/storage/details/storage_settings_scheme.cpp:1040-1046 | Follows `FallbackProductionConfigSpec`: on false, which is returned exactly when the stream status check after the reads fails, the context, settings and globals are exactly as before; otherwise it stores the blob read as the serialised fallback config, writing nothing else |
| LegacyConfigBlocks.ReadUser | Telegram/SourceFiles/storage/details/storage_settings_scheme.cpp:131-140 | Follows `UserSpec`: on false, which is returned exactly when the stream status check after the reads fails, the context, settings and globals are exactly as before; otherwise it stores the user id and main DC id read, writing nothing else |
| LegacyConfigBlocks.ReadLegacyKey | Telegram/SourceFiles/storage/details/storage_settings_scheme.cpp:142-152 | Follows `KeySpec`: on false, which is returned exactly when the stream status check after the reads fails, the context, settings and globals are exactly as before; otherwise it appends the DC id and 256-byte key read to the legacy keys, writing nothing else |
| LegacyConfigBlocks.ReadMtpAuthorization | Telegram/SourceFiles/storage/details/storage_settings_scheme.cpp:154-160 | Follows `MtpAuthorizationSpec`: on false, which is returned exactly when the stream status check after the reads fails, the context, settings and globals are exactly as before; otherwise it stores the bytes read as the MTP authorization, writing nothing else |
| LegacyConfigBlocks.ReadLegacyConfig | Telegram/SourceFiles/storage/details/storage_settings_scheme.cpp:39-1054 | Dispatches each block id of the group writing the legacy DC options, limits, keys and user that feed the fallback configuration to its reader; the outcome is `LegacyConfigSpec` and on false, which is returned exactly when the chosen block's reader returns false, the context, settings and globals are exactly as before |
| ProxyBlocks.ReadProxyBlock | Telegram/SourceFiles/storage/details/storage_settings_scheme.cpp:39-1054 | Dispatches each block id of the group writing the proxy settings to its reader; the outcome is `ProxySpec` and on false, which is returned exactly when the chosen block's reader returns false, the context, settings and globals are exactly as before |
| SessionBlocks.ReadAutoDownloadOld | Telegram/SourceFiles/storage/details/storage_settings_scheme.cpp:246-271 | Follows `AutoDownloadOldSpec`: on false, which is returned exactly when the stream status check after the reads fails, the context, settings and globals are exactly as before; otherwise it applies the three legacy masks (bit 0 private chats, bit 1 groups and channels) to the photo, voice-message, and GIF and round-video limits, the GIF mask serving both, writing nothing else |
| SessionBlocks.ReadAutoPlayOld | Telegram/SourceFiles/storage/details/storage_settings_scheme.cpp:273-297 | Follows `AutoPlayOldSpec`: on false, which is returned exactly when the stream status check after the reads fails, the context, settings and globals are exactly as before; otherwise it a zero value zeroes every autoplay limit; any other changes nothing, writing nothing else |
| SessionBlocks.ReadDialogsFiltersOld | Telegram/SourceFiles/storage/details/storage_settings_scheme.cpp:305-311 | Follows `DialogsFiltersOldSpec`: on false, which is returned exactly when the stream status check after the reads fails, the context, settings and globals are exactly as before; otherwise it stores whether the value read is 1 as the chat-filters switch, writing nothing else |
| SessionBlocks.ReadSessionSettings | Telegram/SourceFiles/storage/details/storage_settings_scheme.cpp:389-395 | Follows `SessionSettingsSpec`: on false, which is returned exactly when the stream status check after the reads fails, the context, settings and globals are exactly as before; otherwise it keeps the serialised session settings read, writing nothing else |
| SessionBlocks.ReadHiddenPinnedMessagesOld | Telegram/SourceFiles/storage/details/storage_settings_scheme.cpp:968-978 | Follows `HiddenPinnedMessagesOldSpec`: on false, which is returned exactly when the stream status check after the reads fails, the context, settings and globals are exactly as before; otherwise it hands every stored (peer, message) pair to the session settings, later pairs overriding, writing nothing else |
| SessionBlocks.ReadSession | Telegram/SourceFiles/storage/details/storage_settings_scheme.cpp:39-1054 | Dispatches each block id of the group writing the session settings held by the context to its reader; the outcome is `SessionSpec` and on false, which is returned exactly when the chosen block's reader returns false, the context, settings and globals are exactly as before |
| ThemeBlocks.ReadThemeKeyOld | Telegram/SourceFiles/storage/details/storage_settings_scheme.cpp:561-567 | Follows `ThemeKeyOldSpec`: on false, which is returned exactly when the stream status check after the reads fails, the context, settings and globals are exactly as before; otherwise it stores the legacy theme key, writing nothing else |
| ThemeBlocks.ReadThemeKey | Telegram/SourceFiles/storage/details/storage_settings_scheme.cpp:569-578 | Follows `ThemeKeySpec`: on false, which is returned exactly when the stream status check after the reads fails, the context, settings and globals are exactly as before; otherwise it stores the day and night theme keys and sets night mode when the flag read is 1, writing nothing else |
| ThemeBlocks.ReadBackgroundKey | Telegram/SourceFiles/storage/details/storage_settings_scheme.cpp:580-588 | Follows `BackgroundKeySpec`: on false, which is returned exactly when the stream status check after the reads fails, the context, settings and globals are exactly as before; otherwise it stores the day and night background keys and marks them read, writing nothing else |
| ThemeBlocks.ReadLangPackKey | Telegram/SourceFiles/storage/details/storage_settings_scheme.cpp:590-596 | Follows `LangPackKeySpec`: on false, which is returned exactly when the stream status check after the reads fails, the context, settings and globals are exactly as before; otherwise it stores the language pack key, writing nothing else |
| ThemeBlocks.ReadLanguagesKey | Telegram/SourceFiles/storage/details/storage_settings_scheme.cpp:598-604 | Follows `LanguagesKeySpec`: on false, which is returned exactly when the stream status check after the reads fails, the context, settings and globals are exactly as before; otherwise it stores the languages key, writing nothing else |
| ThemeBlocks.ReadTileBackgroundOld | Telegram/SourceFiles/storage/details/storage_settings_scheme.cpp:741-755 | Follows `TileBackgroundOldSpec`: on false, which is returned exactly when the stream status check after the reads fails, the context, settings and globals are exactly as before; otherwise it stores the tiling flag (forced off before version 8005 without a custom day background) in the day slot when night mode is on, the night slot otherwise, and marks tiling read, writing nothing else |
| ThemeBlocks.ReadTileBackground | Telegram/SourceFiles/storage/details/storage_settings_scheme.cpp:757-765 | Follows `TileBackgroundSpec`: on false, which is returned exactly when the stream status check after the reads fails, the context, settings and globals are exactly as before; otherwise it stores the day and night tiling flags and marks tiling read, writing nothing else |
| ThemeBlocks.ReadTheme | Telegram/SourceFiles/storage/details/storage_settings_scheme.cpp:39-1054 | Dispatches each block id of the group writing the theme, language and background keys to its reader; the outcome is `ThemeSpec` and on false, which is returned exactly when the chosen block's reader returns false, the context, settings and globals are exactly as before |
| Decoder.ReadSetting | Telegram/SourceFiles/storage/details/storage_settings_scheme.cpp:39-1054 | The outcome of decoding one block is `ReadSettingSpec` for every block id; false exactly when that outcome fails, and then the context, settings and globals are exactly as before; an unrecognised id fails |
| ProxyBlocks.ReadProxyRecord | Telegram/SourceFiles/storage/details/storage_settings_scheme.cpp:464-481 | Reads one proxy sub-record, leaving the cursor and proxy that `ProxyList.ReadProxy` prescribes |
| ProxyBlocks.ReadProxyListEntries | Telegram/SourceFiles/storage/details/storage_settings_scheme.cpp:494-504 | The loop over the sub-records: the cursor ends where `count` sub-records end, the list is exactly the usable ones in order (`Kept`) and the index is `IndexAfterAsWritten`, the C++ unsigned-comparison rule |
| ProxyBlocks.AdjustForSkipped | Telegram/SourceFiles/storage/details/storage_settings_scheme.cpp:499-503 | The index adjustment for one skipped entry, with both comparisons made on unsigned 64-bit values and the increment or decrement wrapping on 32 bits, exactly `SkipAdjustAsWritten` |
| ProxyBlocks.ReadConnectionTypeOld | Telegram/SourceFiles/storage/details/storage_settings_scheme.cpp:426-455 | Follows `ConnectionTypeOldSpec`: on false, which is returned exactly when the stream status check after the reads fails, the context, settings and globals are exactly as before; otherwise the one proxy record read (only for the two proxy connection types) becomes the list, the selected proxy and the Enabled mode if usable, else the list is emptied and the mode is System |
| ProxyBlocks.ReadOldProxyRecord | Telegram/SourceFiles/storage/details/storage_settings_scheme.cpp:431-443 | Reads the proxy record of the oldest block exactly as `OldProxyRecord` describes: nothing is read for other connection types |
| ProxyBlocks.ReadConnectionType | Telegram/SourceFiles/storage/details/storage_settings_scheme.cpp:457-559 | Follows `ConnectionTypeSpec`: on false, which is returned exactly when the stream status check after the reads fails, the context, settings and globals are exactly as before; otherwise the two list types go to the list reader and every other type to the single-record reader |
| ProxyBlocks.ReadProxyList | Telegram/SourceFiles/storage/details/storage_settings_scheme.cpp:486-537 | Follows `ProxyListSpec`: on false, which is returned exactly when the stream status check after the reads fails, the context, settings and globals are exactly as before; otherwise the globals get the kept proxies, the selected proxy, the normalised mode and the calls flag |
| ProxyBlocks.ReadProxyListBody | Telegram/SourceFiles/storage/details/storage_settings_scheme.cpp:489-537 | Follows `ProxyListBodySpec`, the list after its header, under the same no-change-on-failure guarantee |
| ProxyBlocks.ReadProxyListHeader | Telegram/SourceFiles/storage/details/storage_settings_scheme.cpp:486-488 | Reads the count and index, and the mode and calls flag only in the current format, as `ProxyListHeader` prescribes (0 and 0 in the oldest format) |
| ProxyBlocks.StoreProxyList | Telegram/SourceFiles/storage/details/storage_settings_scheme.cpp:509-535 | Sets the proxy list, the selected proxy, the mode and the calls flag of the globals and nothing else |
| ProxyBlocks.SettleProxyList | Telegram/SourceFiles/storage/details/storage_settings_scheme.cpp:509-536 | Computes the selected proxy and mode that `SettleSelection` defines; their well-formedness is `ProxyList.ResolvedProxyListWellFormed` |
| ProxyBlocks.ReadSingleProxy | Telegram/SourceFiles/storage/details/storage_settings_scheme.cpp:538-557 | Follows `ProxyRecordSpec`: on false, which is returned exactly when the stream status check after the reads fails, the context, settings and globals are exactly as before; otherwise a usable proxy becomes the list and the selection, enabled only under the two proxy connection types, and an unusable one empties the list with mode System |
| ThemeBlocks.StoreOldTile | Telegram/SourceFiles/storage/details/storage_settings_scheme.cpp:749-754 | Stores the tiling flag in the day slot when night mode is on and in the night slot otherwise, marks tiling read, and changes nothing else in the context |
| SessionBlocks.ApplyHiddenPinned | Telegram/SourceFiles/storage/details/storage_settings_scheme.cpp:972-976 | After handing every stored pair over one at a time, the hidden pinned messages are the old ones overridden by all the stored pairs, whatever the order |
| SessionBlocks.Restrict | Telegram/SourceFiles/storage/details/storage_settings_scheme.cpp:972-976 | The pairs handed over so far: its keys are exactly those of the map that are in the given set |
| SessionBlocks.HandOneMore | Telegram/SourceFiles/storage/details/storage_settings_scheme.cpp:972-976 | Handing one more pair extends the pairs handed so far by that key, which is what makes the loop order irrelevant |
| Ints.ToInt32 | Telegram/SourceFiles/storage/details/storage_settings_scheme.cpp:29-35 | `qint32(x)`: the result agrees with `x` modulo 2^32 and equals `x` when it fits in 32 bits |
| Ints.ToUInt32 | Telegram/SourceFiles/storage/details/storage_settings_scheme.cpp:464-481 | The unsigned port conversion: the result agrees with `x` modulo 2^32 and equals `x` when it is already in range |
| Ints.ToSize | Telegram/SourceFiles/storage/details/storage_settings_scheme.cpp:499-503 | The conversion of a signed value to `size_t` in a mixed comparison: agrees with `x` modulo 2^64 and equals `x` when non-negative |
| Ints.Abs32 | Telegram/SourceFiles/storage/details/storage_settings_scheme.cpp:489-492 | `std::abs` on 32 bits: a non-negative value equal to `x` or `-x`, except at `INT32_MIN`, which comes back unchanged |
| Ints.Int64MaxAsInt32 | Telegram/SourceFiles/storage/details/storage_settings_scheme.cpp:29-35 | Truncating `INT64_MAX` to 32 bits gives -1 |
| CacheLimits.NoTimeLimit | Telegram/SourceFiles/storage/details/storage_settings_scheme.cpp:29-35 | Holds exactly for 0, `INT32_MAX` and -1 (the truncated `INT64_MAX`) |
| CacheLimits.StoredTime | Telegram/SourceFiles/storage/details/storage_settings_scheme.cpp:194-225 | The time limit kept: 0 exactly when the value read is a no-limit sentinel, the value read otherwise, never negative for an accepted value |
| CacheLimits.StoredTimeNormal | Telegram/SourceFiles/storage/details/storage_settings_scheme.cpp:194-225 | Every accepted time is stored as a value in [0, `INT32_MAX`), and storing it again changes nothing |
| CacheLimits.StoredTimeKeepsOrdinary | Telegram/SourceFiles/storage/details/storage_settings_scheme.cpp:194-225 | For a non-negative limit, the value stored is the value read exactly when it is not the `INT32_MAX` sentinel |
| EmojiMigration.RemapFlagKey | Telegram/SourceFiles/storage/details/storage_settings_scheme.cpp:887-898 | Each of the ten legacy flag keys becomes a 64-bit key whose high half is the stored letter and whose low half is a regional indicator; every other key is unchanged |
| EmojiMigration.RemapFlagKeyIdempotentInjective | Telegram/SourceFiles/storage/details/storage_settings_scheme.cpp:887-898 | Remapping twice is remapping once, and distinct legacy flags map to distinct keys |
| EmojiMigration.RemapAll | Telegram/SourceFiles/storage/details/storage_settings_scheme.cpp:885-898 | The oldest list with its keys widened and remapped, same length and use counts, key by key `RemapFlagKey` |
| EmojiMigration.RecentFromKeys | Telegram/SourceFiles/storage/details/storage_settings_scheme.cpp:914-921 | The converted recent list: every entry has a non-empty emoji id, and it is never longer than the stored list |
| EmojiMigration.RecentFromKeysAppend | Telegram/SourceFiles/storage/details/storage_settings_scheme.cpp:914-921 | Conversion distributes over concatenation, so the kept entries stay in stored order |
| EmojiMigration.RecentFromKeysMembers | Telegram/SourceFiles/storage/details/storage_settings_scheme.cpp:914-921 | An entry is in the converted list exactly when some stored entry has that non-empty id and use count (both directions) |
| EmojiMigration.ConvertRecentOldOld | Telegram/SourceFiles/storage/details/storage_settings_scheme.cpp:883-903 | The loop over the oldest list produces exactly `RecentFromKeys` of the remapped list |
| EmojiMigration.ConvertRecentOld | Telegram/SourceFiles/storage/details/storage_settings_scheme.cpp:914-922 | The loop over the 64-bit-keyed list produces exactly `RecentFromKeys` of it |
| EmojiMigration.VariantsFromOldSound | Telegram/SourceFiles/storage/details/storage_settings_scheme.cpp:947-956 | Every converted variant has a non-empty id and non-negative index; every stored entry with both is present; the index kept is that of the last such entry for the id |
| EmojiMigration.VariantsFromOld | Telegram/SourceFiles/storage/details/storage_settings_scheme.cpp:947-956 | The colour variants converted from the oldest list: each stored entry with a non-empty id and a non-negative index sets that id, later entries overriding earlier ones; its meaning is stated by `VariantsFromOldSound` |
| EmojiMigration.ConvertVariantsOld | Telegram/SourceFiles/storage/details/storage_settings_scheme.cpp:947-957 | The loop builds exactly `VariantsFromOld`, whose meaning `VariantsFromOldSound` states |
| ProxyList.ProxyTypeOf | Telegram/SourceFiles/storage/details/storage_settings_scheme.cpp:464-481 | No proxy type results exactly when the stored value is none of the two legacy connection types and the three shifted current types |
| ProxyList.ProxyTypeRoundTrip | Telegram/SourceFiles/storage/details/storage_settings_scheme.cpp:464-481 | Every current proxy type stored shifted by `kProxyTypeShift` reads back as itself |
| ProxyList.ReadProxy | Telegram/SourceFiles/storage/details/storage_settings_scheme.cpp:464-481 | One sub-record: on a good stream it consumes exactly its five fields |
| ProxyList.ReadProxies | Telegram/SourceFiles/storage/details/storage_settings_scheme.cpp:494-504 | Exactly `n` proxies come out, and on a good stream exactly `5 * n` fields are consumed |
| ProxyList.Kept | Telegram/SourceFiles/storage/details/storage_settings_scheme.cpp:494-504 | The proxies appended to the list: never more than were read |
| ProxyList.KeptAppend | Telegram/SourceFiles/storage/details/storage_settings_scheme.cpp:494-504 | Keeping distributes over concatenation: kept proxies appear in the order they were read |
| ProxyList.KeptMembers | Telegram/SourceFiles/storage/details/storage_settings_scheme.cpp:494-504 | A proxy is kept exactly when it was read and is usable |
| ProxyList.SkipAdjust | Telegram/SourceFiles/storage/details/storage_settings_scheme.cpp:499-503 | Corrected (signed) index adjustment: an index above the kept count decreases by one, one below its negation increases by one, any other is unchanged |
| ProxyList.SkipAdjustAsWritten | Telegram/SourceFiles/storage/details/storage_settings_scheme.cpp:499-503 | The adjustment the decoder runs: the index compared, as unsigned 64-bit values, with the negated and the plain kept count, then incremented or decremented with 32-bit wrap-around; its behaviour is stated by the three lemmas below |
| ProxyList.AsWrittenIncrementsNonNegative | Telegram/SourceFiles/storage/details/storage_settings_scheme.cpp:499-503 | As written (unsigned comparisons), a non-negative index is incremented for a skipped entry once any proxy has been kept |
| ProxyList.AsWrittenDecrementsNegativeWhenNothingKept | Telegram/SourceFiles/storage/details/storage_settings_scheme.cpp:499-503 | As written, while no proxy has been kept, a negative index is decremented for a skipped entry, away from the entries |
| ProxyList.SkipAdjustAgreement | Telegram/SourceFiles/storage/details/storage_settings_scheme.cpp:499-503 | The rule as written and the corrected rule agree for one skipped entry exactly when, with nothing kept, the index is non-negative, or, with some proxy kept, the index is below the negated kept count (both directions) |
| ProxyList.IndexAfter | Telegram/SourceFiles/storage/details/storage_settings_scheme.cpp:494-504 | The index after the loop under the corrected rule; when every sub-record is usable it is the stored index |
| ProxyList.IndexAfterAsWritten | Telegram/SourceFiles/storage/details/storage_settings_scheme.cpp:494-504 | The index after the loop under the rule as written, the one the decoder goes on with; when every sub-record is usable it is the stored index |
| ProxyList.IndexTracksSelection | Telegram/SourceFiles/storage/details/storage_settings_scheme.cpp:494-504 | For a positive index whose sub-record is usable, the corrected index ends as the position of that proxy among the kept ones |
| ProxyList.KeptPrefixShorter | Telegram/SourceFiles/storage/details/storage_settings_scheme.cpp:494-504 | A prefix of the sub-records keeps no more proxies than the whole |
| ProxyList.IndexAfterNegated | Telegram/SourceFiles/storage/details/storage_settings_scheme.cpp:499-503 | The corrected adjustment is symmetric in the sign of the index |
| ProxyList.KeptAtPosition | Telegram/SourceFiles/storage/details/storage_settings_scheme.cpp:494-504 | A usable sub-record at position m is the kept proxy at the position counting the proxies kept up to it |
| ProxyList.SelectionSurvivesSkipping | Telegram/SourceFiles/storage/details/storage_settings_scheme.cpp:494-520 | The intended property: the selected usable sub-record is still the one selected among the kept proxies after all skips, with the sign kept |
| ProxyList.OldListPrelude | Telegram/SourceFiles/storage/details/storage_settings_scheme.cpp:489-492 | The calls flag is set exactly when the index lies beyond the count; then, for a non-negative count, the index is moved toward zero by the count keeping its sign; otherwise nothing changes |
| ProxyList.SelectProxy | Telegram/SourceFiles/storage/details/storage_settings_scheme.cpp:516-520 | The proxy at a 1-based index inside the list, the empty proxy for any other index |
| ProxyList.NormaliseSettings | Telegram/SourceFiles/storage/details/storage_settings_scheme.cpp:522-536 | Enabled exactly when stored Enabled with a usable selection; Disabled exactly when stored Disabled; System in every other case |
| ProxyList.SettleSelection | Telegram/SourceFiles/storage/details/storage_settings_scheme.cpp:509-536 | The selected proxy (through the absolute index in the oldest format) and the normalised mode, the oldest format asking for Enabled exactly when the index is in the kept range; its consequences are stated by `ResolvedProxyListWellFormed` and `OldFormatEnabledExactlyWhenSelected` |
| ProxyList.ResolveProxyList | Telegram/SourceFiles/storage/details/storage_settings_scheme.cpp:486-537 | The proxy state a decoded list leaves: the kept proxies, the selection and mode settled from `IndexAfterAsWritten`, and the calls flag; its properties are stated by the lemmas around it |
| ProxyList.ResolvedProxyListWellFormed | Telegram/SourceFiles/storage/details/storage_settings_scheme.cpp:486-537 | A decoded list holds only usable proxies read from the stream, the selection is one of them or none, Enabled implies a selection, and the calls flag is the stored one (the prelude one in the oldest format) |
| ProxyList.OldFormatEnabledExactlyWhenSelected | Telegram/SourceFiles/storage/details/storage_settings_scheme.cpp:509-514 | In the oldest format the mode is Enabled exactly when the index left by the as-written skip rule selects a kept proxy, and never Disabled |
| ProxyList.SkippedMiddleEntry | Telegram/SourceFiles/storage/details/storage_settings_scheme.cpp:494-520 | Three entries, the middle one unusable, index 3: corrected, the index is 2 and the third proxy stays selected; as written, the index is 4, nothing is selected and a stored Enabled mode decodes as System |
| ProxyList.SkippedFirstEntryOldFormat | Telegram/SourceFiles/storage/details/storage_settings_scheme.cpp:489-520 | Oldest format, two entries, the first unusable, index -2: as written the index drifts to -3 and nothing is selected; corrected it becomes -1 and the second proxy is selected |
| SettingsSpec.ReadSettingSpec | Telegram/SourceFiles/storage/details/storage_settings_scheme.cpp:39-1054 | The outcome of one block for every block id, dispatched to the spec of its group, an unrecognised id failing; its properties are stated by `BlockProperties` |
| SettingsSpec.AutoDownloadFromOld | Telegram/SourceFiles/storage/details/storage_settings_scheme.cpp:246-271 | The oldest auto-download block: the photo, voice and GIF (also round-video) masks each disable their type per `DisableByMask` |
| SettingsSpec.Done | Telegram/SourceFiles/storage/details/storage_settings_scheme.cpp:39-1054 | The status check after a block's reads: applied with the new world exactly when the stream is good, the stream position always the one after the reads |
| SettingsSpec.DisableByMask | Telegram/SourceFiles/storage/details/storage_settings_scheme.cpp:253-266 | Bit 0 of the mask disables the type for private chats, bit 1 for groups and channels, each by a zero limit; other limits unchanged |
| SettingsSpec.AutoPlayOff | Telegram/SourceFiles/storage/details/storage_settings_scheme.cpp:278-296 | Every autoplayed type from every source gets limit zero; the other limits are unchanged |
| SettingsSpec.WorkModeOf | Telegram/SourceFiles/storage/details/storage_settings_scheme.cpp:402-408 | The three known work modes map to themselves; any other value means window and tray |
| SettingsSpec.ScaleFromOld | Telegram/SourceFiles/storage/details/storage_settings_scheme.cpp:646-660 | The five legacy scale steps map to 100-200 percent and automatic; any other value keeps the configured scale |
| SettingsSpec.NotifyViewOf | Telegram/SourceFiles/storage/details/storage_settings_scheme.cpp:819-823 | The three known views map to themselves; any other value shows the preview |
| SettingsSpec.NormalisedDownloadPath | Telegram/SourceFiles/storage/details/storage_settings_scheme.cpp:839-852 | The empty folder and the temporary folder stay as they are; any other folder ends with a slash, added only when missing |
| SettingsSpec.NormalisedDownloadPathIdempotent | Telegram/SourceFiles/storage/details/storage_settings_scheme.cpp:839-852 | Normalising a folder a second time changes nothing |
| SettingsSpec.VolumeMillionths | Telegram/SourceFiles/storage/details/storage_settings_scheme.cpp:988-1002 | The stored volume, in millionths, clamped to [0, 1]: in range it is kept, below 0 it is 0, above 1 it is 1 |
| SettingsSpec.TileFromOld | Telegram/SourceFiles/storage/details/storage_settings_scheme.cpp:746-754 | Before version 8005 without a custom day background the flag is forced off; otherwise it is the flag read |
| SettingsSpec.ConnectionTypeOldSpec | Telegram/SourceFiles/storage/details/storage_settings_scheme.cpp:426-455 | The oldest proxy block reads no other stream and writes neither the context nor the application settings |
| SettingsSpec.OldProxyRecord | Telegram/SourceFiles/storage/details/storage_settings_scheme.cpp:431-443 | Other connection types read nothing and give the empty proxy; the two proxy types give a proxy of the matching kind (TCP as SOCKS5, HTTP as HTTP) |
| SettingsSpec.SingleProxy | Telegram/SourceFiles/storage/details/storage_settings_scheme.cpp:445-453 | A usable proxy becomes the whole list and the selection, Enabled when asked and System otherwise; an unusable one empties the list, clears the selection and sets System; nothing else changes |
| SettingsSpec.ConnectionTypeSpec | Telegram/SourceFiles/storage/details/storage_settings_scheme.cpp:457-559 | The current proxy block writes neither the context nor the application settings |
| SettingsSpec.ProxyListHeader | Telegram/SourceFiles/storage/details/storage_settings_scheme.cpp:486-488 | The header reads leave the stream contents as they were |
| SettingsSpec.ProxyListSpec | Telegram/SourceFiles/storage/details/storage_settings_scheme.cpp:486-537 | A proxy list writes neither the context nor the application settings, and applies only on a good stream |
| SettingsSpec.ProxyListBodySpec | Telegram/SourceFiles/storage/details/storage_settings_scheme.cpp:489-537 | The list after its header writes neither the context nor the application settings, and applies only on a good stream |
| SettingsSpec.ProxyRecordSpec | Telegram/SourceFiles/storage/details/storage_settings_scheme.cpp:538-557 | A single proxy record writes neither the context nor the application settings, and applies only on a good stream |
| BlockProperties.BadStreamOrUnknownIdFails | Telegram/SourceFiles/storage/details/storage_settings_scheme.cpp:1048-1051 | For every block id, a stream already bad makes the block fail with the stream unchanged; an unrecognised id fails even on a good stream |
| BlockProperties.CacheSettingsValidated | Telegram/SourceFiles/storage/details/storage_settings_scheme.cpp:209-225 | The current cache block applies exactly when both sizes exceed the largest entry and both times are valid; then the four limits are stored (sentinel times as 0) and nothing else changes |
| BlockProperties.CacheSettingsOldValidated | Telegram/SourceFiles/storage/details/storage_settings_scheme.cpp:194-207 | The oldest cache block applies exactly when the size exceeds the largest entry and the time is valid; then both caches get that size and time |
| BlockProperties.SendKeyValidated | Telegram/SourceFiles/storage/details/storage_settings_scheme.cpp:720-733 | The send-key block applies exactly when the key is Enter or Ctrl+Enter, and then stores that way of sending and nothing else |
| BlockProperties.RecentEmojiOldOldRemapped | Telegram/SourceFiles/storage/details/storage_settings_scheme.cpp:877-906 | The oldest recent-emoji block always applies; an empty list changes nothing; otherwise only the recent emoji change and they hold exactly the remapped entries with a non-empty id |
| BlockProperties.DcOptionBlocksAppend | Telegram/SourceFiles/storage/details/storage_settings_scheme.cpp:45-81 | Each DC option block, when applied, appends exactly one entry to the legacy DC options and changes nothing else |
| BlockProperties.LegacyConfigPreserves | Telegram/SourceFiles/storage/details/storage_settings_scheme.cpp:45-160 | Legacy-config blocks write only the context and keep the settings invariant |
| BlockProperties.CachePreserves | Telegram/SourceFiles/storage/details/storage_settings_scheme.cpp:193-225 | Cache blocks write only the context and keep the settings invariant (time limits stay non-negative) |
| BlockProperties.SessionPreserves | Telegram/SourceFiles/storage/details/storage_settings_scheme.cpp:246-311 | Session blocks write only the context and keep the settings invariant |
| BlockProperties.ThemePreserves | Telegram/SourceFiles/storage/details/storage_settings_scheme.cpp:561-604 | Theme blocks do not touch the application settings or the proxy state, and keep the settings invariant |
| BlockProperties.GlobalFlagPreserves | Telegram/SourceFiles/storage/details/storage_settings_scheme.cpp:606-672 | Global-flag blocks write only globals, no proxy setting, and keep the settings invariant |
| BlockProperties.EmojiPreserves | Telegram/SourceFiles/storage/details/storage_settings_scheme.cpp:877-966 | Emoji blocks write only globals, no proxy setting, and keep the settings invariant |
| BlockProperties.AppInterfacePreserves | Telegram/SourceFiles/storage/details/storage_settings_scheme.cpp:313-387 | Application-interface blocks write only the application settings and keep the settings invariant (notification count positive) |
| BlockProperties.AppMediaPreserves | Telegram/SourceFiles/storage/details/storage_settings_scheme.cpp:988-1038 | Application-media blocks write only the application settings and keep the settings invariant (volumes in [0, 1]) |
| BlockProperties.DiscardedPreserves | Telegram/SourceFiles/storage/details/storage_settings_scheme.cpp:696-718 | Deprecated blocks change nothing |
| BlockProperties.ProxyListWellFormed | Telegram/SourceFiles/storage/details/storage_settings_scheme.cpp:486-537 | A decoded proxy list leaves a well-formed proxy state: only usable proxies, a selection from the list or none, Enabled only with a selection |
| BlockProperties.ProxyBlocksWellFormed | Telegram/SourceFiles/storage/details/storage_settings_scheme.cpp:426-559 | Every proxy block leaves a well-formed proxy state whatever was there before, and writes only globals |
| BlockProperties.ReadSettingPreservesInvariant | Telegram/SourceFiles/storage/details/storage_settings_scheme.cpp:39-1054 | Every applied block keeps the settings invariant: values in their normalised ranges and a well-formed proxy state |
| FallbackConfig.Limit | Telegram/SourceFiles/storage/details/storage_settings_scheme.cpp:1062-1081 | A legacy limit replaces the configured one exactly when it is positive |
| FallbackConfig.LegacyPatched | Telegram/SourceFiles/storage/details/storage_settings_scheme.cpp:1057-1083 | The configuration without a blob: the legacy DC options merged in and each legacy limit taken through `Limit`; stated by `LegacyFieldsWhenNoBlob` |
| FallbackConfig.ResolvedConfig | Telegram/SourceFiles/storage/details/storage_settings_scheme.cpp:1056-1087 | The configuration after the call: built from the blob when there is one, otherwise `LegacyPatched`; stated by `BlobTakesPrecedence` |
| FallbackConfig.ApplyReadFallbackConfig | Telegram/SourceFiles/storage/details/storage_settings_scheme.cpp:1056-1087 | The configuration after the call is `ResolvedConfig` of the context and the configuration before it |
| FallbackConfig.BlobTakesPrecedence | Telegram/SourceFiles/storage/details/storage_settings_scheme.cpp:1056-1087 | With a stored blob the configuration is built from the blob alone, whatever the legacy fields and the previous configuration |
| FallbackConfig.LegacyFieldsWhenNoBlob | Telegram/SourceFiles/storage/details/storage_settings_scheme.cpp:1057-1083 | Without a blob the legacy DC options are merged, and each limit (TXT domain) is taken exactly when positive (non-empty), the configured one kept otherwise |
| FallbackConfig.NoBlobLimitsStayPositive | Telegram/SourceFiles/storage/details/storage_settings_scheme.cpp:1057-1083 | Without a blob, positive configured limits stay positive |
| FallbackConfig.UnreadLegacyKeepsDefaults | Telegram/SourceFiles/storage/details/storage_settings_scheme.cpp:1057-1083 | Without a blob and with no legacy value read, only the DC options are touched |
| FallbackConfig.LegacyLimitsIdempotent | Telegram/SourceFiles/storage/details/storage_settings_scheme.cpp:1057-1083 | Without a blob, applying the legacy fields twice changes no limit and no TXT domain beyond the first time |
| BlockProperties.LegacyConfigBadStream | Telegram/SourceFiles/storage/details/storage_settings_scheme.cpp:45-160 | Every block of the group writing the legacy DC options, limits, keys and user that feed the fallback configuration fails on a stream that is already bad, leaving the stream where it was |
| BlockProperties.CacheBadStream | Telegram/SourceFiles/storage/details/storage_settings_scheme.cpp:193-225 | Every block of the group writing the cache limits fails on a stream that is already bad, leaving the stream where it was |
| BlockProperties.SessionBadStream | Telegram/SourceFiles/storage/details/storage_settings_scheme.cpp:246-311 | Every block of the group writing the session settings held by the context fails on a stream that is already bad, leaving the stream where it was |
| BlockProperties.ThemeBadStream | Telegram/SourceFiles/storage/details/storage_settings_scheme.cpp:561-604 | Every block of the group writing the theme, language and background keys fails on a stream that is already bad, leaving the stream where it was |
| BlockProperties.GlobalFlagBadStream | Telegram/SourceFiles/storage/details/storage_settings_scheme.cpp:162-192 | Every block of the group writing the global flags, window position and scale fails on a stream that is already bad, leaving the stream where it was |
| BlockProperties.EmojiBadStream | Telegram/SourceFiles/storage/details/storage_settings_scheme.cpp:877-966 | Every block of the group writing the recent emoji, stickers and colour variants fails on a stream that is already bad, leaving the stream where it was |
| BlockProperties.ProxyBadStream | Telegram/SourceFiles/storage/details/storage_settings_scheme.cpp:426-559 | Every block of the group writing the proxy settings fails on a stream that is already bad, leaving the stream where it was |
| BlockProperties.AppInterfaceBadStream | Telegram/SourceFiles/storage/details/storage_settings_scheme.cpp:313-387 | Every block of the group writing the notification, chat-window and send settings fails on a stream that is already bad, leaving the stream where it was |
| BlockProperties.AppMediaBadStream | Telegram/SourceFiles/storage/details/storage_settings_scheme.cpp:826-875 | Every block of the group writing the emoji-suggestion, download, volume and call settings fails on a stream that is already bad, leaving the stream where it was |
| BlockProperties.DiscardedBadStream | Telegram/SourceFiles/storage/details/storage_settings_scheme.cpp:696-718 | Every block of the group writing the deprecated values it reads and drops fails on a stream that is already bad, leaving the stream where it was |

## Left out

- The numeric values of the `dbi*` block ids are not part of this model. They are defined in `storage_settings_scheme.h`, which is not part of this model. Block ids are a datatype, and `Unrecognised(raw)` stands for every id that hits the `default:` branch.
- The record loop that calls `ReadSetting` repeatedly is not part of this model. One call is modelled, together with `ApplyReadFallbackConfig`.
- Logging (`LOG`, `DEBUG_LOG`) is left out, because it has no effect on the decoded state.
- The following foreign calls are parameters of `Env` or `ConfigEnv`, because their code is not part of this model:
  - the size of the cache database's largest entry;
  - the command-line scale `cConfigScale()`;
  - the scale validation `SetScaleChecked`;
  - the truthiness of `MTP::ProxyData`;
  - `Ui::Emoji::IdFromOldKey` and `Ui::Emoji::ColorIndexFromOldKey`;
  - the call-settings sub-stream;
  - `constructFallbackProductionConfig` and `DcOptions::addFromOther`.
- The `addFromSerialized` calls of the application and session settings are modelled as appending the blob to a list of blobs handed over. What those objects do with the blob belongs to them.
- `constructAddOne` and `constructFromSerialized` on the legacy DC options are modelled as appending one `DcOption` record per block. A serialised list is kept as one opaque entry. Merging and deduplication by DC id happen inside `MTP::DcOptions`, which is not part of this model.
- Floating point is left out. Volumes (`snap(v / 1e6, 0., 1.)`) and the dialogs width ratio are kept in millionths, as integers.
- The following side effects carry no decoded state and are left out:
  - `Core::App().refreshGlobalProxy()`;
  - `Core::UpdateChecker().stop()`;
  - `psDownloadPathEnableAccess()`;
  - the notification a setter may send.
- The `OS_WIN_STORE` build is left out. The download-path blocks are modelled as built without it, where they do write the path.
- The moved-from state of `fallbackConfigLegacyDcOptions` after `std::move` is left out. The model leaves the context unchanged.
- `FallbackConfig.ApplyReadFallbackConfig`: the fallback configuration is replaced in place by `ProductionConfig.Replace` rather than reconstructed by the application object. The configuration keeps only the fields the legacy blocks can set.
- Combined setters (`State.Context.SetCacheLimits`, `State.Globals.SetProxyState`, `State.AppSettings.SetDownloadFolder` and the like) stand for consecutive C++ setter calls on one object. No state is observable between those calls.
- Enumeration constants from headers that are not part of this model are assumed to have their tdesktop values. Examples are the `dbict*` connection types, `dbiwm*` work modes, `dbinv*` notification views, `kProxyTypeShift`, the `InputSubmitSettings` values and `style::kScaleAuto`. Only equality with them matters to the model.
- ProxyList.SkipAdjustAsWritten: `++index` and `--index` at the ends of the 32-bit range are signed overflow, undefined behaviour in C++. They are modelled as wrapping on 32 bits, as two's complement hardware does.
- ThemeBlocks.StoreOldTile and ThemeBlocks.ReadTileBackgroundOld: `Window::Theme::IsNightMode()` is not part of this model. It is taken to be the night-mode flag that `dbiThemeKey` stores through `SetNightModeValue` (line 577), held in the globals.
- SessionBlocks.ApplyHiddenPinned: the session settings' `setHiddenPinnedMessageId` is not part of this model. It is taken to store the pair unconditionally, overriding an earlier entry for the peer; any special meaning of a message id of 0 inside the session settings is not captured.
- Ints.Abs32: `std::abs(INT32_MIN)` is undefined behaviour in C++. It is modelled as returning its argument, as two's complement hardware does, so the oldest-format prelude states nothing stronger for that one index.

## Findings

| source | as written | input that shows it | evidently intended | confidence | as-written member | corrected member |
|---|---|---|---|---|---|---|
| Telegram/SourceFiles/storage/details/storage_settings_scheme.cpp:499-503 | `index < -list.size()` and `index > list.size()` compare a signed `index` with an unsigned `size_t`. Once one proxy has been kept, every non-negative index converts to less than `-list.size()`, so it is incremented for each skipped entry. | A list of 3 proxies, the 2nd unusable, the selected index 3 (the third proxy). As written the index becomes 4, no proxy is selected and a stored Enabled mode decodes as System. In the oldest format, two proxies, the 1st unusable, index -2: the index drifts to -3 and nothing is selected. | A skipped entry moves the index toward the kept range, so the index becomes 2 and the third proxy stays selected (and -1, the second proxy, in the oldest-format example). The decoder itself keeps the rule as written; `SkipAdjustAgreement` states exactly where the two rules differ. | high, not executed | ProxyList.SkipAdjustAsWritten, ProxyList.AsWrittenIncrementsNonNegative, ProxyList.AsWrittenDecrementsNegativeWhenNothingKept, ProxyList.SkippedMiddleEntry, ProxyList.SkippedFirstEntryOldFormat | ProxyList.SkipAdjust, ProxyList.IndexAfter, ProxyList.SelectionSurvivesSkipping |
