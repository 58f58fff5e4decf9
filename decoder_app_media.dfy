/** The blocks with application settings about emoji input, downloads,
    media playback and calls. */
module AppMediaBlocks {
  import opened Ints
  import opened Stream
  import opened Types
  import opened State
  import opened SettingsSpec
  import opened DecoderBase

  /** Lines 784-790. */
  method ReadReplaceEmojiOld(ghost r0: Reader, ghost w0: World, cursor: Cursor, ctx: Context, app: AppSettings, glob: Globals)
    returns (ok: bool, ghost out: Outcome)
    requires cursor.State() == r0 && WorldOf(ctx, app, glob) == w0
    modifies cursor, app
    ensures out == ReplaceEmojiOldSpec(r0, w0)
    ensures Follows(out, w0, ok, cursor, ctx, app, glob)
  {
    out := ReplaceEmojiOldSpec(r0, w0);
    var v := cursor.ReadI32();
    if !cursor.ok { ok := false; return; }
    app.SetReplaceEmoji(v == 1);
    ok := true;
  }

  /** Lines 792-798. */
  method ReadSuggestEmojiOld(ghost r0: Reader, ghost w0: World, cursor: Cursor, ctx: Context, app: AppSettings, glob: Globals)
    returns (ok: bool, ghost out: Outcome)
    requires cursor.State() == r0 && WorldOf(ctx, app, glob) == w0
    modifies cursor, app
    ensures out == SuggestEmojiOldSpec(r0, w0)
    ensures Follows(out, w0, ok, cursor, ctx, app, glob)
  {
    out := SuggestEmojiOldSpec(r0, w0);
    var v := cursor.ReadI32();
    if !cursor.ok { ok := false; return; }
    app.SetSuggestEmoji(v == 1);
    ok := true;
  }

  /** Lines 800-806. */
  method ReadSuggestStickersByEmojiOld(ghost r0: Reader, ghost w0: World, cursor: Cursor, ctx: Context, app: AppSettings, glob: Globals)
    returns (ok: bool, ghost out: Outcome)
    requires cursor.State() == r0 && WorldOf(ctx, app, glob) == w0
    modifies cursor, app
    ensures out == SuggestStickersByEmojiOldSpec(r0, w0)
    ensures Follows(out, w0, ok, cursor, ctx, app, glob)
  {
    out := SuggestStickersByEmojiOldSpec(r0, w0);
    var v := cursor.ReadI32();
    if !cursor.ok { ok := false; return; }
    app.SetSuggestStickersByEmoji(v == 1);
    ok := true;
  }

  /** Lines 826-832. */
  method ReadAskDownloadPathOld(ghost r0: Reader, ghost w0: World, cursor: Cursor, ctx: Context, app: AppSettings, glob: Globals)
    returns (ok: bool, ghost out: Outcome)
    requires cursor.State() == r0 && WorldOf(ctx, app, glob) == w0
    modifies cursor, app
    ensures out == AskDownloadPathOldSpec(r0, w0)
    ensures Follows(out, w0, ok, cursor, ctx, app, glob)
  {
    out := AskDownloadPathOldSpec(r0, w0);
    var v := cursor.ReadI32();
    if !cursor.ok { ok := false; return; }
    app.SetAskDownloadPath(v == 1);
    ok := true;
  }

  /** Lines 834-843: a download folder without a bookmark. */
  method ReadDownloadPathOldOld(ghost r0: Reader, ghost w0: World, cursor: Cursor, ctx: Context, app: AppSettings, glob: Globals)
    returns (ok: bool, ghost out: Outcome)
    requires cursor.State() == r0 && WorldOf(ctx, app, glob) == w0
    modifies cursor, app
    ensures out == DownloadPathOldOldSpec(r0, w0)
    ensures Follows(out, w0, ok, cursor, ctx, app, glob)
  {
    out := DownloadPathOldOldSpec(r0, w0);
    var v := cursor.ReadStr();
    if !cursor.ok { ok := false; return; }
    var path := NormalisedDownloadPath(v);
    app.SetDownloadFolder(path, []);
    ok := true;
  }

  /** Lines 845-857: a download folder and its bookmark. */
  method ReadDownloadPathOld(ghost r0: Reader, ghost w0: World, cursor: Cursor, ctx: Context, app: AppSettings, glob: Globals)
    returns (ok: bool, ghost out: Outcome)
    requires cursor.State() == r0 && WorldOf(ctx, app, glob) == w0
    modifies cursor, app
    ensures out == DownloadPathOldSpec(r0, w0)
    ensures Follows(out, w0, ok, cursor, ctx, app, glob)
  {
    out := DownloadPathOldSpec(r0, w0);
    var v := cursor.ReadStr();
    var bookmark := cursor.ReadBytes();
    if !cursor.ok { ok := false; return; }
    var path := NormalisedDownloadPath(v);
    app.SetDownloadFolder(path, bookmark);
    ok := true;
  }

  /** Lines 859-867. */
  method ReadCompressPastedImageOld(ghost r0: Reader, ghost w0: World, cursor: Cursor, ctx: Context, app: AppSettings, glob: Globals)
    returns (ok: bool, ghost out: Outcome)
    requires cursor.State() == r0 && WorldOf(ctx, app, glob) == w0
    modifies cursor, app
    ensures out == CompressPastedImageOldSpec(r0, w0)
    ensures Follows(out, w0, ok, cursor, ctx, app, glob)
  {
    out := CompressPastedImageOldSpec(r0, w0);
    var v := cursor.ReadI32();
    if !cursor.ok { ok := false; return; }
    app.SetSendFilesWay(if v == 1 then Album else Files);
    ok := true;
  }

  /** Lines 988-994: the volume is clamped to [0, 1]. */
  method ReadSongVolumeOld(ghost r0: Reader, ghost w0: World, cursor: Cursor, ctx: Context, app: AppSettings, glob: Globals)
    returns (ok: bool, ghost out: Outcome)
    requires cursor.State() == r0 && WorldOf(ctx, app, glob) == w0
    modifies cursor, app
    ensures out == SongVolumeOldSpec(r0, w0)
    ensures Follows(out, w0, ok, cursor, ctx, app, glob)
  {
    out := SongVolumeOldSpec(r0, w0);
    var v := cursor.ReadI32();
    if !cursor.ok { ok := false; return; }
    app.SetSongVolumeMillionths(VolumeMillionths(v));
    ok := true;
  }

  /** Lines 996-1002: the volume is clamped to [0, 1]. */
  method ReadVideoVolumeOld(ghost r0: Reader, ghost w0: World, cursor: Cursor, ctx: Context, app: AppSettings, glob: Globals)
    returns (ok: bool, ghost out: Outcome)
    requires cursor.State() == r0 && WorldOf(ctx, app, glob) == w0
    modifies cursor, app
    ensures out == VideoVolumeOldSpec(r0, w0)
    ensures Follows(out, w0, ok, cursor, ctx, app, glob)
  {
    out := VideoVolumeOldSpec(r0, w0);
    var v := cursor.ReadI32();
    if !cursor.ok { ok := false; return; }
    app.SetVideoVolumeMillionths(VolumeMillionths(v));
    ok := true;
  }

  /** Lines 1004-1010. */
  method ReadPlaybackSpeedOld(ghost r0: Reader, ghost w0: World, cursor: Cursor, ctx: Context, app: AppSettings, glob: Globals)
    returns (ok: bool, ghost out: Outcome)
    requires cursor.State() == r0 && WorldOf(ctx, app, glob) == w0
    modifies cursor, app
    ensures out == PlaybackSpeedOldSpec(r0, w0)
    ensures Follows(out, w0, ok, cursor, ctx, app, glob)
  {
    out := PlaybackSpeedOldSpec(r0, w0);
    var v := cursor.ReadI32();
    if !cursor.ok { ok := false; return; }
    app.SetVoiceMsgPlaybackDoubled(v == 2);
    ok := true;
  }

  /** Lines 1012-1038: the call settings sub-stream; one that does not decode is ignored. */
  method ReadCallSettingsOld(ghost r0: Reader, ghost w0: World, cursor: Cursor, readCallSettings: seq<byte> -> Option<CallSettings>, ctx: Context, app: AppSettings, glob: Globals)
    returns (ok: bool, ghost out: Outcome)
    requires cursor.State() == r0 && WorldOf(ctx, app, glob) == w0
    modifies cursor, app
    ensures out == CallSettingsOldSpec(r0, readCallSettings, w0)
    ensures Follows(out, w0, ok, cursor, ctx, app, glob)
  {
    out := CallSettingsOldSpec(r0, readCallSettings, w0);
    var callSettings := cursor.ReadBytes();
    if !cursor.ok { ok := false; return; }
    match readCallSettings(callSettings) {
      case Some(cs) =>
        app.SetCallOutputDeviceId(cs.outputDeviceId);
        app.SetCallOutputVolume(cs.outputVolume);
        app.SetCallInputDeviceId(cs.inputDeviceId);
        app.SetCallInputVolume(cs.inputVolume);
        app.SetCallAudioDuckingEnabled(cs.duckingEnabled != 0);
      case None =>
    }
    ok := true;
  }

  /** The application-media blocks, one method each. */
  method ReadAppMedia(id: AppMediaId, ghost r0: Reader, ghost w0: World, cursor: Cursor, readCallSettings: seq<byte> -> Option<CallSettings>, ctx: Context, app: AppSettings, glob: Globals)
    returns (ok: bool, ghost out: Outcome)
    requires cursor.State() == r0 && WorldOf(ctx, app, glob) == w0
    modifies cursor, app
    ensures out == AppMediaSpec(id, r0, readCallSettings, w0)
    ensures Follows(out, w0, ok, cursor, ctx, app, glob)
  {
    match id {
      case ReplaceEmojiOld => ok, out := ReadReplaceEmojiOld(r0, w0, cursor, ctx, app, glob);
      case SuggestEmojiOld => ok, out := ReadSuggestEmojiOld(r0, w0, cursor, ctx, app, glob);
      case SuggestStickersByEmojiOld => ok, out := ReadSuggestStickersByEmojiOld(r0, w0, cursor, ctx, app, glob);
      case AskDownloadPathOld => ok, out := ReadAskDownloadPathOld(r0, w0, cursor, ctx, app, glob);
      case DownloadPathOldOld => ok, out := ReadDownloadPathOldOld(r0, w0, cursor, ctx, app, glob);
      case DownloadPathOld => ok, out := ReadDownloadPathOld(r0, w0, cursor, ctx, app, glob);
      case CompressPastedImageOld => ok, out := ReadCompressPastedImageOld(r0, w0, cursor, ctx, app, glob);
      case SongVolumeOld => ok, out := ReadSongVolumeOld(r0, w0, cursor, ctx, app, glob);
      case VideoVolumeOld => ok, out := ReadVideoVolumeOld(r0, w0, cursor, ctx, app, glob);
      case PlaybackSpeedOld => ok, out := ReadPlaybackSpeedOld(r0, w0, cursor, ctx, app, glob);
      case CallSettingsOld => ok, out := ReadCallSettingsOld(r0, w0, cursor, readCallSettings, ctx, app, glob);
    }
  }
}
