/** The blocks with application settings about notifications, the chat
    window and sending. */
module AppInterfaceBlocks {
  import opened Ints
  import opened Stream
  import opened Types
  import opened State
  import opened SettingsSpec
  import opened DecoderBase

  /** Lines 83-89: the serialised application settings, kept for the settings object to apply. */
  method ReadApplicationSettings(ghost r0: Reader, ghost w0: World, cursor: Cursor, ctx: Context, app: AppSettings, glob: Globals)
    returns (ok: bool, ghost out: Outcome)
    requires cursor.State() == r0 && WorldOf(ctx, app, glob) == w0
    modifies cursor, app
    ensures out == ApplicationSettingsSpec(r0, w0)
    ensures Follows(out, w0, ok, cursor, ctx, app, glob)
  {
    out := ApplicationSettingsSpec(r0, w0);
    var v := cursor.ReadBytes();
    if !cursor.ok { ok := false; return; }
    app.SetSerialized(app.Value().serialized + [v]);
    ok := true;
  }

  /** Lines 237-244: bit 0 turns the sound on, bit 1 turns flashing off. */
  method ReadSoundFlashBounceNotifyOld(ghost r0: Reader, ghost w0: World, cursor: Cursor, ctx: Context, app: AppSettings, glob: Globals)
    returns (ok: bool, ghost out: Outcome)
    requires cursor.State() == r0 && WorldOf(ctx, app, glob) == w0
    modifies cursor, app
    ensures out == SoundFlashBounceNotifyOldSpec(r0, w0)
    ensures Follows(out, w0, ok, cursor, ctx, app, glob)
  {
    out := SoundFlashBounceNotifyOldSpec(r0, w0);
    var v := cursor.ReadI32();
    if !cursor.ok { ok := false; return; }
    app.SetSoundNotify(Bit(v, 0));
    app.SetFlashBounceNotify(!Bit(v, 1));
    ok := true;
  }

  /** Lines 313-319. */
  method ReadModerateModeOld(ghost r0: Reader, ghost w0: World, cursor: Cursor, ctx: Context, app: AppSettings, glob: Globals)
    returns (ok: bool, ghost out: Outcome)
    requires cursor.State() == r0 && WorldOf(ctx, app, glob) == w0
    modifies cursor, app
    ensures out == ModerateModeOldSpec(r0, w0)
    ensures Follows(out, w0, ok, cursor, ctx, app, glob)
  {
    out := ModerateModeOldSpec(r0, w0);
    var v := cursor.ReadI32();
    if !cursor.ok { ok := false; return; }
    app.SetModerateModeEnabled(v == 1);
    ok := true;
  }

  /** Lines 321-327. */
  method ReadIncludeMutedOld(ghost r0: Reader, ghost w0: World, cursor: Cursor, ctx: Context, app: AppSettings, glob: Globals)
    returns (ok: bool, ghost out: Outcome)
    requires cursor.State() == r0 && WorldOf(ctx, app, glob) == w0
    modifies cursor, app
    ensures out == IncludeMutedOldSpec(r0, w0)
    ensures Follows(out, w0, ok, cursor, ctx, app, glob)
  {
    out := IncludeMutedOldSpec(r0, w0);
    var v := cursor.ReadI32();
    if !cursor.ok { ok := false; return; }
    app.SetIncludeMutedCounter(v == 1);
    ok := true;
  }

  /** Lines 335-341. */
  method ReadDesktopNotifyOld(ghost r0: Reader, ghost w0: World, cursor: Cursor, ctx: Context, app: AppSettings, glob: Globals)
    returns (ok: bool, ghost out: Outcome)
    requires cursor.State() == r0 && WorldOf(ctx, app, glob) == w0
    modifies cursor, app
    ensures out == DesktopNotifyOldSpec(r0, w0)
    ensures Follows(out, w0, ok, cursor, ctx, app, glob)
  {
    out := DesktopNotifyOldSpec(r0, w0);
    var v := cursor.ReadI32();
    if !cursor.ok { ok := false; return; }
    app.SetDesktopNotify(v == 1);
    ok := true;
  }

  /** Lines 349-355. */
  method ReadNativeNotificationsOld(ghost r0: Reader, ghost w0: World, cursor: Cursor, ctx: Context, app: AppSettings, glob: Globals)
    returns (ok: bool, ghost out: Outcome)
    requires cursor.State() == r0 && WorldOf(ctx, app, glob) == w0
    modifies cursor, app
    ensures out == NativeNotificationsOldSpec(r0, w0)
    ensures Follows(out, w0, ok, cursor, ctx, app, glob)
  {
    out := NativeNotificationsOldSpec(r0, w0);
    var v := cursor.ReadI32();
    if !cursor.ok { ok := false; return; }
    app.SetNativeNotifications(v == 1);
    ok := true;
  }

  /** Lines 357-363: a count that is not positive means three. */
  method ReadNotificationsCountOld(ghost r0: Reader, ghost w0: World, cursor: Cursor, ctx: Context, app: AppSettings, glob: Globals)
    returns (ok: bool, ghost out: Outcome)
    requires cursor.State() == r0 && WorldOf(ctx, app, glob) == w0
    modifies cursor, app
    ensures out == NotificationsCountOldSpec(r0, w0)
    ensures Follows(out, w0, ok, cursor, ctx, app, glob)
  {
    out := NotificationsCountOldSpec(r0, w0);
    var v := cursor.ReadI32();
    if !cursor.ok { ok := false; return; }
    app.SetNotificationsCount(if v > 0 then v else 3);
    ok := true;
  }

  /** Lines 365-371: an unknown corner means the bottom right one. */
  method ReadNotificationsCornerOld(ghost r0: Reader, ghost w0: World, cursor: Cursor, ctx: Context, app: AppSettings, glob: Globals)
    returns (ok: bool, ghost out: Outcome)
    requires cursor.State() == r0 && WorldOf(ctx, app, glob) == w0
    modifies cursor, app
    ensures out == NotificationsCornerOldSpec(r0, w0)
    ensures Follows(out, w0, ok, cursor, ctx, app, glob)
  {
    out := NotificationsCornerOldSpec(r0, w0);
    var v := cursor.ReadI32();
    if !cursor.ok { ok := false; return; }
    app.SetNotificationsCorner(if 0 <= v < 4 then v else 2);
    ok := true;
  }

  /** Lines 373-379. */
  method ReadDialogsWidthRatioOld(ghost r0: Reader, ghost w0: World, cursor: Cursor, ctx: Context, app: AppSettings, glob: Globals)
    returns (ok: bool, ghost out: Outcome)
    requires cursor.State() == r0 && WorldOf(ctx, app, glob) == w0
    modifies cursor, app
    ensures out == DialogsWidthRatioOldSpec(r0, w0)
    ensures Follows(out, w0, ok, cursor, ctx, app, glob)
  {
    out := DialogsWidthRatioOldSpec(r0, w0);
    var v := cursor.ReadI32();
    if !cursor.ok { ok := false; return; }
    app.SetDialogsWidthRatioMillionths(v);
    ok := true;
  }

  /** Lines 381-387. */
  method ReadLastSeenWarningSeenOld(ghost r0: Reader, ghost w0: World, cursor: Cursor, ctx: Context, app: AppSettings, glob: Globals)
    returns (ok: bool, ghost out: Outcome)
    requires cursor.State() == r0 && WorldOf(ctx, app, glob) == w0
    modifies cursor, app
    ensures out == LastSeenWarningSeenOldSpec(r0, w0)
    ensures Follows(out, w0, ok, cursor, ctx, app, glob)
  {
    out := LastSeenWarningSeenOldSpec(r0, w0);
    var v := cursor.ReadI32();
    if !cursor.ok { ok := false; return; }
    app.SetLastSeenWarningSeen(v == 1);
    ok := true;
  }

  /** Lines 720-733: only the two known send keys are accepted. */
  method ReadSendKeyOld(ghost r0: Reader, ghost w0: World, cursor: Cursor, ctx: Context, app: AppSettings, glob: Globals)
    returns (ok: bool, ghost out: Outcome)
    requires cursor.State() == r0 && WorldOf(ctx, app, glob) == w0
    modifies cursor, app
    ensures out == SendKeyOldSpec(r0, w0)
    ensures Follows(out, w0, ok, cursor, ctx, app, glob)
  {
    out := SendKeyOldSpec(r0, w0);
    var v := cursor.ReadI32();
    if !cursor.ok { ok := false; return; }
    if v != SubmitEnter && v != SubmitCtrlEnter {
      ok := false; return;
    }
    app.SetSendSubmitWay(if v == SubmitEnter then Enter else CtrlEnter);
    ok := true;
  }

  /** Lines 767-773. */
  method ReadAdaptiveForWideOld(ghost r0: Reader, ghost w0: World, cursor: Cursor, ctx: Context, app: AppSettings, glob: Globals)
    returns (ok: bool, ghost out: Outcome)
    requires cursor.State() == r0 && WorldOf(ctx, app, glob) == w0
    modifies cursor, app
    ensures out == AdaptiveForWideOldSpec(r0, w0)
    ensures Follows(out, w0, ok, cursor, ctx, app, glob)
  {
    out := AdaptiveForWideOldSpec(r0, w0);
    var v := cursor.ReadI32();
    if !cursor.ok { ok := false; return; }
    app.SetAdaptiveForWide(v == 1);
    ok := true;
  }

  /** Lines 775-782. */
  method ReadAutoLockOld(ghost r0: Reader, ghost w0: World, cursor: Cursor, ctx: Context, app: AppSettings, glob: Globals)
    returns (ok: bool, ghost out: Outcome)
    requires cursor.State() == r0 && WorldOf(ctx, app, glob) == w0
    modifies cursor, app
    ensures out == AutoLockOldSpec(r0, w0)
    ensures Follows(out, w0, ok, cursor, ctx, app, glob)
  {
    out := AutoLockOldSpec(r0, w0);
    var v := cursor.ReadI32();
    if !cursor.ok { ok := false; return; }
    app.SetAutoLock(v);
    ok := true;
  }

  /** Lines 814-824: unknown views show the preview. */
  method ReadNotifyViewOld(ghost r0: Reader, ghost w0: World, cursor: Cursor, ctx: Context, app: AppSettings, glob: Globals)
    returns (ok: bool, ghost out: Outcome)
    requires cursor.State() == r0 && WorldOf(ctx, app, glob) == w0
    modifies cursor, app
    ensures out == NotifyViewOldSpec(r0, w0)
    ensures Follows(out, w0, ok, cursor, ctx, app, glob)
  {
    out := NotifyViewOldSpec(r0, w0);
    var v := cursor.ReadI32();
    if !cursor.ok { ok := false; return; }
    app.SetNotifyView(NotifyViewOf(v));
    ok := true;
  }

  /** The application-interface blocks, one method each. */
  method ReadAppInterface(id: AppInterfaceId, ghost r0: Reader, ghost w0: World, cursor: Cursor, ctx: Context, app: AppSettings, glob: Globals)
    returns (ok: bool, ghost out: Outcome)
    requires cursor.State() == r0 && WorldOf(ctx, app, glob) == w0
    modifies cursor, app
    ensures out == AppInterfaceSpec(id, r0, w0)
    ensures Follows(out, w0, ok, cursor, ctx, app, glob)
  {
    match id {
      case ApplicationSettings => ok, out := ReadApplicationSettings(r0, w0, cursor, ctx, app, glob);
      case SoundFlashBounceNotifyOld => ok, out := ReadSoundFlashBounceNotifyOld(r0, w0, cursor, ctx, app, glob);
      case ModerateModeOld => ok, out := ReadModerateModeOld(r0, w0, cursor, ctx, app, glob);
      case IncludeMutedOld => ok, out := ReadIncludeMutedOld(r0, w0, cursor, ctx, app, glob);
      case DesktopNotifyOld => ok, out := ReadDesktopNotifyOld(r0, w0, cursor, ctx, app, glob);
      case NativeNotificationsOld => ok, out := ReadNativeNotificationsOld(r0, w0, cursor, ctx, app, glob);
      case NotificationsCountOld => ok, out := ReadNotificationsCountOld(r0, w0, cursor, ctx, app, glob);
      case NotificationsCornerOld => ok, out := ReadNotificationsCornerOld(r0, w0, cursor, ctx, app, glob);
      case DialogsWidthRatioOld => ok, out := ReadDialogsWidthRatioOld(r0, w0, cursor, ctx, app, glob);
      case LastSeenWarningSeenOld => ok, out := ReadLastSeenWarningSeenOld(r0, w0, cursor, ctx, app, glob);
      case SendKeyOld => ok, out := ReadSendKeyOld(r0, w0, cursor, ctx, app, glob);
      case AdaptiveForWideOld => ok, out := ReadAdaptiveForWideOld(r0, w0, cursor, ctx, app, glob);
      case AutoLockOld => ok, out := ReadAutoLockOld(r0, w0, cursor, ctx, app, glob);
      case NotifyViewOld => ok, out := ReadNotifyViewOld(r0, w0, cursor, ctx, app, glob);
    }
  }
}
