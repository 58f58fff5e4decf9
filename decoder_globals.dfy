/** The blocks that set process-wide flags, the work mode, the interface
    scale and the window geometry. */
module GlobalFlagBlocks {
  import opened Ints
  import opened Stream
  import opened Types
  import opened State
  import opened SettingsSpec
  import opened DecoderBase

  /** Lines 162-168. */
  method ReadAutoStart(ghost r0: Reader, ghost w0: World, cursor: Cursor, ctx: Context, app: AppSettings, glob: Globals)
    returns (ok: bool, ghost out: Outcome)
    requires cursor.State() == r0 && WorldOf(ctx, app, glob) == w0
    modifies cursor, glob
    ensures out == AutoStartSpec(r0, w0)
    ensures Follows(out, w0, ok, cursor, ctx, app, glob)
  {
    out := AutoStartSpec(r0, w0);
    var v := cursor.ReadI32();
    if !cursor.ok { ok := false; return; }
    glob.SetAutoStart(v == 1);
    ok := true;
  }

  /** Lines 170-176. */
  method ReadStartMinimized(ghost r0: Reader, ghost w0: World, cursor: Cursor, ctx: Context, app: AppSettings, glob: Globals)
    returns (ok: bool, ghost out: Outcome)
    requires cursor.State() == r0 && WorldOf(ctx, app, glob) == w0
    modifies cursor, glob
    ensures out == StartMinimizedSpec(r0, w0)
    ensures Follows(out, w0, ok, cursor, ctx, app, glob)
  {
    out := StartMinimizedSpec(r0, w0);
    var v := cursor.ReadI32();
    if !cursor.ok { ok := false; return; }
    glob.SetStartMinimized(v == 1);
    ok := true;
  }

  /** Lines 178-184. */
  method ReadSendToMenu(ghost r0: Reader, ghost w0: World, cursor: Cursor, ctx: Context, app: AppSettings, glob: Globals)
    returns (ok: bool, ghost out: Outcome)
    requires cursor.State() == r0 && WorldOf(ctx, app, glob) == w0
    modifies cursor, glob
    ensures out == SendToMenuSpec(r0, w0)
    ensures Follows(out, w0, ok, cursor, ctx, app, glob)
  {
    out := SendToMenuSpec(r0, w0);
    var v := cursor.ReadI32();
    if !cursor.ok { ok := false; return; }
    glob.SetSendToMenu(v == 1);
    ok := true;
  }

  /** Lines 186-192. */
  method ReadUseExternalVideoPlayer(ghost r0: Reader, ghost w0: World, cursor: Cursor, ctx: Context, app: AppSettings, glob: Globals)
    returns (ok: bool, ghost out: Outcome)
    requires cursor.State() == r0 && WorldOf(ctx, app, glob) == w0
    modifies cursor, glob
    ensures out == UseExternalVideoPlayerSpec(r0, w0)
    ensures Follows(out, w0, ok, cursor, ctx, app, glob)
  {
    out := UseExternalVideoPlayerSpec(r0, w0);
    var v := cursor.ReadI32();
    if !cursor.ok { ok := false; return; }
    glob.SetUseExternalVideoPlayer(v == 1);
    ok := true;
  }

  /** Lines 227-235. */
  method ReadAnimationsDisabled(ghost r0: Reader, ghost w0: World, cursor: Cursor, ctx: Context, app: AppSettings, glob: Globals)
    returns (ok: bool, ghost out: Outcome)
    requires cursor.State() == r0 && WorldOf(ctx, app, glob) == w0
    modifies cursor, glob
    ensures out == AnimationsDisabledSpec(r0, w0)
    ensures Follows(out, w0, ok, cursor, ctx, app, glob)
  {
    out := AnimationsDisabledSpec(r0, w0);
    var v := cursor.ReadI32();
    if !cursor.ok { ok := false; return; }
    glob.SetAnimationsDisabled(v == 1);
    ok := true;
  }

  /** Lines 397-410: unknown modes mean window and tray. */
  method ReadWorkMode(ghost r0: Reader, ghost w0: World, cursor: Cursor, ctx: Context, app: AppSettings, glob: Globals)
    returns (ok: bool, ghost out: Outcome)
    requires cursor.State() == r0 && WorldOf(ctx, app, glob) == w0
    modifies cursor, glob
    ensures out == WorkModeSpec(r0, w0)
    ensures Follows(out, w0, ok, cursor, ctx, app, glob)
  {
    out := WorkModeSpec(r0, w0);
    var v := cursor.ReadI32();
    if !cursor.ok { ok := false; return; }
    glob.SetWorkMode(WorkModeOf(v));
    ok := true;
  }

  /** Lines 606-612. */
  method ReadTryIPv6(ghost r0: Reader, ghost w0: World, cursor: Cursor, ctx: Context, app: AppSettings, glob: Globals)
    returns (ok: bool, ghost out: Outcome)
    requires cursor.State() == r0 && WorldOf(ctx, app, glob) == w0
    modifies cursor, glob
    ensures out == TryIPv6Spec(r0, w0)
    ensures Follows(out, w0, ok, cursor, ctx, app, glob)
  {
    out := TryIPv6Spec(r0, w0);
    var v := cursor.ReadI32();
    if !cursor.ok { ok := false; return; }
    glob.SetTryIPv6(v == 1);
    ok := true;
  }

  /** Lines 614-620. */
  method ReadSeenTrayTooltip(ghost r0: Reader, ghost w0: World, cursor: Cursor, ctx: Context, app: AppSettings, glob: Globals)
    returns (ok: bool, ghost out: Outcome)
    requires cursor.State() == r0 && WorldOf(ctx, app, glob) == w0
    modifies cursor, glob
    ensures out == SeenTrayTooltipSpec(r0, w0)
    ensures Follows(out, w0, ok, cursor, ctx, app, glob)
  {
    out := SeenTrayTooltipSpec(r0, w0);
    var v := cursor.ReadI32();
    if !cursor.ok { ok := false; return; }
    glob.SetSeenTrayTooltip(v == 1);
    ok := true;
  }

  /** Lines 622-631. */
  method ReadAutoUpdate(ghost r0: Reader, ghost w0: World, cursor: Cursor, ctx: Context, app: AppSettings, glob: Globals)
    returns (ok: bool, ghost out: Outcome)
    requires cursor.State() == r0 && WorldOf(ctx, app, glob) == w0
    modifies cursor, glob
    ensures out == AutoUpdateSpec(r0, w0)
    ensures Follows(out, w0, ok, cursor, ctx, app, glob)
  {
    out := AutoUpdateSpec(r0, w0);
    var v := cursor.ReadI32();
    if !cursor.ok { ok := false; return; }
    glob.SetAutoUpdate(v == 1);
    ok := true;
  }

  /** Lines 633-639. */
  method ReadLastUpdateCheck(ghost r0: Reader, ghost w0: World, cursor: Cursor, ctx: Context, app: AppSettings, glob: Globals)
    returns (ok: bool, ghost out: Outcome)
    requires cursor.State() == r0 && WorldOf(ctx, app, glob) == w0
    modifies cursor, glob
    ensures out == LastUpdateCheckSpec(r0, w0)
    ensures Follows(out, w0, ok, cursor, ctx, app, glob)
  {
    out := LastUpdateCheckSpec(r0, w0);
    var v := cursor.ReadI32();
    if !cursor.ok { ok := false; return; }
    glob.SetLastUpdateCheck(v);
    ok := true;
  }

  /** Lines 641-661: the five legacy scale steps, passed through `SetScaleChecked`. */
  method ReadScaleOld(ghost r0: Reader, ghost w0: World, cursor: Cursor, configScale: int, checkScale: int -> int, ctx: Context, app: AppSettings, glob: Globals)
    returns (ok: bool, ghost out: Outcome)
    requires cursor.State() == r0 && WorldOf(ctx, app, glob) == w0
    modifies cursor, glob
    ensures out == ScaleOldSpec(r0, configScale, checkScale, w0)
    ensures Follows(out, w0, ok, cursor, ctx, app, glob)
  {
    out := ScaleOldSpec(r0, configScale, checkScale, w0);
    var v := cursor.ReadI32();
    if !cursor.ok { ok := false; return; }
    glob.SetScale(checkScale(ScaleFromOld(v, configScale)));
    ok := true;
  }

  /** Lines 663-672: stored through `SetScaleChecked`, only while no scale was given on the command line. */
  method ReadScalePercent(ghost r0: Reader, ghost w0: World, cursor: Cursor, configScale: int, checkScale: int -> int, ctx: Context, app: AppSettings, glob: Globals)
    returns (ok: bool, ghost out: Outcome)
    requires cursor.State() == r0 && WorldOf(ctx, app, glob) == w0
    modifies cursor, glob
    ensures out == ScalePercentSpec(r0, configScale, checkScale, w0)
    ensures Follows(out, w0, ok, cursor, ctx, app, glob)
  {
    out := ScalePercentSpec(r0, configScale, checkScale, w0);
    var v := cursor.ReadI32();
    if !cursor.ok { ok := false; return; }
    // A scale given on the command line takes precedence.
    if configScale == ScaleAuto {
      glob.SetScale(checkScale(v));
    }
    ok := true;
  }

  /** Lines 686-694. */
  method ReadWindowPosition(ghost r0: Reader, ghost w0: World, cursor: Cursor, ctx: Context, app: AppSettings, glob: Globals)
    returns (ok: bool, ghost out: Outcome)
    requires cursor.State() == r0 && WorldOf(ctx, app, glob) == w0
    modifies cursor, glob
    ensures out == WindowPositionSpec(r0, w0)
    ensures Follows(out, w0, ok, cursor, ctx, app, glob)
  {
    out := WindowPositionSpec(r0, w0);
    var x := cursor.ReadI32();
    var y := cursor.ReadI32();
    var w := cursor.ReadI32();
    var h := cursor.ReadI32();
    var moncrc := cursor.ReadI32();
    var maximized := cursor.ReadI32();
    if !cursor.ok { ok := false; return; }
    glob.SetWindowPos(WindowPos(x, y, w, h, moncrc, maximized));
    ok := true;
  }

  /** Lines 980-986. */
  method ReadDialogLastPath(ghost r0: Reader, ghost w0: World, cursor: Cursor, ctx: Context, app: AppSettings, glob: Globals)
    returns (ok: bool, ghost out: Outcome)
    requires cursor.State() == r0 && WorldOf(ctx, app, glob) == w0
    modifies cursor, glob
    ensures out == DialogLastPathSpec(r0, w0)
    ensures Follows(out, w0, ok, cursor, ctx, app, glob)
  {
    out := DialogLastPathSpec(r0, w0);
    var v := cursor.ReadStr();
    if !cursor.ok { ok := false; return; }
    glob.SetDialogLastPath(v);
    ok := true;
  }

  /** The global-flag blocks, one method each. */
  method ReadGlobalFlag(id: GlobalFlagId, ghost r0: Reader, ghost w0: World, cursor: Cursor, configScale: int, checkScale: int -> int, ctx: Context, app: AppSettings, glob: Globals)
    returns (ok: bool, ghost out: Outcome)
    requires cursor.State() == r0 && WorldOf(ctx, app, glob) == w0
    modifies cursor, glob
    ensures out == GlobalFlagSpec(id, r0, configScale, checkScale, w0)
    ensures Follows(out, w0, ok, cursor, ctx, app, glob)
  {
    match id {
      case AutoStart => ok, out := ReadAutoStart(r0, w0, cursor, ctx, app, glob);
      case StartMinimized => ok, out := ReadStartMinimized(r0, w0, cursor, ctx, app, glob);
      case SendToMenu => ok, out := ReadSendToMenu(r0, w0, cursor, ctx, app, glob);
      case UseExternalVideoPlayer => ok, out := ReadUseExternalVideoPlayer(r0, w0, cursor, ctx, app, glob);
      case AnimationsDisabled => ok, out := ReadAnimationsDisabled(r0, w0, cursor, ctx, app, glob);
      case WorkMode => ok, out := ReadWorkMode(r0, w0, cursor, ctx, app, glob);
      case TryIPv6 => ok, out := ReadTryIPv6(r0, w0, cursor, ctx, app, glob);
      case SeenTrayTooltip => ok, out := ReadSeenTrayTooltip(r0, w0, cursor, ctx, app, glob);
      case AutoUpdate => ok, out := ReadAutoUpdate(r0, w0, cursor, ctx, app, glob);
      case LastUpdateCheck => ok, out := ReadLastUpdateCheck(r0, w0, cursor, ctx, app, glob);
      case ScaleOld => ok, out := ReadScaleOld(r0, w0, cursor, configScale, checkScale, ctx, app, glob);
      case ScalePercent => ok, out := ReadScalePercent(r0, w0, cursor, configScale, checkScale, ctx, app, glob);
      case WindowPosition => ok, out := ReadWindowPosition(r0, w0, cursor, ctx, app, glob);
      case DialogLastPath => ok, out := ReadDialogLastPath(r0, w0, cursor, ctx, app, glob);
    }
  }
}
