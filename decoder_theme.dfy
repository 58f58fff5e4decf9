/** The blocks with theme, background and language keys and the tiling
    flags. */
module ThemeBlocks {
  import opened Ints
  import opened Stream
  import opened Types
  import opened State
  import opened SettingsSpec
  import opened DecoderBase

  /** Lines 561-567. */
  method ReadThemeKeyOld(ghost r0: Reader, ghost w0: World, cursor: Cursor, ctx: Context, app: AppSettings, glob: Globals)
    returns (ok: bool, ghost out: Outcome)
    requires cursor.State() == r0 && WorldOf(ctx, app, glob) == w0
    modifies cursor, ctx
    ensures out == ThemeKeyOldSpec(r0, w0)
    ensures Follows(out, w0, ok, cursor, ctx, app, glob)
  {
    out := ThemeKeyOldSpec(r0, w0);
    var v := cursor.ReadU64();
    if !cursor.ok { ok := false; return; }
    ctx.SetThemeKeyLegacy(v);
    ok := true;
  }

  /** Lines 569-578: the day and night theme keys and the night-mode flag. */
  method ReadThemeKey(ghost r0: Reader, ghost w0: World, cursor: Cursor, ctx: Context, app: AppSettings, glob: Globals)
    returns (ok: bool, ghost out: Outcome)
    requires cursor.State() == r0 && WorldOf(ctx, app, glob) == w0
    modifies cursor, ctx, glob
    ensures out == ThemeKeySpec(r0, w0)
    ensures Follows(out, w0, ok, cursor, ctx, app, glob)
  {
    out := ThemeKeySpec(r0, w0);
    var keyDay := cursor.ReadU64();
    var keyNight := cursor.ReadU64();
    var nightMode := cursor.ReadU32();
    if !cursor.ok { ok := false; return; }
    ctx.SetThemeKeyDay(keyDay);
    ctx.SetThemeKeyNight(keyNight);
    glob.SetNightMode(nightMode == 1);
    ok := true;
  }

  /** Lines 580-588. */
  method ReadBackgroundKey(ghost r0: Reader, ghost w0: World, cursor: Cursor, ctx: Context, app: AppSettings, glob: Globals)
    returns (ok: bool, ghost out: Outcome)
    requires cursor.State() == r0 && WorldOf(ctx, app, glob) == w0
    modifies cursor, ctx
    ensures out == BackgroundKeySpec(r0, w0)
    ensures Follows(out, w0, ok, cursor, ctx, app, glob)
  {
    out := BackgroundKeySpec(r0, w0);
    var keyDay := cursor.ReadU64();
    var keyNight := cursor.ReadU64();
    if !cursor.ok { ok := false; return; }
    ctx.SetBackgroundKeyDay(keyDay);
    ctx.SetBackgroundKeyNight(keyNight);
    ctx.SetBackgroundKeysRead(true);
    ok := true;
  }

  /** Lines 590-596. */
  method ReadLangPackKey(ghost r0: Reader, ghost w0: World, cursor: Cursor, ctx: Context, app: AppSettings, glob: Globals)
    returns (ok: bool, ghost out: Outcome)
    requires cursor.State() == r0 && WorldOf(ctx, app, glob) == w0
    modifies cursor, ctx
    ensures out == LangPackKeySpec(r0, w0)
    ensures Follows(out, w0, ok, cursor, ctx, app, glob)
  {
    out := LangPackKeySpec(r0, w0);
    var v := cursor.ReadU64();
    if !cursor.ok { ok := false; return; }
    ctx.SetLangPackKey(v);
    ok := true;
  }

  /** Lines 598-604. */
  method ReadLanguagesKey(ghost r0: Reader, ghost w0: World, cursor: Cursor, ctx: Context, app: AppSettings, glob: Globals)
    returns (ok: bool, ghost out: Outcome)
    requires cursor.State() == r0 && WorldOf(ctx, app, glob) == w0
    modifies cursor, ctx
    ensures out == LanguagesKeySpec(r0, w0)
    ensures Follows(out, w0, ok, cursor, ctx, app, glob)
  {
    out := LanguagesKeySpec(r0, w0);
    var v := cursor.ReadU64();
    if !cursor.ok { ok := false; return; }
    ctx.SetLanguagesKey(v);
    ok := true;
  }

  /** Lines 741-755: the one tiling flag of the oldest format. */
  method ReadTileBackgroundOld(ghost r0: Reader, ghost w0: World, cursor: Cursor, version: int, ctx: Context, app: AppSettings, glob: Globals)
    returns (ok: bool, ghost out: Outcome)
    requires cursor.State() == r0 && WorldOf(ctx, app, glob) == w0
    modifies cursor, ctx
    ensures out == TileBackgroundOldSpec(r0, version, w0)
    ensures Follows(out, w0, ok, cursor, ctx, app, glob)
  {
    out := TileBackgroundOldSpec(r0, version, w0);
    var v := cursor.ReadI32();
    if !cursor.ok { ok := false; return; }
    var tile := if version < TileFixVersion && !ctx.Value().legacyHasCustomDayBackground then false else v == 1;
    StoreOldTile(ctx, tile, glob.Value().nightMode);
    ok := true;
  }

  /** Lines 749-754: the flag goes to the day slot while night mode is on,
      and the tiling counts as read. */
  method StoreOldTile(ctx: Context, tile: bool, nightMode: bool)
    modifies ctx
    ensures ctx.Value() == if nightMode then old(ctx.Value()).(tileDay := tile, tileRead := true)
                           else old(ctx.Value()).(tileNight := tile, tileRead := true)
  {
    if nightMode {
      ctx.SetTileDay(tile);
    } else {
      ctx.SetTileNight(tile);
    }
    ctx.SetTileRead(true);
  }

  /** Lines 757-765. */
  method ReadTileBackground(ghost r0: Reader, ghost w0: World, cursor: Cursor, ctx: Context, app: AppSettings, glob: Globals)
    returns (ok: bool, ghost out: Outcome)
    requires cursor.State() == r0 && WorldOf(ctx, app, glob) == w0
    modifies cursor, ctx
    ensures out == TileBackgroundSpec(r0, w0)
    ensures Follows(out, w0, ok, cursor, ctx, app, glob)
  {
    out := TileBackgroundSpec(r0, w0);
    var tileDay := cursor.ReadI32();
    var tileNight := cursor.ReadI32();
    if !cursor.ok { ok := false; return; }
    ctx.SetTileDay(tileDay != 0);
    ctx.SetTileNight(tileNight != 0);
    ctx.SetTileRead(true);
    ok := true;
  }

  /** The theme blocks, one method each. */
  method ReadTheme(id: ThemeId, ghost r0: Reader, ghost w0: World, cursor: Cursor, version: int, ctx: Context, app: AppSettings, glob: Globals)
    returns (ok: bool, ghost out: Outcome)
    requires cursor.State() == r0 && WorldOf(ctx, app, glob) == w0
    modifies cursor, ctx, glob
    ensures out == ThemeSpec(id, r0, version, w0)
    ensures Follows(out, w0, ok, cursor, ctx, app, glob)
  {
    match id {
      case ThemeKeyOld => ok, out := ReadThemeKeyOld(r0, w0, cursor, ctx, app, glob);
      case ThemeKey => ok, out := ReadThemeKey(r0, w0, cursor, ctx, app, glob);
      case BackgroundKey => ok, out := ReadBackgroundKey(r0, w0, cursor, ctx, app, glob);
      case LangPackKey => ok, out := ReadLangPackKey(r0, w0, cursor, ctx, app, glob);
      case LanguagesKey => ok, out := ReadLanguagesKey(r0, w0, cursor, ctx, app, glob);
      case TileBackgroundOld => ok, out := ReadTileBackgroundOld(r0, w0, cursor, version, ctx, app, glob);
      case TileBackground => ok, out := ReadTileBackground(r0, w0, cursor, ctx, app, glob);
    }
  }
}
