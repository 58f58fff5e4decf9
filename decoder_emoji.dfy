/** The blocks with recent emoji and stickers and the emoji colour
    variants. */
module EmojiBlocks {
  import opened Ints
  import opened Stream
  import opened Types
  import opened State
  import opened EmojiMigration
  import opened SettingsSpec
  import opened DecoderBase

  /** Lines 877-906: recent emoji under the oldest keys, remapped first. */
  method ReadRecentEmojiOldOld(ghost r0: Reader, ghost w0: World, cursor: Cursor, env: Env, ctx: Context, app: AppSettings, glob: Globals)
    returns (ok: bool, ghost out: Outcome)
    requires cursor.State() == r0 && WorldOf(ctx, app, glob) == w0
    modifies cursor, glob
    ensures out == RecentEmojiOldOldSpec(r0, env, w0)
    ensures Follows(out, w0, ok, cursor, ctx, app, glob)
  {
    out := RecentEmojiOldOldSpec(r0, env, w0);
    var v := cursor.ReadRecentOldOld();
    if !cursor.ok { ok := false; return; }
    if v != [] {
      var p := ConvertRecentOldOld(v, env.idFromOldKey);
      glob.SetRecentEmojiPreload(p);
    }
    ok := true;
  }

  /** Lines 908-924. */
  method ReadRecentEmojiOld(ghost r0: Reader, ghost w0: World, cursor: Cursor, env: Env, ctx: Context, app: AppSettings, glob: Globals)
    returns (ok: bool, ghost out: Outcome)
    requires cursor.State() == r0 && WorldOf(ctx, app, glob) == w0
    modifies cursor, glob
    ensures out == RecentEmojiOldSpec(r0, env, w0)
    ensures Follows(out, w0, ok, cursor, ctx, app, glob)
  {
    out := RecentEmojiOldSpec(r0, env, w0);
    var v := cursor.ReadRecentOld();
    if !cursor.ok { ok := false; return; }
    if v != [] {
      var p := ConvertRecentOld(v, env.idFromOldKey);
      glob.SetRecentEmojiPreload(p);
    }
    ok := true;
  }

  /** Lines 926-932. */
  method ReadRecentEmoji(ghost r0: Reader, ghost w0: World, cursor: Cursor, ctx: Context, app: AppSettings, glob: Globals)
    returns (ok: bool, ghost out: Outcome)
    requires cursor.State() == r0 && WorldOf(ctx, app, glob) == w0
    modifies cursor, glob
    ensures out == RecentEmojiSpec(r0, w0)
    ensures Follows(out, w0, ok, cursor, ctx, app, glob)
  {
    out := RecentEmojiSpec(r0, w0);
    var v := cursor.ReadRecent();
    if !cursor.ok { ok := false; return; }
    glob.SetRecentEmojiPreload(v);
    ok := true;
  }

  /** Lines 934-940. */
  method ReadRecentStickers(ghost r0: Reader, ghost w0: World, cursor: Cursor, ctx: Context, app: AppSettings, glob: Globals)
    returns (ok: bool, ghost out: Outcome)
    requires cursor.State() == r0 && WorldOf(ctx, app, glob) == w0
    modifies cursor, glob
    ensures out == RecentStickersSpec(r0, w0)
    ensures Follows(out, w0, ok, cursor, ctx, app, glob)
  {
    out := RecentStickersSpec(r0, w0);
    var v := cursor.ReadStickers();
    if !cursor.ok { ok := false; return; }
    glob.SetRecentStickersPreload(v);
    ok := true;
  }

  /** Lines 942-958. */
  method ReadEmojiVariantsOld(ghost r0: Reader, ghost w0: World, cursor: Cursor, env: Env, ctx: Context, app: AppSettings, glob: Globals)
    returns (ok: bool, ghost out: Outcome)
    requires cursor.State() == r0 && WorldOf(ctx, app, glob) == w0
    modifies cursor, glob
    ensures out == EmojiVariantsOldSpec(r0, env, w0)
    ensures Follows(out, w0, ok, cursor, ctx, app, glob)
  {
    out := EmojiVariantsOldSpec(r0, env, w0);
    var v := cursor.ReadVariantsOld();
    if !cursor.ok { ok := false; return; }
    var variants := ConvertVariantsOld(v, env.idFromOldKey, env.colorIndexFromOldKey);
    glob.SetEmojiVariants(variants);
    ok := true;
  }

  /** Lines 960-966. */
  method ReadEmojiVariants(ghost r0: Reader, ghost w0: World, cursor: Cursor, ctx: Context, app: AppSettings, glob: Globals)
    returns (ok: bool, ghost out: Outcome)
    requires cursor.State() == r0 && WorldOf(ctx, app, glob) == w0
    modifies cursor, glob
    ensures out == EmojiVariantsSpec(r0, w0)
    ensures Follows(out, w0, ok, cursor, ctx, app, glob)
  {
    out := EmojiVariantsSpec(r0, w0);
    var v := cursor.ReadVariants();
    if !cursor.ok { ok := false; return; }
    glob.SetEmojiVariants(v);
    ok := true;
  }

  /** The emoji blocks, one method each. */
  method ReadEmoji(id: EmojiId, ghost r0: Reader, ghost w0: World, cursor: Cursor, env: Env, ctx: Context, app: AppSettings, glob: Globals)
    returns (ok: bool, ghost out: Outcome)
    requires cursor.State() == r0 && WorldOf(ctx, app, glob) == w0
    modifies cursor, glob
    ensures out == EmojiSpec(id, r0, env, w0)
    ensures Follows(out, w0, ok, cursor, ctx, app, glob)
  {
    match id {
      case RecentEmojiOldOld => ok, out := ReadRecentEmojiOldOld(r0, w0, cursor, env, ctx, app, glob);
      case RecentEmojiOld => ok, out := ReadRecentEmojiOld(r0, w0, cursor, env, ctx, app, glob);
      case RecentEmoji => ok, out := ReadRecentEmoji(r0, w0, cursor, ctx, app, glob);
      case RecentStickers => ok, out := ReadRecentStickers(r0, w0, cursor, ctx, app, glob);
      case EmojiVariantsOld => ok, out := ReadEmojiVariantsOld(r0, w0, cursor, env, ctx, app, glob);
      case EmojiVariants => ok, out := ReadEmojiVariants(r0, w0, cursor, ctx, app, glob);
    }
  }
}
