/** The two cache-limit blocks: every size and time is validated before any
    of them is stored. */
module CacheBlocks {
  import opened Ints
  import opened Stream
  import opened Types
  import opened State
  import opened CacheLimits
  import opened SettingsSpec
  import opened DecoderBase

  /** Lines 194-207: one size and time limit, used for both caches. */
  method ReadCacheSettingsOld(ghost r0: Reader, ghost w0: World, cursor: Cursor, maxDataSize: int, ctx: Context, app: AppSettings, glob: Globals)
    returns (ok: bool, ghost out: Outcome)
    requires cursor.State() == r0 && WorldOf(ctx, app, glob) == w0
    modifies cursor, ctx
    ensures out == CacheSettingsOldSpec(r0, maxDataSize, w0)
    ensures Follows(out, w0, ok, cursor, ctx, app, glob)
  {
    out := CacheSettingsOldSpec(r0, maxDataSize, w0);
    var size := cursor.ReadI64();
    var time := cursor.ReadI32();
    if !cursor.ok || size <= maxDataSize || (!NoTimeLimit(time) && time < 0) {
      ok := false; return;
    }
    ctx.SetCacheLimits(size, if NoTimeLimit(time) then 0 else time,
                       size, if NoTimeLimit(time) then 0 else time);
    ok := true;
  }

  /** Lines 209-225: separate limits for the main cache and the big-file cache. */
  method ReadCacheSettings(ghost r0: Reader, ghost w0: World, cursor: Cursor, maxDataSize: int, ctx: Context, app: AppSettings, glob: Globals)
    returns (ok: bool, ghost out: Outcome)
    requires cursor.State() == r0 && WorldOf(ctx, app, glob) == w0
    modifies cursor, ctx
    ensures out == CacheSettingsSpec(r0, maxDataSize, w0)
    ensures Follows(out, w0, ok, cursor, ctx, app, glob)
  {
    out := CacheSettingsSpec(r0, maxDataSize, w0);
    var size := cursor.ReadI64();
    var time := cursor.ReadI32();
    var sizeBig := cursor.ReadI64();
    var timeBig := cursor.ReadI32();
    if !cursor.ok || size <= maxDataSize || sizeBig <= maxDataSize
       || (!NoTimeLimit(time) && time < 0) || (!NoTimeLimit(timeBig) && timeBig < 0) {
      ok := false; return;
    }
    ctx.SetCacheLimits(size, if NoTimeLimit(time) then 0 else time,
                       sizeBig, if NoTimeLimit(timeBig) then 0 else timeBig);
    ok := true;
  }

  /** The cache blocks, one method each. */
  method ReadCache(id: CacheId, ghost r0: Reader, ghost w0: World, cursor: Cursor, maxDataSize: int, ctx: Context, app: AppSettings, glob: Globals)
    returns (ok: bool, ghost out: Outcome)
    requires cursor.State() == r0 && WorldOf(ctx, app, glob) == w0
    modifies cursor, ctx
    ensures out == CacheSpec(id, r0, maxDataSize, w0)
    ensures Follows(out, w0, ok, cursor, ctx, app, glob)
  {
    match id {
      case CacheSettingsOld => ok, out := ReadCacheSettingsOld(r0, w0, cursor, maxDataSize, ctx, app, glob);
      case CacheSettings => ok, out := ReadCacheSettings(r0, w0, cursor, maxDataSize, ctx, app, glob);
    }
  }
}
