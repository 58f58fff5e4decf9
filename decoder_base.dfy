/** What the block decoders promise, stated once. Line numbers in the
    decoder modules refer to storage_settings_scheme.cpp. */
module DecoderBase {
  import opened Stream
  import opened Types
  import opened State

  /** The values of the three objects the decoder writes. */
  function WorldOf(ctx: Context, app: AppSettings, glob: Globals): World
    reads ctx, app, glob
  {
    World(ctx.Value(), app.Value(), glob.Value())
  }

  /** A decoding step did what `out` prescribes: it returned `ok` exactly
      when `out` applies, left the cursor where `out` says, and left the
      three objects at the new values on success and at `w0`, their values
      before the step, on failure. */
  predicate Follows(out: Outcome, w0: World, ok: bool, cursor: Cursor, ctx: Context, app: AppSettings, glob: Globals)
    reads cursor, ctx, app, glob
  {
    && ok == out.Applied?
    && cursor.State() == out.rest
    && WorldOf(ctx, app, glob) == (if ok then out.world else w0)
  }
}
