/** `ReadSetting` (storage_settings_scheme.cpp:39-1054) as the source runs
    it: for each block, reads through the stream cursor, a status check, then
    assignments to the context, the application settings and the globals.
    Each block has its own method in the module of its group, proved to do
    what `SettingsSpec` says; in particular, when it returns false, none of
    the three objects has changed. */
module Decoder {
  import opened Stream
  import opened Types
  import opened State
  import opened SettingsSpec
  import opened DecoderBase
  import opened LegacyConfigBlocks
  import opened CacheBlocks
  import opened SessionBlocks
  import opened ThemeBlocks
  import opened GlobalFlagBlocks
  import opened EmojiBlocks
  import opened ProxyBlocks
  import opened AppInterfaceBlocks
  import opened AppMediaBlocks
  import opened DiscardedBlocks

  /** `ReadSetting(blockId, stream, version, context)`: decodes one block
      and reports whether the caller may go on with the stream. `out` is
      what `ReadSettingSpec` prescribes; on `false` the context, the
      application settings and the globals are exactly as they were. */
  method ReadSetting(id: BlockId, cursor: Cursor, version: int, env: Env,
                     ctx: Context, app: AppSettings, glob: Globals)
    returns (ok: bool, ghost out: Outcome)
    modifies cursor, ctx, app, glob
    ensures out == ReadSettingSpec(id, old(cursor.State()), version, env, old(WorldOf(ctx, app, glob)))
    ensures Follows(out, old(WorldOf(ctx, app, glob)), ok, cursor, ctx, app, glob)
    ensures !ok ==> WorldOf(ctx, app, glob) == old(WorldOf(ctx, app, glob))
  {
    ghost var r0 := cursor.State();
    ghost var w0 := WorldOf(ctx, app, glob);
    match id {
      case LegacyConfigBlock(b) => ok, out := ReadLegacyConfig(b, r0, w0, cursor, ctx, app, glob);
      case CacheBlock(b) => ok, out := ReadCache(b, r0, w0, cursor, env.maxDataSize, ctx, app, glob);
      case SessionBlock(b) => ok, out := ReadSession(b, r0, w0, cursor, ctx, app, glob);
      case ThemeBlock(b) => ok, out := ReadTheme(b, r0, w0, cursor, version, ctx, app, glob);
      case GlobalFlagBlock(b) => ok, out := ReadGlobalFlag(b, r0, w0, cursor, env.configScale, env.checkScale, ctx, app, glob);
      case EmojiBlock(b) => ok, out := ReadEmoji(b, r0, w0, cursor, env, ctx, app, glob);
      case ProxyBlock(b) => ok, out := ReadProxyBlock(b, r0, w0, cursor, env.proxyValid, ctx, app, glob);
      case AppInterfaceBlock(b) => ok, out := ReadAppInterface(b, r0, w0, cursor, ctx, app, glob);
      case AppMediaBlock(b) => ok, out := ReadAppMedia(b, r0, w0, cursor, env.readCallSettings, ctx, app, glob);
      case DiscardedBlock(b) => ok, out := ReadDiscarded(b, r0, w0, cursor, ctx, app, glob);
      case Unrecognised(_) =>
        // An unknown block id: the stream cannot be resynchronised.
        ok, out := false, Failed(r0);
    }
  }
}
