/** The blocks that fill the legacy fallback-config fields, the legacy
    authorization and the serialised fallback config of the context. */
module LegacyConfigBlocks {
  import opened Ints
  import opened Stream
  import opened Types
  import opened State
  import opened SettingsSpec
  import opened DecoderBase

  /** Lines 45-57: the oldest DC option record; the host name is read and dropped. */
  method ReadDcOptionOldOld(ghost r0: Reader, ghost w0: World, cursor: Cursor, ctx: Context, app: AppSettings, glob: Globals)
    returns (ok: bool, ghost out: Outcome)
    requires cursor.State() == r0 && WorldOf(ctx, app, glob) == w0
    modifies cursor, ctx
    ensures out == DcOptionOldOldSpec(r0, w0)
    ensures Follows(out, w0, ok, cursor, ctx, app, glob)
  {
    out := DcOptionOldOldSpec(r0, w0);
    var dcId := cursor.ReadU32();
    var host := cursor.ReadStr();
    var ip := cursor.ReadStr();
    var port := cursor.ReadU32();
    if !cursor.ok { ok := false; return; }
    ctx.SetLegacyDcOptions(ctx.Value().legacyDcOptions + [AddOne(dcId, 0, ip, port)]);
    ok := true;
  }

  /** Lines 59-72: a DC option record with flags. */
  method ReadDcOptionOld(ghost r0: Reader, ghost w0: World, cursor: Cursor, ctx: Context, app: AppSettings, glob: Globals)
    returns (ok: bool, ghost out: Outcome)
    requires cursor.State() == r0 && WorldOf(ctx, app, glob) == w0
    modifies cursor, ctx
    ensures out == DcOptionOldSpec(r0, w0)
    ensures Follows(out, w0, ok, cursor, ctx, app, glob)
  {
    out := DcOptionOldSpec(r0, w0);
    var dcIdWithShift := cursor.ReadU32();
    var flags := cursor.ReadI32();
    var ip := cursor.ReadStr();
    var port := cursor.ReadU32();
    if !cursor.ok { ok := false; return; }
    ctx.SetLegacyDcOptions(ctx.Value().legacyDcOptions + [AddOne(dcIdWithShift, flags, ip, port)]);
    ok := true;
  }

  /** Lines 74-81: a serialised DC option list, merged into the legacy options. */
  method ReadDcOptionsOld(ghost r0: Reader, ghost w0: World, cursor: Cursor, ctx: Context, app: AppSettings, glob: Globals)
    returns (ok: bool, ghost out: Outcome)
    requires cursor.State() == r0 && WorldOf(ctx, app, glob) == w0
    modifies cursor, ctx
    ensures out == DcOptionsOldSpec(r0, w0)
    ensures Follows(out, w0, ok, cursor, ctx, app, glob)
  {
    out := DcOptionsOldSpec(r0, w0);
    var serialized := cursor.ReadBytes();
    if !cursor.ok { ok := false; return; }
    ctx.SetLegacyDcOptions(ctx.Value().legacyDcOptions + [FromSerialized(serialized)]);
    ok := true;
  }

  /** Lines 91-97. */
  method ReadChatSizeMaxOld(ghost r0: Reader, ghost w0: World, cursor: Cursor, ctx: Context, app: AppSettings, glob: Globals)
    returns (ok: bool, ghost out: Outcome)
    requires cursor.State() == r0 && WorldOf(ctx, app, glob) == w0
    modifies cursor, ctx
    ensures out == ChatSizeMaxOldSpec(r0, w0)
    ensures Follows(out, w0, ok, cursor, ctx, app, glob)
  {
    out := ChatSizeMaxOldSpec(r0, w0);
    var v := cursor.ReadI32();
    if !cursor.ok { ok := false; return; }
    ctx.SetLegacyChatSizeMax(v);
    ok := true;
  }

  /** Lines 99-105. */
  method ReadSavedGifsLimitOld(ghost r0: Reader, ghost w0: World, cursor: Cursor, ctx: Context, app: AppSettings, glob: Globals)
    returns (ok: bool, ghost out: Outcome)
    requires cursor.State() == r0 && WorldOf(ctx, app, glob) == w0
    modifies cursor, ctx
    ensures out == SavedGifsLimitOldSpec(r0, w0)
    ensures Follows(out, w0, ok, cursor, ctx, app, glob)
  {
    out := SavedGifsLimitOldSpec(r0, w0);
    var v := cursor.ReadI32();
    if !cursor.ok { ok := false; return; }
    ctx.SetLegacySavedGifsLimit(v);
    ok := true;
  }

  /** Lines 107-113. */
  method ReadStickersRecentLimitOld(ghost r0: Reader, ghost w0: World, cursor: Cursor, ctx: Context, app: AppSettings, glob: Globals)
    returns (ok: bool, ghost out: Outcome)
    requires cursor.State() == r0 && WorldOf(ctx, app, glob) == w0
    modifies cursor, ctx
    ensures out == StickersRecentLimitOldSpec(r0, w0)
    ensures Follows(out, w0, ok, cursor, ctx, app, glob)
  {
    out := StickersRecentLimitOldSpec(r0, w0);
    var v := cursor.ReadI32();
    if !cursor.ok { ok := false; return; }
    ctx.SetLegacyStickersRecentLimit(v);
    ok := true;
  }

  /** Lines 115-121. */
  method ReadStickersFavedLimitOld(ghost r0: Reader, ghost w0: World, cursor: Cursor, ctx: Context, app: AppSettings, glob: Globals)
    returns (ok: bool, ghost out: Outcome)
    requires cursor.State() == r0 && WorldOf(ctx, app, glob) == w0
    modifies cursor, ctx
    ensures out == StickersFavedLimitOldSpec(r0, w0)
    ensures Follows(out, w0, ok, cursor, ctx, app, glob)
  {
    out := StickersFavedLimitOldSpec(r0, w0);
    var v := cursor.ReadI32();
    if !cursor.ok { ok := false; return; }
    ctx.SetLegacyStickersFavedLimit(v);
    ok := true;
  }

  /** Lines 123-129. */
  method ReadMegagroupSizeMaxOld(ghost r0: Reader, ghost w0: World, cursor: Cursor, ctx: Context, app: AppSettings, glob: Globals)
    returns (ok: bool, ghost out: Outcome)
    requires cursor.State() == r0 && WorldOf(ctx, app, glob) == w0
    modifies cursor, ctx
    ensures out == MegagroupSizeMaxOldSpec(r0, w0)
    ensures Follows(out, w0, ok, cursor, ctx, app, glob)
  {
    out := MegagroupSizeMaxOldSpec(r0, w0);
    var v := cursor.ReadI32();
    if !cursor.ok { ok := false; return; }
    ctx.SetLegacyMegagroupSizeMax(v);
    ok := true;
  }

  /** Lines 418-424. */
  method ReadTxtDomainStringOld(ghost r0: Reader, ghost w0: World, cursor: Cursor, ctx: Context, app: AppSettings, glob: Globals)
    returns (ok: bool, ghost out: Outcome)
    requires cursor.State() == r0 && WorldOf(ctx, app, glob) == w0
    modifies cursor, ctx
    ensures out == TxtDomainStringOldSpec(r0, w0)
    ensures Follows(out, w0, ok, cursor, ctx, app, glob)
  {
    out := TxtDomainStringOldSpec(r0, w0);
    var v := cursor.ReadStr();
    if !cursor.ok { ok := false; return; }
    ctx.SetLegacyTxtDomainString(v);
    ok := true;
  }

  /** Lines 1040-1046: the serialised fallback config. */
  method ReadFallbackProductionConfig(ghost r0: Reader, ghost w0: World, cursor: Cursor, ctx: Context, app: AppSettings, glob: Globals)
    returns (ok: bool, ghost out: Outcome)
    requires cursor.State() == r0 && WorldOf(ctx, app, glob) == w0
    modifies cursor, ctx
    ensures out == FallbackProductionConfigSpec(r0, w0)
    ensures Follows(out, w0, ok, cursor, ctx, app, glob)
  {
    out := FallbackProductionConfigSpec(r0, w0);
    var v := cursor.ReadBytes();
    if !cursor.ok { ok := false; return; }
    ctx.SetFallbackConfig(v);
    ok := true;
  }

  /** Lines 131-140: the legacy user and main DC. */
  method ReadUser(ghost r0: Reader, ghost w0: World, cursor: Cursor, ctx: Context, app: AppSettings, glob: Globals)
    returns (ok: bool, ghost out: Outcome)
    requires cursor.State() == r0 && WorldOf(ctx, app, glob) == w0
    modifies cursor, ctx
    ensures out == UserSpec(r0, w0)
    ensures Follows(out, w0, ok, cursor, ctx, app, glob)
  {
    out := UserSpec(r0, w0);
    var userId := cursor.ReadI32();
    var dcId := cursor.ReadU32();
    if !cursor.ok { ok := false; return; }
    ctx.SetLegacyMainDcId(dcId);
    ctx.SetLegacyUserId(userId);
    ok := true;
  }

  /** Lines 142-152: one legacy authorization key. */
  method ReadLegacyKey(ghost r0: Reader, ghost w0: World, cursor: Cursor, ctx: Context, app: AppSettings, glob: Globals)
    returns (ok: bool, ghost out: Outcome)
    requires cursor.State() == r0 && WorldOf(ctx, app, glob) == w0
    modifies cursor, ctx
    ensures out == KeySpec(r0, w0)
    ensures Follows(out, w0, ok, cursor, ctx, app, glob)
  {
    out := KeySpec(r0, w0);
    var dcId := cursor.ReadI32();
    var key := cursor.ReadKey();
    if !cursor.ok { ok := false; return; }
    ctx.SetLegacyKeys(ctx.Value().legacyKeys + [LegacyKey(dcId, key)]);
    ok := true;
  }

  /** Lines 154-160. */
  method ReadMtpAuthorization(ghost r0: Reader, ghost w0: World, cursor: Cursor, ctx: Context, app: AppSettings, glob: Globals)
    returns (ok: bool, ghost out: Outcome)
    requires cursor.State() == r0 && WorldOf(ctx, app, glob) == w0
    modifies cursor, ctx
    ensures out == MtpAuthorizationSpec(r0, w0)
    ensures Follows(out, w0, ok, cursor, ctx, app, glob)
  {
    out := MtpAuthorizationSpec(r0, w0);
    var v := cursor.ReadBytes();
    if !cursor.ok { ok := false; return; }
    ctx.SetMtpAuthorization(v);
    ok := true;
  }

  /** The legacy-config blocks, one method each. */
  method ReadLegacyConfig(id: LegacyConfigId, ghost r0: Reader, ghost w0: World, cursor: Cursor, ctx: Context, app: AppSettings, glob: Globals)
    returns (ok: bool, ghost out: Outcome)
    requires cursor.State() == r0 && WorldOf(ctx, app, glob) == w0
    modifies cursor, ctx
    ensures out == LegacyConfigSpec(id, r0, w0)
    ensures Follows(out, w0, ok, cursor, ctx, app, glob)
  {
    match id {
      case DcOptionOldOld => ok, out := ReadDcOptionOldOld(r0, w0, cursor, ctx, app, glob);
      case DcOptionOld => ok, out := ReadDcOptionOld(r0, w0, cursor, ctx, app, glob);
      case DcOptionsOld => ok, out := ReadDcOptionsOld(r0, w0, cursor, ctx, app, glob);
      case ChatSizeMaxOld => ok, out := ReadChatSizeMaxOld(r0, w0, cursor, ctx, app, glob);
      case SavedGifsLimitOld => ok, out := ReadSavedGifsLimitOld(r0, w0, cursor, ctx, app, glob);
      case StickersRecentLimitOld => ok, out := ReadStickersRecentLimitOld(r0, w0, cursor, ctx, app, glob);
      case StickersFavedLimitOld => ok, out := ReadStickersFavedLimitOld(r0, w0, cursor, ctx, app, glob);
      case MegagroupSizeMaxOld => ok, out := ReadMegagroupSizeMaxOld(r0, w0, cursor, ctx, app, glob);
      case TxtDomainStringOld => ok, out := ReadTxtDomainStringOld(r0, w0, cursor, ctx, app, glob);
      case FallbackProductionConfig => ok, out := ReadFallbackProductionConfig(r0, w0, cursor, ctx, app, glob);
      case User => ok, out := ReadUser(r0, w0, cursor, ctx, app, glob);
      case Key => ok, out := ReadLegacyKey(r0, w0, cursor, ctx, app, glob);
      case MtpAuthorization => ok, out := ReadMtpAuthorization(r0, w0, cursor, ctx, app, glob);
    }
  }
}
