/** The blocks that write the session settings the context owns. */
module SessionBlocks {
  import opened Ints
  import opened Stream
  import opened Types
  import opened State
  import opened SettingsSpec
  import opened DecoderBase

  /** The pairs of `v` whose keys are in `keys`. */
  function Restrict(v: map<u64, i32>, keys: set<u64>): (m: map<u64, i32>)
    ensures m.Keys == v.Keys * keys
  {
    map k | k in v.Keys * keys :: v[k]
  }

  /** Handing one more pair of `v` to the map extends the pairs handed so far. */
  lemma HandOneMore(m: map<u64, i32>, v: map<u64, i32>, done: set<u64>, k: u64)
    requires k in v
    ensures (m + Restrict(v, done))[k := v[k]] == m + Restrict(v, done + {k})
  {
  }

  /** Lines 972-976: each stored pair is handed to the session settings in
      turn; the pairs have distinct keys, so the order does not matter. */
  method ApplyHiddenPinned(ctx: Context, v: map<u64, i32>)
    modifies ctx
    ensures ctx.Value() == old(ctx.Value()).(hiddenPinnedMessages := old(ctx.Value().hiddenPinnedMessages) + v)
  {
    ghost var start := ctx.Value();
    var keys := v.Keys;
    ghost var done: set<u64> := {};
    while keys != {}
      invariant keys + done == v.Keys
      invariant ctx.Value() == start.(hiddenPinnedMessages := start.hiddenPinnedMessages + Restrict(v, done))
      decreases keys
    {
      var k :| k in keys;
      HandOneMore(start.hiddenPinnedMessages, v, done, k);
      ctx.SetHiddenPinnedMessages(ctx.Value().hiddenPinnedMessages[k := v[k]]);
      keys := keys - {k};
      done := done + {k};
    }
    assert Restrict(v, done) == v;
  }

  /** Lines 246-271: three legacy masks switch auto-download off per source. */
  method ReadAutoDownloadOld(ghost r0: Reader, ghost w0: World, cursor: Cursor, ctx: Context, app: AppSettings, glob: Globals)
    returns (ok: bool, ghost out: Outcome)
    requires cursor.State() == r0 && WorldOf(ctx, app, glob) == w0
    modifies cursor, ctx
    ensures out == AutoDownloadOldSpec(r0, w0)
    ensures Follows(out, w0, ok, cursor, ctx, app, glob)
  {
    out := AutoDownloadOldSpec(r0, w0);
    var photo := cursor.ReadI32();
    var audio := cursor.ReadI32();
    var gif := cursor.ReadI32();
    if !cursor.ok { ok := false; return; }
    var settings := ctx.Value().autoDownloadLimits;
    settings := DisableByMask(settings, Photo, photo);
    settings := DisableByMask(settings, VoiceMessage, audio);
    settings := DisableByMask(settings, AutoPlayGif, gif);
    settings := DisableByMask(settings, AutoPlayVideoMessage, gif);
    ctx.SetAutoDownloadLimits(settings);
    ok := true;
  }

  /** Lines 273-297: autoplay switched off zeroes every autoplay limit. */
  method ReadAutoPlayOld(ghost r0: Reader, ghost w0: World, cursor: Cursor, ctx: Context, app: AppSettings, glob: Globals)
    returns (ok: bool, ghost out: Outcome)
    requires cursor.State() == r0 && WorldOf(ctx, app, glob) == w0
    modifies cursor, ctx
    ensures out == AutoPlayOldSpec(r0, w0)
    ensures Follows(out, w0, ok, cursor, ctx, app, glob)
  {
    out := AutoPlayOldSpec(r0, w0);
    var gif := cursor.ReadI32();
    if !cursor.ok { ok := false; return; }
    if gif == 0 {
      ctx.SetAutoDownloadLimits(AutoPlayOff(ctx.Value().autoDownloadLimits));
    }
    ok := true;
  }

  /** Lines 305-311. */
  method ReadDialogsFiltersOld(ghost r0: Reader, ghost w0: World, cursor: Cursor, ctx: Context, app: AppSettings, glob: Globals)
    returns (ok: bool, ghost out: Outcome)
    requires cursor.State() == r0 && WorldOf(ctx, app, glob) == w0
    modifies cursor, ctx
    ensures out == DialogsFiltersOldSpec(r0, w0)
    ensures Follows(out, w0, ok, cursor, ctx, app, glob)
  {
    out := DialogsFiltersOldSpec(r0, w0);
    var v := cursor.ReadI32();
    if !cursor.ok { ok := false; return; }
    ctx.SetDialogsFiltersEnabled(v == 1);
    ok := true;
  }

  /** Lines 389-395: the serialised session settings, kept for the session to apply. */
  method ReadSessionSettings(ghost r0: Reader, ghost w0: World, cursor: Cursor, ctx: Context, app: AppSettings, glob: Globals)
    returns (ok: bool, ghost out: Outcome)
    requires cursor.State() == r0 && WorldOf(ctx, app, glob) == w0
    modifies cursor, ctx
    ensures out == SessionSettingsSpec(r0, w0)
    ensures Follows(out, w0, ok, cursor, ctx, app, glob)
  {
    out := SessionSettingsSpec(r0, w0);
    var v := cursor.ReadBytes();
    if !cursor.ok { ok := false; return; }
    ctx.SetSessionSerialized(ctx.Value().sessionSerialized + [v]);
    ok := true;
  }

  /** Lines 968-978. */
  method ReadHiddenPinnedMessagesOld(ghost r0: Reader, ghost w0: World, cursor: Cursor, ctx: Context, app: AppSettings, glob: Globals)
    returns (ok: bool, ghost out: Outcome)
    requires cursor.State() == r0 && WorldOf(ctx, app, glob) == w0
    modifies cursor, ctx
    ensures out == HiddenPinnedMessagesOldSpec(r0, w0)
    ensures Follows(out, w0, ok, cursor, ctx, app, glob)
  {
    out := HiddenPinnedMessagesOldSpec(r0, w0);
    var v := cursor.ReadPinnedOld();
    if !cursor.ok { ok := false; return; }
    ApplyHiddenPinned(ctx, v);
    ok := true;
  }

  /** The session blocks, one method each. */
  method ReadSession(id: SessionId, ghost r0: Reader, ghost w0: World, cursor: Cursor, ctx: Context, app: AppSettings, glob: Globals)
    returns (ok: bool, ghost out: Outcome)
    requires cursor.State() == r0 && WorldOf(ctx, app, glob) == w0
    modifies cursor, ctx
    ensures out == SessionSpec(id, r0, w0)
    ensures Follows(out, w0, ok, cursor, ctx, app, glob)
  {
    match id {
      case AutoDownloadOld => ok, out := ReadAutoDownloadOld(r0, w0, cursor, ctx, app, glob);
      case AutoPlayOld => ok, out := ReadAutoPlayOld(r0, w0, cursor, ctx, app, glob);
      case DialogsFiltersOld => ok, out := ReadDialogsFiltersOld(r0, w0, cursor, ctx, app, glob);
      case SessionSettings => ok, out := ReadSessionSettings(r0, w0, cursor, ctx, app, glob);
      case HiddenPinnedMessagesOld => ok, out := ReadHiddenPinnedMessagesOld(r0, w0, cursor, ctx, app, glob);
    }
  }
}
