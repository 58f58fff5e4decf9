/** Deprecated blocks: each is read to keep the stream aligned and then
    dropped. */
module DiscardedBlocks {
  import opened Ints
  import opened Stream
  import opened Types
  import opened State
  import opened SettingsSpec
  import opened DecoderBase

  /** Lines 299-303. */
  method ReadDialogsModeOld(ghost r0: Reader, ghost w0: World, cursor: Cursor, ctx: Context, app: AppSettings, glob: Globals)
    returns (ok: bool, ghost out: Outcome)
    requires cursor.State() == r0 && WorldOf(ctx, app, glob) == w0
    modifies cursor
    ensures out == DialogsModeOldSpec(r0, w0)
    ensures Follows(out, w0, ok, cursor, ctx, app, glob)
  {
    out := DialogsModeOldSpec(r0, w0);
    var enabled := cursor.ReadI32();
    var modeInt := cursor.ReadI32();
    if !cursor.ok { ok := false; return; }
    ok := true;
  }

  /** Lines 329-333. */
  method ReadShowingSavedGifsOld(ghost r0: Reader, ghost w0: World, cursor: Cursor, ctx: Context, app: AppSettings, glob: Globals)
    returns (ok: bool, ghost out: Outcome)
    requires cursor.State() == r0 && WorldOf(ctx, app, glob) == w0
    modifies cursor
    ensures out == ShowingSavedGifsOldSpec(r0, w0)
    ensures Follows(out, w0, ok, cursor, ctx, app, glob)
  {
    out := ShowingSavedGifsOldSpec(r0, w0);
    var v := cursor.ReadI32();
    if !cursor.ok { ok := false; return; }
    ok := true;
  }

  /** Lines 343-347. */
  method ReadWindowsNotificationsOld(ghost r0: Reader, ghost w0: World, cursor: Cursor, ctx: Context, app: AppSettings, glob: Globals)
    returns (ok: bool, ghost out: Outcome)
    requires cursor.State() == r0 && WorldOf(ctx, app, glob) == w0
    modifies cursor
    ensures out == WindowsNotificationsOldSpec(r0, w0)
    ensures Follows(out, w0, ok, cursor, ctx, app, glob)
  {
    out := WindowsNotificationsOldSpec(r0, w0);
    var v := cursor.ReadI32();
    if !cursor.ok { ok := false; return; }
    ok := true;
  }

  /** Lines 412-416. */
  method ReadTxtDomainStringOldOld(ghost r0: Reader, ghost w0: World, cursor: Cursor, ctx: Context, app: AppSettings, glob: Globals)
    returns (ok: bool, ghost out: Outcome)
    requires cursor.State() == r0 && WorldOf(ctx, app, glob) == w0
    modifies cursor
    ensures out == TxtDomainStringOldOldSpec(r0, w0)
    ensures Follows(out, w0, ok, cursor, ctx, app, glob)
  {
    out := TxtDomainStringOldOldSpec(r0, w0);
    var v := cursor.ReadStr();
    if !cursor.ok { ok := false; return; }
    ok := true;
  }

  /** Lines 674-678. */
  method ReadLangOld(ghost r0: Reader, ghost w0: World, cursor: Cursor, ctx: Context, app: AppSettings, glob: Globals)
    returns (ok: bool, ghost out: Outcome)
    requires cursor.State() == r0 && WorldOf(ctx, app, glob) == w0
    modifies cursor
    ensures out == LangOldSpec(r0, w0)
    ensures Follows(out, w0, ok, cursor, ctx, app, glob)
  {
    out := LangOldSpec(r0, w0);
    var v := cursor.ReadI32();
    if !cursor.ok { ok := false; return; }
    ok := true;
  }

  /** Lines 680-684. */
  method ReadLangFileOld(ghost r0: Reader, ghost w0: World, cursor: Cursor, ctx: Context, app: AppSettings, glob: Globals)
    returns (ok: bool, ghost out: Outcome)
    requires cursor.State() == r0 && WorldOf(ctx, app, glob) == w0
    modifies cursor
    ensures out == LangFileOldSpec(r0, w0)
    ensures Follows(out, w0, ok, cursor, ctx, app, glob)
  {
    out := LangFileOldSpec(r0, w0);
    var v := cursor.ReadStr();
    if !cursor.ok { ok := false; return; }
    ok := true;
  }

  /** Lines 696-700. */
  method ReadLoggedPhoneNumberOld(ghost r0: Reader, ghost w0: World, cursor: Cursor, ctx: Context, app: AppSettings, glob: Globals)
    returns (ok: bool, ghost out: Outcome)
    requires cursor.State() == r0 && WorldOf(ctx, app, glob) == w0
    modifies cursor
    ensures out == LoggedPhoneNumberOldSpec(r0, w0)
    ensures Follows(out, w0, ok, cursor, ctx, app, glob)
  {
    out := LoggedPhoneNumberOldSpec(r0, w0);
    var v := cursor.ReadStr();
    if !cursor.ok { ok := false; return; }
    ok := true;
  }

  /** Lines 702-706. */
  method ReadMutePeerOld(ghost r0: Reader, ghost w0: World, cursor: Cursor, ctx: Context, app: AppSettings, glob: Globals)
    returns (ok: bool, ghost out: Outcome)
    requires cursor.State() == r0 && WorldOf(ctx, app, glob) == w0
    modifies cursor
    ensures out == MutePeerOldSpec(r0, w0)
    ensures Follows(out, w0, ok, cursor, ctx, app, glob)
  {
    out := MutePeerOldSpec(r0, w0);
    var v := cursor.ReadU64();
    if !cursor.ok { ok := false; return; }
    ok := true;
  }

  /** Lines 708-718: a count, then that many peer ids. */
  method ReadMutedPeersOld(ghost r0: Reader, ghost w0: World, cursor: Cursor, ctx: Context, app: AppSettings, glob: Globals)
    returns (ok: bool, ghost out: Outcome)
    requires cursor.State() == r0 && WorldOf(ctx, app, glob) == w0
    modifies cursor
    ensures out == MutedPeersOldSpec(r0, w0)
    ensures Follows(out, w0, ok, cursor, ctx, app, glob)
  {
    out := MutedPeersOldSpec(r0, w0);
    var count := cursor.ReadU32();
    if !cursor.ok { ok := false; return; }
    ghost var r1 := cursor.State();
    for i := 0 to count
      invariant cursor.State() == r1.TakeMany(KUInt64, i)
    {
      var peerId := cursor.ReadU64();
    }
    if !cursor.ok { ok := false; return; }
    ok := true;
  }

  /** Lines 735-739. */
  method ReadCatsAndDogs(ghost r0: Reader, ghost w0: World, cursor: Cursor, ctx: Context, app: AppSettings, glob: Globals)
    returns (ok: bool, ghost out: Outcome)
    requires cursor.State() == r0 && WorldOf(ctx, app, glob) == w0
    modifies cursor
    ensures out == CatsAndDogsSpec(r0, w0)
    ensures Follows(out, w0, ok, cursor, ctx, app, glob)
  {
    out := CatsAndDogsSpec(r0, w0);
    var v := cursor.ReadI32();
    if !cursor.ok { ok := false; return; }
    ok := true;
  }

  /** Lines 808-812. */
  method ReadDefaultAttach(ghost r0: Reader, ghost w0: World, cursor: Cursor, ctx: Context, app: AppSettings, glob: Globals)
    returns (ok: bool, ghost out: Outcome)
    requires cursor.State() == r0 && WorldOf(ctx, app, glob) == w0
    modifies cursor
    ensures out == DefaultAttachSpec(r0, w0)
    ensures Follows(out, w0, ok, cursor, ctx, app, glob)
  {
    out := DefaultAttachSpec(r0, w0);
    var v := cursor.ReadI32();
    if !cursor.ok { ok := false; return; }
    ok := true;
  }

  /** Lines 869-875. */
  method ReadEmojiTabOld(ghost r0: Reader, ghost w0: World, cursor: Cursor, ctx: Context, app: AppSettings, glob: Globals)
    returns (ok: bool, ghost out: Outcome)
    requires cursor.State() == r0 && WorldOf(ctx, app, glob) == w0
    modifies cursor
    ensures out == EmojiTabOldSpec(r0, w0)
    ensures Follows(out, w0, ok, cursor, ctx, app, glob)
  {
    out := EmojiTabOldSpec(r0, w0);
    var v := cursor.ReadI32();
    if !cursor.ok { ok := false; return; }
    ok := true;
  }

  /** The deprecated blocks, one method each. */
  method ReadDiscarded(id: DiscardedId, ghost r0: Reader, ghost w0: World, cursor: Cursor, ctx: Context, app: AppSettings, glob: Globals)
    returns (ok: bool, ghost out: Outcome)
    requires cursor.State() == r0 && WorldOf(ctx, app, glob) == w0
    modifies cursor
    ensures out == DiscardedSpec(id, r0, w0)
    ensures Follows(out, w0, ok, cursor, ctx, app, glob)
  {
    match id {
      case DialogsModeOld => ok, out := ReadDialogsModeOld(r0, w0, cursor, ctx, app, glob);
      case ShowingSavedGifsOld => ok, out := ReadShowingSavedGifsOld(r0, w0, cursor, ctx, app, glob);
      case WindowsNotificationsOld => ok, out := ReadWindowsNotificationsOld(r0, w0, cursor, ctx, app, glob);
      case TxtDomainStringOldOld => ok, out := ReadTxtDomainStringOldOld(r0, w0, cursor, ctx, app, glob);
      case LangOld => ok, out := ReadLangOld(r0, w0, cursor, ctx, app, glob);
      case LangFileOld => ok, out := ReadLangFileOld(r0, w0, cursor, ctx, app, glob);
      case LoggedPhoneNumberOld => ok, out := ReadLoggedPhoneNumberOld(r0, w0, cursor, ctx, app, glob);
      case MutePeerOld => ok, out := ReadMutePeerOld(r0, w0, cursor, ctx, app, glob);
      case MutedPeersOld => ok, out := ReadMutedPeersOld(r0, w0, cursor, ctx, app, glob);
      case CatsAndDogs => ok, out := ReadCatsAndDogs(r0, w0, cursor, ctx, app, glob);
      case DefaultAttach => ok, out := ReadDefaultAttach(r0, w0, cursor, ctx, app, glob);
      case EmojiTabOld => ok, out := ReadEmojiTabOld(r0, w0, cursor, ctx, app, glob);
    }
  }
}
