/** The settings stream: a sequence of typed fields read front to back by a
    cursor whose status, once bad, stays bad. A `QDataStream` read of a value
    whose bytes are missing or malformed is modelled as a read past the last
    field or of a field of another kind. */
module Stream {
  import opened Ints

  /** The raw bytes of an `MTP::AuthKey::Data`: exactly 256 of them. */
  type AuthKeyData = s: seq<byte> | |s| == 256 witness seq(256, i => 0)

  datatype Kind =
    | KInt32 | KUInt32 | KInt64 | KUInt64 | KString | KBytes | KAuthKey
    | KRecentOldOld | KRecentOld | KRecent | KStickers | KVariantsOld | KVariants | KPinnedOld

  /** One serialised value. The container kinds stand for the Qt stream
      operators of the legacy emoji, sticker and pinned-message containers;
      `VariantsOld` lists its entries in the key order a `QMap` iterates in. */
  datatype Field =
    | Int32(i: i32)
    | UInt32(u: u32)
    | Int64(l: i64)
    | UInt64(q: u64)
    | Str(s: string)
    | Bytes(b: seq<byte>)
    | AuthKey(key: AuthKeyData)
    | RecentOldOld(oldOld: seq<(u32, u16)>)
    | RecentOld(keyed: seq<(u64, u16)>)
    | Recent(recent: seq<(string, u16)>)
    | Stickers(stickers: seq<(u64, u16)>)
    | VariantsOld(variantsOld: seq<(u32, u64)>)
    | Variants(variants: map<string, int>)
    | PinnedOld(pinned: map<u64, i32>)
  {
    function KindOf(): Kind {
      match this
      case Int32(_) => KInt32
      case UInt32(_) => KUInt32
      case Int64(_) => KInt64
      case UInt64(_) => KUInt64
      case Str(_) => KString
      case Bytes(_) => KBytes
      case AuthKey(_) => KAuthKey
      case RecentOldOld(_) => KRecentOldOld
      case RecentOld(_) => KRecentOld
      case Recent(_) => KRecent
      case Stickers(_) => KStickers
      case VariantsOld(_) => KVariantsOld
      case Variants(_) => KVariants
      case PinnedOld(_) => KPinnedOld
    }
  }

  /** The value a failed read leaves in its target: zero, empty. */
  function Default(k: Kind): (f: Field)
    ensures f.KindOf() == k
  {
    match k
    case KInt32 => Int32(0)
    case KUInt32 => UInt32(0)
    case KInt64 => Int64(0)
    case KUInt64 => UInt64(0)
    case KString => Str("")
    case KBytes => Bytes([])
    case KAuthKey => AuthKey(seq(256, i => 0))
    case KRecentOldOld => RecentOldOld([])
    case KRecentOld => RecentOld([])
    case KRecent => Recent([])
    case KStickers => Stickers([])
    case KVariantsOld => VariantsOld([])
    case KVariants => Variants(map[])
    case KPinnedOld => PinnedOld(map[])
  }

  /** The value of a stream: its fields, the read position and the status
      flag that `CheckStreamStatus` reports. */
  datatype Reader = Reader(fields: seq<Field>, pos: nat, ok: bool) {

    predicate Fits(k: Kind) {
      ok && pos < |fields| && fields[pos].KindOf() == k
    }

    /** `stream >> value` for a value of kind `k`. */
    function Take(k: Kind): (res: (Reader, Field))
      ensures res.1.KindOf() == k && res.0.fields == fields
      ensures res.0.ok <==> Fits(k)
      ensures res.0.ok ==> res.0.pos == pos + 1 && res.1 == fields[pos]
      ensures !res.0.ok ==> res.0.pos == pos && res.1 == Default(k)
    {
      if Fits(k) then (this.(pos := pos + 1), fields[pos])
      else (this.(ok := false), Default(k))
    }

    /** `n` reads of kind `k` in a row, their values discarded. */
    function TakeMany(k: Kind, n: nat): (r: Reader)
      ensures r.fields == fields
      ensures r.ok <==> ok && (n > 0 ==> pos + n <= |fields|) && forall j :: pos <= j < pos + n ==> fields[j].KindOf() == k
      ensures r.ok ==> r.pos == pos + n
    {
      if n == 0 then this
      else
        var prev := TakeMany(k, n - 1);
        assert prev.ok ==> prev.pos == pos + n - 1;
        prev.Take(k).0
    }

    // One read of each kind, returning the value itself.

    function TakeI32(): (res: (Reader, i32))
      ensures res.0 == Take(KInt32).0
      ensures res.0.ok ==> fields[pos] == Int32(res.1)
      ensures !res.0.ok ==> res.1 == 0
    {
      var (r, f) := Take(KInt32);
      (r, f.i)
    }

    function TakeU32(): (res: (Reader, u32))
      ensures res.0 == Take(KUInt32).0
      ensures res.0.ok ==> fields[pos] == UInt32(res.1)
      ensures !res.0.ok ==> res.1 == 0
    {
      var (r, f) := Take(KUInt32);
      (r, f.u)
    }

    function TakeI64(): (res: (Reader, i64))
      ensures res.0 == Take(KInt64).0
      ensures res.0.ok ==> fields[pos] == Int64(res.1)
      ensures !res.0.ok ==> res.1 == 0
    {
      var (r, f) := Take(KInt64);
      (r, f.l)
    }

    function TakeU64(): (res: (Reader, u64))
      ensures res.0 == Take(KUInt64).0
      ensures res.0.ok ==> fields[pos] == UInt64(res.1)
      ensures !res.0.ok ==> res.1 == 0
    {
      var (r, f) := Take(KUInt64);
      (r, f.q)
    }

    function TakeStr(): (res: (Reader, string))
      ensures res.0 == Take(KString).0
      ensures res.0.ok ==> fields[pos] == Str(res.1)
      ensures !res.0.ok ==> res.1 == ""
    {
      var (r, f) := Take(KString);
      (r, f.s)
    }

    function TakeBytes(): (res: (Reader, seq<byte>))
      ensures res.0 == Take(KBytes).0
      ensures res.0.ok ==> fields[pos] == Bytes(res.1)
      ensures !res.0.ok ==> res.1 == []
    {
      var (r, f) := Take(KBytes);
      (r, f.b)
    }

    function TakeKey(): (res: (Reader, AuthKeyData))
      ensures res.0 == Take(KAuthKey).0
      ensures res.0.ok ==> fields[pos] == AuthKey(res.1)
    {
      var (r, f) := Take(KAuthKey);
      (r, f.key)
    }

    function TakeRecentOldOld(): (res: (Reader, seq<(u32, u16)>))
      ensures res.0 == Take(KRecentOldOld).0
      ensures res.0.ok ==> fields[pos] == RecentOldOld(res.1)
      ensures !res.0.ok ==> res.1 == []
    {
      var (r, f) := Take(KRecentOldOld);
      (r, f.oldOld)
    }

    function TakeRecentOld(): (res: (Reader, seq<(u64, u16)>))
      ensures res.0 == Take(KRecentOld).0
      ensures res.0.ok ==> fields[pos] == RecentOld(res.1)
      ensures !res.0.ok ==> res.1 == []
    {
      var (r, f) := Take(KRecentOld);
      (r, f.keyed)
    }

    function TakeRecent(): (res: (Reader, seq<(string, u16)>))
      ensures res.0 == Take(KRecent).0
      ensures res.0.ok ==> fields[pos] == Recent(res.1)
      ensures !res.0.ok ==> res.1 == []
    {
      var (r, f) := Take(KRecent);
      (r, f.recent)
    }

    function TakeStickers(): (res: (Reader, seq<(u64, u16)>))
      ensures res.0 == Take(KStickers).0
      ensures res.0.ok ==> fields[pos] == Stickers(res.1)
      ensures !res.0.ok ==> res.1 == []
    {
      var (r, f) := Take(KStickers);
      (r, f.stickers)
    }

    function TakeVariantsOld(): (res: (Reader, seq<(u32, u64)>))
      ensures res.0 == Take(KVariantsOld).0
      ensures res.0.ok ==> fields[pos] == VariantsOld(res.1)
      ensures !res.0.ok ==> res.1 == []
    {
      var (r, f) := Take(KVariantsOld);
      (r, f.variantsOld)
    }

    function TakeVariants(): (res: (Reader, map<string, int>))
      ensures res.0 == Take(KVariants).0
      ensures res.0.ok ==> fields[pos] == Variants(res.1)
      ensures !res.0.ok ==> res.1 == map[]
    {
      var (r, f) := Take(KVariants);
      (r, f.variants)
    }

    function TakePinnedOld(): (res: (Reader, map<u64, i32>))
      ensures res.0 == Take(KPinnedOld).0
      ensures res.0.ok ==> fields[pos] == PinnedOld(res.1)
      ensures !res.0.ok ==> res.1 == map[]
    {
      var (r, f) := Take(KPinnedOld);
      (r, f.pinned)
    }
  }

  /** Once a read has failed, every later read fails and nothing moves. */
  lemma BadStaysBad(r: Reader, k: Kind)
    requires !r.ok
    ensures r.Take(k) == (r, Default(k))
  {
  }

  /** The `QDataStream` a record is decoded from. */
  class Cursor {
    const fields: seq<Field>
    var pos: nat
    var ok: bool

    function State(): Reader
      reads this
    {
      Reader(fields, pos, ok)
    }

    constructor (fields: seq<Field>)
      ensures State() == Reader(fields, 0, true)
    {
      this.fields := fields;
      pos := 0;
      ok := true;
    }

    method Read(k: Kind) returns (f: Field)
      modifies this
      ensures (State(), f) == old(State()).Take(k)
    {
      if ok && pos < |fields| && fields[pos].KindOf() == k {
        f := fields[pos];
        pos := pos + 1;
      } else {
        f := Default(k);
        ok := false;
      }
    }

    method ReadI32() returns (v: i32)
      modifies this
      ensures (State(), v) == old(State()).TakeI32()
    {
      var f := Read(KInt32);
      v := f.i;
    }

    method ReadU32() returns (v: u32)
      modifies this
      ensures (State(), v) == old(State()).TakeU32()
    {
      var f := Read(KUInt32);
      v := f.u;
    }

    method ReadI64() returns (v: i64)
      modifies this
      ensures (State(), v) == old(State()).TakeI64()
    {
      var f := Read(KInt64);
      v := f.l;
    }

    method ReadU64() returns (v: u64)
      modifies this
      ensures (State(), v) == old(State()).TakeU64()
    {
      var f := Read(KUInt64);
      v := f.q;
    }

    method ReadStr() returns (v: string)
      modifies this
      ensures (State(), v) == old(State()).TakeStr()
    {
      var f := Read(KString);
      v := f.s;
    }

    method ReadBytes() returns (v: seq<byte>)
      modifies this
      ensures (State(), v) == old(State()).TakeBytes()
    {
      var f := Read(KBytes);
      v := f.b;
    }

    method ReadKey() returns (v: AuthKeyData)
      modifies this
      ensures (State(), v) == old(State()).TakeKey()
    {
      var f := Read(KAuthKey);
      v := f.key;
    }

    method ReadRecentOldOld() returns (v: seq<(u32, u16)>)
      modifies this
      ensures (State(), v) == old(State()).TakeRecentOldOld()
    {
      var f := Read(KRecentOldOld);
      v := f.oldOld;
    }

    method ReadRecentOld() returns (v: seq<(u64, u16)>)
      modifies this
      ensures (State(), v) == old(State()).TakeRecentOld()
    {
      var f := Read(KRecentOld);
      v := f.keyed;
    }

    method ReadRecent() returns (v: seq<(string, u16)>)
      modifies this
      ensures (State(), v) == old(State()).TakeRecent()
    {
      var f := Read(KRecent);
      v := f.recent;
    }

    method ReadStickers() returns (v: seq<(u64, u16)>)
      modifies this
      ensures (State(), v) == old(State()).TakeStickers()
    {
      var f := Read(KStickers);
      v := f.stickers;
    }

    method ReadVariantsOld() returns (v: seq<(u32, u64)>)
      modifies this
      ensures (State(), v) == old(State()).TakeVariantsOld()
    {
      var f := Read(KVariantsOld);
      v := f.variantsOld;
    }

    method ReadVariants() returns (v: map<string, int>)
      modifies this
      ensures (State(), v) == old(State()).TakeVariants()
    {
      var f := Read(KVariants);
      v := f.variants;
    }

    method ReadPinnedOld() returns (v: map<u64, i32>)
      modifies this
      ensures (State(), v) == old(State()).TakePinnedOld()
    {
      var f := Read(KPinnedOld);
      v := f.pinned;
    }
  }
}
