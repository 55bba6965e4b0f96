/**
 The format over streams, as the program writes and reads it: a writer that
 bytes are appended to, a reader they are taken from, loops over the items of a
 collection, and a buffer of eight bytes for packed numbers.
 */
module FormatStreams {
  import opened Wrappers
  import opened Bytes
  import opened Format

  /** The first bytes of a number do not depend on how many are taken. */
  lemma {:induction false} LePrefix(n: nat, k: nat, j: nat)
    requires j <= k
    ensures ToLe(n, k)[..j] == ToLe(n, j)
  {
    if j > 0 {
      LePrefix(n / 256, k - 1, j - 1);
      assert ToLe(n, k)[..j] == [n % 256] + ToLe(n / 256, k - 1)[..j - 1];
    }
  }

  lemma {:induction false} OwnLevel(ty: Ty)
    requires !ty.TUnit? && !ty.TPair?
    ensures Level(ty) > 0
  {
  }

  lemma {:induction false} GrownEncodes(base: Ty, added: Ty, v: Val)
    requires HasType(TGrown(base, added), v)
    ensures v.VPair? && HasType(base, v.first)
    ensures v.second.VNone? || (v.second.VSome? && HasType(added, v.second.value))
    ensures
      var more := if v.second.VNone? then [0] else [1] + Encode(added, v.second.value);
      Encode(TGrown(base, added), v) == Encode(base, v.first) + more
  {
  }

  class Writer {
    var bytes: seq<byte>

    constructor ()
      ensures bytes == []
    {
      bytes := [];
    }

    method Write(more: seq<byte>) returns (written: nat)
      modifies this
      ensures bytes == old(bytes) + more && written == |more|
    {
      bytes := bytes + more;
      written := |more|;
    }

    method WritePacked(n: nat) returns (written: nat)
      requires n < U64_LIMIT
      modifies this
      ensures bytes == old(bytes) + Pack(n) && written == |Pack(n)|
    {
      var zeros := LeadingZeros(n);
      var count := 8 - zeros / 8;
      LePrefix(n, 8, count);
      var tag := Write([count]);
      var rest := Write(ToLe(n, 8)[..count]);
      written := tag + rest;
      assert bytes == old(bytes) + Pack(n);
    }

    method WriteAll(t: Ty, items: seq<Val>) returns (written: nat)
      requires forall i :: 0 <= i < |items| ==> HasType(t, items[i])
      modifies this
      ensures bytes == old(bytes) + EncodeAll(t, items) && written == |EncodeAll(t, items)|
      decreases t, 2
    {
      hide HasType, Encode;
      written := 0;
      for i := 0 to |items|
        invariant bytes + EncodeAll(t, items[i..]) == old(bytes) + EncodeAll(t, items)
        invariant written + |EncodeAll(t, items[i..])| == |EncodeAll(t, items)|
      {
        assert items[i..][0] == items[i] && items[i..][1..] == items[i + 1..];
        ghost var before := bytes;
        var n := WriteData(t, items[i]);
        written := written + n;
        assert bytes + EncodeAll(t, items[i + 1..]) == before + EncodeAll(t, items[i..]);
      }
      assert bytes + [] == bytes;
    }

    method WriteOption(t: Ty, v: Val) returns (written: nat)
      requires v.VNone? || (v.VSome? && HasType(t, v.value))
      modifies this
      ensures
        var more := if v.VNone? then [0] else [1] + Encode(t, v.value);
        bytes == old(bytes) + more && written == |more|
      decreases t, 2
    {
      hide HasType, Encode;
      if v.VNone? {
        written := Write([0]);
      } else {
        var tag := Write([1]);
        var n := WriteData(t, v.value);
        written := tag + n;
        assert bytes == old(bytes) + ([1] + Encode(t, v.value));
      }
    }

    method WriteText(text: seq<byte>) returns (written: nat)
      requires |text| < U64_LIMIT
      modifies this
      ensures bytes == old(bytes) + (Pack(|text|) + text) && written == |Pack(|text|) + text|
    {
      var length := WritePacked(|text|);
      var n := Write(text);
      written := length + n;
    }

    method WriteVec(t: Ty, items: seq<Val>) returns (written: nat)
      requires |items| < U64_LIMIT && forall i :: 0 <= i < |items| ==> HasType(t, items[i])
      modifies this
      ensures bytes == old(bytes) + (Pack(|items|) + EncodeAll(t, items))
      ensures written == |Pack(|items|) + EncodeAll(t, items)|
      decreases t, 3
    {
      hide HasType, EncodeAll;
      var length := WritePacked(|items|);
      var n := WriteAll(t, items);
      written := length + n;
    }

    method WritePair(a: Ty, b: Ty, v: Val) returns (written: nat)
      requires v.VPair? && HasType(a, v.first) && HasType(b, v.second)
      modifies this
      ensures bytes == old(bytes) + (Encode(a, v.first) + Encode(b, v.second))
      ensures written == |Encode(a, v.first) + Encode(b, v.second)|
      decreases TPair(a, b), 0
    {
      hide HasType, Encode;
      var first := WriteData(a, v.first);
      var second := WriteData(b, v.second);
      written := first + second;
    }

    method WriteCase(cases: seq<Ty>, v: Val) returns (written: nat)
      requires v.VCase? && v.tag < |cases| && v.tag < 256 && HasType(cases[v.tag], v.content)
      modifies this
      ensures bytes == old(bytes) + ([v.tag] + Encode(cases[v.tag], v.content))
      ensures written == |[v.tag] + Encode(cases[v.tag], v.content)|
      decreases TSum(cases), 0
    {
      hide HasType, Encode;
      var tag := Write([v.tag]);
      var n := WriteData(cases[v.tag], v.content);
      written := tag + n;
    }

    method WriteData(ty: Ty, v: Val) returns (written: nat)
      requires HasType(ty, v)
      modifies this
      ensures bytes == old(bytes) + Encode(ty, v) && written == |Encode(ty, v)|
      decreases ty, 1
    {
      match ty {
        case TUnit => written := Write([]);
        case TUint(size) => written := Write(ToLe(v.n, size));
        case TInt(size) => written := Write(ToLe(Unsigned(v.i, size), size));
        case TPacked => written := WritePacked(v.n);
        case TBool => written := Write([if v.b then 1 else 0]);
        case TNonZero => written := Write([v.n]);
        case TString => written := WriteText(v.text);
        case TOption(t) => written := WriteOption(t, v);
        case TVec(t) => written := WriteVec(t, v.items);
        case TArray(t, _) => written := WriteAll(t, v.items);
        case TPair(a, b) => written := WritePair(a, b, v);
        case TSum(cases) => written := WriteCase(cases, v);
        case TVersioned(_, body) => written := WriteData(body, v);
        case TGrown(base, added) => written := WriteGrown(base, added, v);
      }
    }

    method WriteGrown(base: Ty, added: Ty, v: Val) returns (written: nat)
      requires HasType(TGrown(base, added), v)
      modifies this
      ensures bytes == old(bytes) + Encode(TGrown(base, added), v) && written == |Encode(TGrown(base, added), v)|
      decreases TGrown(base, added), 0
    {
      hide Encode, HasType;
      GrownEncodes(base, added, v);
      var first := WriteData(base, v.first);
      var second := WriteOption(added, v.second);
      written := first + second;
      ghost var more := if v.second.VNone? then [0] else [1] + Encode(added, v.second.value);
      assert bytes == old(bytes) + (Encode(base, v.first) + more);
    }

    /** The header of a type that is not a pair: that of its header, then the header itself. */
    method WriteOwnHeader(ty: Ty) returns (written: nat)
      requires !ty.TUnit? && !ty.TPair?
      modifies this
      ensures bytes == old(bytes) + EncodeHeader(ty) && written == |EncodeHeader(ty)|
      decreases Level(ty), ty, 0
    {
      hide Encode, HasType, HeaderTy, Latest;
      LevelOfHeader(ty);
      LatestHasType(ty);
      OwnLevel(ty);
      var header := HeaderTy(ty);
      hide Level;
      var first := WriteHeader(header);
      var second := WriteData(header, Latest(ty));
      written := first + second;
      assert bytes == old(bytes) + (EncodeHeader(header) + Encode(header, Latest(ty)));
    }

    method WriteHeader(ty: Ty) returns (written: nat)
      modifies this
      ensures bytes == old(bytes) + EncodeHeader(ty) && written == |EncodeHeader(ty)|
      decreases Level(ty), ty, 1
    {
      hide Encode, HasType, HeaderTy, Latest;
      if ty.TUnit? {
        written := Write([]);
      } else if ty.TPair? {
        var first := WriteHeader(ty.first);
        var second := WriteHeader(ty.second);
        written := first + second;
        assert bytes == old(bytes) + (EncodeHeader(ty.first) + EncodeHeader(ty.second));
      } else {
        written := WriteOwnHeader(ty);
      }
    }

    /** The header, then the data. */
    method WriteDataFormat(ty: Ty, v: Val) returns (written: nat)
      requires HasType(ty, v)
      modifies this
      ensures bytes == old(bytes) + EncodeWithHeader(ty, v) && written == |EncodeWithHeader(ty, v)|
    {
      hide Encode, EncodeHeader, HasType;
      var header := WriteHeader(ty);
      var data := WriteData(ty, v);
      written := header + data;
      assert bytes == old(bytes) + (EncodeHeader(ty) + Encode(ty, v));
    }
  }

  /** What a reader does: give the value and keep the rest, or fail. */
  ghost predicate Follows(r: Result<Val, ReadError>, rest: seq<byte>, spec: Reading) {
    match spec
    case Err(e) => r == Err(e)
    case Ok(x) => r == Ok(x.v) && rest == x.rest
  }

  lemma {:induction false} PairDecodes(a: Ty, b: Ty, header: Val, s: seq<byte>)
    ensures
      var h, k := if header.VPair? then header.first else VUnit, if header.VPair? then header.second else VUnit;
      Decode(TPair(a, b), header, s) ==
        match Decode(a, h, s)
        case Err(e) => Err(e)
        case Ok(x) =>
          match Decode(b, k, x.rest)
          case Err(e) => Err(e)
          case Ok(y) => Ok(Read(VPair(x.v, y.v), y.rest))
  {
  }

  class Reader {
    var bytes: seq<byte>

    constructor (bytes: seq<byte>)
      ensures this.bytes == bytes
    {
      this.bytes := bytes;
    }

    method ReadExact(n: nat) returns (r: Result<seq<byte>, ReadError>)
      modifies this
      ensures r.Ok? <==> n <= |old(bytes)|
      ensures r.Ok? ==> r.value == old(bytes)[..n] && bytes == old(bytes)[n..]
      ensures r.Err? ==> r.error == Eof && bytes == old(bytes)
    {
      if |bytes| < n {
        return Err(Eof);
      }
      r := Ok(bytes[..n]);
      bytes := bytes[n..];
    }

    /** The bytes are read into a buffer of eight that is zero to begin with. */
    method ReadPacked() returns (r: Result<nat, ReadError>)
      modifies this
      ensures
        match Unpack(old(bytes))
        case Err(e) => r == Err(e)
        case Ok(u) => r == Ok(u.n) && bytes == u.rest
    {
      var tag := ReadExact(1);
      if tag.Err? {
        return Err(tag.error);
      }
      var count := tag.value[0];
      if count > 8 {
        return Err(TooLong(count));
      }
      var read := ReadExact(count);
      if read.Err? {
        return Err(read.error);
      }
      assert read.value == old(bytes)[1..1 + count] && bytes == old(bytes)[1 + count..];
      var n := FromBuffer(read.value);
      r := Ok(n);
    }

    static method FromBuffer(read: seq<byte>) returns (n: nat)
      requires |read| <= 8
      ensures n == FromLe(read)
    {
      var buffer := new byte[8](_ => 0);
      for i := 0 to |read|
        invariant forall j :: 0 <= j < 8 ==> buffer[j] == if j < i then read[j] else 0
      {
        buffer[i] := read[i];
      }
      ghost var zeros: seq<byte> := seq(8 - |read|, _ => 0);
      assert buffer[..] == read + zeros;
      ZeroExtended(read, 8 - |read|);
      n := FromLe(buffer[..]);
    }

    method ReadText() returns (r: Result<Val, ReadError>)
      modifies this
      ensures Follows(r, bytes, DecodeText(old(bytes)))
    {
      hide ValidUtf8, Unpack;
      var length := ReadPacked();
      if length.Err? {
        return Err(length.error);
      }
      var read := ReadExact(length.value);
      if read.Err? {
        return if ValidUtf8(bytes) then Err(ShortText(length.value, |bytes|)) else Err(Utf8);
      }
      return if ValidUtf8(read.value) then Ok(VText(read.value)) else Err(Utf8);
    }

    /** Read a number of items one after the other. */
    method ReadAll(t: Ty, header: Val, n: nat) returns (r: Result<Val, ReadError>)
      modifies this
      ensures Follows(r, bytes, DecodeAll(t, header, n, old(bytes)))
      decreases t, 2
    {
      hide Decode;
      var items: seq<Val> := [];
      NothingRead(DecodeAll(t, header, n, bytes));
      for i := 0 to n
        invariant ReadSoFar(DecodeAll(t, header, n, old(bytes)), items, DecodeAll(t, header, n - i, bytes))
      {
        ghost var before := bytes;
        var item := ReadData(t, header);
        if item.Err? {
          return Err(item.error);
        }
        OneMore(DecodeAll(t, header, n, old(bytes)), items, item.value, DecodeAll(t, header, n - i, before),
                DecodeAll(t, header, n - i - 1, bytes));
        items := items + [item.value];
      }
      assert items + [] == items;
      r := Ok(VSeq(items));
    }

    method ReadOption(t: Ty, header: Val) returns (r: Result<Val, ReadError>)
      modifies this
      ensures Follows(r, bytes, DecodeOption(t, header, old(bytes)))
      decreases t, 2
    {
      hide Decode;
      var tag := ReadExact(1);
      if tag.Err? {
        return Err(Eof);
      }
      if tag.value[0] == 0 {
        return Ok(VNone);
      } else if tag.value[0] == 1 {
        var item := ReadData(t, header);
        if item.Err? {
          return item;
        }
        return Ok(VSome(item.value));
      } else {
        return Err(InvalidTag(tag.value[0]));
      }
    }

    method ReadPair(a: Ty, b: Ty, header: Val) returns (r: Result<Val, ReadError>)
      modifies this
      ensures Follows(r, bytes, Decode(TPair(a, b), header, old(bytes)))
      decreases TPair(a, b), 0
    {
      hide Decode;
      var h, k := if header.VPair? then header.first else VUnit, if header.VPair? then header.second else VUnit;
      PairDecodes(a, b, header, bytes);
      var first := ReadData(a, h);
      if first.Err? {
        return first;
      }
      var second := ReadData(b, k);
      if second.Err? {
        return second;
      }
      return Ok(VPair(first.value, second.value));
    }

    method ReadCase(cases: seq<Ty>, header: Val) returns (r: Result<Val, ReadError>)
      modifies this
      ensures Follows(r, bytes, Decode(TSum(cases), header, old(bytes)))
      decreases TSum(cases), 0
    {
      var tag := ReadExact(1);
      if tag.Err? {
        return Err(Eof);
      }
      var i := tag.value[0];
      if i >= |cases| {
        return Err(InvalidTag(i));
      }
      var content := ReadData(cases[i], CaseHeader(header, i));
      if content.Err? {
        return content;
      }
      return Ok(VCase(i, content.value));
    }

    /** The branch on the version. */
    method ReadGrown(base: Ty, added: Ty, header: Val) returns (r: Result<Val, ReadError>)
      modifies this
      ensures Follows(r, bytes, Decode(TGrown(base, added), header, old(bytes)))
      decreases TGrown(base, added), 0
    {
      var version := VersionOf(header);
      if version == 0 || version > 2 {
        return Err(UnsupportedVersion(version));
      }
      var first := ReadData(base, header.second);
      if first.Err? {
        return first;
      }
      if version == 1 {
        return Ok(VPair(first.value, VNone));
      }
      var second := ReadOption(added, Latest(added));
      if second.Err? {
        return second;
      }
      return Ok(VPair(first.value, second.value));
    }

    method ReadSimple(ty: Ty) returns (r: Result<Val, ReadError>)
      requires ty.TUnit? || ty.TUint? || ty.TInt? || ty.TPacked? || ty.TBool? || ty.TNonZero?
      modifies this
      ensures forall header :: Follows(r, bytes, Decode(ty, header, old(bytes)))
    {
      if ty.TUnit? {
        return Ok(VUnit);
      } else if ty.TPacked? {
        var n := ReadPacked();
        return if n.Ok? then Ok(VNat(n.value)) else Err(n.error);
      }
      var read := ReadExact(if ty.TUint? || ty.TInt? then ty.size else 1);
      if read.Err? {
        return Err(Eof);
      }
      if ty.TUint? {
        return Ok(VNat(FromLe(read.value)));
      } else if ty.TInt? {
        return Ok(VInt(Signed(FromLe(read.value), ty.size)));
      } else if ty.TBool? {
        return Ok(VBool(read.value[0] != 0));
      } else {
        return if read.value[0] == 0 then Err(InvalidValue) else Ok(VNat(read.value[0]));
      }
    }

    method ReadVec(t: Ty, header: Val) returns (r: Result<Val, ReadError>)
      modifies this
      ensures Follows(r, bytes, Decode(TVec(t), header, old(bytes)))
      decreases t, 3
    {
      hide Unpack, DecodeAll;
      var length := ReadPacked();
      if length.Err? {
        return Err(length.error);
      }
      r := ReadAll(t, header, length.value);
    }

    method ReadVersioned(version: byte, body: Ty, header: Val) returns (r: Result<Val, ReadError>)
      modifies this
      ensures Follows(r, bytes, Decode(TVersioned(version, body), header, old(bytes)))
      decreases TVersioned(version, body), 0
    {
      if !header.VPair? || header.first != VNat(version) {
        return Err(UnsupportedVersion(VersionOf(header)));
      }
      r := ReadData(body, header.second);
    }

    method ReadData(ty: Ty, header: Val) returns (r: Result<Val, ReadError>)
      modifies this
      ensures Follows(r, bytes, Decode(ty, header, old(bytes)))
      decreases ty, 1
    {
      hide Follows, DecodeText, DecodeOption, DecodeAll;
      match ty {
        case TString => r := ReadText();
        case TOption(t) => r := ReadOption(t, header);
        case TVec(t) => r := ReadVec(t, header);
        case TArray(t, n) => r := ReadAll(t, header, n);
        case TPair(a, b) => r := ReadPair(a, b, header);
        case TSum(cases) => r := ReadCase(cases, header);
        case TVersioned(version, body) => r := ReadVersioned(version, body, header);
        case TGrown(base, added) => r := ReadGrown(base, added, header);
        case _ => r := ReadSimple(ty);
      }
    }

    /** The header's header, then the header. */
    method ReadOwnHeader(ty: Ty) returns (r: Result<Val, ReadError>)
      requires !ty.TUnit? && !ty.TPair?
      modifies this
      ensures Follows(r, bytes, DecodeHeader(ty, old(bytes)))
      decreases Level(ty), ty, 0
    {
      hide Decode, HeaderTy;
      LevelOfHeader(ty);
      OwnLevel(ty);
      var header := HeaderTy(ty);
      hide Level;
      var first := ReadHeader(header);
      if first.Err? {
        return first;
      }
      r := ReadData(header, first.value);
    }

    method ReadHeader(ty: Ty) returns (r: Result<Val, ReadError>)
      modifies this
      ensures Follows(r, bytes, DecodeHeader(ty, old(bytes)))
      decreases Level(ty), ty, 1
    {
      hide Decode, HeaderTy;
      if ty.TUnit? {
        return Ok(VUnit);
      } else if ty.TPair? {
        var first := ReadHeader(ty.first);
        if first.Err? {
          return first;
        }
        var second := ReadHeader(ty.second);
        if second.Err? {
          return second;
        }
        return Ok(VPair(first.value, second.value));
      } else {
        r := ReadOwnHeader(ty);
      }
    }

    method ReadDataFormat(ty: Ty) returns (r: Result<Val, ReadError>)
      modifies this
      ensures Follows(r, bytes, DecodeWithHeader(ty, old(bytes)))
    {
      hide Decode, DecodeHeader;
      var header := ReadHeader(ty);
      if header.Err? {
        return header;
      }
      r := ReadData(ty, header.value);
    }
  }

  /** The items read so far in front of what is still to be read are all items. */
  ghost predicate ReadSoFar(all: Reading, items: seq<Val>, left: Reading) {
    match left
    case Err(e) => all == Err(e)
    case Ok(x) => x.v.VSeq? && all == Ok(Read(VSeq(items + x.v.items), x.rest))
  }

  lemma {:induction false} NothingRead(all: Reading)
    requires all.Ok? ==> all.value.v.VSeq?
    ensures ReadSoFar(all, [], all)
  {
    if all.Ok? {
      assert [] + all.value.v.items == all.value.v.items;
    }
  }

  lemma {:induction false} OneMore(all: Reading, items: seq<Val>, item: Val, before: Reading, after: Reading)
    requires ReadSoFar(all, items, before)
    requires after.Err? ==> before == Err(after.error)
    requires after.Ok? ==> after.value.v.VSeq? && before == Ok(Read(VSeq([item] + after.value.v.items), after.value.rest))
    ensures ReadSoFar(all, items + [item], after)
  {
    if after.Ok? {
      assert items + ([item] + after.value.v.items) == items + [item] + after.value.v.items;
    }
  }
}
