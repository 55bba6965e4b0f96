/**
 What can be read.  A relation between bytes and values says how a value can be
 written under a header; reading gives a value exactly for the bytes that write
 it, so it does not depend on what follows, and no bytes cut short are read.
 */
module FormatReading {
  import opened Wrappers
  import opened Bytes
  import opened Format
  import opened FormatProofs

  /** A length byte of at most eight, and that many bytes from the lowest. */
  predicate PackedAs(bytes: seq<byte>, n: nat) {
    bytes != [] && bytes[0] <= 8 && |bytes| == 1 + bytes[0] && FromLe(bytes[1..]) == n
  }

  function FirstOf(header: Val): Val {
    if header.VPair? then header.first else VUnit
  }

  function SecondOf(header: Val): Val {
    if header.VPair? then header.second else VUnit
  }

  ghost predicate Writes(ty: Ty, header: Val, v: Val, bytes: seq<byte>)
    decreases ty, 0
  {
    match ty
    case TUnit => v == VUnit && bytes == []
    case TUint(size) => v.VNat? && |bytes| == size && FromLe(bytes) == v.n
    case TInt(size) => v.VInt? && |bytes| == size && Signed(FromLe(bytes), size) == v.i
    case TPacked => v.VNat? && PackedAs(bytes, v.n)
    case TBool => v.VBool? && |bytes| == 1 && (v.b <==> bytes[0] != 0)
    case TNonZero => v.VNat? && |bytes| == 1 && bytes[0] == v.n && v.n > 0
    case TString => v.VText? && ValidUtf8(v.text) && exists length :: PackedAs(length, |v.text|) && bytes == length + v.text
    case TOption(t) => WritesOption(t, header, v, bytes)
    case TVec(t) =>
      v.VSeq? && exists length, items ::
        PackedAs(length, |v.items|) && WritesAll(t, header, v.items, items) && bytes == length + items
    case TArray(t, n) => v.VSeq? && |v.items| == n && WritesAll(t, header, v.items, bytes)
    case TPair(a, b) =>
      v.VPair? && exists x, y ::
        Writes(a, FirstOf(header), v.first, x) && Writes(b, SecondOf(header), v.second, y) && bytes == x + y
    case TSum(cases) =>
      v.VCase? && v.tag < |cases| && bytes != [] && bytes[0] == v.tag
      && Writes(cases[v.tag], CaseHeader(header, v.tag), v.content, bytes[1..])
    case TVersioned(version, body) =>
      header.VPair? && header.first == VNat(version) && Writes(body, header.second, v, bytes)
    case TGrown(base, added) =>
      1 <= VersionOf(header) <= 2 && v.VPair? && exists x, y ::
        Writes(base, header.second, v.first, x) && WritesAdded(added, VersionOf(header), v.second, y) && bytes == x + y
  }

  ghost predicate WritesOption(t: Ty, header: Val, v: Val, bytes: seq<byte>)
    decreases t, 1
  {
    if v.VNone? then bytes == [0]
    else v.VSome? && bytes != [] && bytes[0] == 1 && Writes(t, header, v.value, bytes[1..])
  }

  /** The part that came with the second version. */
  ghost predicate WritesAdded(t: Ty, version: nat, v: Val, bytes: seq<byte>)
    decreases t, 2
  {
    if version == 1 then v == VNone && bytes == [] else WritesOption(t, Latest(t), v, bytes)
  }

  ghost predicate WritesAll(t: Ty, header: Val, items: seq<Val>, bytes: seq<byte>)
    decreases t, 1, |items|
  {
    if items == [] then bytes == []
    else exists x, y :: Writes(t, header, items[0], x) && WritesAll(t, header, items[1..], y) && bytes == x + y
  }

  // ---------- Bytes that write a value are read as that value ----------

  lemma {:induction false} PackedReads(bytes: seq<byte>, n: nat, suffix: seq<byte>)
    requires PackedAs(bytes, n)
    ensures Unpack(bytes + suffix) == Ok(Unpacked(n, suffix))
  {
    var s, k := bytes + suffix, bytes[0];
    assert s[1..1 + k] == bytes[1..] && s[1 + k..] == suffix;
  }

  lemma {:induction false} FirstBack(bytes: seq<byte>, suffix: seq<byte>)
    requires bytes != []
    ensures bytes + suffix != [] && (bytes + suffix)[0] == bytes[0] && (bytes + suffix)[1..] == bytes[1..] + suffix
  {
  }

  lemma {:induction false} SimpleReads(ty: Ty, header: Val, v: Val, bytes: seq<byte>, suffix: seq<byte>)
    requires Writes(ty, header, v, bytes)
    requires ty.TUnit? || ty.TUint? || ty.TInt? || ty.TPacked? || ty.TBool? || ty.TNonZero?
    ensures Decode(ty, header, bytes + suffix) == Ok(Read(v, suffix))
  {
    hide FromLe, Signed, Pow256, Unpack, PackedAs;
    match ty {
      case TUnit => assert [] + suffix == suffix;
      case TUint(_) => TakeBack(bytes, suffix);
      case TInt(_) => TakeBack(bytes, suffix);
      case TPacked => PackedReads(bytes, v.n, suffix);
      case TBool => FirstBack(bytes, suffix); assert bytes[1..] == [] && [] + suffix == suffix;
      case TNonZero => FirstBack(bytes, suffix); assert bytes[1..] == [] && [] + suffix == suffix;
    }
  }

  lemma {:induction false} TextReads(header: Val, v: Val, bytes: seq<byte>, suffix: seq<byte>)
    requires Writes(TString, header, v, bytes)
    ensures Decode(TString, header, bytes + suffix) == Ok(Read(v, suffix))
  {
    hide PackedAs, Unpack, ValidUtf8;
    var length :| PackedAs(length, |v.text|) && bytes == length + v.text;
    Assoc(length, v.text, suffix);
    PackedReads(length, |v.text|, v.text + suffix);
    TakeBack(v.text, suffix);
  }

  lemma {:induction false} OptionReads(t: Ty, header: Val, v: Val, bytes: seq<byte>, suffix: seq<byte>)
    requires WritesOption(t, header, v, bytes)
    ensures DecodeOption(t, header, bytes + suffix) == Ok(Read(v, suffix))
    decreases t, 2
  {
    hide Decode, Writes;
    FirstBack(bytes, suffix);
    if v.VNone? {
      assert bytes[1..] + suffix == suffix;
    } else {
      WrittenReads(t, header, v.value, bytes[1..], suffix);
    }
  }

  lemma {:induction false} OneMoreItem(t: Ty, header: Val, n: nat, s: seq<byte>, first: Val, after: seq<byte>, others: seq<Val>, rest: seq<byte>)
    requires n > 0 && Decode(t, header, s) == Ok(Read(first, after))
    requires DecodeAll(t, header, n - 1, after) == Ok(Read(VSeq(others), rest))
    ensures DecodeAll(t, header, n, s) == Ok(Read(VSeq([first] + others), rest))
  {
    hide Decode;
  }

  lemma {:induction false} ItemsSplit(t: Ty, header: Val, items: seq<Val>, bytes: seq<byte>) returns (x: seq<byte>, y: seq<byte>)
    requires WritesAll(t, header, items, bytes) && items != []
    ensures Writes(t, header, items[0], x) && WritesAll(t, header, items[1..], y) && bytes == x + y
  {
    hide Writes;
    x, y :| Writes(t, header, items[0], x) && WritesAll(t, header, items[1..], y) && bytes == x + y;
  }

  lemma {:induction false} NoItems(t: Ty, header: Val, bytes: seq<byte>, suffix: seq<byte>)
    requires WritesAll(t, header, [], bytes)
    ensures DecodeAll(t, header, 0, bytes + suffix) == Ok(Read(VSeq([]), suffix))
  {
    assert bytes + suffix == suffix;
  }

  lemma {:induction false} AllReads(t: Ty, header: Val, items: seq<Val>, bytes: seq<byte>, suffix: seq<byte>)
    requires WritesAll(t, header, items, bytes)
    ensures DecodeAll(t, header, |items|, bytes + suffix) == Ok(Read(VSeq(items), suffix))
    decreases t, 2, |items|
  {
    hide Decode, Writes, WritesAll, DecodeAll;
    if items == [] {
      NoItems(t, header, bytes, suffix);
    } else {
      var x, y := ItemsSplit(t, header, items, bytes);
      Assoc(x, y, suffix);
      WrittenReads(t, header, items[0], x, y + suffix);
      AllReads(t, header, items[1..], y, suffix);
      OneMoreItem(t, header, |items|, bytes + suffix, items[0], y + suffix, items[1..], suffix);
      assert [items[0]] + items[1..] == items;
    }
  }

  lemma {:induction false} VecReads(t: Ty, header: Val, v: Val, bytes: seq<byte>, suffix: seq<byte>)
    requires Writes(TVec(t), header, v, bytes)
    ensures Decode(TVec(t), header, bytes + suffix) == Ok(Read(v, suffix))
    decreases t, 3
  {
    hide PackedAs, Unpack, WritesAll, DecodeAll;
    var length, items :| PackedAs(length, |v.items|) && WritesAll(t, header, v.items, items) && bytes == length + items;
    Assoc(length, items, suffix);
    PackedReads(length, |v.items|, items + suffix);
    AllReads(t, header, v.items, items, suffix);
  }

  lemma {:induction false} PairReads(a: Ty, b: Ty, header: Val, v: Val, bytes: seq<byte>, suffix: seq<byte>)
    requires Writes(TPair(a, b), header, v, bytes)
    ensures Decode(TPair(a, b), header, bytes + suffix) == Ok(Read(v, suffix))
    decreases TPair(a, b), 0
  {
    var x, y :| Writes(a, FirstOf(header), v.first, x) && Writes(b, SecondOf(header), v.second, y) && bytes == x + y;
    Assoc(x, y, suffix);
    WrittenReads(a, FirstOf(header), v.first, x, y + suffix);
    WrittenReads(b, SecondOf(header), v.second, y, suffix);
  }

  lemma {:induction false} AddedReads(t: Ty, version: nat, v: Val, bytes: seq<byte>, suffix: seq<byte>)
    requires WritesAdded(t, version, v, bytes)
    ensures version == 1 ==> v == VNone && bytes + suffix == suffix
    ensures version != 1 ==> DecodeOption(t, Latest(t), bytes + suffix) == Ok(Read(v, suffix))
    decreases t, 3
  {
    hide WritesOption, DecodeOption;
    if version == 1 {
      assert [] + suffix == suffix;
    } else {
      OptionReads(t, Latest(t), v, bytes, suffix);
    }
  }

  lemma {:induction false} GrownReads(base: Ty, added: Ty, header: Val, v: Val, bytes: seq<byte>, suffix: seq<byte>)
    requires Writes(TGrown(base, added), header, v, bytes)
    ensures Decode(TGrown(base, added), header, bytes + suffix) == Ok(Read(v, suffix))
    decreases TGrown(base, added), 0
  {
    hide WritesAdded, DecodeOption;
    var x, y :|
      Writes(base, header.second, v.first, x) && WritesAdded(added, VersionOf(header), v.second, y) && bytes == x + y;
    Assoc(x, y, suffix);
    WrittenReads(base, header.second, v.first, x, y + suffix);
    AddedReads(added, VersionOf(header), v.second, y, suffix);
  }

  lemma {:induction false} WrittenReads(ty: Ty, header: Val, v: Val, bytes: seq<byte>, suffix: seq<byte>)
    requires Writes(ty, header, v, bytes)
    ensures Decode(ty, header, bytes + suffix) == Ok(Read(v, suffix))
    decreases ty, 1
  {
    match ty {
      case TString => TextReads(header, v, bytes, suffix);
      case TOption(t) => OptionReads(t, header, v, bytes, suffix);
      case TVec(t) => VecReads(t, header, v, bytes, suffix);
      case TArray(t, _) => AllReads(t, header, v.items, bytes, suffix);
      case TPair(a, b) => PairReads(a, b, header, v, bytes, suffix);
      case TSum(cases) =>
        FirstBack(bytes, suffix);
        WrittenReads(cases[v.tag], CaseHeader(header, v.tag), v.content, bytes[1..], suffix);
      case TVersioned(_, body) => WrittenReads(body, header.second, v, bytes, suffix);
      case TGrown(base, added) => GrownReads(base, added, header, v, bytes, suffix);
      case _ => SimpleReads(ty, header, v, bytes, suffix);
    }
  }

  // ---------- What is read was written ----------

  lemma {:induction false} Unpacks(s: seq<byte>) returns (bytes: seq<byte>)
    requires Unpack(s).Ok?
    ensures PackedAs(bytes, Unpack(s).value.n) && s == bytes + Unpack(s).value.rest
  {
    bytes := s[..1 + s[0]];
    assert bytes[1..] == s[1..1 + s[0]];
  }

  lemma {:induction false} TakeSplits(s: seq<byte>, n: nat)
    requires n <= |s|
    ensures s == s[..n] + s[n..] && |s[..n]| == n
  {
  }

  lemma {:induction false} NumberWritten(ty: Ty, header: Val, s: seq<byte>) returns (bytes: seq<byte>)
    requires Decode(ty, header, s).Ok? && (ty.TUint? || ty.TInt?)
    ensures s == bytes + Decode(ty, header, s).value.rest && Writes(ty, header, Decode(ty, header, s).value.v, bytes)
  {
    hide FromLe, Signed, Pow256;
    bytes := s[..ty.size];
    TakeSplits(s, ty.size);
  }

  lemma {:induction false} SimpleWritten(ty: Ty, header: Val, s: seq<byte>) returns (bytes: seq<byte>)
    requires Decode(ty, header, s).Ok?
    requires ty.TUnit? || ty.TPacked? || ty.TBool? || ty.TNonZero?
    ensures s == bytes + Decode(ty, header, s).value.rest && Writes(ty, header, Decode(ty, header, s).value.v, bytes)
  {
    hide FromLe, Unpack, PackedAs, Pow256;
    if ty.TUnit? {
      bytes := [];
    } else if ty.TPacked? {
      bytes := Unpacks(s);
    } else {
      bytes := s[..1];
      TakeSplits(s, 1);
    }
  }

  lemma {:induction false} TextWritten(header: Val, s: seq<byte>) returns (bytes: seq<byte>)
    requires Decode(TString, header, s).Ok?
    ensures s == bytes + Decode(TString, header, s).value.rest && Writes(TString, header, Decode(TString, header, s).value.v, bytes)
  {
    hide Unpack, PackedAs, ValidUtf8;
    var length := Unpacks(s);
    var u := Unpack(s).value;
    bytes := length + u.rest[..u.n];
    Assoc(length, u.rest[..u.n], u.rest[u.n..]);
    assert u.rest == u.rest[..u.n] + u.rest[u.n..];
  }

  lemma {:induction false} OptionWritten(t: Ty, header: Val, s: seq<byte>) returns (bytes: seq<byte>)
    requires DecodeOption(t, header, s).Ok?
    ensures s == bytes + DecodeOption(t, header, s).value.rest
    ensures WritesOption(t, header, DecodeOption(t, header, s).value.v, bytes)
    decreases t, 2
  {
    hide Decode, Writes;
    if s[0] == 0 {
      bytes := [0];
    } else {
      var inner := ReadWritten(t, header, s[1..]);
      bytes := [1] + inner;
      assert bytes[1..] == inner;
    }
  }

  lemma {:induction false} AllWritten(t: Ty, header: Val, n: nat, s: seq<byte>) returns (bytes: seq<byte>)
    requires DecodeAll(t, header, n, s).Ok?
    ensures s == bytes + DecodeAll(t, header, n, s).value.rest && |DecodeAll(t, header, n, s).value.v.items| == n
    ensures WritesAll(t, header, DecodeAll(t, header, n, s).value.v.items, bytes)
    decreases t, 2, n
  {
    hide Decode, Writes;
    if n == 0 {
      bytes := [];
    } else {
      var x := ReadWritten(t, header, s);
      var rest := Decode(t, header, s).value.rest;
      var y := AllWritten(t, header, n - 1, rest);
      bytes := x + y;
      var items := DecodeAll(t, header, n - 1, rest).value.v.items;
      assert ([Decode(t, header, s).value.v] + items)[1..] == items;
      Assoc(x, y, DecodeAll(t, header, n, s).value.rest);
    }
  }

  lemma {:induction false} VecWritten(t: Ty, header: Val, s: seq<byte>) returns (bytes: seq<byte>)
    requires Decode(TVec(t), header, s).Ok?
    ensures s == bytes + Decode(TVec(t), header, s).value.rest && Writes(TVec(t), header, Decode(TVec(t), header, s).value.v, bytes)
    decreases t, 3
  {
    hide Unpack, PackedAs, DecodeAll, WritesAll;
    var length := Unpacks(s);
    var u := Unpack(s).value;
    var items := AllWritten(t, header, u.n, u.rest);
    bytes := length + items;
    Assoc(length, items, Decode(TVec(t), header, s).value.rest);
  }

  lemma {:induction false} PairWritten(a: Ty, b: Ty, header: Val, s: seq<byte>) returns (bytes: seq<byte>)
    requires Decode(TPair(a, b), header, s).Ok?
    ensures s == bytes + Decode(TPair(a, b), header, s).value.rest
    ensures Writes(TPair(a, b), header, Decode(TPair(a, b), header, s).value.v, bytes)
    decreases TPair(a, b), 0
  {
    var x := ReadWritten(a, FirstOf(header), s);
    var rest := Decode(a, FirstOf(header), s).value.rest;
    var y := ReadWritten(b, SecondOf(header), rest);
    bytes := x + y;
    Assoc(x, y, Decode(TPair(a, b), header, s).value.rest);
  }

  /** What reading a type that has grown comes down to. */
  lemma {:induction false} GrownUnfolds(base: Ty, added: Ty, header: Val, s: seq<byte>)
    requires Decode(TGrown(base, added), header, s).Ok?
    ensures 1 <= VersionOf(header) <= 2 && Decode(base, header.second, s).Ok?
    ensures
      var r, x := Decode(TGrown(base, added), header, s).value, Decode(base, header.second, s).value;
      if VersionOf(header) == 1 then
        r == Read(VPair(x.v, VNone), x.rest)
      else
        DecodeOption(added, Latest(added), x.rest).Ok?
        && r == Read(VPair(x.v, DecodeOption(added, Latest(added), x.rest).value.v), DecodeOption(added, Latest(added), x.rest).value.rest)
  {
    hide DecodeOption;
  }

  lemma {:induction false} GrownWritten(base: Ty, added: Ty, header: Val, s: seq<byte>) returns (bytes: seq<byte>)
    requires Decode(TGrown(base, added), header, s).Ok?
    ensures s == bytes + Decode(TGrown(base, added), header, s).value.rest
    ensures Writes(TGrown(base, added), header, Decode(TGrown(base, added), header, s).value.v, bytes)
    decreases TGrown(base, added), 0
  {
    hide Decode, WritesOption, DecodeOption;
    GrownUnfolds(base, added, header, s);
    var x := ReadWritten(base, header.second, s);
    var rest := Decode(base, header.second, s).value.rest;
    var y: seq<byte>;
    if VersionOf(header) == 1 {
      y := [];
    } else {
      y := OptionWritten(added, Latest(added), rest);
    }
    bytes := x + y;
    assert WritesAdded(added, VersionOf(header), Decode(TGrown(base, added), header, s).value.v.second, y);
    Assoc(x, y, Decode(TGrown(base, added), header, s).value.rest);
  }

  lemma {:induction false} CaseUnfolds(cases: seq<Ty>, header: Val, s: seq<byte>)
    requires Decode(TSum(cases), header, s).Ok?
    ensures s != [] && s[0] < |cases| && Decode(cases[s[0]], CaseHeader(header, s[0]), s[1..]).Ok?
    ensures
      var x := Decode(cases[s[0]], CaseHeader(header, s[0]), s[1..]).value;
      Decode(TSum(cases), header, s).value == Read(VCase(s[0], x.v), x.rest)
  {
    hide CaseHeader;
  }

  lemma {:induction false} CaseWritten(cases: seq<Ty>, header: Val, s: seq<byte>) returns (bytes: seq<byte>)
    requires Decode(TSum(cases), header, s).Ok?
    ensures s == bytes + Decode(TSum(cases), header, s).value.rest
    ensures Writes(TSum(cases), header, Decode(TSum(cases), header, s).value.v, bytes)
    decreases TSum(cases), 0
  {
    hide CaseHeader, Decode;
    CaseUnfolds(cases, header, s);
    var inner := ReadWritten(cases[s[0]], CaseHeader(header, s[0]), s[1..]);
    bytes := [s[0]] + inner;
    assert bytes[1..] == inner;
  }

  lemma {:induction false} ReadWritten(ty: Ty, header: Val, s: seq<byte>) returns (bytes: seq<byte>)
    requires Decode(ty, header, s).Ok?
    ensures s == bytes + Decode(ty, header, s).value.rest && Writes(ty, header, Decode(ty, header, s).value.v, bytes)
    decreases ty, 1
  {
    hide FromLe, Unpack, PackedAs, Pow256, ValidUtf8, Signed, Take, WritesAdded;
    match ty {
      case TUint(_) => bytes := NumberWritten(ty, header, s);
      case TInt(_) => bytes := NumberWritten(ty, header, s);
      case TString => bytes := TextWritten(header, s);
      case TOption(t) => bytes := OptionWritten(t, header, s);
      case TVec(t) => bytes := VecWritten(t, header, s);
      case TArray(t, n) => bytes := AllWritten(t, header, n, s);
      case TPair(a, b) => bytes := PairWritten(a, b, header, s);
      case TSum(cases) => bytes := CaseWritten(cases, header, s);
      case TVersioned(_, body) => bytes := ReadWritten(body, header.second, s);
      case TGrown(base, added) => bytes := GrownWritten(base, added, header, s);
      case _ => bytes := SimpleWritten(ty, header, s);
    }
  }

  /** A value is read, and bytes are left, exactly if the bytes before those write it. */
  lemma {:induction false} ReadsExactly(ty: Ty, header: Val, s: seq<byte>, v: Val, rest: seq<byte>)
    ensures Decode(ty, header, s) == Ok(Read(v, rest)) <==>
      exists bytes :: Writes(ty, header, v, bytes) && s == bytes + rest
  {
    hide Decode, Writes;
    if Decode(ty, header, s) == Ok(Read(v, rest)) {
      var bytes := ReadWritten(ty, header, s);
    }
    forall bytes | Writes(ty, header, v, bytes) && s == bytes + rest ensures Decode(ty, header, s) == Ok(Read(v, rest)) {
      WrittenReads(ty, header, v, bytes, rest);
    }
  }

  /** Of the ways to write a truth value or a number the shortest and least is used. */
  lemma {:induction false} WrittenLeast(b: bool, n: nat, bytes: seq<byte>)
    requires n < U64_LIMIT
    ensures Encode(TBool, VBool(b)) == [if b then 1 else 0]
    ensures PackedAs(bytes, n) ==> |Pack(n)| <= |bytes|
  {
    if PackedAs(bytes, n) {
      PackedLengthIsLeast(n, |bytes| - 1);
    }
  }

  // ---------- What follows does not matter, and nothing may be missing ----------

  lemma {:induction false} ReadExtends(ty: Ty, header: Val, s: seq<byte>, more: seq<byte>)
    requires Decode(ty, header, s).Ok?
    ensures Decode(ty, header, s + more) == Ok(Read(Decode(ty, header, s).value.v, Decode(ty, header, s).value.rest + more))
  {
    hide Decode, Writes;
    var r := Decode(ty, header, s).value;
    var bytes := ReadWritten(ty, header, s);
    Assoc(bytes, r.rest, more);
    WrittenReads(ty, header, r.v, bytes, r.rest + more);
  }

  lemma {:induction false} HeaderExtends(ty: Ty, s: seq<byte>, more: seq<byte>)
    requires DecodeHeader(ty, s).Ok?
    ensures DecodeHeader(ty, s + more) == Ok(Read(DecodeHeader(ty, s).value.v, DecodeHeader(ty, s).value.rest + more))
    decreases Level(ty), ty
  {
    hide Decode;
    LevelOfHeader(ty);
    match ty {
      case TUnit =>
      case TPair(a, b) =>
        HeaderExtends(a, s, more);
        HeaderExtends(b, DecodeHeader(a, s).value.rest, more);
      case _ =>
        HeaderExtends(HeaderTy(ty), s, more);
        var h := DecodeHeader(HeaderTy(ty), s).value;
        ReadExtends(HeaderTy(ty), h.v, h.rest, more);
    }
  }

  /** A value with its header is not read from any of its bytes cut short. */
  lemma {:induction false} TruncatedIsRefused(ty: Ty, v: Val, k: nat)
    requires HasType(ty, v) && k < |EncodeWithHeader(ty, v)|
    ensures DecodeWithHeader(ty, EncodeWithHeader(ty, v)[..k]).Err?
  {
    hide Decode, Encode, HasType, EncodeHeader, DecodeHeader, EncodeWithHeader;
    var all := EncodeWithHeader(ty, v);
    var s, more := all[..k], all[k..];
    assert all == s + more && all + [] == all;
    HeaderedRoundTrip(ty, v, []);
    if DecodeWithHeader(ty, s).Ok? {
      var h := DecodeHeader(ty, s).value;
      HeaderExtends(ty, s, more);
      ReadExtends(ty, h.v, h.rest, more);
      assert false;
    }
  }

  /** What is written of a value is one of the ways to write it. */
  lemma {:induction false} EncodeWrites(ty: Ty, v: Val)
    requires HasType(ty, v)
    ensures Writes(ty, Latest(ty), v, Encode(ty, v))
  {
    hide Decode, Encode, HasType, Writes;
    RoundTrip(ty, v, []);
    assert Encode(ty, v) + [] == Encode(ty, v);
    var bytes := ReadWritten(ty, Latest(ty), Encode(ty, v));
    assert bytes + [] == bytes;
  }

  // ---------- Values have their types ----------

  /** Numbers have at least one byte. */
  predicate Sized(ty: Ty)
    decreases ty
  {
    match ty
    case TInt(size) => size > 0
    case TOption(t) => Sized(t)
    case TVec(t) => Sized(t)
    case TArray(t, _) => Sized(t)
    case TPair(a, b) => Sized(a) && Sized(b)
    case TSum(cases) => forall i :: 0 <= i < |cases| ==> Sized(cases[i])
    case TVersioned(_, body) => Sized(body)
    case TGrown(base, added) => Sized(base) && Sized(added)
    case _ => true
  }

  lemma {:induction false} PackedIsSmall(bytes: seq<byte>, n: nat)
    requires PackedAs(bytes, n)
    ensures n < U64_LIMIT
  {
    SmallEnough(bytes[1..]);
  }

  lemma {:induction false} SignedFits(n: nat, size: nat)
    requires size > 0 && n < Pow256(size)
    ensures -(Pow256(size) / 2) <= Signed(n, size) < Pow256(size) / 2
  {
    var p := Pow256(size - 1);
    assert Pow256(size) == 256 * p;
    assert Pow256(size) / 2 == 128 * p;
  }

  lemma {:induction false} OptionHasType(t: Ty, header: Val, v: Val, bytes: seq<byte>)
    requires Sized(t) && WritesOption(t, header, v, bytes)
    ensures v.VNone? || (v.VSome? && HasType(t, v.value))
    decreases t, 2
  {
    hide Writes, HasType, Sized;
    if v.VSome? {
      WrittenHasType(t, header, v.value, bytes[1..]);
    }
  }

  lemma {:induction false} AllHaveType(t: Ty, header: Val, items: seq<Val>, bytes: seq<byte>)
    requires Sized(t) && WritesAll(t, header, items, bytes)
    ensures forall i :: 0 <= i < |items| ==> HasType(t, items[i])
    decreases t, 2, |items|
  {
    hide Writes, HasType, Sized;
    if items != [] {
      var x, y :| Writes(t, header, items[0], x) && WritesAll(t, header, items[1..], y) && bytes == x + y;
      WrittenHasType(t, header, items[0], x);
      AllHaveType(t, header, items[1..], y);
      assert forall i :: 0 < i < |items| ==> items[i] == items[1..][i - 1];
    }
  }

  lemma {:induction false} TextHasType(header: Val, v: Val, bytes: seq<byte>)
    requires Writes(TString, header, v, bytes)
    ensures HasType(TString, v)
  {
    hide PackedAs, ValidUtf8;
    var length :| PackedAs(length, |v.text|) && bytes == length + v.text;
    PackedIsSmall(length, |v.text|);
  }

  lemma {:induction false} VecHasType(t: Ty, header: Val, v: Val, bytes: seq<byte>)
    requires Sized(t) && Writes(TVec(t), header, v, bytes)
    ensures HasType(TVec(t), v)
    decreases t, 3
  {
    hide PackedAs, WritesAll;
    var length, items :| PackedAs(length, |v.items|) && WritesAll(t, header, v.items, items) && bytes == length + items;
    PackedIsSmall(length, |v.items|);
    AllHaveType(t, header, v.items, items);
  }

  lemma {:induction false} PairHasType(a: Ty, b: Ty, header: Val, v: Val, bytes: seq<byte>)
    requires Sized(a) && Sized(b) && Writes(TPair(a, b), header, v, bytes)
    ensures HasType(TPair(a, b), v)
    decreases TPair(a, b), 0
  {
    var x, y :| Writes(a, FirstOf(header), v.first, x) && Writes(b, SecondOf(header), v.second, y) && bytes == x + y;
    WrittenHasType(a, FirstOf(header), v.first, x);
    WrittenHasType(b, SecondOf(header), v.second, y);
  }

  lemma {:induction false} GrownHasType(base: Ty, added: Ty, header: Val, v: Val, bytes: seq<byte>)
    requires Sized(base) && Sized(added) && Writes(TGrown(base, added), header, v, bytes)
    ensures HasType(TGrown(base, added), v)
    decreases TGrown(base, added), 0
  {
    hide WritesOption;
    var x, y :|
      Writes(base, header.second, v.first, x) && WritesAdded(added, VersionOf(header), v.second, y) && bytes == x + y;
    WrittenHasType(base, header.second, v.first, x);
    if VersionOf(header) != 1 {
      OptionHasType(added, Latest(added), v.second, y);
    }
  }

  /** Whatever the header says, only values of the type are read. */
  lemma {:induction false} WrittenHasType(ty: Ty, header: Val, v: Val, bytes: seq<byte>)
    requires Sized(ty) && Writes(ty, header, v, bytes)
    ensures HasType(ty, v)
    decreases ty, 1
  {
    hide PackedAs, ValidUtf8, Signed, Pow256, WritesAdded;
    match ty {
      case TInt(size) => SignedFits(FromLe(bytes), size);
      case TPacked => PackedIsSmall(bytes, v.n);
      case TString => TextHasType(header, v, bytes);
      case TOption(t) => OptionHasType(t, header, v, bytes);
      case TVec(t) => VecHasType(t, header, v, bytes);
      case TArray(t, _) => AllHaveType(t, header, v.items, bytes);
      case TPair(a, b) => PairHasType(a, b, header, v, bytes);
      case TSum(cases) => WrittenHasType(cases[v.tag], CaseHeader(header, v.tag), v.content, bytes[1..]);
      case TVersioned(_, body) => WrittenHasType(body, header.second, v, bytes);
      case TGrown(base, added) => GrownHasType(base, added, header, v, bytes);
      case _ =>
    }
  }

  // ---------- Errors ----------

  /** What is reported for text: its length and what there is of it, or that it is not UTF-8. */
  lemma {:induction false} TextErrors(n: nat, bytes: seq<byte>)
    requires n < U64_LIMIT
    ensures |bytes| < n ==> DecodeText(Pack(n) + bytes) == Err(if ValidUtf8(bytes) then ShortText(n, |bytes|) else Utf8)
    ensures |bytes| >= n && !ValidUtf8(bytes[..n]) ==> DecodeText(Pack(n) + bytes) == Err(Utf8)
  {
    hide ValidUtf8, Pack, Unpack;
    PackedRoundTrip(n, bytes);
  }

  /** A tag, a length byte or a zero that nothing can be read from. */
  lemma {:induction false} TagErrors(t: Ty, cases: seq<Ty>, header: Val, first: byte, rest: seq<byte>)
    ensures first > 1 ==> Decode(TOption(t), header, [first] + rest) == Err(InvalidTag(first))
    ensures first >= |cases| ==> Decode(TSum(cases), header, [first] + rest) == Err(InvalidTag(first))
    ensures first == 0 ==> Decode(TNonZero, header, [first] + rest) == Err(InvalidValue)
    ensures first > 8 ==> Decode(TPacked, header, [first] + rest) == Err(TooLong(first))
    ensures first > 8 ==> Decode(TVec(t), header, [first] + rest) == Err(TooLong(first))
    ensures first > 8 ==> Decode(TString, header, [first] + rest) == Err(TooLong(first))
  {
  }
}
