/**
 Reading what was written gives the value back and leaves what follows, for
 every type, with and without its header; and a version without the part that
 was added later still reads.
 */
module FormatProofs {
  import opened Wrappers
  import opened Bytes
  import opened Format

  lemma {:induction false} Assoc(a: seq<byte>, b: seq<byte>, c: seq<byte>)
    ensures (a + b) + c == a + (b + c)
  {
  }

  lemma {:induction false} TakeBack(a: seq<byte>, b: seq<byte>)
    ensures Take(a + b, |a|) == Ok((a, b))
  {
    assert (a + b)[..|a|] == a && (a + b)[|a|..] == b;
  }

  lemma {:induction false} TagBack(tag: byte, a: seq<byte>, b: seq<byte>)
    ensures [tag] + a + b != [] && ([tag] + a + b)[0] == tag && ([tag] + a + b)[1..] == a + b
  {
  }

  lemma {:induction false} SignedBack(i: int, size: nat)
    requires size > 0 && -(Pow256(size) / 2) <= i < Pow256(size) / 2
    ensures Unsigned(i, size) < Pow256(size) && Signed(Unsigned(i, size), size) == i
  {
    assert Pow256(size) == 256 * Pow256(size - 1);
  }

  /** A header read back for one case is the header of that case. */
  lemma {:induction false} CaseHeaderIsLatest(cases: seq<Ty>, i: nat)
    requires i < |cases|
    ensures CaseHeader(Latests(cases), i) == Latest(cases[i])
    decreases i
  {
    if i > 0 {
      CaseHeaderIsLatest(cases[1..], i - 1);
    }
  }

  // ---------- Values ----------

  ghost predicate RoundTrips(ty: Ty, v: Val, suffix: seq<byte>)
    requires HasType(ty, v)
  {
    Decode(ty, Latest(ty), Encode(ty, v) + suffix) == Ok(Read(v, suffix))
  }

  lemma {:induction false} SimpleRoundTrip(ty: Ty, v: Val, suffix: seq<byte>)
    requires HasType(ty, v)
    requires ty.TUnit? || ty.TUint? || ty.TInt? || ty.TPacked? || ty.TBool? || ty.TNonZero?
    ensures RoundTrips(ty, v, suffix)
  {
    match ty {
      case TUnit => assert [] + suffix == suffix;
      case TUint(size) =>
        LeRoundTrip(v.n, size);
        TakeBack(ToLe(v.n, size), suffix);
      case TInt(size) =>
        SignedBack(v.i, size);
        LeRoundTrip(Unsigned(v.i, size), size);
        TakeBack(ToLe(Unsigned(v.i, size), size), suffix);
      case TPacked => PackedRoundTrip(v.n, suffix);
      case TBool => TagBack(if v.b then 1 else 0, [], suffix);
      case TNonZero => TagBack(v.n, [], suffix);
    }
  }

  lemma {:induction false} TextRoundTrip(v: Val, suffix: seq<byte>)
    requires HasType(TString, v)
    ensures RoundTrips(TString, v, suffix)
  {
    hide ValidUtf8, Pack, Unpack;
    Assoc(Pack(|v.text|), v.text, suffix);
    PackedRoundTrip(|v.text|, v.text + suffix);
    TakeBack(v.text, suffix);
  }

  lemma {:induction false} OptionRoundTrip(t: Ty, v: Val, suffix: seq<byte>)
    requires v.VNone? || (v.VSome? && HasType(t, v.value))
    ensures
      var bytes := if v.VNone? then [0] else [1] + Encode(t, v.value);
      DecodeOption(t, Latest(t), bytes + suffix) == Ok(Read(v, suffix))
    decreases t, 2
  {
    hide Decode, Encode, HasType;
    if v.VNone? {
      TagBack(0, [], suffix);
      assert [0] + [] + suffix == [0] + suffix;
    } else {
      TagBack(1, Encode(t, v.value), suffix);
      RoundTrip(t, v.value, suffix);
    }
  }

  lemma {:induction false} AllRoundTrip(t: Ty, items: seq<Val>, suffix: seq<byte>)
    requires forall i :: 0 <= i < |items| ==> HasType(t, items[i])
    ensures DecodeAll(t, Latest(t), |items|, EncodeAll(t, items) + suffix) == Ok(Read(VSeq(items), suffix))
    decreases t, 2, |items|
  {
    hide Decode, Encode, HasType;
    if items == [] {
      assert [] + suffix == suffix;
    } else {
      Assoc(Encode(t, items[0]), EncodeAll(t, items[1..]), suffix);
      RoundTrip(t, items[0], EncodeAll(t, items[1..]) + suffix);
      AllRoundTrip(t, items[1..], suffix);
      assert [items[0]] + items[1..] == items;
    }
  }

  lemma {:induction false} VecRoundTrip(t: Ty, v: Val, suffix: seq<byte>)
    requires HasType(TVec(t), v)
    ensures RoundTrips(TVec(t), v, suffix)
    decreases t, 3
  {
    hide Pack, Unpack, EncodeAll, DecodeAll;
    Assoc(Pack(|v.items|), EncodeAll(t, v.items), suffix);
    PackedRoundTrip(|v.items|, EncodeAll(t, v.items) + suffix);
    AllRoundTrip(t, v.items, suffix);
  }

  lemma {:induction false} PairRoundTrip(a: Ty, b: Ty, v: Val, suffix: seq<byte>)
    requires HasType(TPair(a, b), v)
    ensures RoundTrips(TPair(a, b), v, suffix)
    decreases TPair(a, b), 0
  {
    Assoc(Encode(a, v.first), Encode(b, v.second), suffix);
    RoundTrip(a, v.first, Encode(b, v.second) + suffix);
    RoundTrip(b, v.second, suffix);
  }

  lemma {:induction false} SumRoundTrip(cases: seq<Ty>, v: Val, suffix: seq<byte>)
    requires HasType(TSum(cases), v)
    ensures RoundTrips(TSum(cases), v, suffix)
    decreases TSum(cases), 0
  {
    var bytes := Encode(cases[v.tag], v.content);
    TagBack(v.tag, bytes, suffix);
    CaseHeaderIsLatest(cases, v.tag);
    RoundTrip(cases[v.tag], v.content, suffix);
  }

  lemma {:induction false} GrownRoundTrip(base: Ty, added: Ty, v: Val, suffix: seq<byte>)
    requires HasType(TGrown(base, added), v)
    ensures RoundTrips(TGrown(base, added), v, suffix)
    decreases TGrown(base, added), 0
  {
    hide DecodeOption;
    var more := if v.second.VNone? then [0] else [1] + Encode(added, v.second.value);
    Assoc(Encode(base, v.first), more, suffix);
    RoundTrip(base, v.first, more + suffix);
    OptionRoundTrip(added, v.second, suffix);
  }

  /** Every value of every type. */
  lemma {:induction false} RoundTrip(ty: Ty, v: Val, suffix: seq<byte>)
    requires HasType(ty, v)
    ensures Decode(ty, Latest(ty), Encode(ty, v) + suffix) == Ok(Read(v, suffix))
    decreases ty, 1
  {
    match ty {
      case TString => TextRoundTrip(v, suffix);
      case TOption(t) => OptionRoundTrip(t, v, suffix);
      case TVec(t) => VecRoundTrip(t, v, suffix);
      case TArray(t, _) => AllRoundTrip(t, v.items, suffix);
      case TPair(a, b) => PairRoundTrip(a, b, v, suffix);
      case TSum(cases) => SumRoundTrip(cases, v, suffix);
      case TVersioned(_, body) => RoundTrip(body, v, suffix);
      case TGrown(base, added) => GrownRoundTrip(base, added, v, suffix);
      case _ => SimpleRoundTrip(ty, v, suffix);
    }
  }

  // ---------- Headers ----------

  lemma {:induction false} HeaderRoundTrip(ty: Ty, suffix: seq<byte>)
    ensures DecodeHeader(ty, EncodeHeader(ty) + suffix) == Ok(Read(Latest(ty), suffix))
    decreases Level(ty), ty
  {
    hide Decode, Encode, HasType;
    LevelOfHeader(ty);
    LatestHasType(ty);
    match ty {
      case TUnit => assert [] + suffix == suffix;
      case TPair(a, b) =>
        Assoc(EncodeHeader(a), EncodeHeader(b), suffix);
        HeaderRoundTrip(a, EncodeHeader(b) + suffix);
        HeaderRoundTrip(b, suffix);
      case _ =>
        var h := HeaderTy(ty);
        Assoc(EncodeHeader(h), Encode(h, Latest(ty)), suffix);
        HeaderRoundTrip(h, Encode(h, Latest(ty)) + suffix);
        RoundTrip(h, Latest(ty), suffix);
    }
  }

  /** With headers of headers in front. */
  lemma {:induction false} HeaderedRoundTrip(ty: Ty, v: Val, suffix: seq<byte>)
    requires HasType(ty, v)
    ensures DecodeWithHeader(ty, EncodeWithHeader(ty, v) + suffix) == Ok(Read(v, suffix))
  {
    hide Decode, Encode, HasType, EncodeHeader, DecodeHeader;
    Assoc(EncodeHeader(ty), Encode(ty, v), suffix);
    HeaderRoundTrip(ty, Encode(ty, v) + suffix);
    RoundTrip(ty, v, suffix);
  }

  // ---------- Other versions ----------

  /** What a version of a type that has grown is written as; version 1 has no added part. */
  function EncodeVersion(version: byte, base: Ty, added: Ty, bytes: seq<byte>): seq<byte> {
    var h := HeaderTy(TGrown(base, added));
    LatestHasType(base);
    EncodeHeader(h) + Encode(h, VPair(VNat(version), Latest(base))) + bytes
  }

  lemma {:induction false} VersionHeaderReads(version: byte, base: Ty, added: Ty, bytes: seq<byte>)
    ensures
      DecodeHeader(TGrown(base, added), EncodeVersion(version, base, added, bytes))
      == Ok(Read(VPair(VNat(version), Latest(base)), bytes))
  {
    hide Decode, Encode, EncodeHeader;
    var h := HeaderTy(TGrown(base, added));
    var header := VPair(VNat(version), Latest(base));
    LatestHasType(base);
    GrownHeaderType(base, added, version);
    Assoc(EncodeHeader(h), Encode(h, header), bytes);
    HeaderRoundTrip(h, Encode(h, header) + bytes);
    RoundTrip(h, header, bytes);
  }

  lemma {:induction false} GrownHeaderType(base: Ty, added: Ty, version: byte)
    ensures HasType(HeaderTy(TGrown(base, added)), VPair(VNat(version), Latest(base)))
  {
    LatestHasType(base);
    assert Pow256(1) == 256;
  }

  /** A value written before the type grew reads as the same value without the added part. */
  lemma {:induction false} OldVersionReads(base: Ty, added: Ty, v: Val, suffix: seq<byte>)
    requires HasType(base, v)
    ensures
      DecodeWithHeader(TGrown(base, added), EncodeVersion(1, base, added, Encode(base, v) + suffix))
      == Ok(Read(VPair(v, VNone), suffix))
  {
    hide Encode, EncodeHeader, DecodeHeader, EncodeVersion, HasType;
    VersionHeaderReads(1, base, added, Encode(base, v) + suffix);
    RoundTrip(base, v, suffix);
  }

  /** Any version but these two is refused, whatever follows. */
  lemma {:induction false} OtherVersionsRefused(version: byte, base: Ty, added: Ty, bytes: seq<byte>)
    requires version != 1 && version != 2
    ensures
      DecodeWithHeader(TGrown(base, added), EncodeVersion(version, base, added, bytes)) == Err(UnsupportedVersion(version))
  {
    hide Encode, EncodeHeader, DecodeHeader, EncodeVersion;
    VersionHeaderReads(version, base, added, bytes);
  }

  lemma {:induction false} VersionedHeader(version: byte, found: byte, body: Ty, bytes: seq<byte>)
    ensures
      DecodeHeader(TVersioned(version, body), EncodeHeader(TVersioned(found, body)) + bytes)
      == Ok(Read(VPair(VNat(found), Latest(body)), bytes))
  {
    hide Decode, Encode, EncodeHeader, HasType, Level;
    HeaderRoundTrip(TVersioned(found, body), bytes);
  }

  /**
   What one version of a type has written, header and value, is read back by a
   program with the same version; any other refuses it at the header, whatever
   bytes follow.
   */
  lemma {:induction false} WrongVersionRefused(version: byte, found: byte, body: Ty, v: Val, bytes: seq<byte>)
    requires HasType(body, v)
    ensures found == version ==>
      DecodeWithHeader(TVersioned(version, body), EncodeWithHeader(TVersioned(found, body), v) + bytes) == Ok(Read(v, bytes))
    ensures found != version ==>
      DecodeWithHeader(TVersioned(version, body), EncodeHeader(TVersioned(found, body)) + bytes)
      == Err(UnsupportedVersion(found))
  {
    if found == version {
      hide Decode, Encode, EncodeHeader, DecodeHeader;
      HeaderedRoundTrip(TVersioned(version, body), v, bytes);
    } else {
      hide Encode, EncodeHeader, DecodeHeader, HasType;
      VersionedHeader(version, found, body, bytes);
    }
  }
}
