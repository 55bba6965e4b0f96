/**
 The binary format.  A type describes how its values are written; what is
 written of the versions of its parts is the header, itself a value of a type.
 */
module Format {
  import opened Wrappers
  import opened Bytes

  datatype Ty =
    | TUnit
    | TUint(size: nat)                        // a fixed number of bytes
    | TInt(size: nat)                         // the same, signed
    | TPacked                                 // a 64-bit number in its packed form
    | TBool
    | TNonZero                                // a byte that is not zero
    | TString
    | TOption(item: Ty)
    | TVec(item: Ty)
    | TArray(item: Ty, length: nat)           // a fixed number of items
    | TPair(first: Ty, second: Ty)
    | TSum(cases: seq<Ty>)                    // a tag byte and the case it stands for
    | TVersioned(version: byte, body: Ty)     // can be read in this version only
    | TGrown(base: Ty, added: Ty)             // version 2 of a type that had no added part in version 1

  datatype Val =
    | VUnit
    | VNat(n: nat)
    | VInt(i: int)
    | VBool(b: bool)
    | VText(text: seq<byte>)
    | VNone
    | VSome(value: Val)
    | VSeq(items: seq<Val>)
    | VPair(first: Val, second: Val)
    | VCase(tag: nat, content: Val)

  predicate HasType(ty: Ty, v: Val)
    decreases ty, v
  {
    match ty
    case TUnit => v.VUnit?
    case TUint(size) => v.VNat? && v.n < Pow256(size)
    case TInt(size) => v.VInt? && size > 0 && -(Pow256(size) / 2) <= v.i < Pow256(size) / 2
    case TPacked => v.VNat? && v.n < U64_LIMIT
    case TBool => v.VBool?
    case TNonZero => v.VNat? && 0 < v.n < 256
    case TString => v.VText? && ValidUtf8(v.text) && |v.text| < U64_LIMIT
    case TOption(t) => v.VNone? || (v.VSome? && HasType(t, v.value))
    case TVec(t) => v.VSeq? && |v.items| < U64_LIMIT && forall i :: 0 <= i < |v.items| ==> HasType(t, v.items[i])
    case TArray(t, n) => v.VSeq? && |v.items| == n && forall i :: 0 <= i < n ==> HasType(t, v.items[i])
    case TPair(a, b) => v.VPair? && HasType(a, v.first) && HasType(b, v.second)
    case TSum(cases) => v.VCase? && v.tag < |cases| && v.tag < 256 && HasType(cases[v.tag], v.content)
    case TVersioned(_, body) => HasType(body, v)
    case TGrown(base, added) =>
      v.VPair? && HasType(base, v.first) && (v.second.VNone? || (v.second.VSome? && HasType(added, v.second.value)))
  }

  // ---------- Headers ----------

  /** The type of the header of a type. */
  function HeaderTy(ty: Ty): Ty
    decreases ty
  {
    match ty
    case TOption(t) => HeaderTy(t)
    case TVec(t) => HeaderTy(t)
    case TArray(t, _) => HeaderTy(t)
    case TPair(a, b) => TPair(HeaderTy(a), HeaderTy(b))
    case TSum(cases) => HeaderTys(cases)
    case TVersioned(_, body) => TPair(TUint(1), HeaderTy(body))
    case TGrown(base, _) => TVersioned(1, TPair(TUint(1), HeaderTy(base)))
    case _ => TUnit
  }

  function HeaderTys(tys: seq<Ty>): Ty
    decreases tys
  {
    if tys == [] then TUnit else TPair(HeaderTy(tys[0]), HeaderTys(tys[1..]))
  }

  /** The header that is written now. */
  function Latest(ty: Ty): Val
    decreases ty
  {
    match ty
    case TOption(t) => Latest(t)
    case TVec(t) => Latest(t)
    case TArray(t, _) => Latest(t)
    case TPair(a, b) => VPair(Latest(a), Latest(b))
    case TSum(cases) => Latests(cases)
    case TVersioned(version, body) => VPair(VNat(version), Latest(body))
    case TGrown(base, _) => VPair(VNat(2), Latest(base))
    case _ => VUnit
  }

  function Latests(tys: seq<Ty>): Val
    decreases tys
  {
    if tys == [] then VUnit else VPair(Latest(tys[0]), Latests(tys[1..]))
  }

  /** The part of a header that belongs to one case. */
  function CaseHeader(header: Val, i: nat): Val
    decreases i
  {
    if !header.VPair? then VUnit
    else if i == 0 then header.first
    else CaseHeader(header.second, i - 1)
  }

  // ---------- Writing ----------

  /** A signed number as the unsigned one with the same bytes. */
  function Unsigned(i: int, size: nat): (n: nat)
    requires size > 0 && -(Pow256(size) / 2) <= i < Pow256(size) / 2
  {
    if i < 0 then i + Pow256(size) else i
  }

  function Encode(ty: Ty, v: Val): seq<byte>
    requires HasType(ty, v)
    decreases ty, 0
  {
    match ty
    case TUnit => []
    case TUint(size) => ToLe(v.n, size)
    case TInt(size) => ToLe(Unsigned(v.i, size), size)
    case TPacked => Pack(v.n)
    case TBool => [if v.b then 1 else 0]
    case TNonZero => [v.n]
    case TString => Pack(|v.text|) + v.text
    case TOption(t) => if v.VNone? then [0] else [1] + Encode(t, v.value)
    case TVec(t) => Pack(|v.items|) + EncodeAll(t, v.items)
    case TArray(t, _) => EncodeAll(t, v.items)
    case TPair(a, b) => Encode(a, v.first) + Encode(b, v.second)
    case TSum(cases) => [v.tag] + Encode(cases[v.tag], v.content)
    case TVersioned(_, body) => Encode(body, v)
    case TGrown(base, added) =>
      Encode(base, v.first) + if v.second.VNone? then [0] else [1] + Encode(added, v.second.value)
  }

  function EncodeAll(t: Ty, items: seq<Val>): seq<byte>
    requires forall i :: 0 <= i < |items| ==> HasType(t, items[i])
    decreases t, 1, |items|
  {
    if items == [] then [] else Encode(t, items[0]) + EncodeAll(t, items[1..])
  }

  // ---------- Reading ----------

  datatype Read = Read(v: Val, rest: seq<byte>)

  type Reading = Result<Read, ReadError>

  /** Exactly n bytes. */
  function Take(s: seq<byte>, n: nat): Result<(seq<byte>, seq<byte>), ReadError> {
    if |s| < n then Err(Eof) else Ok((s[..n], s[n..]))
  }

  function Signed(n: nat, size: nat): int {
    if n >= Pow256(size) / 2 then n - Pow256(size) else n
  }

  function DecodeText(s: seq<byte>): Reading {
    match Unpack(s)
    case Err(e) => Err(e)
    case Ok(u) =>
      match Take(u.rest, u.n)
      case Err(_) => if ValidUtf8(u.rest) then Err(ShortText(u.n, |u.rest|)) else Err(Utf8)
      case Ok((text, rest)) => if ValidUtf8(text) then Ok(Read(VText(text), rest)) else Err(Utf8)
  }

  /** Read a value with a header; the rank of the type makes the recursion end. */
  function Decode(ty: Ty, header: Val, s: seq<byte>): (r: Reading)
    ensures r.Ok? ==> |r.value.rest| <= |s|
    decreases ty, 0
  {
    match ty
    case TUnit => Ok(Read(VUnit, s))
    case TUint(size) =>
      (match Take(s, size)
       case Err(e) => Err(e)
       case Ok((bytes, rest)) => Ok(Read(VNat(FromLe(bytes)), rest)))
    case TInt(size) =>
      (match Take(s, size)
       case Err(e) => Err(e)
       case Ok((bytes, rest)) => Ok(Read(VInt(Signed(FromLe(bytes), size)), rest)))
    case TPacked =>
      (match Unpack(s)
       case Err(e) => Err(e)
       case Ok(u) => Ok(Read(VNat(u.n), u.rest)))
    case TBool => if s == [] then Err(Eof) else Ok(Read(VBool(s[0] != 0), s[1..]))
    case TNonZero =>
      if s == [] then Err(Eof) else if s[0] == 0 then Err(InvalidValue) else Ok(Read(VNat(s[0]), s[1..]))
    case TString => DecodeText(s)
    case TOption(t) => DecodeOption(t, header, s)
    case TVec(t) =>
      (match Unpack(s)
       case Err(e) => Err(e)
       case Ok(u) => DecodeAll(t, header, u.n, u.rest))
    case TArray(t, n) => DecodeAll(t, header, n, s)
    case TPair(a, b) =>
      (match Decode(a, if header.VPair? then header.first else VUnit, s)
       case Err(e) => Err(e)
       case Ok(x) =>
         match Decode(b, if header.VPair? then header.second else VUnit, x.rest)
         case Err(e) => Err(e)
         case Ok(y) => Ok(Read(VPair(x.v, y.v), y.rest)))
    case TSum(cases) =>
      if s == [] then Err(Eof)
      else if s[0] >= |cases| then Err(InvalidTag(s[0]))
      else (
        match Decode(cases[s[0]], CaseHeader(header, s[0]), s[1..])
        case Err(e) => Err(e)
        case Ok(x) => Ok(Read(VCase(s[0], x.v), x.rest)))
    case TVersioned(version, body) =>
      if !header.VPair? || header.first != VNat(version) then Err(UnsupportedVersion(VersionOf(header)))
      else Decode(body, header.second, s)
    case TGrown(base, added) =>
      if VersionOf(header) == 0 || VersionOf(header) > 2 then Err(UnsupportedVersion(VersionOf(header)))
      else (
        match Decode(base, header.second, s)
        case Err(e) => Err(e)
        case Ok(x) =>
          if VersionOf(header) == 1 then Ok(Read(VPair(x.v, VNone), x.rest))
          else
            match DecodeOption(added, Latest(added), x.rest)
            case Err(e) => Err(e)
            case Ok(y) => Ok(Read(VPair(x.v, y.v), y.rest)))
  }

  function VersionOf(header: Val): (n: nat)
    ensures n > 0 ==> header.VPair?
  {
    if header.VPair? && header.first.VNat? then header.first.n else 0
  }

  function DecodeOption(t: Ty, header: Val, s: seq<byte>): (r: Reading)
    ensures r.Ok? ==> |r.value.rest| <= |s|
    decreases t, 1
  {
    if s == [] then Err(Eof)
    else if s[0] == 0 then Ok(Read(VNone, s[1..]))
    else if s[0] == 1 then
      match Decode(t, header, s[1..])
      case Err(e) => Err(e)
      case Ok(x) => Ok(Read(VSome(x.v), x.rest))
    else Err(InvalidTag(s[0]))
  }

  function DecodeAll(t: Ty, header: Val, n: nat, s: seq<byte>): (r: Reading)
    ensures r.Ok? ==> r.value.v.VSeq? && |r.value.rest| <= |s|
    decreases t, 1, n
  {
    if n == 0 then Ok(Read(VSeq([]), s))
    else
      match Decode(t, header, s)
      case Err(e) => Err(e)
      case Ok(x) =>
        match DecodeAll(t, header, n - 1, x.rest)
        case Err(e) => Err(e)
        case Ok(y) => Ok(Read(VSeq([x.v] + y.v.items), y.rest))
  }

  // ---------- Values with their headers ----------

  /** How deep headers nest. */
  function Level(ty: Ty): nat
    decreases ty
  {
    match ty
    case TUnit => 0
    case TOption(t) => Max(1, Level(t))
    case TVec(t) => Max(1, Level(t))
    case TArray(t, _) => Max(1, Level(t))
    case TPair(a, b) => Max(Level(a), Level(b))
    case TSum(cases) => Max(1, LevelOf(cases))
    case TVersioned(_, body) => Max(2, Level(body))
    case TGrown(base, added) => Max(3, Max(Level(base), Level(added)))
    case _ => 1
  }

  function LevelOf(tys: seq<Ty>): nat
    decreases tys
  {
    if tys == [] then 0 else Max(Level(tys[0]), LevelOf(tys[1..]))
  }

  function Max(a: nat, b: nat): nat {
    if a > b then a else b
  }

  lemma {:induction false} LevelOfHeader(ty: Ty)
    ensures Level(HeaderTy(ty)) <= Max(Level(ty), 1) - 1
    decreases ty
  {
    match ty
    case TOption(t) => LevelOfHeader(t);
    case TVec(t) => LevelOfHeader(t);
    case TArray(t, _) => LevelOfHeader(t);
    case TPair(a, b) => LevelOfHeader(a); LevelOfHeader(b);
    case TSum(cases) => LevelOfHeaders(cases);
    case TVersioned(_, body) => LevelOfHeader(body);
    case TGrown(base, _) => LevelOfHeader(base);
    case _ =>
  }

  lemma {:induction false} LevelOfHeaders(tys: seq<Ty>)
    ensures Level(HeaderTys(tys)) <= Max(LevelOf(tys), 1) - 1
    decreases tys
  {
    if tys != [] {
      LevelOfHeader(tys[0]);
      LevelOfHeaders(tys[1..]);
    }
  }

  lemma {:induction false} LatestHasType(ty: Ty)
    ensures HasType(HeaderTy(ty), Latest(ty))
    decreases ty
  {
    match ty
    case TOption(t) => LatestHasType(t);
    case TVec(t) => LatestHasType(t);
    case TArray(t, _) => LatestHasType(t);
    case TPair(a, b) => LatestHasType(a); LatestHasType(b);
    case TSum(cases) => LatestsHaveType(cases);
    case TVersioned(_, body) => LatestHasType(body);
    case TGrown(base, _) => LatestHasType(base);
    case _ =>
  }

  lemma {:induction false} LatestsHaveType(tys: seq<Ty>)
    ensures HasType(HeaderTys(tys), Latests(tys))
    decreases tys
  {
    if tys != [] {
      LatestHasType(tys[0]);
      LatestsHaveType(tys[1..]);
    }
  }

  /** The header of a header, then the header; a pair writes those of its parts. */
  function EncodeHeader(ty: Ty): seq<byte>
    decreases Level(ty), ty
  {
    LevelOfHeader(ty);
    LatestHasType(ty);
    match ty
    case TUnit => []
    case TPair(a, b) => EncodeHeader(a) + EncodeHeader(b)
    case _ => EncodeHeader(HeaderTy(ty)) + Encode(HeaderTy(ty), Latest(ty))
  }

  function DecodeHeader(ty: Ty, s: seq<byte>): (r: Reading)
    decreases Level(ty), ty
  {
    LevelOfHeader(ty);
    match ty
    case TUnit => Ok(Read(VUnit, s))
    case TPair(a, b) =>
      (match DecodeHeader(a, s)
       case Err(e) => Err(e)
       case Ok(x) =>
         match DecodeHeader(b, x.rest)
         case Err(e) => Err(e)
         case Ok(y) => Ok(Read(VPair(x.v, y.v), y.rest)))
    case _ =>
      match DecodeHeader(HeaderTy(ty), s)
      case Err(e) => Err(e)
      case Ok(x) => Decode(HeaderTy(ty), x.v, x.rest)
  }

  /** A value with its header. */
  function EncodeWithHeader(ty: Ty, v: Val): seq<byte>
    requires HasType(ty, v)
  {
    EncodeHeader(ty) + Encode(ty, v)
  }

  function DecodeWithHeader(ty: Ty, s: seq<byte>): Reading {
    match DecodeHeader(ty, s)
    case Err(e) => Err(e)
    case Ok(x) => Decode(ty, x.v, x.rest)
  }
}
