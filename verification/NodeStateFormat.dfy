/**
 The binary format of a node's state: its type, how a state is a value of that
 type, its header byte for byte, and what reading gives for both versions.
 */
module NodeStateFormat {
  import opened Wrappers
  import opened Bytes
  import opened Format
  import opened FormatProofs
  import Nodes
  import Retention
  import PolicyText

  // ---------- Types ----------

  function NodeTypeTy(): Ty {
    TVersioned(1, TSum([TUnit, TUnit, TUnit]))
  }

  function NodeKeyTy(): Ty {
    TVersioned(1, TPair(NodeTypeTy(), TPair(TString, TOption(TString))))
  }

  function KeyStateTy(): Ty {
    TVersioned(1, TSum([TUnit, TUnit, TString]))
  }

  function SpanTy(): Ty {
    TVersioned(1, TSum([TUnit, TNonZero, TNonZero, TNonZero, TNonZero, TNonZero, TNonZero]))
  }

  function HeightTy(): Ty {
    TVersioned(1, TSum([TUnit, TUint(4), SpanTy()]))
  }

  function AddressTy(): Ty {
    TSum([TPair(TArray(TUint(1), 4), TUint(2)), TPair(TArray(TUint(1), 16), TUint(2))])
  }

  function PeerTy(): Ty {
    TVersioned(1, TSum([TPair(TString, TUint(2)), AddressTy()]))
  }

  /** Peers and validators are read with one header. */
  function FieldsTy(): Ty {
    TPair(NodeKeyTy(), TPair(KeyStateTy(), TPair(TPair(TPacked, HeightTy()),
      TPair(TBool, TPair(TArray(TVec(PeerTy()), 2), TVec(TPair(TString, TString)))))))
  }

  /** The binary came in version 2. */
  function NodeStateTy(): Ty {
    TGrown(FieldsTy(), TString)
  }

  // ---------- States ----------

  type Text = s: seq<byte> | ValidUtf8(s) && |s| < U64_LIMIT witness []

  type U16 = n: nat | n < 65536

  type U64 = n: nat | n < U64_LIMIT

  datatype NodeKey = NodeKey(ty: Nodes.NodeType, id: Text, ns: Option<Text>)

  datatype KeyState = NoKey | LocalKey | LiteralKey(key: Text)

  datatype AgentPeer =
    | InternalPeer(agent: Text, port: U16)
    | V4Peer(ip: seq<byte>, port: U16)
    | V6Peer(ip: seq<byte>, port: U16)

  datatype NodeState = NodeState(
    key: NodeKey, privateKey: KeyState, heightCount: U64, height: PolicyText.HeightRequest, online: bool,
    peers: seq<AgentPeer>, validators: seq<AgentPeer>, env: seq<(Text, Text)>, binary: Option<Text>)

  predicate ValidPeer(p: AgentPeer) {
    (p.V4Peer? ==> |p.ip| == 4) && (p.V6Peer? ==> |p.ip| == 16)
  }

  /** What the machine types of the fields guarantee. */
  predicate Valid(s: NodeState) {
    && (s.height.Absolute? ==> s.height.height < 0x1_0000_0000)
    && |s.peers| < U64_LIMIT && |s.validators| < U64_LIMIT && |s.env| < U64_LIMIT
    && (forall i :: 0 <= i < |s.peers| ==> ValidPeer(s.peers[i]))
    && (forall i :: 0 <= i < |s.validators| ==> ValidPeer(s.validators[i]))
  }

  function NodeTypeVal(ty: Nodes.NodeType): Val {
    match ty
    case Client => VCase(0, VUnit)
    case Validator => VCase(1, VUnit)
    case Prover => VCase(2, VUnit)
  }

  function OptionVal(t: Option<Text>): Val {
    match t
    case None => VNone
    case Some(text) => VSome(VText(text))
  }

  function KeyVal(k: NodeKey): Val {
    VPair(NodeTypeVal(k.ty), VPair(VText(k.id), OptionVal(k.ns)))
  }

  function KeyStateVal(k: KeyState): Val {
    match k
    case NoKey => VCase(0, VUnit)
    case LocalKey => VCase(1, VUnit)
    case LiteralKey(key) => VCase(2, VText(key))
  }

  function SpanVal(s: Retention.Span): Val {
    match s
    case Unlimited => VCase(0, VUnit)
    case Minute(n) => VCase(1, VNat(n))
    case Hour(n) => VCase(2, VNat(n))
    case Day(n) => VCase(3, VNat(n))
    case Week(n) => VCase(4, VNat(n))
    case Month(n) => VCase(5, VNat(n))
    case Year(n) => VCase(6, VNat(n))
  }

  function HeightVal(h: PolicyText.HeightRequest): Val {
    match h
    case Top => VCase(0, VUnit)
    case Absolute(height) => VCase(1, VNat(height))
    case Checkpoint(span) => VCase(2, SpanVal(span))
  }

  function BytesVal(s: seq<byte>): Val {
    VSeq(seq(|s|, i requires 0 <= i < |s| => VNat(s[i])))
  }

  function PeerVal(p: AgentPeer): Val {
    match p
    case InternalPeer(agent, port) => VCase(0, VPair(VText(agent), VNat(port)))
    case V4Peer(ip, port) => VCase(1, VCase(0, VPair(BytesVal(ip), VNat(port))))
    case V6Peer(ip, port) => VCase(1, VCase(1, VPair(BytesVal(ip), VNat(port))))
  }

  function PeersVal(peers: seq<AgentPeer>): Val {
    VSeq(seq(|peers|, i requires 0 <= i < |peers| => PeerVal(peers[i])))
  }

  function EnvVal(env: seq<(Text, Text)>): Val {
    VSeq(seq(|env|, i requires 0 <= i < |env| => VPair(VText(env[i].0), VText(env[i].1))))
  }

  function FieldsVal(s: NodeState): Val {
    VPair(KeyVal(s.key), VPair(KeyStateVal(s.privateKey), VPair(VPair(VNat(s.heightCount), HeightVal(s.height)),
      VPair(VBool(s.online), VPair(VSeq([PeersVal(s.peers), PeersVal(s.validators)]), EnvVal(s.env))))))
  }

  function StateVal(s: NodeState): Val {
    VPair(FieldsVal(s), OptionVal(s.binary))
  }

  // ---------- A state is a value of its type ----------

  lemma {:induction false} TypedPair(a: Ty, b: Ty, x: Val, y: Val)
    requires HasType(a, x) && HasType(b, y)
    ensures HasType(TPair(a, b), VPair(x, y))
  {
  }

  lemma {:induction false} TypedCase(version: byte, cases: seq<Ty>, tag: nat, x: Val)
    requires tag < |cases| && tag < 256 && HasType(cases[tag], x)
    ensures HasType(TSum(cases), VCase(tag, x)) && HasType(TVersioned(version, TSum(cases)), VCase(tag, x))
  {
  }

  lemma {:induction false} TypedVersion(version: byte, body: Ty, x: Val)
    requires HasType(body, x)
    ensures HasType(TVersioned(version, body), x)
  {
  }

  lemma {:induction false} TypedLeaves(t: Text, o: Option<Text>, n: nat, b: bool)
    ensures HasType(TString, VText(t)) && HasType(TOption(TString), OptionVal(o)) && HasType(TBool, VBool(b))
    ensures n < U64_LIMIT ==> HasType(TPacked, VNat(n))
    ensures HasType(TUnit, VUnit) && (0 < n < 256 ==> HasType(TNonZero, VNat(n)))
    ensures n < 65536 ==> HasType(TUint(2), VNat(n))
    ensures n < 0x1_0000_0000 ==> HasType(TUint(4), VNat(n))
  {
    assert Pow256(2) == 0x1_0000;
    assert Pow256(4) == 0x1_0000_0000;
  }

  lemma {:induction false} KeyHasType(k: NodeKey)
    ensures HasType(NodeKeyTy(), KeyVal(k))
  {
    hide HasType, OptionVal;
    TypedLeaves(k.id, k.ns, 0, true);
    TypedCase(1, [TUnit, TUnit, TUnit], match k.ty case Client => 0 case Validator => 1 case Prover => 2, VUnit);
    TypedPair(TString, TOption(TString), VText(k.id), OptionVal(k.ns));
    TypedPair(NodeTypeTy(), TPair(TString, TOption(TString)), NodeTypeVal(k.ty), VPair(VText(k.id), OptionVal(k.ns)));
    TypedVersion(1, TPair(NodeTypeTy(), TPair(TString, TOption(TString))), KeyVal(k));
  }

  lemma {:induction false} KeyStateHasType(k: KeyState)
    ensures HasType(KeyStateTy(), KeyStateVal(k))
  {
    hide HasType;
    TypedLeaves(if k.LiteralKey? then k.key else [], None, 0, true);
    TypedCase(1, [TUnit, TUnit, TString], KeyStateVal(k).tag, KeyStateVal(k).content);
  }

  lemma {:induction false} SpanHasType(s: Retention.Span)
    ensures HasType(SpanTy(), SpanVal(s))
  {
    hide HasType;
    TypedLeaves([], None, if s.Unlimited? then 0 else s.n, true);
    TypedCase(1, [TUnit, TNonZero, TNonZero, TNonZero, TNonZero, TNonZero, TNonZero], SpanVal(s).tag, SpanVal(s).content);
  }

  lemma {:induction false} HeightHasType(h: PolicyText.HeightRequest)
    requires h.Absolute? ==> h.height < 0x1_0000_0000
    ensures HasType(HeightTy(), HeightVal(h))
  {
    hide HasType, SpanTy, SpanVal;
    TypedLeaves([], None, if h.Absolute? then h.height else 0, true);
    if h.Checkpoint? {
      SpanHasType(h.span);
    }
    TypedCase(1, [TUnit, TUint(4), SpanTy()], HeightVal(h).tag, HeightVal(h).content);
  }

  lemma {:induction false} BytesHaveType(s: seq<byte>)
    ensures HasType(TArray(TUint(1), |s|), BytesVal(s))
  {
    assert Pow256(1) == 256;
    var items := BytesVal(s).items;
    forall i | 0 <= i < |s| ensures HasType(TUint(1), items[i]) {
      assert items[i] == VNat(s[i]);
    }
  }

  lemma {:induction false} PeerHasType(p: AgentPeer)
    requires ValidPeer(p)
    ensures HasType(PeerTy(), PeerVal(p))
  {
    hide HasType, BytesVal;
    TypedLeaves(if p.InternalPeer? then p.agent else [], None, p.port, true);
    var v4, v6 := TPair(TArray(TUint(1), 4), TUint(2)), TPair(TArray(TUint(1), 16), TUint(2));
    if p.InternalPeer? {
      TypedPair(TString, TUint(2), VText(p.agent), VNat(p.port));
    } else {
      BytesHaveType(p.ip);
      TypedPair(TArray(TUint(1), |p.ip|), TUint(2), BytesVal(p.ip), VNat(p.port));
      TypedCase(1, [v4, v6], if p.V4Peer? then 0 else 1, VPair(BytesVal(p.ip), VNat(p.port)));
    }
    TypedCase(1, [TPair(TString, TUint(2)), AddressTy()], PeerVal(p).tag, PeerVal(p).content);
  }

  lemma {:induction false} TypedVec(t: Ty, items: seq<Val>)
    requires |items| < U64_LIMIT && forall i :: 0 <= i < |items| ==> HasType(t, items[i])
    ensures HasType(TVec(t), VSeq(items)) && HasType(TArray(t, |items|), VSeq(items))
  {
  }

  lemma {:induction false} PeersHaveType(peers: seq<AgentPeer>)
    requires |peers| < U64_LIMIT && forall i :: 0 <= i < |peers| ==> ValidPeer(peers[i])
    ensures HasType(TVec(PeerTy()), PeersVal(peers))
  {
    hide HasType, PeerTy, PeerVal;
    var items := PeersVal(peers).items;
    forall i | 0 <= i < |peers| ensures HasType(PeerTy(), items[i]) {
      assert items[i] == PeerVal(peers[i]);
      PeerHasType(peers[i]);
    }
    TypedVec(PeerTy(), items);
  }

  lemma {:induction false} EnvHasType(env: seq<(Text, Text)>)
    requires |env| < U64_LIMIT
    ensures HasType(TVec(TPair(TString, TString)), EnvVal(env))
  {
    hide HasType;
    var items := EnvVal(env).items;
    forall i | 0 <= i < |env| ensures HasType(TPair(TString, TString), items[i]) {
      TypedLeaves(env[i].0, None, 0, true);
      TypedLeaves(env[i].1, None, 0, true);
      TypedPair(TString, TString, VText(env[i].0), VText(env[i].1));
    }
    TypedVec(TPair(TString, TString), items);
  }

  lemma {:induction false} FieldsHaveType(s: NodeState)
    requires Valid(s)
    ensures HasType(FieldsTy(), FieldsVal(s))
  {
    hide HasType, NodeKeyTy, KeyStateTy, HeightTy, PeerTy, KeyVal, KeyStateVal, HeightVal, PeersVal, EnvVal;
    KeyHasType(s.key);
    KeyStateHasType(s.privateKey);
    HeightHasType(s.height);
    PeersHaveType(s.peers);
    PeersHaveType(s.validators);
    EnvHasType(s.env);
    TypedLeaves([], None, s.heightCount, s.online);
    var both, env := VSeq([PeersVal(s.peers), PeersVal(s.validators)]), EnvVal(s.env);
    var envTy, bothTy := TVec(TPair(TString, TString)), TArray(TVec(PeerTy()), 2);
    TypedVec(TVec(PeerTy()), both.items);
    TypedPair(bothTy, envTy, both, env);
    TypedPair(TBool, TPair(bothTy, envTy), VBool(s.online), VPair(both, env));
    var height, heightTy := VPair(VNat(s.heightCount), HeightVal(s.height)), TPair(TPacked, HeightTy());
    TypedPair(TPacked, HeightTy(), VNat(s.heightCount), HeightVal(s.height));
    var rest, restTy := VPair(VBool(s.online), VPair(both, env)), TPair(TBool, TPair(bothTy, envTy));
    TypedPair(heightTy, restTy, height, rest);
    TypedPair(KeyStateTy(), TPair(heightTy, restTy), KeyStateVal(s.privateKey), VPair(height, rest));
    TypedPair(NodeKeyTy(), TPair(KeyStateTy(), TPair(heightTy, restTy)), KeyVal(s.key),
              VPair(KeyStateVal(s.privateKey), VPair(height, rest)));
  }

  // ---------- Different states are different values ----------

  lemma {:induction false} BytesDiffer(a: seq<byte>, b: seq<byte>)
    requires BytesVal(a) == BytesVal(b)
    ensures a == b
  {
    var x, y := BytesVal(a).items, BytesVal(b).items;
    assert |a| == |x| == |y| == |b|;
    forall i | 0 <= i < |a| ensures a[i] == b[i] {
      assert x[i] == VNat(a[i]) && y[i] == VNat(b[i]);
    }
  }

  lemma {:induction false} PeersDiffer(a: seq<AgentPeer>, b: seq<AgentPeer>)
    requires PeersVal(a) == PeersVal(b)
    ensures a == b
  {
    hide BytesVal;
    var x, y := PeersVal(a).items, PeersVal(b).items;
    assert |a| == |x| == |y| == |b|;
    forall i | 0 <= i < |a| ensures a[i] == b[i] {
      assert x[i] == PeerVal(a[i]) && y[i] == PeerVal(b[i]);
      if !a[i].InternalPeer? && !b[i].InternalPeer? {
        BytesDiffer(a[i].ip, b[i].ip);
      }
    }
  }

  lemma {:induction false} EnvDiffers(a: seq<(Text, Text)>, b: seq<(Text, Text)>)
    requires EnvVal(a) == EnvVal(b)
    ensures a == b
  {
    var x, y := EnvVal(a).items, EnvVal(b).items;
    assert |a| == |x| == |y| == |b|;
    forall i | 0 <= i < |a| ensures a[i] == b[i] {
      assert x[i] == VPair(VText(a[i].0), VText(a[i].1)) && y[i] == VPair(VText(b[i].0), VText(b[i].1));
    }
  }

  lemma {:induction false} StatesDiffer(a: NodeState, b: NodeState)
    requires StateVal(a) == StateVal(b)
    ensures a == b
  {
    hide PeersVal, EnvVal;
    var pa, pb := [PeersVal(a.peers), PeersVal(a.validators)], [PeersVal(b.peers), PeersVal(b.validators)];
    assert pa[0] == pb[0] && pa[1] == pb[1];
    PeersDiffer(a.peers, b.peers);
    PeersDiffer(a.validators, b.validators);
    EnvDiffers(a.env, b.env);
  }

  // ---------- Headers ----------

  /** The versions in a type, in the order they are written. */
  function VersionBytes(ty: Ty): seq<byte>
    decreases ty
  {
    match ty
    case TOption(t) => VersionBytes(t)
    case TVec(t) => VersionBytes(t)
    case TArray(t, _) => VersionBytes(t)
    case TPair(a, b) => VersionBytes(a) + VersionBytes(b)
    case TSum(cases) => AllVersionBytes(cases)
    case TVersioned(version, body) => [version] + VersionBytes(body)
    case TGrown(base, _) => [2] + VersionBytes(base)
    case _ => []
  }

  function AllVersionBytes(tys: seq<Ty>): seq<byte>
    decreases tys
  {
    if tys == [] then [] else VersionBytes(tys[0]) + AllVersionBytes(tys[1..])
  }

  lemma {:induction false} OneByte(n: byte)
    ensures Pow256(1) == 256 && ToLe(n, 1) == [n]
  {
    assert ToLe(n / 256, 0) == [];
    assert [n % 256] + [] == [n];
  }

  /** A header is the versions of the parts and nothing else. */
  lemma {:induction false} HeaderIsVersions(ty: Ty)
    ensures HasType(HeaderTy(ty), Latest(ty)) && Encode(HeaderTy(ty), Latest(ty)) == VersionBytes(ty)
    decreases ty
  {
    LatestHasType(ty);
    match ty {
      case TOption(t) => HeaderIsVersions(t);
      case TVec(t) => HeaderIsVersions(t);
      case TArray(t, _) => HeaderIsVersions(t);
      case TPair(a, b) => HeaderIsVersions(a); HeaderIsVersions(b);
      case TSum(cases) => HeadersAreVersions(cases);
      case TVersioned(version, body) => HeaderIsVersions(body); OneByte(version);
      case TGrown(base, _) => HeaderIsVersions(base); OneByte(2);
      case _ =>
    }
  }

  lemma {:induction false} HeadersAreVersions(tys: seq<Ty>)
    ensures HasType(HeaderTys(tys), Latests(tys)) && Encode(HeaderTys(tys), Latests(tys)) == AllVersionBytes(tys)
    decreases tys
  {
    LatestsHaveType(tys);
    if tys != [] {
      HeaderIsVersions(tys[0]);
      HeadersAreVersions(tys[1..]);
    }
  }

  /** Types whose headers need no header themselves. */
  predicate Plain(ty: Ty)
    decreases ty
  {
    match ty
    case TUnit => true
    case TUint(_) => true
    case TPair(a, b) => Plain(a) && Plain(b)
    case _ => false
  }

  lemma {:induction false} PlainHasNoHeader(ty: Ty)
    requires Plain(ty)
    ensures EncodeHeader(ty) == [] && VersionBytes(ty) == [] && Plain(HeaderTy(ty))
    decreases ty
  {
    if ty.TPair? {
      PlainHasNoHeader(ty.first);
      PlainHasNoHeader(ty.second);
    } else {
      assert EncodeHeader(TUnit) == [];
    }
  }

  lemma {:induction false} OwnHeader(ty: Ty)
    requires !ty.TUnit? && !ty.TPair?
    ensures EncodeHeader(ty) == EncodeHeader(HeaderTy(ty)) + VersionBytes(ty)
  {
    hide Encode, HeaderTy, Latest, HasType, VersionBytes;
    LatestHasType(ty);
    HeaderIsVersions(ty);
  }

  /** The header of a type that has grown: the version of the header, that of the type, and those of its parts. */
  lemma {:induction false} GrownHeader(base: Ty, added: Ty)
    requires Plain(HeaderTy(base))
    ensures EncodeHeader(TGrown(base, added)) == [1] + ([2] + VersionBytes(base))
  {
    hide Encode, EncodeHeader;
    var body := TPair(TUint(1), HeaderTy(base));
    var h := TVersioned(1, body);
    OwnHeader(TGrown(base, added));
    OwnHeader(h);
    PlainHasNoHeader(body);
    PlainHasNoHeader(HeaderTy(body));
    PlainHasNoHeader(TPair(TUint(1), HeaderTy(body)));
    assert VersionBytes(h) == [1] + VersionBytes(body);
    assert [] + ([1] + []) == [1];
  }

  // The versions of a type from those of its parts.

  lemma {:induction false} PairVersions(a: Ty, b: Ty)
    ensures VersionBytes(TPair(a, b)) == VersionBytes(a) + VersionBytes(b)
    ensures Plain(HeaderTy(a)) && Plain(HeaderTy(b)) ==> Plain(HeaderTy(TPair(a, b)))
  {
  }

  lemma {:induction false} ItemVersions(t: Ty, n: nat)
    ensures VersionBytes(TOption(t)) == VersionBytes(TVec(t)) == VersionBytes(TArray(t, n)) == VersionBytes(t)
    ensures HeaderTy(TOption(t)) == HeaderTy(TVec(t)) == HeaderTy(TArray(t, n)) == HeaderTy(t)
  {
  }

  lemma {:induction false} LeafVersions(n: nat)
    ensures forall ty: Ty :: ty in {TUnit, TUint(n), TPacked, TBool, TNonZero, TString} ==>
      VersionBytes(ty) == [] && Plain(HeaderTy(ty))
  {
  }

  lemma {:induction false} CasesVersions(version: byte, cases: seq<Ty>)
    ensures VersionBytes(TVersioned(version, TSum(cases))) == [version] + AllVersionBytes(cases)
    ensures VersionBytes(TSum(cases)) == AllVersionBytes(cases)
    ensures Plain(HeaderTys(cases)) ==>
      Plain(HeaderTy(TVersioned(version, TSum(cases)))) && Plain(HeaderTy(TSum(cases)))
  {
    assert HeaderTy(TSum(cases)) == HeaderTys(cases);
  }

  lemma {:induction false} BodyVersions(version: byte, body: Ty)
    ensures VersionBytes(TVersioned(version, body)) == [version] + VersionBytes(body)
    ensures Plain(HeaderTy(body)) ==> Plain(HeaderTy(TVersioned(version, body)))
  {
  }

  /** Cases none of which has versions. */
  lemma {:induction false} NoVersions(cases: seq<Ty>)
    requires forall i :: 0 <= i < |cases| ==> VersionBytes(cases[i]) == [] && Plain(HeaderTy(cases[i]))
    ensures AllVersionBytes(cases) == [] && Plain(HeaderTys(cases))
    decreases |cases|
  {
    hide VersionBytes, HeaderTy;
    if cases != [] {
      NoVersions(cases[1..]);
    }
  }

  lemma {:induction false} NodeKeyVersions()
    ensures VersionBytes(NodeKeyTy()) == [1, 1] && Plain(HeaderTy(NodeKeyTy()))
  {
    hide VersionBytes, HeaderTy, AllVersionBytes, HeaderTys, Plain;
    LeafVersions(0);
    NoVersions([TUnit, TUnit, TUnit]);
    CasesVersions(1, [TUnit, TUnit, TUnit]);
    ItemVersions(TString, 0);
    PairVersions(TString, TOption(TString));
    PairVersions(NodeTypeTy(), TPair(TString, TOption(TString)));
    BodyVersions(1, TPair(NodeTypeTy(), TPair(TString, TOption(TString))));
  }

  lemma {:induction false} KeyStateVersions()
    ensures VersionBytes(KeyStateTy()) == [1] && Plain(HeaderTy(KeyStateTy()))
  {
    hide VersionBytes, HeaderTy, AllVersionBytes, HeaderTys, Plain;
    LeafVersions(0);
    NoVersions([TUnit, TUnit, TString]);
    CasesVersions(1, [TUnit, TUnit, TString]);
  }

  lemma {:induction false} SpanVersions()
    ensures VersionBytes(SpanTy()) == [1] && Plain(HeaderTy(SpanTy()))
  {
    hide VersionBytes, HeaderTy, AllVersionBytes, HeaderTys, Plain;
    LeafVersions(0);
    NoVersions([TUnit, TNonZero, TNonZero, TNonZero, TNonZero, TNonZero, TNonZero]);
    CasesVersions(1, [TUnit, TNonZero, TNonZero, TNonZero, TNonZero, TNonZero, TNonZero]);
  }

  /** A case adds its versions to those of the others. */
  lemma {:induction false} FirstCase(ty: Ty, more: seq<Ty>)
    ensures AllVersionBytes([ty] + more) == VersionBytes(ty) + AllVersionBytes(more)
    ensures Plain(HeaderTy(ty)) && Plain(HeaderTys(more)) ==> Plain(HeaderTys([ty] + more))
  {
    assert ([ty] + more)[1..] == more;
  }

  lemma {:induction false} HeightVersions()
    ensures VersionBytes(HeightTy()) == [1, 1] && Plain(HeaderTy(HeightTy()))
  {
    hide VersionBytes, HeaderTy, AllVersionBytes, HeaderTys, Plain, SpanTy;
    LeafVersions(4);
    SpanVersions();
    NoVersions([]);
    FirstCase(SpanTy(), []);
    FirstCase(TUint(4), [SpanTy()]);
    FirstCase(TUnit, [TUint(4), SpanTy()]);
    assert [SpanTy()] + [] == [SpanTy()];
    assert [TUint(4)] + [SpanTy()] == [TUint(4), SpanTy()];
    assert [TUnit] + [TUint(4), SpanTy()] == [TUnit, TUint(4), SpanTy()];
    CasesVersions(1, [TUnit, TUint(4), SpanTy()]);
  }

  lemma {:induction false} AddressVersions(n: nat)
    ensures VersionBytes(TPair(TArray(TUint(1), n), TUint(2))) == [] && Plain(HeaderTy(TPair(TArray(TUint(1), n), TUint(2))))
  {
    hide VersionBytes, HeaderTy, Plain;
    LeafVersions(1);
    LeafVersions(2);
    ItemVersions(TUint(1), n);
    PairVersions(TArray(TUint(1), n), TUint(2));
  }

  lemma {:induction false} PeerVersions()
    ensures VersionBytes(PeerTy()) == [1] && Plain(HeaderTy(PeerTy()))
  {
    hide VersionBytes, HeaderTy, AllVersionBytes, HeaderTys, Plain;
    AddressVersions(4);
    AddressVersions(16);
    LeafVersions(2);
    NoVersions([TPair(TArray(TUint(1), 4), TUint(2)), TPair(TArray(TUint(1), 16), TUint(2))]);
    CasesVersions(1, [TPair(TArray(TUint(1), 4), TUint(2)), TPair(TArray(TUint(1), 16), TUint(2))]);
    PairVersions(TString, TUint(2));
    NoVersions([TPair(TString, TUint(2)), AddressTy()]);
    CasesVersions(1, [TPair(TString, TUint(2)), AddressTy()]);
  }

  lemma {:induction false} FieldVersions()
    ensures VersionBytes(FieldsTy()) == [1, 1, 1, 1, 1, 1] && Plain(HeaderTy(FieldsTy()))
  {
    hide VersionBytes, HeaderTy, Plain, NodeKeyTy, KeyStateTy, HeightTy, PeerTy;
    LeafVersions(0);
    NodeKeyVersions();
    KeyStateVersions();
    HeightVersions();
    PeerVersions();
    var env, peers := TVec(TPair(TString, TString)), TArray(TVec(PeerTy()), 2);
    PairVersions(TString, TString);
    ItemVersions(TPair(TString, TString), 0);
    ItemVersions(PeerTy(), 0);
    ItemVersions(TVec(PeerTy()), 2);
    PairVersions(peers, env);
    PairVersions(TBool, TPair(peers, env));
    var height, rest := TPair(TPacked, HeightTy()), TPair(TBool, TPair(peers, env));
    PairVersions(TPacked, HeightTy());
    PairVersions(height, rest);
    PairVersions(KeyStateTy(), TPair(height, rest));
    PairVersions(NodeKeyTy(), TPair(KeyStateTy(), TPair(height, rest)));
  }

  /** The bytes in front of a state. */
  lemma {:induction false} NodeStateHeader()
    ensures EncodeHeader(NodeStateTy()) == [1, 2, 1, 1, 1, 1, 1, 1]
  {
    hide EncodeHeader, FieldsTy;
    FieldVersions();
    GrownHeader(FieldsTy(), TString);
  }

  // ---------- Reading ----------

  /** A state written with its header is read back, and what follows is left. */
  lemma {:induction false} NodeStateRoundTrip(s: NodeState, suffix: seq<byte>)
    requires Valid(s)
    ensures HasType(NodeStateTy(), StateVal(s))
    ensures DecodeWithHeader(NodeStateTy(), EncodeWithHeader(NodeStateTy(), StateVal(s)) + suffix)
         == Ok(Read(StateVal(s), suffix))
  {
    hide FieldsTy, FieldsVal, DecodeWithHeader, EncodeWithHeader;
    FieldsHaveType(s);
    HeaderedRoundTrip(NodeStateTy(), StateVal(s), suffix);
  }

  /** What version 1 of the program wrote reads as the same state without a binary. */
  lemma {:induction false} OldNodeStateReads(s: NodeState, suffix: seq<byte>)
    requires Valid(s)
    ensures HasType(FieldsTy(), FieldsVal(s))
    ensures
      DecodeWithHeader(NodeStateTy(), EncodeVersion(1, FieldsTy(), TString, Encode(FieldsTy(), FieldsVal(s)) + suffix))
      == Ok(Read(StateVal(s.(binary := None)), suffix))
  {
    hide FieldsTy, FieldsVal, DecodeWithHeader, EncodeVersion, Encode;
    FieldsHaveType(s);
    OldVersionReads(FieldsTy(), TString, FieldsVal(s), suffix);
    SameFields(s);
  }

  lemma {:induction false} SameFields(s: NodeState)
    ensures FieldsVal(s.(binary := None)) == FieldsVal(s)
  {
  }
}
