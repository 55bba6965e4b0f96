/**
 The store of transaction data.  Rows are kept under the bytes of an environment,
 a cannon and a transaction id; scans by a prefix of those bytes find the rows of
 an environment or of a cannon and no others, because no encoding of a text is a
 prefix of another.
 */
module PrefixStore {
  import opened Wrappers
  import opened Bytes
  import opened Format
  import opened FormatProofs

  type Text = s: seq<byte> | ValidUtf8(s) && |s| < U64_LIMIT witness []

  datatype TxKey = TxKey(env: Text, cannon: Text, id: Text)

  datatype Prefix = OfEnv(env: Text) | OfCannon(env: Text, cannon: Text)

  function KeyTy(): Ty {
    TPair(TString, TPair(TString, TString))
  }

  function KeyVal(k: TxKey): (v: Val)
    ensures HasType(KeyTy(), v) && IsKey(v)
  {
    VPair(VText(k.env), VPair(VText(k.cannon), VText(k.id)))
  }

  function KeyBytes(k: TxKey): seq<byte> {
    Encode(KeyTy(), KeyVal(k))
  }

  lemma {:induction false} TextsHaveType(a: Text, b: Text)
    ensures HasType(TString, VText(a)) && HasType(TPair(TString, TString), VPair(VText(a), VText(b)))
    ensures Encode(TPair(TString, TString), VPair(VText(a), VText(b))) == Encode(TString, VText(a)) + Encode(TString, VText(b))
  {
  }

  function PrefixBytes(p: Prefix): seq<byte> {
    match p
    case OfEnv(env) =>
      TextsHaveType(env, env);
      Encode(TString, VText(env))
    case OfCannon(env, cannon) =>
      TextsHaveType(env, cannon);
      Encode(TPair(TString, TString), VPair(VText(env), VText(cannon)))
  }

  predicate Matches(p: Prefix, k: TxKey) {
    k.env == p.env && (p.OfCannon? ==> k.cannon == p.cannon)
  }

  // ---------- Prefixes ----------

  /** No encoding is a prefix of that of another value, whatever follows. */
  lemma {:induction false} PrefixFree(ty: Ty, v: Val, w: Val, rest: seq<byte>)
    requires HasType(ty, v) && HasType(ty, w)
    ensures Encode(ty, v) <= Encode(ty, w) + rest <==> v == w
  {
    hide Encode, Decode, HasType;
    var x, y := Encode(ty, v), Encode(ty, w);
    RoundTrip(ty, w, rest);
    if x <= y + rest {
      Continue(x, y + rest);
      RoundTrip(ty, v, (y + rest)[|x|..]);
    }
  }

  lemma {:induction false} Continue(x: seq<byte>, s: seq<byte>)
    requires x <= s
    ensures s == x + s[|x|..]
  {
  }

  lemma {:induction false} KeyParts(k: TxKey)
    ensures HasType(TString, VText(k.env)) && HasType(TPair(TString, TString), VPair(VText(k.cannon), VText(k.id)))
    ensures KeyBytes(k)
         == Encode(TString, VText(k.env)) + Encode(TPair(TString, TString), VPair(VText(k.cannon), VText(k.id)))
  {
    TextsHaveType(k.cannon, k.id);
  }

  lemma {:induction false} PrefixIsExact(p: Prefix, k: TxKey)
    ensures PrefixBytes(p) <= KeyBytes(k) <==> Matches(p, k)
  {
    hide Encode, HasType, KeyBytes;
    var e, c, i := VText(k.env), VText(k.cannon), VText(k.id);
    var both := TPair(TString, TString);
    KeyParts(k);
    if p.OfEnv? {
      TextsHaveType(p.env, k.env);
      PrefixFree(TString, VText(p.env), e, Encode(both, VPair(c, i)));
    } else {
      TextsHaveType(p.env, p.cannon);
      TextsHaveType(k.env, k.cannon);
      TextsHaveType(k.cannon, k.id);
      TextsHaveType(k.id, k.id);
      Assoc(Encode(TString, e), Encode(TString, c), Encode(TString, i));
      PrefixFree(both, VPair(VText(p.env), VText(p.cannon)), VPair(e, c), Encode(TString, i));
    }
  }

  /** A key is read back from its bytes, so different keys have different bytes. */
  lemma {:induction false} KeyReads(k: TxKey)
    ensures Decode(KeyTy(), Latest(KeyTy()), KeyBytes(k)) == Ok(Read(KeyVal(k), []))
  {
    hide Decode;
    RoundTrip(KeyTy(), KeyVal(k), []);
    assert KeyBytes(k) + [] == KeyBytes(k);
  }

  lemma {:induction false} KeysDiffer(k: TxKey, l: TxKey)
    requires KeyBytes(k) == KeyBytes(l)
    ensures k == l
  {
    hide Decode;
    KeyReads(k);
    KeyReads(l);
  }

  predicate IsText(v: Val) {
    v.VText? && ValidUtf8(v.text) && |v.text| < U64_LIMIT
  }

  predicate IsKey(v: Val) {
    v.VPair? && IsText(v.first) && v.second.VPair? && IsText(v.second.first) && IsText(v.second.second)
  }

  function KeyOf(v: Val): (k: TxKey)
    requires IsKey(v)
    ensures KeyVal(k) == v
  {
    TxKey(v.first.text, v.second.first.text, v.second.second.text)
  }

  // ---------- The store ----------

  type Rows = map<TxKey, Val>

  /** The tree holds exactly the rows, each value with its header. */
  ghost predicate Stores(ty: Ty, tree: map<seq<byte>, seq<byte>>, rows: Rows) {
    && (forall k :: k in rows ==> HasType(ty, rows[k]))
    && (forall k :: k in rows ==> KeyBytes(k) in tree && tree[KeyBytes(k)] == EncodeWithHeader(ty, rows[k]))
    && (forall b :: b in tree ==> exists k :: k in rows && KeyBytes(k) == b)
  }

  /** The order in which a scan finds the keys of the tree that start with some bytes. */
  ghost predicate ScanOf(scan: seq<seq<byte>>, tree: map<seq<byte>, seq<byte>>, prefix: seq<byte>) {
    && (forall b :: b in scan <==> b in tree && prefix <= b)
    && (forall i, j :: 0 <= i < j < |scan| ==> scan[i] != scan[j])
  }

  /** A scan by a prefix finds the rows that match and no others. */
  lemma {:induction false} ScanFindsRow(ty: Ty, tree: map<seq<byte>, seq<byte>>, rows: Rows, p: Prefix, b: seq<byte>)
    returns (k: TxKey)
    requires Stores(ty, tree, rows) && b in tree && PrefixBytes(p) <= b
    ensures k in rows && Matches(p, k) && KeyBytes(k) == b
    ensures Decode(KeyTy(), Latest(KeyTy()), b) == Ok(Read(KeyVal(k), []))
  {
    hide PrefixBytes, Matches, KeyBytes, Decode, EncodeWithHeader, HasType;
    k :| k in rows && KeyBytes(k) == b;
    PrefixIsExact(p, k);
    KeyReads(k);
  }

  ghost function Matching(rows: Rows, p: Prefix): set<TxKey> {
    set k | k in rows && Matches(p, k)
  }

  lemma {:induction false} StoresInsert(ty: Ty, tree: map<seq<byte>, seq<byte>>, rows: Rows, k: TxKey, v: Val)
    requires Stores(ty, tree, rows) && HasType(ty, v)
    ensures Stores(ty, tree[KeyBytes(k) := EncodeWithHeader(ty, v)], rows[k := v])
  {
    hide KeyBytes, EncodeWithHeader, HasType;
    var more, all := tree[KeyBytes(k) := EncodeWithHeader(ty, v)], rows[k := v];
    forall l | l in all ensures KeyBytes(l) in more && more[KeyBytes(l)] == EncodeWithHeader(ty, all[l]) {
      if l != k && KeyBytes(l) == KeyBytes(k) {
        KeysDiffer(l, k);
      }
    }
    forall b | b in more ensures exists l :: l in all && KeyBytes(l) == b {
      if b == KeyBytes(k) {
        assert k in all;
      } else {
        var l :| l in rows && KeyBytes(l) == b;
        assert l in all;
      }
    }
  }

  lemma {:induction false} StoresRemove(ty: Ty, tree: map<seq<byte>, seq<byte>>, rows: Rows, k: TxKey)
    requires Stores(ty, tree, rows)
    ensures Stores(ty, tree - {KeyBytes(k)}, rows - {k})
    ensures KeyBytes(k) in tree <==> k in rows
  {
    hide KeyBytes, EncodeWithHeader, HasType;
    var less, some := tree - {KeyBytes(k)}, rows - {k};
    forall l | l in some ensures KeyBytes(l) in less {
      if KeyBytes(l) == KeyBytes(k) {
        KeysDiffer(l, k);
      }
    }
    forall b | b in less ensures exists l :: l in some && KeyBytes(l) == b {
      var l :| l in rows && KeyBytes(l) == b;
      assert l in some;
    }
    if KeyBytes(k) in tree {
      var l :| l in rows && KeyBytes(l) == KeyBytes(k);
      KeysDiffer(l, k);
    }
  }

  class DbTree {
    const ty: Ty
    var tree: map<seq<byte>, seq<byte>>
    ghost var rows: Rows

    ghost predicate Valid()
      reads this
    {
      Stores(ty, tree, rows)
    }

    constructor (ty: Ty)
      ensures Valid() && rows == map[] && this.ty == ty
    {
      this.ty := ty;
      tree := map[];
      rows := map[];
    }

    method Save(key: TxKey, value: Val)
      requires Valid() && HasType(ty, value)
      modifies this
      ensures Valid() && rows == old(rows)[key := value]
    {
      hide Stores, KeyBytes, EncodeWithHeader;
      StoresInsert(ty, tree, rows, key, value);
      tree := tree[KeyBytes(key) := EncodeWithHeader(ty, value)];
      rows := rows[key := value];
    }

    method Restore(key: TxKey) returns (r: Result<Option<Val>, ReadError>)
      requires Valid()
      ensures r == Ok(if key in rows then Some(rows[key]) else None)
    {
      hide KeyBytes, EncodeWithHeader, DecodeWithHeader, HasType;
      StoresRemove(ty, tree, rows, key);
      if KeyBytes(key) !in tree {
        return Ok(None);
      }
      HeaderedRoundTrip(ty, rows[key], []);
      assert tree[KeyBytes(key)] + [] == tree[KeyBytes(key)];
      var read := DecodeWithHeader(ty, tree[KeyBytes(key)]);
      r := match read case Ok(x) => Ok(Some(x.v)) case Err(e) => Err(e);
    }

    method Delete(key: TxKey) returns (found: bool)
      requires Valid()
      modifies this
      ensures Valid() && rows == old(rows) - {key} && (found <==> key in old(rows))
    {
      hide Stores, KeyBytes;
      StoresRemove(ty, tree, rows, key);
      found := KeyBytes(key) in tree;
      tree := tree - {KeyBytes(key)};
      rows := rows - {key};
    }

    /** Rows that do not parse are passed over; here all do. */
    method ReadWithPrefix(p: Prefix, scan: seq<seq<byte>>) returns (found: seq<(TxKey, Val)>)
      requires Valid() && ScanOf(scan, tree, PrefixBytes(p))
      ensures forall k, v :: (k, v) in found <==> k in rows && Matches(p, k) && rows[k] == v
      ensures forall i, j :: 0 <= i < j < |found| ==> found[i].0 != found[j].0
    {
      hide PrefixBytes, Matches, KeyBytes, Decode, DecodeWithHeader, HasType;
      found := [];
      for i := 0 to |scan|
        invariant |found| == i
        invariant forall j :: 0 <= j < i ==>
          found[j].0 in rows && Matches(p, found[j].0) && KeyBytes(found[j].0) == scan[j] && found[j].1 == rows[found[j].0]
      {
        var b := scan[i];
        assert b in scan;
        ghost var k := ScanFindsRow(ty, tree, rows, p, b);
        HeaderedRoundTrip(ty, rows[k], []);
        assert tree[b] + [] == tree[b];
        var key := Decode(KeyTy(), Latest(KeyTy()), b);
        var value := DecodeWithHeader(ty, tree[b]);
        if key.Ok? && value.Ok? && IsKey(key.value.v) {
          found := found + [(KeyOf(key.value.v), value.value.v)];
        }
      }
      forall k, v ensures (k, v) in found <==> k in rows && Matches(p, k) && rows[k] == v {
        if k in rows && Matches(p, k) && rows[k] == v {
          PrefixIsExact(p, k);
          assert KeyBytes(k) in scan;
          var i :| 0 <= i < |scan| && scan[i] == KeyBytes(k);
          KeysDiffer(found[i].0, k);
          assert found[i] == (k, v);
        }
      }
      forall i, j | 0 <= i < j < |found| ensures found[i].0 != found[j].0 {
        assert scan[i] != scan[j];
      }
    }

    /** Delete the rows of a scan one by one and count them. */
    method DeleteWithPrefix(p: Prefix, scan: seq<seq<byte>>) returns (count: nat)
      requires Valid() && ScanOf(scan, tree, PrefixBytes(p))
      modifies this
      ensures Valid() && rows == old(rows) - Matching(old(rows), p) && count == |Matching(old(rows), p)|
    {
      hide PrefixBytes, Matches, KeyBytes, Decode, Stores, EncodeWithHeader;
      count := 0;
      ghost var gone: set<TxKey> := {};
      for i := 0 to |scan|
        invariant Valid() && rows == old(rows) - gone && count == |gone|
        invariant gone <= Matching(old(rows), p)
        invariant forall k :: k in gone <==> k in old(rows) && KeyBytes(k) in scan[..i]
      {
        var b := scan[i];
        assert b in scan;
        ghost var k := ScanFindsRow(ty, old(tree), old(rows), p, b);
        var key := Decode(KeyTy(), Latest(KeyTy()), b);
        assert scan[..i + 1] == scan[..i] + [b];
        NotYet(scan, i, KeyBytes(k));
        forall l | l in old(rows) && KeyBytes(l) == b ensures l == k {
          KeysDiffer(l, k);
        }
        gone := gone + {k};
        if key.Ok? && IsKey(key.value.v) {
          var found := Delete(KeyOf(key.value.v));
          count := count + 1;
        }
      }
      assert scan[..|scan|] == scan;
      AllGone(ty, old(tree), old(rows), p, scan, gone);
    }
  }

  lemma {:induction false} NotYet(scan: seq<seq<byte>>, i: nat, b: seq<byte>)
    requires i < |scan| && scan[i] == b && forall i, j :: 0 <= i < j < |scan| ==> scan[i] != scan[j]
    ensures b !in scan[..i]
  {
  }

  lemma {:induction false} AllGone(
    ty: Ty, tree: map<seq<byte>, seq<byte>>, rows: Rows, p: Prefix, scan: seq<seq<byte>>, gone: set<TxKey>)
    requires Stores(ty, tree, rows) && ScanOf(scan, tree, PrefixBytes(p))
    requires forall k :: k in gone <==> k in rows && KeyBytes(k) in scan
    ensures gone == Matching(rows, p)
  {
    hide KeyBytes, PrefixBytes, Matches, EncodeWithHeader, HasType;
    forall k | k in rows ensures k in gone <==> Matches(p, k) {
      PrefixIsExact(p, k);
    }
  }
}
