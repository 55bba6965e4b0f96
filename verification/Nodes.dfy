/**
 Node keys and node targets: their textual forms, which the program reads
 with two regular expressions, and which keys a target matches.
 */
module Nodes {
  import opened Wrappers
  import opened Text

  datatype NodeType = Client | Validator | Prover

  /** A node of an environment; without a namespace it is a local one. */
  datatype NodeKey = NodeKey(ty: NodeType, id: string, ns: Option<string>)

  datatype TargetType = AllTypes | OneType(ty: NodeType)

  datatype TargetId = AllIds | WildcardPattern(pattern: string) | LiteralId(id: string)

  datatype TargetNamespace = AllNamespaces | LiteralNamespace(ns: string) | Local

  datatype NodeTarget = NodeTarget(ty: TargetType, id: TargetId, ns: TargetNamespace)

  datatype NodeTargets = NoTargets | OneTarget(target: NodeTarget) | ManyTargets(targets: seq<NodeTarget>)

  // ---------- Character classes of the regular expressions ----------

  predicate IsAlphanumeric(c: char) {
    'A' <= c <= 'Z' || 'a' <= c <= 'z' || '0' <= c <= '9'
  }

  predicate IsKeyText(s: string) {
    forall i :: 0 <= i < |s| ==> IsAlphanumeric(s[i]) || s[i] == '-'
  }

  predicate IsTargetText(s: string) {
    s != "" && forall i :: 0 <= i < |s| ==> IsAlphanumeric(s[i]) || s[i] == '-' || s[i] == '*'
  }

  // ---------- Node keys ----------

  function PrintType(ty: NodeType): string {
    match ty
    case Client => "client"
    case Validator => "validator"
    case Prover => "prover"
  }

  function ParseType(s: string): (ty: Option<NodeType>)
    ensures ty.Some? ==> s == PrintType(ty.value)
  {
    if s == "client" then Some(Client)
    else if s == "validator" then Some(Validator)
    else if s == "prover" then Some(Prover)
    else None
  }

  lemma {:induction false} TypeRoundTrip(ty: NodeType)
    ensures ParseType(PrintType(ty)) == Some(ty)
    ensures PrintType(ty) != "" && '/' !in PrintType(ty) && PrintType(ty) != "*" && PrintType(ty) != "any"
  {
    assert "any"[0] != "client"[0] && "any"[0] != "validator"[0] && "any"[0] != "prover"[0];
    assert |"client"| == 6 && |"validator"| == 9 && |"prover"| == 6;
    assert "client"[0] != "prover"[0];
  }

  /** `type/id@namespace` split at the first slash and the first at sign after it. */
  datatype Pieces = Pieces(ty: string, id: string, ns: Option<string>)

  function SplitPieces(s: string): Option<Pieces> {
    var slash := Find(s, '/');
    if slash == |s| then
      None
    else
      var rest := s[slash + 1..];
      var at := Find(rest, '@');
      Some(Pieces(s[..slash], rest[..at], if at == |rest| then None else Some(rest[at + 1..])))
  }

  function JoinPieces(ty: string, id: string, ns: Option<string>): string {
    ty + ['/'] + (id + match ns case None => "" case Some(n) => ['@'] + n)
  }

  lemma {:induction false} SplitJoinPieces(ty: string, id: string, ns: Option<string>)
    requires '/' !in ty && '@' !in id
    ensures SplitPieces(JoinPieces(ty, id, ns)) == Some(Pieces(ty, id, ns))
  {
    var rest := id + match ns case None => "" case Some(n) => ['@'] + n;
    var s := JoinPieces(ty, id, ns);
    FindAfter(ty, '/', rest);
    assert s[..|ty|] == ty && s[|ty| + 1..] == rest;
    match ns
    case None =>
      assert rest == id;
      FindAbsent(id, '@');
      assert id[..|id|] == id;
    case Some(n) =>
      assert rest == id + ['@'] + n;
      FindAfter(id, '@', n);
      assert rest[..|id|] == id && rest[|id| + 1..] == n;
  }

  lemma {:induction false} FindAbsent(s: string, c: char)
    requires c !in s
    ensures Find(s, c) == |s|
  {
    if s != "" {
      FindAbsent(s[1..], c);
    }
  }

  function PrintKey(key: NodeKey): string {
    JoinPieces(PrintType(key.ty), key.id, key.ns)
  }

  function ParseKey(s: string): Option<NodeKey> {
    match SplitPieces(s)
    case None => None
    case Some(p) =>
      var ty := ParseType(p.ty);
      if ty.None? || !IsKeyText(p.id) || (p.ns.Some? && (p.ns.value == "" || !IsKeyText(p.ns.value))) then
        None
      else
        Some(NodeKey(ty.value, p.id, if p.ns == Some("local") then None else p.ns))
  }

  /** The keys that have a text of their own: an explicit local namespace has none. */
  predicate CanonicalKey(key: NodeKey) {
    && IsKeyText(key.id)
    && (key.ns.Some? ==> key.ns.value != "" && IsKeyText(key.ns.value) && key.ns.value != "local")
  }

  /** What the parser returns is canonical. */
  lemma {:induction false} ParsedKeyIsCanonical(s: string)
    ensures ParseKey(s).Some? ==> CanonicalKey(ParseKey(s).value)
  {
  }

  /** A node key reads back from its text exactly if it is canonical. */
  lemma {:induction false} KeyRoundTrip(key: NodeKey)
    ensures ParseKey(PrintKey(key)) == Some(key) <==> CanonicalKey(key)
  {
    if CanonicalKey(key) {
      TypeRoundTrip(key.ty);
      SplitJoinPieces(PrintType(key.ty), key.id, key.ns);
    }
  }

  // ---------- Node targets ----------

  function TargetTypeText(ty: TargetType): string {
    match ty
    case AllTypes => "any"
    case OneType(ty) => PrintType(ty)
  }

  function ParseTargetType(s: string): Option<TargetType> {
    if s == "*" || s == "any" then
      Some(AllTypes)
    else
      match ParseType(s)
      case Some(ty) => Some(OneType(ty))
      case None => None
  }

  function TargetIdText(id: TargetId): string {
    match id
    case AllIds => "any"
    case WildcardPattern(pattern) => pattern
    case LiteralId(id) => id
  }

  /** Repeated stars of a pattern become one, as the pattern library does it. */
  function Collapse(s: string): string {
    if |s| < 2 then s
    else if s[0] == '*' && s[1] == '*' then Collapse(s[1..])
    else [s[0]] + Collapse(s[1..])
  }

  predicate Collapsed(s: string) {
    forall i :: 0 <= i < |s| - 1 ==> s[i] != '*' || s[i + 1] != '*'
  }

  lemma {:induction false} CollapseCollapses(s: string)
    ensures Collapsed(Collapse(s)) && (Collapsed(s) ==> Collapse(s) == s)
    ensures (s == "" <==> Collapse(s) == "") && (s != "" ==> Collapse(s)[0] == s[0])
    ensures forall c :: c in Collapse(s) <==> c in s
  {
    if |s| >= 2 {
      CollapseCollapses(s[1..]);
      assert s == [s[0]] + s[1..];
    }
  }

  function ParseTargetId(s: string): Option<TargetId> {
    if !IsTargetText(s) then None
    else if s == "*" || s == "any" then Some(AllIds)
    else if '*' in s then Some(WildcardPattern(Collapse(s)))
    else Some(LiteralId(s))
  }

  function NamespaceText(ns: TargetNamespace): Option<string> {
    match ns
    case AllNamespaces => Some("any")
    case Local => None
    case LiteralNamespace(ns) => Some(ns)
  }

  function ParseNamespace(s: Option<string>): Option<TargetNamespace> {
    if s.None? then Some(Local)
    else if !IsTargetText(s.value) then None
    else if s.value == "*" || s.value == "any" then Some(AllNamespaces)
    else if s.value == "local" then Some(Local)
    else Some(LiteralNamespace(s.value))
  }

  function PrintTarget(target: NodeTarget): string {
    JoinPieces(TargetTypeText(target.ty), TargetIdText(target.id), NamespaceText(target.ns))
  }

  function ParseTarget(s: string): Option<NodeTarget> {
    match SplitPieces(s)
    case None => None
    case Some(p) =>
      match (ParseTargetType(p.ty), ParseTargetId(p.id), ParseNamespace(p.ns))
      case (Some(ty), Some(id), Some(ns)) => Some(NodeTarget(ty, id, ns))
      case _ => None
  }

  /** The ids the parser gives: among them a single star, from an id of several. */
  predicate ReadableId(id: TargetId) {
    match id
    case AllIds => true
    case WildcardPattern(pattern) => IsTargetText(pattern) && '*' in pattern && Collapsed(pattern)
    case LiteralId(id) => IsTargetText(id) && '*' !in id && id != "any"
  }

  predicate CanonicalNamespace(ns: TargetNamespace) {
    ns.LiteralNamespace? ==> IsTargetText(ns.ns) && ns.ns != "*" && ns.ns != "any" && ns.ns != "local"
  }

  predicate ReadableTarget(target: NodeTarget) {
    ReadableId(target.id) && CanonicalNamespace(target.ns)
  }

  predicate CanonicalTarget(target: NodeTarget) {
    ReadableTarget(target) && target.id != WildcardPattern("*")
  }

  /** A pattern of one star is read back as all ids. */
  function SettledTarget(target: NodeTarget): NodeTarget {
    if target.id == WildcardPattern("*") then target.(id := AllIds) else target
  }

  lemma {:induction false} TargetTypeRoundTrip(ty: TargetType)
    ensures ParseTargetType(TargetTypeText(ty)) == Some(ty) && '/' !in TargetTypeText(ty)
  {
    if ty.OneType? {
      TypeRoundTrip(ty.ty);
    }
  }

  lemma {:induction false} TargetIdReads(id: TargetId)
    requires ReadableId(id)
    ensures ParseTargetId(TargetIdText(id)) == Some(if id == WildcardPattern("*") then AllIds else id)
    ensures '@' !in TargetIdText(id)
  {
    assert "any"[0] == 'a' && "any"[1] == 'n' && "any"[2] == 'y';
    assert '*' in "*";
    if id.WildcardPattern? {
      CollapseCollapses(id.pattern);
    }
  }

  lemma {:induction false} NamespaceRoundTrip(ns: TargetNamespace)
    ensures ParseNamespace(NamespaceText(ns)) == Some(ns) <==> CanonicalNamespace(ns)
  {
  }

  lemma {:induction false} ParsedIdIsReadable(s: string)
    ensures ParseTargetId(s).Some? ==> ReadableId(ParseTargetId(s).value)
  {
    CollapseCollapses(s);
    forall i | 0 <= i < |Collapse(s)| ensures Collapse(s)[i] in s {
      assert Collapse(s)[i] in Collapse(s);
    }
  }

  /** What the parser returns is readable. */
  lemma {:induction false} ParsedTargetIsReadable(s: string)
    ensures ParseTarget(s).Some? ==> ReadableTarget(ParseTarget(s).value)
  {
    hide ReadableId, ParseTargetId, ParseTargetType;
    match SplitPieces(s)
    case None =>
    case Some(p) => ParsedIdIsReadable(p.id);
  }

  /** The text of a readable target gives the target back, a single star as all ids. */
  lemma {:induction false} TargetReads(target: NodeTarget)
    requires ReadableTarget(target)
    ensures ParseTarget(PrintTarget(target)) == Some(SettledTarget(target))
  {
    hide ParseTargetId, TargetIdText, ParseNamespace, NamespaceText, SplitPieces, JoinPieces, TargetTypeText, ParseTargetType;
    TargetTypeRoundTrip(target.ty);
    TargetIdReads(target.id);
    NamespaceRoundTrip(target.ns);
    SplitJoinPieces(TargetTypeText(target.ty), TargetIdText(target.id), NamespaceText(target.ns));
  }

  /** A node target reads back from its text exactly if it is canonical. */
  lemma {:induction false} TargetRoundTrip(target: NodeTarget)
    ensures ParseTarget(PrintTarget(target)) == Some(target) <==> CanonicalTarget(target)
  {
    hide ParseTarget, PrintTarget, ReadableTarget;
    ParsedTargetIsReadable(PrintTarget(target));
    if ReadableTarget(target) {
      TargetReads(target);
    }
  }

  /** Targets by their number: a list of one is not a list. */
  function TargetsFrom(targets: seq<NodeTarget>): NodeTargets {
    if |targets| == 0 then NoTargets
    else if |targets| == 1 then OneTarget(targets[0])
    else ManyTargets(targets)
  }

  function TargetList(targets: NodeTargets): seq<NodeTarget> {
    match targets
    case NoTargets => []
    case OneTarget(target) => [target]
    case ManyTargets(list) => list
  }

  predicate ReadableTargets(targets: NodeTargets) {
    && (forall i :: 0 <= i < |TargetList(targets)| ==> ReadableTarget(TargetList(targets)[i]))
    && (targets.ManyTargets? ==> |targets.targets| >= 2)
  }

  predicate CanonicalTargets(targets: NodeTargets) {
    && (forall i :: 0 <= i < |TargetList(targets)| ==> CanonicalTarget(TargetList(targets)[i]))
    && (targets.ManyTargets? ==> |targets.targets| >= 2)
  }

  // ---------- Matching ----------

  /** A star stands for any text, a question mark for any one character. */
  predicate WildcardMatches(pattern: string, s: string)
    decreases |pattern| + |s|
  {
    if pattern == "" then
      s == ""
    else if pattern[0] == '*' then
      WildcardMatches(pattern[1..], s) || (s != "" && WildcardMatches(pattern, s[1..]))
    else
      s != "" && (pattern[0] == '?' || pattern[0] == s[0]) && WildcardMatches(pattern[1..], s[1..])
  }

  predicate TargetMatches(target: NodeTarget, key: NodeKey) {
    && (target.ty.OneType? ==> target.ty.ty == key.ty)
    && (match target.id
        case AllIds => true
        case WildcardPattern(pattern) => WildcardMatches(pattern, key.id)
        case LiteralId(id) => key.id == id)
    && (match target.ns
        case AllNamespaces => true
        case Local => key.ns == None || key.ns == Some("local")
        case LiteralNamespace(ns) => (ns == "local" && key.ns == None) || key.ns == Some(ns))
  }

  predicate TargetsMatch(targets: NodeTargets, key: NodeKey) {
    exists i :: 0 <= i < |TargetList(targets)| && TargetMatches(TargetList(targets)[i], key)
  }

  /** Of two stars one is enough. */
  lemma {:induction false} SecondStar(pattern: string, s: string)
    requires |pattern| >= 2 && pattern[0] == '*' && pattern[1] == '*'
    ensures WildcardMatches(pattern, s) <==> WildcardMatches(pattern[1..], s)
    decreases |s|
  {
    if s != "" {
      SecondStar(pattern, s[1..]);
    }
  }

  /** A collapsed pattern matches what the pattern matches. */
  lemma {:induction false} CollapseMatches(pattern: string, s: string)
    ensures WildcardMatches(Collapse(pattern), s) <==> WildcardMatches(pattern, s)
    decreases |pattern| + |s|
  {
    if |pattern| >= 2 {
      if pattern[0] == '*' && pattern[1] == '*' {
        CollapseMatches(pattern[1..], s);
        SecondStar(pattern, s);
      } else {
        var rest := Collapse(pattern[1..]);
        assert ([pattern[0]] + rest)[1..] == rest;
        CollapseMatches(pattern[1..], s);
        if s != "" {
          CollapseMatches(pattern[1..], s[1..]);
          CollapseMatches(pattern, s[1..]);
        }
      }
    }
  }

  lemma {:induction false} StarMatchesAll(s: string)
    ensures WildcardMatches("*", s)
  {
    if s == "" {
      assert WildcardMatches("", "");
    } else {
      StarMatchesAll(s[1..]);
    }
  }

  /** Reading a target back does not change what it matches. */
  lemma {:induction false} SettledTargetMatches(target: NodeTarget, key: NodeKey)
    ensures TargetMatches(SettledTarget(target), key) <==> TargetMatches(target, key)
  {
    StarMatchesAll(key.id);
  }
}
