/**
 The texts of filters.  A source says how a filter is written down: with spaces
 where they are allowed, bare event kinds, commas with or without a space or one
 too many at the end, and stars in targets.  Parsing the text of a source gives
 the filter it means.
 */
module FilterSource {
  import opened Wrappers
  import opened Text
  import opened Nodes
  import opened Filter
  import opened FilterText
  import opened FilterProofs

  // ---------- Sources ----------

  datatype TypeSource = AnyType(star: bool) | NamedType(ty: NodeType)

  datatype IdSource = AnyId(star: bool) | PatternId(pattern: string) | PlainId(id: string)

  datatype SpaceSource = NoSpaceName | LocalName | AnyName(star: bool) | NamedSpace(ns: string)

  /** A node target and the whitespace around it. */
  datatype TargetSource = TargetSource(pre: string, ty: TypeSource, id: IdSource, ns: SpaceSource, post: string)

  /**
   A filter as it is written.  `pre` and `post` are the whitespace around it,
   `gap` that before an opening parenthesis, `open` and `shut` that inside the
   parentheses, and `last` that after a last comma.
   */
  datatype Source =
    | Alone(pre: string, filter: EventFilter, post: string)
    | Kind(pre: string, kind: EventKind, post: string)
    | Leaf(pre: string, gap: string, open: string, text: string, filter: EventFilter, shut: string, post: string)
    | Targets(pre: string, gap: string, open: string, targets: seq<TargetSource>, last: Option<string>, post: string)
    | Negation(pre: string, gap: string, inner: Source, post: string)
    | List(pre: string, gap: string, open: string, name: Name, items: seq<Source>, last: Option<string>, post: string)

  predicate Blank(s: string) {
    forall i :: 0 <= i < |s| ==> IsWhitespace(s[i])
  }

  function StarOr(star: bool): string {
    if star then "*" else "any"
  }

  function TypeWord(ty: TypeSource): string {
    match ty
    case AnyType(star) => StarOr(star)
    case NamedType(ty) => PrintType(ty)
  }

  function IdWord(id: IdSource): string {
    match id
    case AnyId(star) => StarOr(star)
    case PatternId(pattern) => pattern
    case PlainId(id) => id
  }

  function SpaceWord(ns: SpaceSource): Option<string> {
    match ns
    case NoSpaceName => None
    case LocalName => Some("local")
    case AnyName(star) => Some(StarOr(star))
    case NamedSpace(ns) => Some(ns)
  }

  function TargetWord(t: TargetSource): string {
    JoinPieces(TypeWord(t.ty), IdWord(t.id), SpaceWord(t.ns))
  }

  predicate TargetWritten(t: TargetSource) {
    && Blank(t.pre) && Blank(t.post)
    && (match t.id
        case AnyId(_) => true
        case PatternId(p) => IsTargetText(p) && '*' in p && p != "*"
        case PlainId(id) => IsTargetText(id) && '*' !in id && id != "any")
    && (t.ns.NamedSpace? ==> IsTargetText(t.ns.ns) && t.ns.ns != "*" && t.ns.ns != "any" && t.ns.ns != "local")
  }

  function TargetMeaning(t: TargetSource): NodeTarget {
    NodeTarget(
      match t.ty case AnyType(_) => AllTypes case NamedType(ty) => OneType(ty),
      match t.id case AnyId(_) => AllIds case PatternId(p) => WildcardPattern(Collapse(p)) case PlainId(id) => LiteralId(id),
      match t.ns case AnyName(_) => AllNamespaces case NamedSpace(ns) => LiteralNamespace(ns) case _ => Local)
  }

  /** The argument of a filter with one argument that is not a list. */
  predicate Spells(text: string, filter: EventFilter) {
    match filter
    case AgentIs(id) => text == id && IsId(id)
    case EnvIs(id) => text == id && IsId(id)
    case CannonIs(id) => text == id && IsId(id)
    case TransactionIs(transaction) => text == transaction && TextOk(transaction)
    case EventIs(kind) => text == KindText(kind)
    case NodeKeyIs(key) =>
      CanonicalKey(key) &&
      (text == PrintKey(key) || (key.ns == None && text == JoinPieces(PrintType(key.ty), key.id, Some("local"))))
    case _ => false
  }

  predicate Written(src: Source) {
    && Blank(src.pre) && Blank(src.post)
    && match src
       case Alone(_, filter, _) => StandsAlone(NameOf(filter))
       case Kind(_, _, _) => true
       case Leaf(_, gap, open, text, filter, shut, _) =>
         Blank(gap) && Blank(open) && Blank(shut) && Spells(text, filter) && (filter.TransactionIs? ==> shut == "")
       case Targets(_, gap, open, targets, last, _) =>
         && Blank(gap) && Blank(open) && (targets != [] ==> open == "") && LastWritten(last, |targets|)
         && forall i :: 0 <= i < |targets| ==> TargetWritten(targets[i])
       case Negation(_, gap, inner, _) => Blank(gap) && Written(inner) && After(inner) == ""
       case List(_, gap, open, name, items, last, _) =>
         && Blank(gap) && Blank(open) && (items != [] ==> open == "") && LastWritten(last, |items|)
         && (name.AnyOfName? || name.AllOfName? || name.OneOfName?)
         && forall i :: 0 <= i < |items| ==> Written(items[i])
  }

  /** A last comma needs an element before it. */
  predicate LastWritten(last: Option<string>, n: nat) {
    last.Some? ==> n > 0 && Blank(last.value)
  }

  function Meaning(src: Source): EventFilter
    decreases src, 1
  {
    match src
    case Alone(_, filter, _) => filter
    case Kind(_, kind, _) => EventIs(kind)
    case Leaf(_, _, _, _, filter, _, _) => filter
    case Targets(_, _, _, targets, _, _) => NodeTargetIs(TargetsFrom(TargetMeanings(targets)))
    case Negation(_, _, inner, _) => Not(Meaning(inner))
    case List(_, _, _, name, items, _, _) =>
      if name.AnyOfName? then AnyOf(Meanings(items))
      else if name.AllOfName? then AllOf(Meanings(items))
      else OneOf(Meanings(items))
  }

  function Meanings(items: seq<Source>): (r: seq<EventFilter>)
    ensures |r| == |items|
    decreases items, 0
  {
    if items == [] then [] else [Meaning(items[0])] + Meanings(items[1..])
  }

  function TargetMeanings(targets: seq<TargetSource>): (r: seq<NodeTarget>)
    ensures |r| == |targets|
  {
    if targets == [] then [] else [TargetMeaning(targets[0])] + TargetMeanings(targets[1..])
  }

  // ---------- Their texts ----------

  /** What stands before a parenthesis or at the end: a name or an event kind. */
  function Word(src: Source): string {
    match src
    case Alone(_, filter, post) => NameText(NameOf(filter)) + post
    case Kind(_, kind, post) => KindText(kind) + post
    case Leaf(_, gap, _, _, filter, _, _) => NameText(NameOf(filter)) + gap
    case Targets(_, gap, _, _, _, _) => NameText(NodeTargetIsName) + gap
    case Negation(_, gap, _, _) => NameText(NotName) + gap
    case List(_, gap, _, name, _, _, _) => NameText(name) + gap
  }

  predicate HasArguments(src: Source) {
    !src.Alone? && !src.Kind?
  }

  /** The whitespace after a closing parenthesis. */
  function After(src: Source): string {
    if HasArguments(src) then src.post else ""
  }

  function Render(src: Source): string
    decreases src, 3
  {
    src.pre + (Core(src) + After(src))
  }

  function Core(src: Source): string
    decreases src, 2
  {
    if HasArguments(src) then Word(src) + "(" + Inner(src) + ")" else Word(src)
  }

  function Inner(src: Source): string
    requires HasArguments(src)
    decreases src, 1
  {
    match src
    case Leaf(_, _, open, text, _, shut, _) => open + (text + shut)
    case Targets(_, _, open, targets, last, _) => if targets == [] then open else RenderTargets(targets, last)
    case Negation(_, _, inner, _) => Render(inner)
    case List(_, _, open, _, items, last, _) => if items == [] then open else RenderItems(items, last)
  }

  function RenderLast(last: Option<string>): string {
    match last
    case None => ""
    case Some(space) => "," + space
  }

  function RenderItems(items: seq<Source>, last: Option<string>): string
    decreases items, 0
  {
    if items == [] then ""
    else if |items| == 1 then Render(items[0]) + RenderLast(last)
    else Render(items[0]) + ("," + RenderItems(items[1..], last))
  }

  function RenderTarget(t: TargetSource): string {
    t.pre + (TargetWord(t) + t.post)
  }

  function RenderTargets(targets: seq<TargetSource>, last: Option<string>): string {
    if targets == [] then ""
    else if |targets| == 1 then RenderTarget(targets[0]) + RenderLast(last)
    else RenderTarget(targets[0]) + ("," + RenderTargets(targets[1..], last))
  }

  // ---------- Their tokens ----------

  function Space(s: string): seq<Token> {
    if s == "" then [] else [Whitespace]
  }

  function FullTokens(src: Source): seq<Token>
    decreases src, 3
  {
    Space(src.pre) + (CoreTokens(src) + Space(After(src)))
  }

  function CoreTokens(src: Source): (ts: seq<Token>)
    ensures ts != [] && ts[0] == Text(Word(src))
    decreases src, 2
  {
    if HasArguments(src) then [Text(Word(src)), OpenParen] + InnerTokens(src) + [CloseParen] else [Text(Word(src))]
  }

  function InnerTokens(src: Source): seq<Token>
    requires HasArguments(src)
    decreases src, 1
  {
    match src
    case Leaf(_, _, open, text, _, shut, _) => Space(open) + [Text(text + shut)]
    case Targets(_, _, open, targets, last, _) => if targets == [] then Space(open) else TargetsTokens(targets, last)
    case Negation(_, _, inner, _) => FullTokens(inner)
    case List(_, _, open, _, items, last, _) => if items == [] then Space(open) else ItemsTokens(items, last)
  }

  function LastTokens(last: Option<string>): seq<Token> {
    match last
    case None => []
    case Some(space) => [Comma] + Space(space)
  }

  function ItemsTokens(items: seq<Source>, last: Option<string>): seq<Token>
    decreases items, 0
  {
    if items == [] then []
    else if |items| == 1 then FullTokens(items[0]) + LastTokens(last)
    else FullTokens(items[0]) + ([Comma] + ItemsTokens(items[1..], last))
  }

  function TargetTokensOf(t: TargetSource): seq<Token> {
    Space(t.pre) + [Text(TargetWord(t) + t.post)]
  }

  function TargetsTokens(targets: seq<TargetSource>, last: Option<string>): seq<Token> {
    if targets == [] then []
    else if |targets| == 1 then TargetTokensOf(targets[0]) + LastTokens(last)
    else TargetTokensOf(targets[0]) + ([Comma] + TargetsTokens(targets[1..], last))
  }

  // ---------- Words ----------

  lemma {:induction false} TrimBlank(s: string, post: string)
    requires PlainText(s) && Blank(post)
    ensures Trim(s + post) == s && TextOk(s + post)
    decreases |post|
  {
    if post == "" {
      assert s + post == s;
    } else {
      var front := post[..|post| - 1];
      TrimBlank(s, front);
      assert (s + post)[..|s + post| - 1] == s + front;
      assert (s + post)[0] == s[0] && (s + front)[0] == s[0];
      BlankIsNoDelimiter(post);
    }
  }

  lemma {:induction false} BlankIsNoDelimiter(s: string)
    requires Blank(s)
    ensures forall i :: 0 <= i < |s| ==> !IsDelimiter(s[i])
  {
  }

  lemma {:induction false} WordIsText(src: Source)
    requires Written(src)
    ensures TextOk(Word(src))
    ensures !src.Kind? ==> Trim(Word(src)) == NameText(SourceName(src))
    ensures src.Kind? ==> Trim(Word(src)) == KindText(src.kind)
  {
    hide NameText, KindText, Trim;
    if src.Kind? {
      KindIsPlain(src.kind);
      TrimBlank(KindText(src.kind), src.post);
    } else {
      NameIsPlain(SourceName(src));
      TrimBlank(NameText(SourceName(src)), if src.Alone? then src.post else src.gap);
    }
  }

  function SourceName(src: Source): Name
    requires !src.Kind?
  {
    match src
    case Alone(_, filter, _) => NameOf(filter)
    case Leaf(_, _, _, _, filter, _, _) => NameOf(filter)
    case Targets(_, _, _, _, _, _) => NodeTargetIsName
    case Negation(_, _, _, _) => NotName
    case List(_, _, _, name, _, _, _) => name
  }

  lemma {:induction false} StarOrPlain(star: bool)
    ensures forall i :: 0 <= i < |StarOr(star)| ==> IsPlainChar(StarOr(star)[i])
    ensures StarOr(star) != "" && '@' !in StarOr(star) && '/' !in StarOr(star)
  {
  }

  lemma {:induction false} TargetWordIsPlain(t: TargetSource)
    requires TargetWritten(t)
    ensures PlainText(TargetWord(t))
  {
    StarOrPlain(true);
    StarOrPlain(false);
    if t.ty.NamedType? {
      TypeIsPlain(t.ty.ty);
    }
    assert forall i :: 0 <= i < |"local"| ==> IsPlainChar("local"[i]);
    PiecesArePlain(TypeWord(t.ty), IdWord(t.id), SpaceWord(t.ns));
  }

  /** The word of a target is read as what it means. */
  lemma {:induction false} TargetWordParses(t: TargetSource)
    requires TargetWritten(t)
    ensures ParseTarget(TargetWord(t)) == Some(TargetMeaning(t))
  {
    hide ParseTargetId, ParseTargetType, ParseNamespace, SplitPieces, JoinPieces, TargetWritten;
    TypeWordParses(t.ty);
    IdWordParses(t);
    SpaceWordParses(t);
    SplitJoinPieces(TypeWord(t.ty), IdWord(t.id), SpaceWord(t.ns));
  }

  lemma {:induction false} TypeWordParses(ty: TypeSource)
    ensures ParseTargetType(TypeWord(ty)) == Some(match ty case AnyType(_) => AllTypes case NamedType(t) => OneType(t))
    ensures '/' !in TypeWord(ty)
  {
    match ty
    case AnyType(star) => StarOrPlain(star);
    case NamedType(t) => TypeRoundTrip(t);
  }

  lemma {:induction false} AnyIsTargetText(star: bool)
    ensures IsTargetText(StarOr(star))
  {
  }

  lemma {:induction false} IdWordParses(t: TargetSource)
    requires TargetWritten(t)
    ensures ParseTargetId(IdWord(t.id)) == Some(TargetMeaning(t).id) && '@' !in IdWord(t.id)
  {
    AnyIsTargetText(true);
    AnyIsTargetText(false);
    StarOrPlain(true);
    StarOrPlain(false);
    assert '*' in "*";
  }

  lemma {:induction false} SpaceWordParses(t: TargetSource)
    requires TargetWritten(t)
    ensures ParseNamespace(SpaceWord(t.ns)) == Some(TargetMeaning(t).ns)
  {
    AnyIsTargetText(true);
    AnyIsTargetText(false);
    assert IsTargetText("local") && "local" != "*" && "local" != "any" by {
      assert |"local"| == 5 && |"any"| == 3;
    }
  }

  // ---------- Lexing ----------

  lemma {:induction false} BlankRun(s: string, rest: string)
    requires Blank(s) && (rest != "" ==> !IsWhitespace(rest[0]))
    ensures WhitespaceRun(s + rest) == |s|
  {
    if s == "" {
      assert s + rest == rest;
    } else {
      assert (s + rest)[1..] == s[1..] + rest;
      BlankRun(s[1..], rest);
    }
  }

  lemma {:induction false} LexBlank(s: string, rest: string)
    requires Blank(s) && (rest != "" ==> !IsWhitespace(rest[0]))
    ensures Lex(s + rest) == Space(s) + Lex(rest)
  {
    if s == "" {
      assert s + rest == rest;
    } else {
      BlankRun(s, rest);
      assert (s + rest)[|s|..] == rest;
      assert IsWhitespace((s + rest)[0]) && !IsDelimiter((s + rest)[0]);
    }
  }

  /** Whitespace, something that starts a text, and whitespace. */
  lemma {:induction false} LexFramed(pre: string, core: string, coreTokens: seq<Token>, post: string, rest: string)
    requires Blank(pre) && Blank(post) && Boundary(rest) && core != "" && !IsWhitespace(core[0])
    requires Lex(core + (post + rest)) == coreTokens + Lex(post + rest)
    ensures Lex((pre + (core + post)) + rest) == (Space(pre) + (coreTokens + Space(post))) + Lex(rest)
  {
    hide Lex;
    LexBlank(post, rest);
    LexBlank(pre, core + (post + rest));
    assert (pre + (core + post)) + rest == pre + (core + (post + rest));
    assert (Space(pre) + (coreTokens + Space(post))) + Lex(rest) == Space(pre) + (coreTokens + (Space(post) + Lex(rest)));
  }

  lemma {:induction false} CoreStart(src: Source)
    requires Written(src)
    ensures Core(src) != "" && !IsWhitespace(Core(src)[0])
  {
    WordIsText(src);
  }

  lemma {:induction false} LexSource(src: Source, rest: string)
    requires Written(src) && Boundary(rest)
    ensures Lex(Render(src) + rest) == FullTokens(src) + Lex(rest)
    decreases src, 3
  {
    hide Lex, Core, CoreTokens;
    CoreStart(src);
    if After(src) == "" {
      LexCore(src, rest);
      assert After(src) + rest == rest;
    } else {
      LexCoreBlank(src, rest);
    }
    LexFramed(src.pre, Core(src), CoreTokens(src), After(src), rest);
  }

  /** A filter with arguments, whatever follows. */
  lemma {:induction false} LexCoreBlank(src: Source, rest: string)
    requires Written(src) && HasArguments(src)
    ensures Lex(Core(src) + (After(src) + rest)) == CoreTokens(src) + Lex(After(src) + rest)
    decreases src, 2
  {
    hide Lex, Inner, InnerTokens, Word;
    WordIsText(src);
    var tail := After(src) + rest;
    LexInner(src, [')'] + tail);
    LexCall(Word(src), Inner(src), InnerTokens(src), tail);
  }

  lemma {:induction false} LexCore(src: Source, rest: string)
    requires Written(src) && Boundary(rest)
    ensures Lex(Core(src) + rest) == CoreTokens(src) + Lex(rest)
    decreases src, 2
  {
    hide Lex, Inner, InnerTokens, Word;
    WordIsText(src);
    if HasArguments(src) {
      LexInner(src, [')'] + rest);
      LexCall(Word(src), Inner(src), InnerTokens(src), rest);
    } else {
      LexText(Word(src), rest);
    }
  }

  lemma {:induction false} LexInner(src: Source, rest: string)
    requires Written(src) && HasArguments(src) && rest != "" && IsDelimiter(rest[0])
    ensures Lex(Inner(src) + rest) == InnerTokens(src) + Lex(rest)
    decreases src, 1
  {
    hide Lex;
    match src {
      case Leaf(_, _, open, text, filter, shut, _) =>
        LeafIsText(text, filter, shut);
        LexText(text + shut, rest);
        LexBlank(open, (text + shut) + rest);
        assert (open + (text + shut)) + rest == open + ((text + shut) + rest);
        assert (Space(open) + [Text(text + shut)]) + Lex(rest) == Space(open) + ([Text(text + shut)] + Lex(rest));
      case Targets(_, _, open, targets, last, _) =>
        if targets == [] {
          LexBlank(open, rest);
        } else {
          LexTargetSources(targets, last, rest);
        }
      case Negation(_, _, inner, _) => LexSource(inner, rest);
      case List(_, _, open, _, items, last, _) =>
        if items == [] {
          LexBlank(open, rest);
        } else {
          LexItems(items, last, rest);
        }
    }
  }

  lemma {:induction false} LeafIsText(text: string, filter: EventFilter, shut: string)
    requires Spells(text, filter) && Blank(shut) && (filter.TransactionIs? ==> shut == "")
    ensures TextOk(text + shut) && (!filter.TransactionIs? ==> Trim(text + shut) == text)
  {
    hide Trim, KindText, PrintKey;
    match filter {
      case EventIs(kind) => KindIsPlain(kind);
      case NodeKeyIs(key) =>
        KeyIsPlain(key);
        TypeIsPlain(key.ty);
        assert forall i :: 0 <= i < |"local"| ==> IsPlainChar("local"[i]);
        PiecesArePlain(PrintType(key.ty), key.id, Some("local"));
        assert PlainText(text);
      case TransactionIs(_) => assert text + shut == text;
      case _ => IdIsPlain(text);
    }
    if !filter.TransactionIs? {
      TrimBlank(text, shut);
    }
  }

  lemma {:induction false} LexLast(last: Option<string>, rest: string)
    requires (last.Some? ==> Blank(last.value)) && rest != "" && IsDelimiter(rest[0])
    ensures Lex(RenderLast(last) + rest) == LastTokens(last) + Lex(rest) && Boundary(RenderLast(last) + rest)
  {
    hide Lex;
    if last.Some? {
      LexBlank(last.value, rest);
      LexDelimiter(',', last.value + rest);
      assert ("," + last.value) + rest == [','] + (last.value + rest);
      assert ([Comma] + Space(last.value)) + Lex(rest) == [Comma] + (Space(last.value) + Lex(rest));
    } else {
      assert "" + rest == rest;
    }
  }

  /** One element and what comes after it. */
  lemma {:induction false} LexThen(first: string, firstTokens: seq<Token>, more: string, moreTokens: seq<Token>, rest: string)
    requires Lex(first + (more + rest)) == firstTokens + Lex(more + rest)
    requires Lex(more + rest) == moreTokens + Lex(rest)
    ensures Lex((first + more) + rest) == (firstTokens + moreTokens) + Lex(rest)
  {
    hide Lex;
    assert (first + more) + rest == first + (more + rest);
    assert (firstTokens + moreTokens) + Lex(rest) == firstTokens + (moreTokens + Lex(rest));
  }

  lemma {:induction false} LexItems(items: seq<Source>, last: Option<string>, rest: string)
    requires (forall i :: 0 <= i < |items| ==> Written(items[i])) && items != []
    requires (last.Some? ==> Blank(last.value)) && rest != "" && IsDelimiter(rest[0])
    ensures Lex(RenderItems(items, last) + rest) == ItemsTokens(items, last) + Lex(rest)
    decreases items, 0
  {
    hide Lex, Render, FullTokens;
    if |items| == 1 {
      LexLast(last, rest);
      LexSource(items[0], RenderLast(last) + rest);
      LexThen(Render(items[0]), FullTokens(items[0]), RenderLast(last), LastTokens(last), rest);
    } else {
      var others := RenderItems(items[1..], last);
      LexItems(items[1..], last, rest);
      LexDelimiter(',', others + rest);
      assert ("," + others) + rest == [','] + (others + rest);
      LexSource(items[0], ("," + others) + rest);
      assert ([Comma] + ItemsTokens(items[1..], last)) + Lex(rest) == [Comma] + (ItemsTokens(items[1..], last) + Lex(rest));
      LexThen(Render(items[0]), FullTokens(items[0]), "," + others, [Comma] + ItemsTokens(items[1..], last), rest);
    }
  }

  lemma {:induction false} LexTargetSource(t: TargetSource, rest: string)
    requires TargetWritten(t) && Boundary(rest)
    ensures Lex(RenderTarget(t) + rest) == TargetTokensOf(t) + Lex(rest)
  {
    hide Lex, TargetWord;
    TargetWordIsPlain(t);
    TrimBlank(TargetWord(t), t.post);
    var text := TargetWord(t) + t.post;
    LexText(text, rest);
    LexBlank(t.pre, text + rest);
    assert (t.pre + text) + rest == t.pre + (text + rest);
    assert (Space(t.pre) + [Text(text)]) + Lex(rest) == Space(t.pre) + ([Text(text)] + Lex(rest));
  }

  lemma {:induction false} LexTargetSources(targets: seq<TargetSource>, last: Option<string>, rest: string)
    requires (forall i :: 0 <= i < |targets| ==> TargetWritten(targets[i])) && targets != []
    requires (last.Some? ==> Blank(last.value)) && rest != "" && IsDelimiter(rest[0])
    ensures Lex(RenderTargets(targets, last) + rest) == TargetsTokens(targets, last) + Lex(rest)
    decreases |targets|
  {
    hide Lex, RenderTarget, TargetTokensOf, TargetWritten;
    if |targets| == 1 {
      LexLast(last, rest);
      LexTargetSource(targets[0], RenderLast(last) + rest);
      LexThen(RenderTarget(targets[0]), TargetTokensOf(targets[0]), RenderLast(last), LastTokens(last), rest);
    } else {
      var others := RenderTargets(targets[1..], last);
      LexTargetSources(targets[1..], last, rest);
      LexDelimiter(',', others + rest);
      assert ("," + others) + rest == [','] + (others + rest);
      LexTargetSource(targets[0], ("," + others) + rest);
      assert ([Comma] + TargetsTokens(targets[1..], last)) + Lex(rest) == [Comma] + (TargetsTokens(targets[1..], last) + Lex(rest));
      LexThen(RenderTarget(targets[0]), TargetTokensOf(targets[0]), "," + others, [Comma] + TargetsTokens(targets[1..], last), rest);
    }
  }

  // ---------- Parsing ----------

  lemma {:induction false} TrimSpace(s: string, ts: seq<Token>)
    requires ts != [] ==> ts[0] != Whitespace
    ensures TrimTokens(Space(s) + ts) == ts
  {
    if s == "" {
      assert Space(s) + ts == ts;
    } else {
      assert (Space(s) + ts)[1..] == ts;
    }
  }

  lemma {:induction false} ParseTrims(ts: seq<Token>)
    ensures ParseFilter(TrimTokens(ts)) == ParseFilter(ts) && TrimTokens(TrimTokens(ts)) == TrimTokens(ts)
  {
    TrimTwice(ts);
  }

  lemma {:induction false} TrimTwice(ts: seq<Token>)
    ensures TrimTokens(TrimTokens(ts)) == TrimTokens(ts)
  {
    if ts != [] {
      TrimTwice(ts[1..]);
    }
  }

  lemma {:induction false} CallTokens(word: string, inner: seq<Token>, rest: seq<Token>)
    ensures ([Text(word), OpenParen] + inner + [CloseParen]) + rest == [Text(word)] + ([OpenParen] + (inner + ([CloseParen] + rest)))
  {
  }

  lemma {:induction false} AfterFirst(token: Token, rest: seq<Token>)
    ensures ([token] + rest)[1..] == rest
  {
  }

  /** A word that names a filter, and its arguments. */
  lemma {:induction false} CallParses(name: Name, word: string, inner: seq<Token>, value: EventFilter, rest: seq<Token>)
    requires Trim(word) == NameText(name) && !StandsAlone(name)
    requires ParseArguments(name, TrimTokens(inner + ([CloseParen] + rest))) == Ok(Parsed(value, [CloseParen] + rest))
    ensures ParseFilter(([Text(word), OpenParen] + inner + [CloseParen]) + rest) == Ok(Parsed(value, rest))
  {
    hide Trim, ParseName, ParseArguments, NameText, StandsAlone;
    NameRoundTrip(name);
    var args := inner + ([CloseParen] + rest);
    CallTokens(word, inner, rest);
    AfterFirst(Text(word), [OpenParen] + args);
    AfterFirst(OpenParen, args);
    AfterFirst(CloseParen, rest);
  }

  lemma {:induction false} AgentKindIsNoName(kind: EventKind)
    requires IsAgentKind(kind)
    ensures ParseName(KindText(kind)) == None
  {
  }

  lemma {:induction false} FailedKindIsNoName(kind: EventKind)
    requires kind.TransactionExecuteAborted? || kind.TransactionExecuteExceeded? || kind.TransactionExecuteFailed?
    ensures ParseName(KindText(kind)) == None
  {
  }

  lemma {:induction false} ActiveKindIsNoName(kind: EventKind)
    requires kind.TransactionExecuteAwaitingCompute? || kind.TransactionExecuting? || kind.TransactionExecuteComplete?
    ensures ParseName(KindText(kind)) == None
  {
  }

  lemma {:induction false} OtherKindIsNoName(kind: EventKind)
    requires !IsAgentKind(kind) && !IsExecuteKind(kind)
    ensures ParseName(KindText(kind)) == None
  {
  }

  /** No event kind has the name of a filter. */
  lemma {:induction false} KindIsNoName(kind: EventKind)
    ensures ParseName(KindText(kind)) == None
  {
    hide ParseName, KindText;
    if IsAgentKind(kind) {
      AgentKindIsNoName(kind);
    } else if !IsExecuteKind(kind) {
      OtherKindIsNoName(kind);
    } else if kind.TransactionExecuteAborted? || kind.TransactionExecuteExceeded? || kind.TransactionExecuteFailed? {
      FailedKindIsNoName(kind);
    } else {
      ActiveKindIsNoName(kind);
    }
  }

  lemma {:induction false} WordParses(src: Source, rest: seq<Token>)
    requires Written(src) && !HasArguments(src)
    ensures ParseFilter([Text(Word(src))] + rest) == Ok(Parsed(Meaning(src), rest))
  {
    hide Trim, ParseName, ParseKind, NameText, KindText, Word;
    WordIsText(src);
    var ts := [Text(Word(src))] + rest;
    assert ts[1..] == rest && TrimTokens(ts) == ts;
    if src.Kind? {
      KindIsNoName(src.kind);
      KindRoundTrip(src.kind);
    } else {
      NameRoundTrip(NameOf(src.filter));
      AloneIs(src.filter);
    }
  }

  lemma {:induction false} AloneIs(filter: EventFilter)
    requires StandsAlone(NameOf(filter))
    ensures FilterText.Alone(NameOf(filter)) == filter
  {
  }

  lemma {:induction false} ParseCore(src: Source, rest: seq<Token>)
    requires Written(src)
    ensures ParseFilter(CoreTokens(src) + rest) == Ok(Parsed(Meaning(src), rest))
    decreases src, 2
  {
    hide ParseFilter, Trim, Word, InnerTokens, ParseArguments, NameText, KindText;
    WordIsText(src);
    if HasArguments(src) {
      ParseInner(src, rest);
      CallParses(SourceName(src), Word(src), InnerTokens(src), Meaning(src), rest);
    } else {
      WordParses(src, rest);
    }
  }

  lemma {:induction false} ParseInner(src: Source, rest: seq<Token>)
    requires Written(src) && HasArguments(src)
    ensures !StandsAlone(SourceName(src))
    ensures
      ParseArguments(SourceName(src), TrimTokens(InnerTokens(src) + ([CloseParen] + rest)))
      == Ok(Parsed(Meaning(src), [CloseParen] + rest))
    decreases src, 1
  {
    hide TrimTokens, ParseArguments, InnerTokens, Meaning, StandsAlone;
    match src {
      case Leaf(_, _, _, _, _, _, _) => ParseLeafInner(src, rest);
      case Targets(_, _, _, _, _, _) => ParseTargetsInner(src, rest);
      case Negation(_, _, inner, _) =>
        var tail := [CloseParen] + rest;
        ParseCore(inner, tail);
        NegationInner(src, tail);
      case List(_, _, open, _, items, last, _) =>
        if items != [] {
          ParseItems(items, last, rest);
        }
        ListInner(src, rest);
    }
  }

  lemma {:induction false} ParseLeafInner(src: Source, rest: seq<Token>)
    requires Written(src) && src.Leaf?
    ensures !StandsAlone(SourceName(src))
    ensures
      ParseArguments(SourceName(src), TrimTokens(InnerTokens(src) + ([CloseParen] + rest)))
      == Ok(Parsed(Meaning(src), [CloseParen] + rest))
  {
    hide ParseLeaf, TrimTokens;
    var tail, text := [CloseParen] + rest, src.text + src.shut;
    assert (Space(src.open) + [Text(text)]) + tail == Space(src.open) + ([Text(text)] + tail);
    TrimSpace(src.open, [Text(text)] + tail);
    ParseLeafText(src.text, src.filter, src.shut, tail);
  }

  lemma {:induction false} ParseTargetsInner(src: Source, rest: seq<Token>)
    requires Written(src) && src.Targets?
    ensures !StandsAlone(SourceName(src))
    ensures
      ParseArguments(SourceName(src), TrimTokens(InnerTokens(src) + ([CloseParen] + rest)))
      == Ok(Parsed(Meaning(src), [CloseParen] + rest))
  {
    hide ParseTargetList, TrimTokens, TargetsTokens, TargetWritten;
    var tail := [CloseParen] + rest;
    TrimTwice(InnerTokens(src) + tail);
    if src.targets == [] {
      TrimSpace(src.open, tail);
      EmptyTargets(rest);
    } else {
      ParseTargetSources(src.targets, src.last, rest);
    }
  }

  lemma {:induction false} NegationInner(src: Source, tail: seq<Token>)
    requires Written(src) && src.Negation? && ParseFilter(CoreTokens(src.inner) + tail) == Ok(Parsed(Meaning(src.inner), tail))
    ensures !StandsAlone(SourceName(src))
    ensures ParseArguments(SourceName(src), TrimTokens(InnerTokens(src) + tail)) == Ok(Parsed(Meaning(src), tail))
  {
    hide ParseFilter, CoreTokens, TrimTokens;
    var inner := src.inner;
    assert FullTokens(inner) + tail == Space(inner.pre) + (CoreTokens(inner) + tail);
    TrimSpace(inner.pre, CoreTokens(inner) + tail);
  }

  lemma {:induction false} ListInner(src: Source, rest: seq<Token>)
    requires Written(src) && src.List?
    requires src.items != [] ==>
      ParseList(TrimTokens(ItemsTokens(src.items, src.last) + ([CloseParen] + rest)))
      == Ok(Parsed(Meanings(src.items), [CloseParen] + rest))
    ensures !StandsAlone(SourceName(src))
    ensures
      ParseArguments(SourceName(src), TrimTokens(InnerTokens(src) + ([CloseParen] + rest)))
      == Ok(Parsed(Meaning(src), [CloseParen] + rest))
  {
    hide ParseList, ItemsTokens, TrimTokens, Meanings;
    var tail := [CloseParen] + rest;
    TrimTwice(InnerTokens(src) + tail);
    if src.items == [] {
      TrimSpace(src.open, tail);
      EmptyItems(rest);
      assert Meanings(src.items) == [];
    }
  }

  lemma {:induction false} EmptyItems(rest: seq<Token>)
    ensures ParseList([CloseParen] + rest) == Ok(Parsed([], [CloseParen] + rest))
  {
  }

  lemma {:induction false} EmptyTargets(rest: seq<Token>)
    ensures ParseTargetList([CloseParen] + rest) == Ok(Parsed([], [CloseParen] + rest))
  {
  }

  lemma {:induction false} ParseLeafText(text: string, filter: EventFilter, shut: string, rest: seq<Token>)
    requires Spells(text, filter) && Blank(shut) && (filter.TransactionIs? ==> shut == "")
    ensures ParseLeaf(NameOf(filter), [Text(text + shut)] + rest) == Ok(Parsed(filter, rest))
  {
    hide Trim, ParseKind, KindText, ParseKey, PrintKey, IsId, ExpectParsed;
    LeafIsText(text, filter, shut);
    match filter {
      case EventIs(kind) =>
        KindRoundTrip(kind);
        ExpectParsedWord(text, shut, rest, EventKindLabel, ParseKind);
      case NodeKeyIs(key) =>
        KeyWordParses(text, key);
        ExpectParsedWord(text, shut, rest, NodeKeyLabel, ParseKey);
      case AgentIs(id) => ExpectParsedWord(text, shut, rest, AgentIdLabel, ParseId);
      case EnvIs(id) => ExpectParsedWord(text, shut, rest, EnvIdLabel, ParseId);
      case CannonIs(id) => ExpectParsedWord(text, shut, rest, CannonIdLabel, ParseId);
      case TransactionIs(transaction) =>
        assert text + shut == text;
        assert ([Text(text)] + rest)[1..] == rest;
    }
  }

  lemma {:induction false} ExpectParsedWord<T>(text: string, shut: string, rest: seq<Token>, what: Parsable, parse: string -> Option<T>)
    requires Trim(text + shut) == text && parse(text).Some?
    ensures ExpectParsed([Text(text + shut)] + rest, what, parse) == Ok(Parsed(parse(text).value, rest))
  {
    hide Trim;
    assert ([Text(text + shut)] + rest)[1..] == rest;
  }

  /** A node key may name the local namespace. */
  lemma {:induction false} KeyWordParses(text: string, key: NodeKey)
    requires Spells(text, NodeKeyIs(key))
    ensures ParseKey(text) == Some(key)
  {
    KeyRoundTrip(key);
    if text != PrintKey(key) {
      TypeRoundTrip(key.ty);
      assert IsKeyText("local") && |"local"| == 5;
      SplitJoinPieces(PrintType(key.ty), key.id, Some("local"));
    }
  }

  lemma {:induction false} AfterComma(post: string, more: seq<Token>)
    ensures AfterElement(Space(post) + ([Comma] + more)) == Ok(More(TrimTokens(more)))
  {
    TrimSpace(post, [Comma] + more);
    assert ([Comma] + more)[1..] == more;
  }

  lemma {:induction false} AfterLast(post: string, last: Option<string>, rest: seq<Token>)
    ensures AfterElement(Space(post) + (LastTokens(last) + ([CloseParen] + rest)))
      == Ok(if last.None? then Done([CloseParen] + rest) else More([CloseParen] + rest))
  {
    var tail := [CloseParen] + rest;
    match last
    case None =>
      assert LastTokens(last) + tail == tail;
      TrimSpace(post, tail);
    case Some(space) =>
      assert LastTokens(last) + tail == [Comma] + (Space(space) + tail);
      AfterComma(post, Space(space) + tail);
      TrimSpace(space, tail);
  }

  /** The first element is read and the list goes on or ends. */
  lemma {:induction false} ListStep(ts: seq<Token>, first: Parsed<EventFilter>, following: Following)
    requires ts != [] && ts[0].Text? && ParseFilter(ts) == Ok(first) && AfterElement(first.rest) == Ok(following)
    ensures following.Done? ==> ParseList(ts) == Ok(Parsed([first.value], following.rest))
    ensures following.More? && ParseList(following.rest).Ok? ==>
      ParseList(ts) == Ok(Parsed([first.value] + ParseList(following.rest).value.value, ParseList(following.rest).value.rest))
  {
    hide ParseFilter, AfterElement;
  }

  lemma {:induction false} Regrouped(pre: seq<Token>, core: seq<Token>, after: seq<Token>, more: seq<Token>, tail: seq<Token>)
    ensures ((pre + (core + after)) + more) + tail == pre + (core + (after + (more + tail)))
  {
  }

  /** The space before an element is skipped. */
  lemma {:induction false} ElementShape(pre: string, core: seq<Token>, after: seq<Token>, more: seq<Token>, tail: seq<Token>)
    requires core != [] && core[0].Text?
    ensures TrimTokens(((Space(pre) + (core + after)) + more) + tail) == core + (after + (more + tail))
  {
    hide TrimTokens, Space;
    Regrouped(Space(pre), core, after, more, tail);
    TrimSpace(pre, core + (after + (more + tail)));
  }

  lemma {:induction false} CommaFirst(others: seq<Token>, tail: seq<Token>)
    ensures ([Comma] + others) + tail == [Comma] + (others + tail)
  {
  }

  /** What follows the first element of a list. */
  function MoreItems(items: seq<Source>, last: Option<string>, tail: seq<Token>): seq<Token>
    requires items != []
  {
    if |items| == 1 then LastTokens(last) + tail else [Comma] + (ItemsTokens(items[1..], last) + tail)
  }

  lemma {:induction false} ItemsShape(items: seq<Source>, last: Option<string>, tail: seq<Token>)
    requires items != []
    ensures TrimTokens(ItemsTokens(items, last) + tail)
      == CoreTokens(items[0]) + (Space(After(items[0])) + MoreItems(items, last, tail))
  {
    hide CoreTokens, LastTokens, Space, After, TrimTokens, Word;
    var src := items[0];
    if |items| == 1 {
      ElementShape(src.pre, CoreTokens(src), Space(After(src)), LastTokens(last), tail);
    } else {
      var others := ItemsTokens(items[1..], last);
      CommaFirst(others, tail);
      ElementShape(src.pre, CoreTokens(src), Space(After(src)), [Comma] + others, tail);
    }
  }

  lemma {:induction false} LastItem(src: Source, last: Option<string>, rest: seq<Token>, ts: seq<Token>)
    requires ts != [] && ts[0].Text?
    requires ParseFilter(ts) == Ok(Parsed(Meaning(src), Space(After(src)) + (LastTokens(last) + ([CloseParen] + rest))))
    ensures ParseList(ts) == Ok(Parsed(Meanings([src]), [CloseParen] + rest))
  {
    hide ParseList, ParseFilter, AfterElement, LastTokens, Space, After, Meaning;
    var tail := [CloseParen] + rest;
    AfterLast(After(src), last, rest);
    EmptyItems(rest);
    ListStep(ts, Parsed(Meaning(src), Space(After(src)) + (LastTokens(last) + tail)), if last.None? then Done(tail) else More(tail));
    assert Meanings([src]) == [Meaning(src)];
    assert [Meaning(src)] + [] == [Meaning(src)];
  }

  lemma {:induction false} ParseItems(items: seq<Source>, last: Option<string>, rest: seq<Token>)
    requires items != [] && forall i :: 0 <= i < |items| ==> Written(items[i])
    ensures
      ParseList(TrimTokens(ItemsTokens(items, last) + ([CloseParen] + rest)))
      == Ok(Parsed(Meanings(items), [CloseParen] + rest))
    decreases items, 0
  {
    hide ParseList, ParseFilter, AfterElement, CoreTokens, TrimTokens, Meaning, Written, ItemsTokens, LastTokens, Space, After;
    var tail, src := [CloseParen] + rest, items[0];
    var more := Space(After(src)) + MoreItems(items, last, tail);
    var ts := CoreTokens(src) + more;
    ItemsShape(items, last, tail);
    ParseCore(src, more);
    if |items| == 1 {
      assert items == [src];
      LastItem(src, last, rest, ts);
    } else {
      var others := ItemsTokens(items[1..], last) + tail;
      AfterComma(After(src), others);
      ParseItems(items[1..], last, rest);
      ListStep(ts, Parsed(Meaning(src), more), More(TrimTokens(others)));
    }
  }

  lemma {:induction false} TargetStep(text: string, post: string, target: NodeTarget, more: seq<Token>, following: Following)
    requires Trim(text + post) == text && ParseTarget(text) == Some(target) && AfterElement(more) == Ok(following)
    ensures following.Done? ==> ParseTargetList([Text(text + post)] + more) == Ok(Parsed([target], following.rest))
    ensures following.More? && ParseTargetList(following.rest).Ok? ==>
      ParseTargetList([Text(text + post)] + more)
      == Ok(Parsed([target] + ParseTargetList(following.rest).value.value, ParseTargetList(following.rest).value.rest))
  {
    hide Trim, ParseTarget, ExpectParsed, AfterElement;
    ExpectParsedWord(text, post, more, NodeTargetLabel, ParseTarget);
  }

  /** What follows the first of the targets. */
  function MoreTargets(targets: seq<TargetSource>, last: Option<string>, tail: seq<Token>): seq<Token>
    requires targets != []
  {
    if |targets| == 1 then LastTokens(last) + tail else [Comma] + (TargetsTokens(targets[1..], last) + tail)
  }

  lemma {:induction false} TargetsShape(targets: seq<TargetSource>, last: Option<string>, tail: seq<Token>)
    requires targets != []
    ensures TrimTokens(TargetsTokens(targets, last) + tail)
      == [Text(TargetWord(targets[0]) + targets[0].post)] + MoreTargets(targets, last, tail)
  {
    hide LastTokens, Space, TrimTokens, TargetWord;
    var t := targets[0];
    var core := [Text(TargetWord(t) + t.post)];
    assert core + [] == core && [] + MoreTargets(targets, last, tail) == MoreTargets(targets, last, tail);
    if |targets| == 1 {
      ElementShape(t.pre, core, [], LastTokens(last), tail);
    } else {
      var others := TargetsTokens(targets[1..], last);
      CommaFirst(others, tail);
      ElementShape(t.pre, core, [], [Comma] + others, tail);
    }
  }

  lemma {:induction false} TargetReads(t: TargetSource)
    requires TargetWritten(t)
    ensures Trim(TargetWord(t) + t.post) == TargetWord(t) && ParseTarget(TargetWord(t)) == Some(TargetMeaning(t))
  {
    hide Trim, ParseTarget, TargetWord, TargetMeaning;
    TargetWordIsPlain(t);
    TrimBlank(TargetWord(t), t.post);
    TargetWordParses(t);
  }

  lemma {:induction false} LastTarget(t: TargetSource, last: Option<string>, rest: seq<Token>)
    requires TargetWritten(t)
    ensures ParseTargetList([Text(TargetWord(t) + t.post)] + (LastTokens(last) + ([CloseParen] + rest)))
      == Ok(Parsed(TargetMeanings([t]), [CloseParen] + rest))
  {
    hide ParseTargetList, AfterElement, LastTokens, TargetMeaning, TargetWritten, Trim, TargetWord, ParseTarget;
    var tail := [CloseParen] + rest;
    var more := LastTokens(last) + tail;
    TargetReads(t);
    AfterLast("", last, rest);
    assert Space("") + more == more;
    EmptyTargets(rest);
    TargetStep(TargetWord(t), t.post, TargetMeaning(t), more, if last.None? then Done(tail) else More(tail));
    assert TargetMeanings([t]) == [TargetMeaning(t)];
    assert [TargetMeaning(t)] + [] == [TargetMeaning(t)];
  }

  lemma {:induction false} ParseTargetSources(targets: seq<TargetSource>, last: Option<string>, rest: seq<Token>)
    requires targets != [] && forall i :: 0 <= i < |targets| ==> TargetWritten(targets[i])
    ensures
      ParseTargetList(TrimTokens(TargetsTokens(targets, last) + ([CloseParen] + rest)))
      == Ok(Parsed(TargetMeanings(targets), [CloseParen] + rest))
    decreases |targets|
  {
    hide ParseTargetList, AfterElement, TrimTokens, TargetMeaning, TargetWritten, TargetsTokens, LastTokens, Trim, TargetWord, ParseTarget;
    var tail, t := [CloseParen] + rest, targets[0];
    TargetsShape(targets, last, tail);
    if |targets| == 1 {
      assert targets == [t];
      LastTarget(t, last, rest);
    } else {
      var others := TargetsTokens(targets[1..], last) + tail;
      TargetReads(t);
      AfterComma("", others);
      assert Space("") + ([Comma] + others) == [Comma] + others;
      ParseTargetSources(targets[1..], last, rest);
      TargetStep(TargetWord(t), t.post, TargetMeaning(t), [Comma] + others, More(TrimTokens(others)));
    }
  }

  /** The text of a source is read as the filter it means. */
  lemma {:induction false} SourceParses(src: Source)
    requires Written(src)
    ensures Parse(Render(src)) == Ok(Meaning(src))
  {
    hide Lex, ParseFilter, CoreTokens, Meaning, Written;
    LexNothing();
    LexSource(src, "");
    assert Render(src) + "" == Render(src);
    var ts := CoreTokens(src) + Space(After(src));
    assert FullTokens(src) + [] == Space(src.pre) + ts;
    TrimSpace(src.pre, ts);
    ParseTrims(Space(src.pre) + ts);
    ParseCore(src, Space(After(src)));
    TrimSpace(After(src), []);
    assert Space(After(src)) + [] == Space(After(src));
  }

  /** A bare event kind is read as the filter for it. */
  lemma {:induction false} BareKindParses(kind: EventKind)
    ensures Parse(KindText(kind)) == Ok(EventIs(kind))
  {
    hide Parse, KindText;
    var src := Kind("", kind, "");
    SourceParses(src);
    assert Render(src) == KindText(kind);
  }
}
