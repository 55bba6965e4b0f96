/**
 The filter language reads back what it prints: a filter is the result of
 parsing its own text exactly if it is canonical.
 */
module FilterProofs {
  import opened Wrappers
  import opened Text
  import opened Nodes
  import opened Filter
  import opened FilterText

  // ---------- Canonical filters ----------

  /** What a text token can hold. */
  predicate TextOk(s: string) {
    s != "" && !IsWhitespace(s[0]) && forall i :: 0 <= i < |s| ==> !IsDelimiter(s[i])
  }

  /**
   The filters the parser gives: ids and keys match their patterns, target lists
   are readable, and a transaction id is nonempty, does not start with whitespace
   and contains no parenthesis or comma.
   */
  predicate Readable(filter: EventFilter) {
    match filter
    case AllOf(filters) => forall i :: 0 <= i < |filters| ==> Readable(filters[i])
    case AnyOf(filters) => forall i :: 0 <= i < |filters| ==> Readable(filters[i])
    case OneOf(filters) => forall i :: 0 <= i < |filters| ==> Readable(filters[i])
    case Not(inner) => Readable(inner)
    case AgentIs(id) => IsId(id)
    case EnvIs(id) => IsId(id)
    case CannonIs(id) => IsId(id)
    case TransactionIs(transaction) => TextOk(transaction)
    case NodeKeyIs(key) => CanonicalKey(key)
    case NodeTargetIs(targets) => ReadableTargets(targets)
    case _ => true
  }

  /** What the text of a filter is read as: a pattern of one star becomes all ids. */
  function Settled(filter: EventFilter): EventFilter
    decreases filter, 1
  {
    match filter
    case AllOf(filters) => AllOf(SettledAll(filters))
    case AnyOf(filters) => AnyOf(SettledAll(filters))
    case OneOf(filters) => OneOf(SettledAll(filters))
    case Not(inner) => Not(Settled(inner))
    case NodeTargetIs(targets) => NodeTargetIs(TargetsFrom(SettledTargets(TargetList(targets))))
    case _ => filter
  }

  function SettledAll(filters: seq<EventFilter>): (r: seq<EventFilter>)
    ensures |r| == |filters| && forall i :: 0 <= i < |r| ==> r[i] == Settled(filters[i])
    decreases filters, 0
  {
    if filters == [] then [] else [Settled(filters[0])] + SettledAll(filters[1..])
  }

  function SettledTargets(targets: seq<NodeTarget>): (r: seq<NodeTarget>)
    ensures |r| == |targets| && forall i :: 0 <= i < |r| ==> r[i] == SettledTarget(targets[i])
  {
    if targets == [] then [] else [SettledTarget(targets[0])] + SettledTargets(targets[1..])
  }

  /** The filters that have a text of their own. */
  predicate Canonical(filter: EventFilter) {
    match filter
    case AllOf(filters) => forall i :: 0 <= i < |filters| ==> Canonical(filters[i])
    case AnyOf(filters) => forall i :: 0 <= i < |filters| ==> Canonical(filters[i])
    case OneOf(filters) => forall i :: 0 <= i < |filters| ==> Canonical(filters[i])
    case Not(inner) => Canonical(inner)
    case NodeTargetIs(targets) => CanonicalTargets(targets)
    case _ => Readable(filter)
  }

  lemma {:induction false} SettledTargetsSame(targets: NodeTargets)
    requires ReadableTargets(targets)
    ensures CanonicalTargets(targets) <==> TargetsFrom(SettledTargets(TargetList(targets))) == targets
    ensures CanonicalTargets(TargetsFrom(SettledTargets(TargetList(targets))))
  {
    var list := TargetList(targets);
    assert TargetsFrom(list) == targets;
    if CanonicalTargets(targets) {
      assert SettledTargets(list) == list;
    } else {
      var i :| 0 <= i < |list| && !CanonicalTarget(list[i]);
      assert SettledTargets(list)[i] != list[i];
      assert TargetList(TargetsFrom(SettledTargets(list))) == SettledTargets(list);
    }
  }

  /** A readable filter is canonical exactly if it is read as itself; what it is read as is canonical. */
  lemma {:induction false} SettledSame(filter: EventFilter)
    requires Readable(filter)
    ensures (Canonical(filter) <==> Settled(filter) == filter) && Canonical(Settled(filter))
    decreases filter, 1
  {
    match filter
    case AllOf(filters) => SettledAllSame(filters);
    case AnyOf(filters) => SettledAllSame(filters);
    case OneOf(filters) => SettledAllSame(filters);
    case Not(inner) => SettledSame(inner);
    case NodeTargetIs(targets) => SettledTargetsSame(targets);
    case _ =>
  }

  lemma {:induction false} SettledAllSame(filters: seq<EventFilter>)
    requires forall i :: 0 <= i < |filters| ==> Readable(filters[i])
    ensures (forall i :: 0 <= i < |filters| ==> Canonical(filters[i])) <==> SettledAll(filters) == filters
    ensures forall i :: 0 <= i < |filters| ==> Canonical(Settled(filters[i]))
    decreases filters, 0
  {
    hide Settled, Readable, Canonical;
    forall i | 0 <= i < |filters|
      ensures (Canonical(filters[i]) <==> Settled(filters[i]) == filters[i]) && Canonical(Settled(filters[i]))
    {
      SettledSame(filters[i]);
    }
  }

  lemma {:induction false} CanonicalIsReadable(filter: EventFilter)
    requires Canonical(filter)
    ensures Readable(filter)
  {
    match filter
    case AllOf(filters) => forall i | 0 <= i < |filters| ensures Readable(filters[i]) { CanonicalIsReadable(filters[i]); }
    case AnyOf(filters) => forall i | 0 <= i < |filters| ensures Readable(filters[i]) { CanonicalIsReadable(filters[i]); }
    case OneOf(filters) => forall i | 0 <= i < |filters| ensures Readable(filters[i]) { CanonicalIsReadable(filters[i]); }
    case Not(inner) => CanonicalIsReadable(inner);
    case _ =>
  }

  /** Reading a filter back does not change what it matches. */
  lemma {:induction false} SettledMatches(event: Event, filter: EventFilter)
    ensures Matches(event, Settled(filter)) <==> Matches(event, filter)
    decreases filter, 1
  {
    match filter
    case AllOf(filters) => SettledCounts(event, filters);
    case AnyOf(filters) => SettledCounts(event, filters);
    case OneOf(filters) => SettledCounts(event, filters);
    case Not(inner) => SettledMatches(event, inner);
    case NodeTargetIs(targets) =>
      if event.nodeKey.Some? {
        SettledTargetsMatch(targets, event.nodeKey.value);
      }
    case _ =>
  }

  lemma {:induction false} SettledTargetsMatch(targets: NodeTargets, key: NodeKey)
    ensures TargetsMatch(TargetsFrom(SettledTargets(TargetList(targets))), key) <==> TargetsMatch(targets, key)
  {
    hide TargetMatches;
    var list := TargetList(targets);
    var settled := SettledTargets(list);
    assert TargetList(TargetsFrom(settled)) == settled;
    forall i | 0 <= i < |list| ensures TargetMatches(settled[i], key) <==> TargetMatches(list[i], key) {
      SettledTargetMatches(list[i], key);
    }
  }

  lemma {:induction false} SettledCounts(event: Event, filters: seq<EventFilter>)
    ensures MatchCount(event, SettledAll(filters)) == MatchCount(event, filters)
    ensures forall i :: 0 <= i < |filters| ==> (Matches(event, Settled(filters[i])) <==> Matches(event, filters[i]))
    decreases filters, 0
  {
    hide Settled, Matches;
    if filters != [] {
      SettledMatches(event, filters[0]);
      SettledCounts(event, filters[1..]);
      var all := SettledAll(filters);
      assert all[0] == Settled(filters[0]) && all[1..] == SettledAll(filters[1..]);
      assert forall i :: 0 < i < |filters| ==> filters[i] == filters[1..][i - 1];
    }
  }

  // ---------- Texts that trimming leaves alone ----------

  predicate PlainText(s: string) {
    TextOk(s) && !IsWhitespace(s[|s| - 1])
  }

  lemma {:induction false} PlainIsTrimmed(s: string)
    requires PlainText(s)
    ensures Trim(s) == s
  {
  }

  predicate IsPlainChar(c: char) {
    !IsDelimiter(c) && !IsWhitespace(c)
  }

  lemma {:induction false} PlainChars(s: string)
    requires s != "" && forall i :: 0 <= i < |s| ==> IsPlainChar(s[i])
    ensures PlainText(s)
  {
    assert IsPlainChar(s[0]) && IsPlainChar(s[|s| - 1]);
  }

  lemma {:induction false} NameAloneIsPlain(name: Name)
    requires StandsAlone(name)
    ensures PlainText(NameText(name))
  {
  }

  lemma {:induction false} NameWithArgumentsIsPlain(name: Name)
    requires !StandsAlone(name)
    ensures PlainText(NameText(name))
  {
  }

  lemma {:induction false} NameIsPlain(name: Name)
    ensures PlainText(NameText(name))
  {
    if StandsAlone(name) {
      NameAloneIsPlain(name);
    } else {
      NameWithArgumentsIsPlain(name);
    }
  }

  lemma {:induction false} AgentKindIsPlain(kind: EventKind)
    requires IsAgentKind(kind)
    ensures PlainText(KindText(kind))
  {
  }

  lemma {:induction false} FailedKindIsPlain(kind: EventKind)
    requires kind.TransactionExecuteAborted? || kind.TransactionExecuteExceeded? || kind.TransactionExecuteFailed?
    ensures PlainText(KindText(kind))
  {
  }

  lemma {:induction false} ActiveKindIsPlain(kind: EventKind)
    requires kind.TransactionExecuteAwaitingCompute? || kind.TransactionExecuting? || kind.TransactionExecuteComplete?
    ensures PlainText(KindText(kind))
  {
  }

  lemma {:induction false} OtherKindIsPlain(kind: EventKind)
    requires !IsAgentKind(kind) && !IsExecuteKind(kind)
    ensures PlainText(KindText(kind))
  {
  }

  lemma {:induction false} KindIsPlain(kind: EventKind)
    ensures PlainText(KindText(kind))
  {
    if IsAgentKind(kind) {
      AgentKindIsPlain(kind);
    } else if IsExecuteKind(kind) {
      if kind.TransactionExecuteAborted? || kind.TransactionExecuteExceeded? || kind.TransactionExecuteFailed? {
        FailedKindIsPlain(kind);
      } else {
        ActiveKindIsPlain(kind);
      }
    } else {
      OtherKindIsPlain(kind);
    }
  }

  lemma {:induction false} IdIsPlain(id: string)
    requires IsId(id)
    ensures PlainText(id)
  {
    PlainChars(id);
  }

  lemma {:induction false} PiecesArePlain(ty: string, id: string, ns: Option<string>)
    requires ty != "" && forall i :: 0 <= i < |ty| ==> IsPlainChar(ty[i])
    requires forall i :: 0 <= i < |id| ==> IsPlainChar(id[i])
    requires ns.Some? ==> forall i :: 0 <= i < |ns.value| ==> IsPlainChar(ns.value[i])
    ensures PlainText(JoinPieces(ty, id, ns))
  {
    PlainChars(JoinPieces(ty, id, ns));
  }

  lemma {:induction false} TypeIsPlain(ty: NodeType)
    ensures forall i :: 0 <= i < |PrintType(ty)| ==> IsPlainChar(PrintType(ty)[i])
    ensures PrintType(ty) != ""
  {
  }

  lemma {:induction false} KeyIsPlain(key: NodeKey)
    requires CanonicalKey(key)
    ensures PlainText(PrintKey(key))
  {
    TypeIsPlain(key.ty);
    PiecesArePlain(PrintType(key.ty), key.id, key.ns);
  }

  lemma {:induction false} TargetIsPlain(target: NodeTarget)
    requires ReadableTarget(target)
    ensures PlainText(PrintTarget(target))
  {
    if target.ty.OneType? {
      TypeIsPlain(target.ty.ty);
    }
    PiecesArePlain(TargetTypeText(target.ty), TargetIdText(target.id), NamespaceText(target.ns));
  }

  // ---------- The tokens of a printed filter ----------

  function Tokens(filter: EventFilter): (ts: seq<Token>)
    ensures ts != [] && ts[0] == Text(NameText(NameOf(filter)))
    decreases filter, 1
  {
    var name := Text(NameText(NameOf(filter)));
    if StandsAlone(NameOf(filter)) then [name] else [name, OpenParen] + ArgumentTokens(filter) + [CloseParen]
  }

  function ArgumentTokens(filter: EventFilter): (ts: seq<Token>)
    requires !StandsAlone(NameOf(filter))
    decreases filter, 0
  {
    match filter
    case AllOf(filters) => ListTokens(filters)
    case AnyOf(filters) => ListTokens(filters)
    case OneOf(filters) => ListTokens(filters)
    case Not(inner) => Tokens(inner)
    case NodeTargetIs(targets) => TargetTokens(TargetList(targets))
    case _ => [Text(PrintArguments(filter))]
  }

  function ListTokens(filters: seq<EventFilter>): (ts: seq<Token>)
    ensures ts != [] ==> ts[0].Text?
    ensures filters != [] ==> ts != []
    decreases filters, 0
  {
    if filters == [] then []
    else if |filters| == 1 then Tokens(filters[0])
    else Tokens(filters[0]) + [Comma, Whitespace] + ListTokens(filters[1..])
  }

  function TargetTokens(targets: seq<NodeTarget>): (ts: seq<Token>)
    ensures ts != [] ==> ts[0].Text?
    ensures targets != [] ==> ts != []
  {
    if targets == [] then []
    else if |targets| == 1 then [Text(PrintTarget(targets[0]))]
    else [Text(PrintTarget(targets[0]))] + [Comma, Whitespace] + TargetTokens(targets[1..])
  }

  // ---------- Lexing a printed filter ----------

  /** A place where a text token ends. */
  predicate Boundary(rest: string) {
    rest == "" || IsDelimiter(rest[0])
  }

  lemma {:induction false} TextRunStops(s: string, rest: string)
    requires Boundary(rest) && forall i :: 0 <= i < |s| ==> !IsDelimiter(s[i])
    ensures TextRun(s + rest) == |s|
  {
    if s == "" {
      assert s + rest == rest;
    } else {
      assert (s + rest)[1..] == s[1..] + rest;
      TextRunStops(s[1..], rest);
    }
  }

  lemma {:induction false} LexText(s: string, rest: string)
    requires TextOk(s) && Boundary(rest)
    ensures Lex(s + rest) == [Text(s)] + Lex(rest)
  {
    TextRunStops(s, rest);
    assert (s + rest)[..|s|] == s && (s + rest)[|s|..] == rest;
    assert !IsDelimiter(s[0]);
  }

  lemma {:induction false} LexDelimiter(c: char, rest: string)
    requires IsDelimiter(c)
    ensures Lex([c] + rest) == [if c == '(' then OpenParen else if c == ')' then CloseParen else Comma] + Lex(rest)
  {
    assert ([c] + rest)[1..] == rest;
  }

  lemma {:induction false} LexSpace(rest: string)
    requires rest != "" && !IsWhitespace(rest[0])
    ensures Lex([' '] + rest) == [Whitespace] + Lex(rest)
  {
    assert ([' '] + rest)[1..] == rest;
    assert WhitespaceRun(rest) == 0;
  }

  lemma {:induction false} LexSeparator(rest: string)
    requires rest != "" && !IsWhitespace(rest[0])
    ensures Lex(", " + rest) == [Comma, Whitespace] + Lex(rest)
  {
    hide Lex;
    assert ", " + rest == [','] + ([' '] + rest);
    LexDelimiter(',', [' '] + rest);
    LexSpace(rest);
  }

  lemma {:induction false} Assoc<T>(a: seq<T>, b: seq<T>, c: seq<T>, d: seq<T>)
    ensures ((a + b) + c) + d == a + (b + (c + d))
  {
  }

  /** An element and the rest of its list, joined by a separator. */
  lemma {:induction false} LexElement(first: string, firstTokens: seq<Token>, others: string, otherTokens: seq<Token>, rest: string)
    requires others != "" && !IsWhitespace(others[0])
    requires Lex(first + (", " + (others + rest))) == firstTokens + Lex(", " + (others + rest))
    requires Lex(others + rest) == otherTokens + Lex(rest)
    ensures Lex((first + ", " + others) + rest) == (firstTokens + [Comma, Whitespace] + otherTokens) + Lex(rest)
  {
    hide Lex;
    LexSeparator(others + rest);
    Assoc(first, ", ", others, rest);
    Assoc(firstTokens, [Comma, Whitespace], otherTokens, Lex(rest));
  }

  /** A name with arguments in parentheses. */
  lemma {:induction false} LexCall(name: string, args: string, argTokens: seq<Token>, rest: string)
    requires TextOk(name)
    requires Lex(args + ([')'] + rest)) == argTokens + Lex([')'] + rest)
    ensures Lex((name + "(" + args + ")") + rest) == ([Text(name), OpenParen] + argTokens + [CloseParen]) + Lex(rest)
  {
    hide Lex;
    var tail := [')'] + rest;
    LexDelimiter(')', rest);
    LexDelimiter('(', args + tail);
    LexText(name, ['('] + (args + tail));
    Assoc(name, "(", args + ")", rest);
    assert (args + ")") + rest == args + tail;
    assert (name + "(") + (args + ")") == name + "(" + args + ")";
    Assoc([Text(name), OpenParen], argTokens, [CloseParen], Lex(rest));
    Assoc([Text(name)], [OpenParen], argTokens + [CloseParen], Lex(rest));
  }

  lemma {:induction false} PrintStart(filter: EventFilter)
    ensures Print(filter) != "" && !IsWhitespace(Print(filter)[0])
  {
    NameIsPlain(NameOf(filter));
  }

  lemma {:induction false} LexFilter(filter: EventFilter, rest: string)
    requires Readable(filter) && Boundary(rest)
    ensures Lex(Print(filter) + rest) == Tokens(filter) + Lex(rest)
    decreases filter, 1
  {
    hide Lex, NameText, NameOf;
    var name := NameText(NameOf(filter));
    NameIsPlain(NameOf(filter));
    if StandsAlone(NameOf(filter)) {
      LexText(name, rest);
    } else {
      LexArguments(filter, [')'] + rest);
      LexCall(name, PrintArguments(filter), ArgumentTokens(filter), rest);
    }
  }

  lemma {:induction false} LexArguments(filter: EventFilter, rest: string)
    requires Readable(filter) && !StandsAlone(NameOf(filter)) && Boundary(rest)
    ensures Lex(PrintArguments(filter) + rest) == ArgumentTokens(filter) + Lex(rest)
    decreases filter, 0
  {
    hide Lex;
    if filter.AllOf? || filter.AnyOf? || filter.OneOf? {
      LexList(filter.filters, rest);
    } else if filter.Not? {
      LexFilter(filter.filter, rest);
    } else if filter.NodeTargetIs? {
      LexTargets(TargetList(filter.targets), rest);
    } else {
      LeafTextOk(filter);
      LexText(PrintArguments(filter), rest);
    }
  }

  predicate IsLeaf(filter: EventFilter) {
    || filter.AgentIs? || filter.EnvIs? || filter.CannonIs?
    || filter.TransactionIs? || filter.EventIs? || filter.NodeKeyIs?
  }

  lemma {:induction false} LeafTextOk(filter: EventFilter)
    requires IsLeaf(filter) && Readable(filter)
    ensures TextOk(PrintArguments(filter))
    ensures !filter.TransactionIs? ==> Trim(PrintArguments(filter)) == PrintArguments(filter)
  {
    var s := PrintArguments(filter);
    match filter
    case EventIs(kind) => KindIsPlain(kind);
    case NodeKeyIs(key) => KeyIsPlain(key);
    case TransactionIs(_) =>
    case _ => IdIsPlain(s);
    if !filter.TransactionIs? {
      PlainIsTrimmed(s);
    }
  }

  lemma {:induction false} LexList(filters: seq<EventFilter>, rest: string)
    requires (forall i :: 0 <= i < |filters| ==> Readable(filters[i])) && Boundary(rest)
    ensures Lex(PrintList(filters) + rest) == ListTokens(filters) + Lex(rest)
    decreases filters, 0
  {
    hide Lex;
    if filters == [] {
      assert PrintList(filters) + rest == rest;
    } else if |filters| == 1 {
      LexFilter(filters[0], rest);
    } else {
      var others := PrintList(filters[1..]);
      PrintListStart(filters[1..]);
      LexFilter(filters[0], ", " + (others + rest));
      LexList(filters[1..], rest);
      LexElement(Print(filters[0]), Tokens(filters[0]), others, ListTokens(filters[1..]), rest);
    }
  }

  lemma {:induction false} PrintListStart(filters: seq<EventFilter>)
    requires filters != []
    ensures PrintList(filters) != "" && !IsWhitespace(PrintList(filters)[0])
  {
    PrintStart(filters[0]);
  }

  lemma {:induction false} LexTargets(targets: seq<NodeTarget>, rest: string)
    requires (forall i :: 0 <= i < |targets| ==> ReadableTarget(targets[i])) && Boundary(rest)
    ensures Lex(PrintTargets(targets) + rest) == TargetTokens(targets) + Lex(rest)
  {
    hide Lex;
    if targets == [] {
      assert PrintTargets(targets) + rest == rest;
    } else if |targets| == 1 {
      TargetIsPlain(targets[0]);
      LexText(PrintTarget(targets[0]), rest);
    } else {
      var others := PrintTargets(targets[1..]);
      TargetIsPlain(targets[0]);
      TargetIsPlain(targets[1]);
      assert PrintTarget(targets[1]) <= others;
      LexText(PrintTarget(targets[0]), ", " + (others + rest));
      LexTargets(targets[1..], rest);
      LexElement(PrintTarget(targets[0]), [Text(PrintTarget(targets[0]))], others, TargetTokens(targets[1..]), rest);
    }
  }

  // ---------- Parsing the tokens of a printed filter ----------

  lemma {:induction false} ExpectParsedText<T>(s: string, rest: seq<Token>, what: Parsable, parse: string -> Option<T>)
    requires Trim(s) == s && parse(s).Some?
    ensures ExpectParsed([Text(s)] + rest, what, parse) == Ok(Parsed(parse(s).value, rest))
  {
    hide Trim;
    assert ([Text(s)] + rest)[1..] == rest;
  }

  lemma {:induction false} ParseLeafTokens(filter: EventFilter, rest: seq<Token>)
    requires IsLeaf(filter) && Readable(filter)
    ensures ParseLeaf(NameOf(filter), [Text(PrintArguments(filter))] + rest) == Ok(Parsed(filter, rest))
  {
    hide Trim, ParseKind, KindText, ParseKey, PrintKey, IsId, ExpectParsed;
    LeafTextOk(filter);
    match filter
    case EventIs(kind) =>
      KindRoundTrip(kind);
      ExpectParsedText(KindText(kind), rest, EventKindLabel, ParseKind);
    case NodeKeyIs(key) =>
      KeyRoundTrip(key);
      ExpectParsedText(PrintKey(key), rest, NodeKeyLabel, ParseKey);
    case AgentIs(id) =>
      ExpectParsedText(id, rest, AgentIdLabel, ParseId);
    case EnvIs(id) =>
      ExpectParsedText(id, rest, EnvIdLabel, ParseId);
    case CannonIs(id) =>
      ExpectParsedText(id, rest, CannonIdLabel, ParseId);
    case TransactionIs(transaction) =>
      assert ([Text(transaction)] + rest)[1..] == rest;
  }

  /** A name followed by arguments in parentheses. */
  lemma {:induction false} ParseCall(name: Name, text: string, args: seq<Token>, value: EventFilter, rest: seq<Token>)
    requires Trim(text) == text && ParseName(text) == Some(name) && !StandsAlone(name)
    requires args != [] && !args[0].Whitespace?
    requires ParseArguments(name, args) == Ok(Parsed(value, [CloseParen] + rest))
    ensures ParseFilter([Text(text)] + ([OpenParen] + args)) == Ok(Parsed(value, rest))
  {
    hide Trim, ParseName, ParseArguments;
    var ts := [Text(text)] + ([OpenParen] + args);
    assert ts[1..] == [OpenParen] + args;
    assert ([OpenParen] + args)[1..] == args;
    assert ([CloseParen] + rest)[1..] == rest;
  }

  lemma {:induction false} ParseTokens(filter: EventFilter, rest: seq<Token>)
    requires Readable(filter)
    ensures ParseFilter(Tokens(filter) + rest) == Ok(Parsed(Settled(filter), rest))
    decreases filter, 1
  {
    hide NameText, ParseName, ParseArguments, ParseFilter, Trim, Readable, Settled, Tokens, ArgumentTokens, NameOf;
    var name := NameOf(filter);
    NameIsPlain(name);
    PlainIsTrimmed(NameText(name));
    NameRoundTrip(name);
    TokensOf(filter, rest);
    if StandsAlone(name) {
      ParseAlone(filter, rest);
      AloneIsSettled(filter);
    } else {
      var args := ArgumentTokens(filter) + ([CloseParen] + rest);
      ParseArgumentTokens(filter, rest);
      ArgumentsStart(filter, [CloseParen] + rest);
      ParseCall(name, NameText(name), args, Settled(filter), rest);
    }
  }

  /** A filter's tokens are its name and, unless it stands alone, its arguments in parentheses. */
  lemma {:induction false} TokensOf(filter: EventFilter, rest: seq<Token>)
    ensures
      var name := [Text(NameText(NameOf(filter)))];
      Tokens(filter) + rest ==
        if StandsAlone(NameOf(filter)) then name + rest
        else name + ([OpenParen] + (ArgumentTokens(filter) + ([CloseParen] + rest)))
  {
    hide NameText, ArgumentTokens;
  }

  lemma {:induction false} ParseAlone(filter: EventFilter, rest: seq<Token>)
    requires StandsAlone(NameOf(filter))
    requires Trim(NameText(NameOf(filter))) == NameText(NameOf(filter))
    requires ParseName(NameText(NameOf(filter))) == Some(NameOf(filter))
    ensures ParseFilter([Text(NameText(NameOf(filter)))] + rest) == Ok(Parsed(filter, rest))
  {
    hide NameText, ParseName, Trim;
    assert ([Text(NameText(NameOf(filter)))] + rest)[1..] == rest;
  }

  lemma {:induction false} AloneIsSettled(filter: EventFilter)
    requires StandsAlone(NameOf(filter))
    ensures Settled(filter) == filter
  {
  }

  lemma {:induction false} ArgumentsStart(filter: EventFilter, rest: seq<Token>)
    requires !StandsAlone(NameOf(filter)) && rest != [] && !rest[0].Whitespace?
    ensures ArgumentTokens(filter) + rest != [] && !(ArgumentTokens(filter) + rest)[0].Whitespace?
  {
  }

  lemma {:induction false} ParseArgumentTokens(filter: EventFilter, rest: seq<Token>)
    requires Readable(filter) && !StandsAlone(NameOf(filter))
    ensures
      ParseArguments(NameOf(filter), ArgumentTokens(filter) + ([CloseParen] + rest)) ==
        Ok(Parsed(Settled(filter), [CloseParen] + rest))
    decreases filter, 0
  {
    hide ParseList, ParseFilter, ParseTargetList, ParseLeaf;
    var tail := [CloseParen] + rest;
    ArgumentsStart(filter, tail);
    if filter.AllOf? || filter.AnyOf? || filter.OneOf? {
      ParseListTokens(filter.filters, rest);
    } else if filter.Not? {
      ParseTokens(filter.filter, tail);
    } else if filter.NodeTargetIs? {
      ParseTargetTokens(TargetList(filter.targets), rest);
    } else {
      ParseLeafTokens(filter, tail);
    }
  }

  lemma {:induction false} SkipSeparator(others: seq<Token>)
    requires others != [] && !others[0].Whitespace?
    ensures AfterElement([Comma, Whitespace] + others) == Ok(More(others))
  {
    var ts := [Comma, Whitespace] + others;
    assert ts[1..] == [Whitespace] + others;
    assert ([Whitespace] + others)[1..] == others;
    assert TrimTokens(others) == others;
    assert TrimTokens([Whitespace] + others) == others;
    assert TrimTokens(ts) == ts;
  }

  lemma {:induction false} ListEnds(ts: seq<Token>, value: EventFilter, rest: seq<Token>)
    requires ts != [] && !ts[0].CloseParen?
    requires ParseFilter(ts) == Ok(Parsed(value, [CloseParen] + rest))
    ensures ParseList(ts) == Ok(Parsed([value], [CloseParen] + rest))
  {
    hide ParseFilter;
  }

  lemma {:induction false} ListGoesOn(
      first: seq<Token>, value: EventFilter, others: seq<Token>, values: seq<EventFilter>, tail: seq<Token>)
    requires first != [] && first[0].Text? && others + tail != [] && !(others + tail)[0].Whitespace?
    requires
      ParseFilter(first + ([Comma, Whitespace] + (others + tail))) ==
        Ok(Parsed(value, [Comma, Whitespace] + (others + tail)))
    requires ParseList(others + tail) == Ok(Parsed(values, tail))
    ensures ParseList((first + [Comma, Whitespace] + others) + tail) == Ok(Parsed([value] + values, tail))
  {
    hide ParseFilter, AfterElement;
    Assoc(first, [Comma, Whitespace], others, tail);
    SkipSeparator(others + tail);
  }

  lemma {:induction false} ParseListTokens(filters: seq<EventFilter>, rest: seq<Token>)
    requires forall i :: 0 <= i < |filters| ==> Readable(filters[i])
    ensures ParseList(ListTokens(filters) + ([CloseParen] + rest)) == Ok(Parsed(SettledAll(filters), [CloseParen] + rest))
    decreases filters, 0
  {
    var tail := [CloseParen] + rest;
    if filters == [] {
      assert ListTokens(filters) + tail == tail;
    } else {
      hide ParseList, ParseFilter, Readable, Settled;
      if |filters| == 1 {
        assert SettledAll(filters) == [Settled(filters[0])];
        ParseTokens(filters[0], tail);
        ListEnds(Tokens(filters[0]) + tail, Settled(filters[0]), rest);
      } else {
        var others := ListTokens(filters[1..]);
        ParseTokens(filters[0], [Comma, Whitespace] + (others + tail));
        ParseListTokens(filters[1..], rest);
        ListGoesOn(Tokens(filters[0]), Settled(filters[0]), others, SettledAll(filters[1..]), tail);
      }
    }
  }

  lemma {:induction false} TargetsEnd(text: string, target: NodeTarget, rest: seq<Token>)
    requires Trim(text) == text && ParseTarget(text) == Some(target)
    ensures ParseTargetList([Text(text)] + ([CloseParen] + rest)) == Ok(Parsed([target], [CloseParen] + rest))
  {
    hide Trim, ParseTarget, ExpectParsed;
    ExpectParsedText(text, [CloseParen] + rest, NodeTargetLabel, ParseTarget);
  }

  lemma {:induction false} TargetsGoOn(text: string, target: NodeTarget, others: seq<Token>, values: seq<NodeTarget>, tail: seq<Token>)
    requires Trim(text) == text && ParseTarget(text) == Some(target)
    requires others + tail != [] && !(others + tail)[0].Whitespace?
    requires ParseTargetList(others + tail) == Ok(Parsed(values, tail))
    ensures ParseTargetList(([Text(text)] + [Comma, Whitespace] + others) + tail) == Ok(Parsed([target] + values, tail))
  {
    hide Trim, ParseTarget, ExpectParsed, AfterElement;
    Assoc([Text(text)], [Comma, Whitespace], others, tail);
    ExpectParsedText(text, [Comma, Whitespace] + (others + tail), NodeTargetLabel, ParseTarget);
    SkipSeparator(others + tail);
  }

  lemma {:induction false} ParseTargetTokens(targets: seq<NodeTarget>, rest: seq<Token>)
    requires forall i :: 0 <= i < |targets| ==> ReadableTarget(targets[i])
    ensures ParseTargetList(TargetTokens(targets) + ([CloseParen] + rest)) == Ok(Parsed(SettledTargets(targets), [CloseParen] + rest))
  {
    var tail := [CloseParen] + rest;
    if targets == [] {
      assert TargetTokens(targets) + tail == tail;
    } else {
      hide ParseTargetList, Trim, ParseTarget, PrintTarget, ReadableTarget;
      var text := PrintTarget(targets[0]);
      TargetIsPlain(targets[0]);
      PlainIsTrimmed(text);
      TargetReads(targets[0]);
      if |targets| == 1 {
        assert SettledTargets(targets) == [SettledTarget(targets[0])];
        TargetsEnd(text, SettledTarget(targets[0]), rest);
      } else {
        ParseTargetTokens(targets[1..], rest);
        TargetsGoOn(text, SettledTarget(targets[0]), TargetTokens(targets[1..]), SettledTargets(targets[1..]), tail);
      }
    }
  }

  // ---------- What the parser returns is readable ----------

  /** Every text token holds what a text token can hold. */
  predicate Lexed(ts: seq<Token>) {
    forall i :: 0 <= i < |ts| ==> ts[i].Text? ==> TextOk(ts[i].s)
  }

  lemma {:induction false} LexIsLexed(s: string)
    ensures Lexed(Lex(s))
    decreases |s|
  {
    if s != "" {
      LexIsLexed(s[NextToken(s).1..]);
    }
  }

  lemma {:induction false} TrimIsLexed(ts: seq<Token>)
    requires Lexed(ts)
    ensures Lexed(TrimTokens(ts))
  {
    if ts != [] {
      TrimIsLexed(ts[1..]);
    }
  }

  lemma {:induction false} LeafIsReadable(name: Name, ts: seq<Token>)
    requires Lexed(ts) && ParseLeaf(name, ts).Ok?
    ensures Readable(ParseLeaf(name, ts).value.value) && Lexed(ParseLeaf(name, ts).value.rest)
  {
    hide Trim, ParseKind;
    if name.NodeKeyIsName? {
      ParsedKeyIsCanonical(Trim(ts[0].s));
    }
  }

  lemma {:induction false} ParsedIsReadable(ts: seq<Token>)
    requires Lexed(ts) && ParseFilter(ts).Ok?
    ensures Readable(ParseFilter(ts).value.value) && Lexed(ParseFilter(ts).value.rest)
    decreases |ts|, 2
  {
    hide Trim, ParseName, ParseKind, ParseArguments;
    TrimIsLexed(ts);
    var after := TrimTokens(ts)[1..];
    var name := ParseName(Trim(TrimTokens(ts)[0].s));
    if name.Some? && !StandsAlone(name.value) {
      TrimIsLexed(after);
      var inner := TrimTokens(after)[1..];
      TrimIsLexed(inner);
      ArgumentsAreReadable(name.value, TrimTokens(inner));
    }
  }

  lemma {:induction false} ArgumentsAreReadable(name: Name, ts: seq<Token>)
    requires Lexed(ts) && !StandsAlone(name) && ParseArguments(name, ts).Ok?
    ensures Readable(ParseArguments(name, ts).value.value) && Lexed(ParseArguments(name, ts).value.rest)
    decreases |ts|, 4
  {
    hide ParseList, ParseFilter, ParseTargetList, ParseLeaf;
    TrimIsLexed(ts);
    if name.AnyOfName? || name.AllOfName? || name.OneOfName? {
      ListIsReadable(TrimTokens(ts));
    } else if name.NotName? {
      ParsedIsReadable(ts);
    } else if name.NodeTargetIsName? {
      TargetsAreReadable(TrimTokens(ts));
    } else {
      LeafIsReadable(name, ts);
    }
  }

  lemma {:induction false} AfterElementIsLexed(ts: seq<Token>)
    requires Lexed(ts) && AfterElement(ts).Ok?
    ensures Lexed(AfterElement(ts).value.rest)
  {
    TrimIsLexed(ts);
    if TrimTokens(ts) != [] {
      TrimIsLexed(TrimTokens(ts)[1..]);
    }
  }

  lemma {:induction false} ListIsReadable(ts: seq<Token>)
    requires Lexed(ts) && ParseList(ts).Ok?
    ensures
      var p := ParseList(ts).value;
      (forall i :: 0 <= i < |p.value| ==> Readable(p.value[i])) && Lexed(p.rest)
    decreases |ts|, 3
  {
    hide ParseFilter, AfterElement;
    if !ts[0].CloseParen? {
      ParsedIsReadable(ts);
      var first := ParseFilter(ts).value;
      AfterElementIsLexed(first.rest);
      var following := AfterElement(first.rest).value;
      if following.More? {
        ListIsReadable(following.rest);
      }
    }
  }

  lemma {:induction false} TargetsAreReadable(ts: seq<Token>)
    requires Lexed(ts) && ParseTargetList(ts).Ok?
    ensures
      var p := ParseTargetList(ts).value;
      (forall i :: 0 <= i < |p.value| ==> ReadableTarget(p.value[i])) && Lexed(p.rest)
    decreases |ts|
  {
    hide AfterElement, Trim, ParseTarget;
    if !ts[0].CloseParen? {
      var first := ExpectParsed(ts, NodeTargetLabel, ParseTarget).value;
      ParsedTargetIsReadable(Trim(ts[0].s));
      AfterElementIsLexed(first.rest);
      var following := AfterElement(first.rest).value;
      if following.More? {
        TargetsAreReadable(following.rest);
      }
    }
  }

  // ---------- The result ----------

  /** The text of a readable filter is read as the settled filter. */
  lemma {:induction false} FilterReads(filter: EventFilter)
    requires Readable(filter)
    ensures Parse(Print(filter)) == Ok(Settled(filter))
  {
    hide Readable, Settled, ParseFilter, Lex;
    var s := Print(filter);
    LexNothing();
    LexFilter(filter, "");
    ParseTokens(filter, []);
    assert s + "" == s;
    assert Tokens(filter) + [] == Tokens(filter);
  }

  lemma {:induction false} LexNothing()
    ensures Lex("") == []
  {
  }

  lemma {:induction false} ParseGivesReadable(s: string)
    requires Parse(s).Ok?
    ensures Readable(Parse(s).value)
  {
    hide Readable, ParseFilter, Lex;
    LexIsLexed(s);
    ParsedIsReadable(Lex(s));
  }

  /** A filter is what parsing its own text gives exactly if it is canonical. */
  lemma {:induction false} FilterRoundTrip(filter: EventFilter)
    ensures Parse(Print(filter)) == Ok(filter) <==> Canonical(filter)
  {
    hide Canonical, Readable, Settled, Parse, Print;
    if Canonical(filter) {
      CanonicalIsReadable(filter);
    }
    if Parse(Print(filter)).Ok? {
      ParseGivesReadable(Print(filter));
    }
    if Readable(filter) {
      FilterReads(filter);
      SettledSame(filter);
    }
  }

  /**
   Printing what a text parses to and parsing again gives a filter that matches
   the same events, the same filter exactly if it has no pattern of stars only,
   and from then on always the same filter.
   */
  lemma {:induction false} ParseIsStable(s: string)
    requires Parse(s).Ok?
    ensures
      var filter := Parse(s).value;
      var again := Parse(Print(filter));
      && again == Ok(Settled(filter)) && (again == Parse(s) <==> Canonical(filter))
      && Parse(Print(again.value)) == again
      && forall event :: Matches(event, again.value) <==> Matches(event, filter)
  {
    hide Canonical, Readable, Settled, Parse, Print, Matches;
    var filter := Parse(s).value;
    ParseGivesReadable(s);
    FilterReads(filter);
    SettledSame(filter);
    FilterRoundTrip(Settled(filter));
    forall event ensures Matches(event, Settled(filter)) <==> Matches(event, filter) {
      SettledMatches(event, filter);
    }
  }

  lemma {:induction false} TwoStarsParse()
    ensures ParseTargetId("**") == Some(WildcardPattern("*"))
  {
    assert "**"[1..] == "*" && |"**"| == 2 && |"any"| == 3;
    assert Collapse("**") == Collapse("*");
  }

  lemma {:induction false} PiecesParse(ty: NodeType, id: string, read: TargetId)
    requires ParseTargetId(id) == Some(read) && '@' !in id
    ensures ParseTarget(JoinPieces(PrintType(ty), id, None)) == Some(NodeTarget(OneType(ty), read, Local))
  {
    hide ParseTargetId, PrintType, SplitPieces, JoinPieces, ParseTargetType;
    TargetTypeRoundTrip(OneType(ty));
    SplitJoinPieces(PrintType(ty), id, None);
  }

  /** Two stars as an id are one of these: they are kept as one star, which is read back as all ids. */
  lemma {:induction false} StarsReadAsAll(ty: NodeType)
    ensures
      var stars := NodeTarget(OneType(ty), WildcardPattern("*"), Local);
      && ParseTarget(JoinPieces(PrintType(ty), "**", None)) == Some(stars)
      && ParseTarget(PrintTarget(stars)) == Some(stars.(id := AllIds))
  {
    hide ParseTarget, PrintTarget, JoinPieces, ParseTargetId, PrintType;
    var stars := NodeTarget(OneType(ty), WildcardPattern("*"), Local);
    TwoStarsParse();
    PiecesParse(ty, "**", WildcardPattern("*"));
    assert IsTargetText("*");
    TargetReads(stars);
  }

  /** The text of a filter for the empty transaction id does not give it back. */
  lemma {:induction false} EmptyIdIsNotReadBack()
    ensures Parse(Print(TransactionIs(""))) != Ok(TransactionIs(""))
  {
    hide Print, Parse;
    FilterRoundTrip(TransactionIs(""));
  }
}
