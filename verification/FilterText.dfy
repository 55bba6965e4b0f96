/**
 The text of event filters: names, printing, the lexer and the grammar of the
 recursive-descent parser as functions on token sequences.  Text is made of
 characters that take one byte each.
 */
module FilterText {
  import opened Wrappers
  import opened Text
  import opened Nodes
  import opened Filter

  // ---------- Event kinds ----------

  function KindText(kind: EventKind): string {
    match kind
    case AgentConnected => "agent-connected"
    case AgentHandshakeComplete => "agent-handshake-complete"
    case AgentDisconnected => "agent-disconnected"
    case AgentReconcileComplete => "agent-reconcile-complete"
    case AgentReconcile => "agent-reconcile"
    case AgentReconcileError => "agent-reconcile-error"
    case AgentNodeStatus => "agent-node-status"
    case AgentBlockInfo => "agent-block-info"
    case TransactionAuthorizationReceived => "transaction-authorization-received"
    case TransactionExecuteAborted => "transaction-execute-aborted"
    case TransactionExecuteAwaitingCompute => "transaction-execute-awaiting-compute"
    case TransactionExecuteExceeded => "transaction-execute-exceeded"
    case TransactionExecuteFailed => "transaction-execute-failed"
    case TransactionExecuting => "transaction-executing"
    case TransactionExecuteComplete => "transaction-execute-complete"
    case TransactionBroadcasted => "transaction-broadcasted"
    case TransactionBroadcastExceeded => "transaction-broadcast-exceeded"
    case TransactionConfirmed => "transaction-confirmed"
  }

  function ParseKind(s: string): (kind: Option<EventKind>)
    ensures kind.Some? ==> s == KindText(kind.value)
  {
    if s == "agent-connected" then Some(AgentConnected)
    else if s == "agent-handshake-complete" then Some(AgentHandshakeComplete)
    else if s == "agent-disconnected" then Some(AgentDisconnected)
    else if s == "agent-reconcile-complete" then Some(AgentReconcileComplete)
    else if s == "agent-reconcile" then Some(AgentReconcile)
    else if s == "agent-reconcile-error" then Some(AgentReconcileError)
    else if s == "agent-node-status" then Some(AgentNodeStatus)
    else if s == "agent-block-info" then Some(AgentBlockInfo)
    else if s == "transaction-authorization-received" then Some(TransactionAuthorizationReceived)
    else if s == "transaction-execute-aborted" then Some(TransactionExecuteAborted)
    else if s == "transaction-execute-awaiting-compute" then Some(TransactionExecuteAwaitingCompute)
    else if s == "transaction-execute-exceeded" then Some(TransactionExecuteExceeded)
    else if s == "transaction-execute-failed" then Some(TransactionExecuteFailed)
    else if s == "transaction-executing" then Some(TransactionExecuting)
    else if s == "transaction-execute-complete" then Some(TransactionExecuteComplete)
    else if s == "transaction-broadcasted" then Some(TransactionBroadcasted)
    else if s == "transaction-broadcast-exceeded" then Some(TransactionBroadcastExceeded)
    else if s == "transaction-confirmed" then Some(TransactionConfirmed)
    else None
  }

  predicate IsAgentKind(kind: EventKind) {
    || kind.AgentConnected? || kind.AgentHandshakeComplete? || kind.AgentDisconnected?
    || kind.AgentReconcileComplete? || kind.AgentReconcile? || kind.AgentReconcileError?
    || kind.AgentNodeStatus? || kind.AgentBlockInfo?
  }

  lemma {:induction false} AgentKindRoundTrip(kind: EventKind)
    requires IsAgentKind(kind)
    ensures ParseKind(KindText(kind)) == Some(kind)
  {
  }

  predicate IsExecuteKind(kind: EventKind) {
    || kind.TransactionExecuteAborted? || kind.TransactionExecuteAwaitingCompute? || kind.TransactionExecuteExceeded?
    || kind.TransactionExecuteFailed? || kind.TransactionExecuting? || kind.TransactionExecuteComplete?
  }

  lemma {:induction false} ExecuteKindRoundTrip(kind: EventKind)
    requires IsExecuteKind(kind)
    ensures ParseKind(KindText(kind)) == Some(kind)
  {
  }

  lemma {:induction false} BroadcastKindRoundTrip(kind: EventKind)
    requires kind.TransactionBroadcasted? || kind.TransactionBroadcastExceeded?
    ensures ParseKind(KindText(kind)) == Some(kind)
  {
  }

  lemma {:induction false} OtherKindRoundTrip(kind: EventKind)
    requires kind.TransactionAuthorizationReceived? || kind.TransactionConfirmed?
    ensures ParseKind(KindText(kind)) == Some(kind)
  {
  }

  lemma {:induction false} KindRoundTrip(kind: EventKind)
    ensures ParseKind(KindText(kind)) == Some(kind)
  {
    if IsAgentKind(kind) {
      AgentKindRoundTrip(kind);
    } else if IsExecuteKind(kind) {
      ExecuteKindRoundTrip(kind);
    } else if kind.TransactionBroadcasted? || kind.TransactionBroadcastExceeded? {
      BroadcastKindRoundTrip(kind);
    } else {
      OtherKindRoundTrip(kind);
    }
  }

  // ---------- Filter names ----------

  /** The names of filters that stand alone and of those that take arguments in parentheses. */
  datatype Name =
    | UnfilteredName | HasAgentName | HasEnvName | HasTransactionName | HasCannonName | HasNodeKeyName
    | AnyOfName | AllOfName | OneOfName | NotName
    | AgentIsName | EnvIsName | TransactionIsName | CannonIsName | EventIsName | NodeKeyIsName | NodeTargetIsName

  function NameText(name: Name): string {
    match name
    case UnfilteredName => "unfiltered"
    case HasAgentName => "has-agent"
    case HasEnvName => "has-env"
    case HasTransactionName => "has-transaction"
    case HasCannonName => "has-cannon"
    case HasNodeKeyName => "has-node-key"
    case AnyOfName => "any-of"
    case AllOfName => "all-of"
    case OneOfName => "one-of"
    case NotName => "not"
    case AgentIsName => "agent-is"
    case EnvIsName => "env-is"
    case TransactionIsName => "transaction-is"
    case CannonIsName => "cannon-is"
    case EventIsName => "event-is"
    case NodeKeyIsName => "node-key-is"
    case NodeTargetIsName => "node-target-is"
  }

  function ParseName(s: string): Option<Name> {
    if s == "unfiltered" then Some(UnfilteredName)
    else if s == "any-of" then Some(AnyOfName)
    else if s == "all-of" then Some(AllOfName)
    else if s == "one-of" then Some(OneOfName)
    else if s == "not" then Some(NotName)
    else if s == "agent-is" then Some(AgentIsName)
    else if s == "has-agent" then Some(HasAgentName)
    else if s == "env-is" then Some(EnvIsName)
    else if s == "has-env" then Some(HasEnvName)
    else if s == "transaction-is" then Some(TransactionIsName)
    else if s == "has-transaction" then Some(HasTransactionName)
    else if s == "cannon-is" then Some(CannonIsName)
    else if s == "has-cannon" then Some(HasCannonName)
    else if s == "event-is" then Some(EventIsName)
    else if s == "node-key-is" then Some(NodeKeyIsName)
    else if s == "has-node-key" then Some(HasNodeKeyName)
    else if s == "node-target-is" then Some(NodeTargetIsName)
    else None
  }

  lemma {:induction false} NameRoundTrip(name: Name)
    ensures ParseName(NameText(name)) == Some(name)
  {
  }

  // ---------- Printing ----------

  function NameOf(filter: EventFilter): Name {
    match filter
    case Unfiltered => UnfilteredName
    case AllOf(_) => AllOfName
    case AnyOf(_) => AnyOfName
    case OneOf(_) => OneOfName
    case Not(_) => NotName
    case AgentIs(_) => AgentIsName
    case HasAgent => HasAgentName
    case EnvIs(_) => EnvIsName
    case HasEnv => HasEnvName
    case TransactionIs(_) => TransactionIsName
    case HasTransaction => HasTransactionName
    case CannonIs(_) => CannonIsName
    case HasCannon => HasCannonName
    case EventIs(_) => EventIsName
    case HasNodeKey => HasNodeKeyName
    case NodeKeyIs(_) => NodeKeyIsName
    case NodeTargetIs(_) => NodeTargetIsName
  }

  predicate StandsAlone(name: Name) {
    || name.UnfilteredName? || name.HasAgentName? || name.HasEnvName?
    || name.HasTransactionName? || name.HasCannonName? || name.HasNodeKeyName?
  }

  function Print(filter: EventFilter): string
    decreases filter, 1
  {
    var name := NameText(NameOf(filter));
    if StandsAlone(NameOf(filter)) then name else name + "(" + PrintArguments(filter) + ")"
  }

  function PrintArguments(filter: EventFilter): string
    requires !StandsAlone(NameOf(filter))
    decreases filter, 0
  {
    match filter
    case AllOf(filters) => PrintList(filters)
    case AnyOf(filters) => PrintList(filters)
    case OneOf(filters) => PrintList(filters)
    case Not(inner) => Print(inner)
    case AgentIs(id) => id
    case EnvIs(id) => id
    case TransactionIs(transaction) => transaction
    case CannonIs(id) => id
    case EventIs(kind) => KindText(kind)
    case NodeKeyIs(key) => PrintKey(key)
    case NodeTargetIs(targets) => PrintTargets(TargetList(targets))
  }

  function PrintList(filters: seq<EventFilter>): string
    decreases filters, 0
  {
    if filters == [] then ""
    else if |filters| == 1 then Print(filters[0])
    else Print(filters[0]) + ", " + PrintList(filters[1..])
  }

  function PrintTargets(targets: seq<NodeTarget>): string {
    if targets == [] then ""
    else if |targets| == 1 then PrintTarget(targets[0])
    else PrintTarget(targets[0]) + ", " + PrintTargets(targets[1..])
  }

  /** The texts of two lists one after the other, a comma and a space between them, are the text of both. */
  lemma {:induction false} ListsJoin(a: seq<EventFilter>, b: seq<EventFilter>)
    requires a != [] && b != []
    ensures PrintList(a + b) == PrintList(a) + ", " + PrintList(b)
    decreases |a|
  {
    hide Print;
    var first, all := Print(a[0]), a + b;
    assert all[0] == a[0] && all[1..] == a[1..] + b;
    if |a| == 1 {
      assert a[1..] + b == b;
    } else {
      ListsJoin(a[1..], b);
      Joined(first, PrintList(a[1..]), PrintList(b));
    }
  }

  lemma {:induction false} Joined(a: string, b: string, c: string)
    ensures a + ", " + (b + ", " + c) == (a + ", " + b) + ", " + c
  {
  }

  // ---------- Lexing ----------

  datatype Token = OpenParen | CloseParen | Comma | Whitespace | Text(s: string)

  predicate IsDelimiter(c: char) {
    c == '(' || c == ')' || c == ','
  }

  function WhitespaceRun(s: string): (n: nat)
    ensures n <= |s| && (s != "" && IsWhitespace(s[0]) ==> n > 0)
    ensures n < |s| ==> !IsWhitespace(s[n])
  {
    if s == "" || !IsWhitespace(s[0]) then 0 else 1 + WhitespaceRun(s[1..])
  }

  function TextRun(s: string): (n: nat)
    ensures n <= |s| && (s != "" && !IsDelimiter(s[0]) ==> n > 0)
    ensures forall i :: 0 <= i < n ==> !IsDelimiter(s[i])
  {
    if s == "" || IsDelimiter(s[0]) then 0 else 1 + TextRun(s[1..])
  }

  /** The first token of a nonempty text and the number of characters it takes. */
  function NextToken(s: string): (r: (Token, nat))
    requires s != ""
    ensures 0 < r.1 <= |s|
  {
    var c := s[0];
    if c == '(' then (OpenParen, 1)
    else if c == ')' then (CloseParen, 1)
    else if c == ',' then (Comma, 1)
    else if IsWhitespace(c) then (Whitespace, WhitespaceRun(s))
    else (Text(s[..TextRun(s)]), TextRun(s))
  }

  function Lex(s: string): seq<Token> {
    if s == "" then
      []
    else
      var (token, n) := NextToken(s);
      [token] + Lex(s[n..])
  }

  // ---------- Parsing ----------

  datatype Parsable =
    | OpenParenLabel | CloseParenLabel | CommaOrCloseParenLabel | FilterNameLabel
    | AgentIdLabel | EnvIdLabel | TransactionIdLabel | CannonIdLabel
    | EventKindLabel | NodeKeyLabel | NodeTargetLabel

  /** What stood where a token was expected: the end of the text or another token. */
  datatype Found = EndOfText | Other(token: Token)

  datatype ParseError =
    | InvalidFilter(name: string)
    | ExpectedToken(expected: Parsable, found: Found)
    | BadText(expected: Parsable)
    | TrailingTokens

  /** A parsed value and the tokens after it. */
  datatype Parsed<T> = Parsed(value: T, rest: seq<Token>)

  type Outcome<T> = Result<Parsed<T>, ParseError>

  predicate IsIdChar(c: char) {
    IsAlphanumeric(c) || c == '-' || c == '_' || c == '.'
  }

  /** The pattern of interned ids: a letter or digit and up to 63 more characters. */
  predicate IsId(s: string) {
    1 <= |s| <= 64 && IsAlphanumeric(s[0]) && forall i :: 0 <= i < |s| ==> IsIdChar(s[i])
  }

  function ParseId(s: string): Option<string> {
    if IsId(s) then Some(s) else None
  }

  function TrimTokens(ts: seq<Token>): (r: seq<Token>)
    ensures |r| <= |ts|
    ensures r != [] ==> r[0] != Whitespace
  {
    if ts != [] && ts[0].Whitespace? then TrimTokens(ts[1..]) else ts
  }

  function FoundAt(ts: seq<Token>): Found {
    if ts == [] then EndOfText else Other(ts[0])
  }

  function ExpectText(ts: seq<Token>, what: Parsable): (r: Outcome<string>)
    ensures r.Ok? ==> ts != [] && ts[0] == Text(r.value.value) && r.value.rest == ts[1..]
  {
    if ts != [] && ts[0].Text? then Ok(Parsed(ts[0].s, ts[1..])) else Err(ExpectedToken(what, FoundAt(ts)))
  }

  function Expect(ts: seq<Token>, token: Token, what: Parsable): (r: Result<seq<Token>, ParseError>)
    ensures r.Ok? ==> ts != [] && ts[0] == token && r.value == ts[1..]
  {
    if ts != [] && ts[0] == token then Ok(ts[1..]) else Err(ExpectedToken(what, FoundAt(ts)))
  }

  /** A text token whose trimmed text `parse` accepts. */
  function ExpectParsed<T>(ts: seq<Token>, what: Parsable, parse: string -> Option<T>): (r: Outcome<T>)
    ensures r.Ok? ==> ts != [] && ts[0].Text? && parse(Trim(ts[0].s)) == Some(r.value.value) && r.value.rest == ts[1..]
  {
    match ExpectText(ts, what)
    case Err(e) => Err(e)
    case Ok(p) =>
      match parse(Trim(p.value))
      case None => Err(BadText(what))
      case Some(v) => Ok(Parsed(v, p.rest))
  }

  /** One leaf argument of the filter called `name`. */
  function ParseLeaf(name: Name, ts: seq<Token>): (r: Outcome<EventFilter>)
    ensures r.Ok? ==> ts != [] && r.value.rest == ts[1..]
  {
    match name
    case AgentIsName =>
      (match ExpectParsed(ts, AgentIdLabel, ParseId) case Err(e) => Err(e) case Ok(p) => Ok(Parsed(AgentIs(p.value), p.rest)))
    case EnvIsName =>
      (match ExpectParsed(ts, EnvIdLabel, ParseId) case Err(e) => Err(e) case Ok(p) => Ok(Parsed(EnvIs(p.value), p.rest)))
    case CannonIsName =>
      (match ExpectParsed(ts, CannonIdLabel, ParseId) case Err(e) => Err(e) case Ok(p) => Ok(Parsed(CannonIs(p.value), p.rest)))
    case EventIsName =>
      (match ExpectParsed(ts, EventKindLabel, ParseKind) case Err(e) => Err(e) case Ok(p) => Ok(Parsed(EventIs(p.value), p.rest)))
    case NodeKeyIsName =>
      (match ExpectParsed(ts, NodeKeyLabel, ParseKey) case Err(e) => Err(e) case Ok(p) => Ok(Parsed(NodeKeyIs(p.value), p.rest)))
    case _ =>
      (match ExpectText(ts, TransactionIdLabel) case Err(e) => Err(e) case Ok(p) => Ok(Parsed(TransactionIs(p.value), p.rest)))
  }

  function Alone(name: Name): EventFilter {
    match name
    case HasAgentName => HasAgent
    case HasEnvName => HasEnv
    case HasTransactionName => HasTransaction
    case HasCannonName => HasCannon
    case HasNodeKeyName => HasNodeKey
    case _ => Unfiltered
  }

  function ParseFilter(ts: seq<Token>): (r: Outcome<EventFilter>)
    ensures r.Ok? ==> |r.value.rest| < |ts|
    decreases |ts|, 2
  {
    match ExpectText(TrimTokens(ts), FilterNameLabel)
    case Err(e) => Err(e)
    case Ok(p) =>
      var text := Trim(p.value);
      match ParseName(text)
      case None =>
        (match ParseKind(text)
         case Some(kind) => Ok(Parsed(EventIs(kind), p.rest))
         case None => Err(InvalidFilter(text)))
      case Some(name) =>
        if StandsAlone(name) then
          Ok(Parsed(Alone(name), p.rest))
        else
          match Expect(TrimTokens(p.rest), OpenParen, OpenParenLabel)
          case Err(e) => Err(e)
          case Ok(inner) =>
            match ParseArguments(name, TrimTokens(inner))
            case Err(e) => Err(e)
            case Ok(args) =>
              match Expect(args.rest, CloseParen, CloseParenLabel)
              case Err(e) => Err(e)
              case Ok(rest) => Ok(Parsed(args.value, rest))
  }

  function ParseArguments(name: Name, ts: seq<Token>): (r: Outcome<EventFilter>)
    requires !StandsAlone(name)
    ensures r.Ok? ==> |r.value.rest| <= |ts|
    decreases |ts|, 4
  {
    match name
    case AnyOfName =>
      (match ParseList(TrimTokens(ts)) case Err(e) => Err(e) case Ok(p) => Ok(Parsed(AnyOf(p.value), p.rest)))
    case AllOfName =>
      (match ParseList(TrimTokens(ts)) case Err(e) => Err(e) case Ok(p) => Ok(Parsed(AllOf(p.value), p.rest)))
    case OneOfName =>
      (match ParseList(TrimTokens(ts)) case Err(e) => Err(e) case Ok(p) => Ok(Parsed(OneOf(p.value), p.rest)))
    case NotName =>
      (match ParseFilter(ts) case Err(e) => Err(e) case Ok(p) => Ok(Parsed(Not(p.value), p.rest)))
    case NodeTargetIsName =>
      (match ParseTargetList(TrimTokens(ts)) case Err(e) => Err(e) case Ok(p) => Ok(Parsed(NodeTargetIs(TargetsFrom(p.value)), p.rest)))
    case _ => ParseLeaf(name, ts)
  }

  /** What follows an element of a list: the rest of the list after a comma, or its end. */
  datatype Following = More(rest: seq<Token>) | Done(rest: seq<Token>)

  function AfterElement(ts: seq<Token>): (r: Result<Following, ParseError>)
    ensures r.Ok? ==> |r.value.rest| <= |ts|
  {
    var trimmed := TrimTokens(ts);
    if trimmed != [] && trimmed[0].Comma? then Ok(More(TrimTokens(trimmed[1..])))
    else if trimmed != [] && trimmed[0].CloseParen? then Ok(Done(trimmed))
    else Err(ExpectedToken(CommaOrCloseParenLabel, FoundAt(trimmed)))
  }

  /** The filters up to a closing parenthesis, which is left in place. */
  function ParseList(ts: seq<Token>): (r: Outcome<seq<EventFilter>>)
    ensures r.Ok? ==> |r.value.rest| <= |ts|
    decreases |ts|, 3
  {
    if ts == [] then
      Err(ExpectedToken(CloseParenLabel, EndOfText))
    else if ts[0].CloseParen? then
      Ok(Parsed([], ts))
    else
      match ParseFilter(ts)
      case Err(e) => Err(e)
      case Ok(first) =>
        match AfterElement(first.rest)
        case Err(e) => Err(e)
        case Ok(Done(rest)) => Ok(Parsed([first.value], rest))
        case Ok(More(rest)) =>
          match ParseList(rest)
          case Err(e) => Err(e)
          case Ok(others) => Ok(Parsed([first.value] + others.value, others.rest))
  }

  function ParseTargetList(ts: seq<Token>): (r: Outcome<seq<NodeTarget>>)
    ensures r.Ok? ==> |r.value.rest| <= |ts|
    decreases |ts|
  {
    if ts == [] then
      Err(ExpectedToken(CloseParenLabel, EndOfText))
    else if ts[0].CloseParen? then
      Ok(Parsed([], ts))
    else
      match ExpectParsed(ts, NodeTargetLabel, ParseTarget)
      case Err(e) => Err(e)
      case Ok(first) =>
        match AfterElement(first.rest)
        case Err(e) => Err(e)
        case Ok(Done(rest)) => Ok(Parsed([first.value], rest))
        case Ok(More(rest)) =>
          match ParseTargetList(rest)
          case Err(e) => Err(e)
          case Ok(others) => Ok(Parsed([first.value] + others.value, others.rest))
  }

  /** Parse a whole text. */
  function Parse(s: string): Result<EventFilter, ParseError> {
    match ParseFilter(Lex(s))
    case Err(e) => Err(e)
    case Ok(p) => if TrimTokens(p.rest) == [] then Ok(p.value) else Err(TrailingTokens)
  }
}
