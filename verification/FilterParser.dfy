/**
 The lexer and the recursive-descent parser as the program runs them: a lexer
 that consumes characters, a parser that consumes tokens one ahead.  Each
 method is tied to the grammar in FilterText; all of them terminate.
 */
module FilterParser {
  import opened Wrappers
  import opened Text
  import opened Nodes
  import opened Filter
  import opened FilterText

  class Lexer {
    var chars: string // not yet read

    constructor (s: string)
      ensures chars == s
    {
      chars := s;
    }

    /** The next token, or none at the end of the text. */
    method Next() returns (token: Option<Token>)
      modifies this
      ensures old(chars) == "" ==> token == None && chars == ""
      ensures old(chars) != "" ==>
        var (first, n) := NextToken(old(chars));
        token == Some(first) && chars == old(chars)[n..]
    {
      if chars == "" {
        return None;
      }
      var c := chars[0];
      var n := 1;
      if c == '(' {
        token := Some(OpenParen);
      } else if c == ')' {
        token := Some(CloseParen);
      } else if c == ',' {
        token := Some(Comma);
      } else if IsWhitespace(c) {
        while n < |chars| && IsWhitespace(chars[n])
          invariant 1 <= n <= |chars|
          invariant WhitespaceRun(chars) == n + WhitespaceRun(chars[n..])
        {
          assert chars[n..][1..] == chars[n + 1..];
          n := n + 1;
        }
        token := Some(Whitespace);
      } else {
        while n < |chars| && !IsDelimiter(chars[n])
          invariant 1 <= n <= |chars|
          invariant TextRun(chars) == n + TextRun(chars[n..])
        {
          assert chars[n..][1..] == chars[n + 1..];
          n := n + 1;
        }
        token := Some(Text(chars[..n]));
      }
      chars := chars[n..];
    }
  }

  function First(ts: seq<Token>): Option<Token> {
    if ts == [] then None else Some(ts[0])
  }

  function Rest(ts: seq<Token>): seq<Token> {
    if ts == [] then [] else ts[1..]
  }

  function FoundToken(token: Option<Token>): Found {
    match token
    case None => EndOfText
    case Some(t) => Other(t)
  }

  /** A method's result and the tokens it leaves agree with the grammar. */
  ghost predicate Agrees<T>(grammar: Outcome<T>, r: Result<T, ParseError>, rest: seq<Token>) {
    match r
    case Ok(v) => grammar == Ok(Parsed(v, rest))
    case Err(e) => grammar == Err(e)
  }

  /** A list parsed so far, continued by what the grammar makes of the remaining tokens. */
  function Continued<T>(before: seq<T>, grammar: Outcome<seq<T>>): Outcome<seq<T>> {
    match grammar
    case Ok(p) => Ok(Parsed(before + p.value, p.rest))
    case Err(e) => Err(e)
  }

  lemma {:induction false} ContinuedFromNothing<T>(grammar: Outcome<seq<T>>)
    ensures Continued([], grammar) == grammar
  {
    if grammar.Ok? {
      assert [] + grammar.value.value == grammar.value.value;
    }
  }

  /** One round of the loop that pushes filters. */
  lemma {:induction false} FiltersStep(before: seq<EventFilter>, ts: seq<Token>)
    ensures
      Continued(before, ParseList(ts)) ==
        if ts == [] then Err(ExpectedToken(CloseParenLabel, EndOfText))
        else if ts[0].CloseParen? then Ok(Parsed(before, ts))
        else
          match ParseFilter(ts)
          case Err(e) => Err(e)
          case Ok(p) =>
            match AfterElement(p.rest)
            case Err(e) => Err(e)
            case Ok(Done(rest)) => Ok(Parsed(before + [p.value], rest))
            case Ok(More(rest)) => Continued(before + [p.value], ParseList(rest))
  {
    hide ParseFilter, AfterElement;
    assert before + [] == before;
    if ts != [] && !ts[0].CloseParen? && ParseFilter(ts).Ok? {
      var p := ParseFilter(ts).value;
      if AfterElement(p.rest).Ok? && AfterElement(p.rest).value.More? {
        var others := ParseList(AfterElement(p.rest).value.rest);
        if others.Ok? {
          assert before + ([p.value] + others.value.value) == (before + [p.value]) + others.value.value;
        }
      }
    }
  }

  /** One round of the loop that pushes node targets. */
  lemma {:induction false} TargetsStep(before: seq<NodeTarget>, ts: seq<Token>)
    ensures
      Continued(before, ParseTargetList(ts)) ==
        if ts == [] then Err(ExpectedToken(CloseParenLabel, EndOfText))
        else if ts[0].CloseParen? then Ok(Parsed(before, ts))
        else
          match ExpectParsed(ts, NodeTargetLabel, ParseTarget)
          case Err(e) => Err(e)
          case Ok(p) =>
            match AfterElement(p.rest)
            case Err(e) => Err(e)
            case Ok(Done(rest)) => Ok(Parsed(before + [p.value], rest))
            case Ok(More(rest)) => Continued(before + [p.value], ParseTargetList(rest))
  {
    hide ExpectParsed, AfterElement;
    assert before + [] == before;
    var first := ExpectParsed(ts, NodeTargetLabel, ParseTarget);
    if ts != [] && !ts[0].CloseParen? && first.Ok? {
      var p := first.value;
      if AfterElement(p.rest).Ok? && AfterElement(p.rest).value.More? {
        var others := ParseTargetList(AfterElement(p.rest).value.rest);
        if others.Ok? {
          assert before + ([p.value] + others.value.value) == (before + [p.value]) + others.value.value;
        }
      }
    }
  }

  class Parser {
    const lexer: Lexer
    var peeked: Option<Option<Token>> // one token read ahead

    constructor (s: string)
      ensures fresh(lexer) && Valid() && Tokens() == Lex(s)
    {
      lexer := new Lexer(s);
      peeked := None;
    }

    ghost predicate Valid()
      reads this, lexer
    {
      peeked == Some(None) ==> lexer.chars == ""
    }

    /** The tokens still to come. */
    ghost function Tokens(): seq<Token>
      reads this, lexer
    {
      match peeked
      case None => Lex(lexer.chars)
      case Some(None) => []
      case Some(Some(token)) => [token] + Lex(lexer.chars)
    }

    method Next() returns (token: Option<Token>)
      requires Valid()
      modifies this, lexer
      ensures Valid() && token == First(old(Tokens())) && Tokens() == Rest(old(Tokens()))
    {
      if peeked.Some? {
        token := peeked.value;
        peeked := None;
      } else {
        token := lexer.Next();
      }
    }

    method Peek() returns (token: Option<Token>)
      requires Valid()
      modifies this, lexer
      ensures Valid() && token == First(Tokens()) && Tokens() == old(Tokens())
    {
      if peeked.None? {
        var next := lexer.Next();
        peeked := Some(next);
      }
      token := peeked.value;
    }

    method TrimWhitespace()
      requires Valid()
      modifies this, lexer
      ensures Valid() && Tokens() == TrimTokens(old(Tokens()))
    {
      hide Lex;
      var token := Peek();
      while token == Some(Whitespace)
        invariant Valid() && token == First(Tokens())
        invariant TrimTokens(Tokens()) == TrimTokens(old(Tokens()))
        decreases |Tokens()|
      {
        var _ := Next();
        token := Peek();
      }
    }

    /** The text of the next token. */
    method NextText(what: Parsable) returns (r: Result<string, ParseError>)
      requires Valid()
      modifies this, lexer
      ensures Valid() && Agrees(ExpectText(old(Tokens()), what), r, Tokens())
    {
      hide Lex;
      var token := Next();
      if token.Some? && token.value.Text? {
        return Ok(token.value.s);
      }
      return Err(ExpectedToken(what, FoundToken(token)));
    }

    /** The next token must be `expected`. */
    method NextIs(expected: Token, what: Parsable) returns (r: Result<(), ParseError>)
      requires Valid()
      modifies this, lexer
      ensures Valid()
      ensures r.Ok? ==> Expect(old(Tokens()), expected, what) == Ok(Tokens())
      ensures r.Err? ==> Expect(old(Tokens()), expected, what) == Err(r.error)
    {
      hide Lex;
      var token := Next();
      if token == Some(expected) {
        return Ok(());
      }
      return Err(ExpectedToken(what, FoundToken(token)));
    }

    /** Trimmed text that `parse` accepts. */
    method NextParsed<T>(what: Parsable, parse: string -> Option<T>) returns (r: Result<T, ParseError>)
      requires Valid()
      modifies this, lexer
      ensures Valid() && Agrees(ExpectParsed(old(Tokens()), what, parse), r, Tokens())
    {
      hide Lex, Trim;
      var text := NextText(what);
      if text.Err? {
        return Err(text.error);
      }
      match parse(Trim(text.value)) {
        case None => return Err(BadText(what));
        case Some(v) => return Ok(v);
      }
    }

    method ExpectFilter() returns (r: Result<EventFilter, ParseError>)
      requires Valid()
      modifies this, lexer
      ensures Valid() && Agrees(ParseFilter(old(Tokens())), r, Tokens())
      decreases |Tokens()|, 2
    {
      hide Lex, Trim, ParseName, ParseKind, ParseArguments;
      TrimWhitespace();
      var text := NextText(FilterNameLabel);
      if text.Err? {
        return Err(text.error);
      }
      var trimmed := Trim(text.value);
      match ParseName(trimmed) {
        case None =>
          match ParseKind(trimmed) {
            case None => return Err(InvalidFilter(trimmed));
            case Some(kind) => return Ok(EventIs(kind));
          }
        case Some(name) =>
          if StandsAlone(name) {
            return Ok(Alone(name));
          }
          TrimWhitespace();
          var open := NextIs(OpenParen, OpenParenLabel);
          if open.Err? {
            return Err(open.error);
          }
          TrimWhitespace();
          r := Arguments(name);
          if r.Err? {
            return;
          }
          var close := NextIs(CloseParen, CloseParenLabel);
          if close.Err? {
            return Err(close.error);
          }
      }
    }

    /** What stands in the parentheses after `name`. */
    method Arguments(name: Name) returns (r: Result<EventFilter, ParseError>)
      requires Valid() && !StandsAlone(name)
      modifies this, lexer
      ensures Valid() && Agrees(ParseArguments(name, old(Tokens())), r, Tokens())
      decreases |Tokens()|, 4
    {
      hide Lex, ParseFilter, ParseList, ParseTargetList, ParseLeaf;
      if name.AnyOfName? || name.AllOfName? || name.OneOfName? {
        var list := Filters();
        match list {
          case Err(e) => return Err(e);
          case Ok(v) => return Ok(if name.AnyOfName? then AnyOf(v) else if name.AllOfName? then AllOf(v) else OneOf(v));
        }
      } else if name.NotName? {
        var inner := ExpectFilter();
        match inner {
          case Err(e) => return Err(e);
          case Ok(v) => return Ok(Not(v));
        }
      } else if name.NodeTargetIsName? {
        var list := Targets();
        match list {
          case Err(e) => return Err(e);
          case Ok(v) => return Ok(NodeTargetIs(TargetsFrom(v)));
        }
      } else {
        r := Leaf(name);
      }
    }

    method Leaf(name: Name) returns (r: Result<EventFilter, ParseError>)
      requires Valid()
      modifies this, lexer
      ensures Valid() && Agrees(ParseLeaf(name, old(Tokens())), r, Tokens())
    {
      hide Lex, ExpectParsed, ParseId, ParseKind, ParseKey;
      if name.AgentIsName? {
        var v := NextParsed(AgentIdLabel, ParseId);
        return match v case Ok(id) => Ok(AgentIs(id)) case Err(e) => Err(e);
      } else if name.EnvIsName? {
        var v := NextParsed(EnvIdLabel, ParseId);
        return match v case Ok(id) => Ok(EnvIs(id)) case Err(e) => Err(e);
      } else if name.CannonIsName? {
        var v := NextParsed(CannonIdLabel, ParseId);
        return match v case Ok(id) => Ok(CannonIs(id)) case Err(e) => Err(e);
      } else if name.EventIsName? {
        var v := NextParsed(EventKindLabel, ParseKind);
        return match v case Ok(kind) => Ok(EventIs(kind)) case Err(e) => Err(e);
      } else if name.NodeKeyIsName? {
        var v := NextParsed(NodeKeyLabel, ParseKey);
        return match v case Ok(key) => Ok(NodeKeyIs(key)) case Err(e) => Err(e);
      } else {
        var v := NextText(TransactionIdLabel);
        return match v case Ok(s) => Ok(TransactionIs(s)) case Err(e) => Err(e);
      }
    }

    /** What follows a list element: true to read another one. */
    method Separator() returns (r: Result<bool, ParseError>)
      requires Valid()
      modifies this, lexer
      ensures Valid()
      ensures
        var after := AfterElement(old(Tokens()));
        match r
        case Err(e) => after == Err(e)
        case Ok(true) => after == Ok(More(Tokens()))
        case Ok(false) => after == Ok(Done(Tokens()))
    {
      hide Lex;
      TrimWhitespace();
      var token := Peek();
      if token == Some(Comma) {
        var _ := Next();
        TrimWhitespace();
        return Ok(true);
      }
      if token == Some(CloseParen) {
        return Ok(false);
      }
      return Err(ExpectedToken(CommaOrCloseParenLabel, FoundToken(token)));
    }

    /** A comma separated list of filters, pushed one by one. */
    method Filters() returns (r: Result<seq<EventFilter>, ParseError>)
      requires Valid()
      modifies this, lexer
      ensures Valid() && Agrees(ParseList(TrimTokens(old(Tokens()))), r, Tokens())
      decreases |Tokens()|, 3
    {
      hide Lex, ParseFilter, ParseList, AfterElement;
      TrimWhitespace();
      ghost var all := ParseList(Tokens());
      ContinuedFromNothing(all);
      var filters: seq<EventFilter> := [];
      var more := true;
      while more
        invariant Valid() && |Tokens()| <= |old(Tokens())|
        invariant more ==> all == Continued(filters, ParseList(Tokens()))
        invariant !more ==> all == Ok(Parsed(filters, Tokens()))
        decreases more, |Tokens()|
      {
        var token := Peek();
        FiltersStep(filters, Tokens());
        if token == Some(CloseParen) {
          break;
        }
        if token == None {
          return Err(ExpectedToken(CloseParenLabel, EndOfText));
        }
        var filter := ExpectFilter();
        if filter.Err? {
          return Err(filter.error);
        }
        filters := filters + [filter.value];
        var separator := Separator();
        if separator.Err? {
          return Err(separator.error);
        }
        more := separator.value;
      }
      return Ok(filters);
    }

    method Targets() returns (r: Result<seq<NodeTarget>, ParseError>)
      requires Valid()
      modifies this, lexer
      ensures Valid() && Agrees(ParseTargetList(TrimTokens(old(Tokens()))), r, Tokens())
    {
      hide Lex, ExpectParsed, ParseTargetList, AfterElement;
      TrimWhitespace();
      ghost var all := ParseTargetList(Tokens());
      ContinuedFromNothing(all);
      var targets: seq<NodeTarget> := [];
      var more := true;
      while more
        invariant Valid()
        invariant more ==> all == Continued(targets, ParseTargetList(Tokens()))
        invariant !more ==> all == Ok(Parsed(targets, Tokens()))
        decreases more, |Tokens()|
      {
        var token := Peek();
        TargetsStep(targets, Tokens());
        if token == Some(CloseParen) {
          break;
        }
        if token == None {
          return Err(ExpectedToken(CloseParenLabel, EndOfText));
        }
        var target := NextParsed(NodeTargetLabel, ParseTarget);
        if target.Err? {
          return Err(target.error);
        }
        targets := targets + [target.value];
        var separator := Separator();
        if separator.Err? {
          return Err(separator.error);
        }
        more := separator.value;
      }
      return Ok(targets);
    }
  }

  /** Parse a filter from a whole text. */
  method FromStr(s: string) returns (r: Result<EventFilter, ParseError>)
    ensures r == Parse(s)
  {
    hide Lex, ParseFilter;
    var parser := new Parser(s);
    r := parser.ExpectFilter();
    if r.Err? {
      return;
    }
    parser.TrimWhitespace();
    var token := parser.Next();
    if token.Some? {
      r := Err(TrailingTokens);
    }
  }
}
