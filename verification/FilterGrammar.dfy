/**
 The grammar of filters.  The parser accepts exactly the texts of written
 sources: whatever it reads as a filter is the text of a source that means it.
 */
module FilterGrammar {
  import opened Wrappers
  import opened Text
  import opened Nodes
  import opened Filter
  import opened FilterText
  import opened FilterProofs
  import opened FilterSource

  // ---------- Words ----------

  lemma {:induction false} TrimEndSplit(s: string)
    ensures TrimEnd(s) <= s && Blank(s[|TrimEnd(s)|..])
  {
    if s != "" && IsWhitespace(s[|s| - 1]) {
      var front := s[..|s| - 1];
      TrimEndSplit(front);
      var n := |TrimEnd(front)|;
      assert front[..n] == s[..n];
      assert s[n..] == front[n..] + [s[|s| - 1]];
    }
  }

  /** The six characters that count as whitespace: space, tab, line feed, vertical tab, form feed, carriage return. */
  lemma {:induction false} WhitespaceIs(c: char)
    ensures IsWhitespace(c) <==> c as int in {9, 10, 11, 12, 13, 32}
  {
  }

  /** Trimming takes the whitespace off both ends and nothing else. */
  lemma {:induction false} TrimMeans(s: string) returns (pre: string, post: string)
    ensures s == pre + (Trim(s) + post) && Blank(pre) && Blank(post)
    ensures Trim(s) != "" ==> !IsWhitespace(Trim(s)[0]) && !IsWhitespace(Trim(s)[|Trim(s)| - 1])
    decreases |s|
  {
    if s != "" && IsWhitespace(s[0]) {
      pre, post := TrimMeans(s[1..]);
      pre := [s[0]] + pre;
      assert Trim(s) == Trim(s[1..]);
    } else {
      pre := "";
      TrimEndSplit(s);
      TrimEndStops(s);
      post := s[|Trim(s)|..];
    }
  }

  lemma {:induction false} TrimEndStops(s: string)
    ensures TrimEnd(s) != "" ==> !IsWhitespace(TrimEnd(s)[|TrimEnd(s)| - 1])
  {
    if s != "" && IsWhitespace(s[|s| - 1]) {
      TrimEndStops(s[..|s| - 1]);
    }
  }

  /** A text of a token is a word and whitespace. */
  lemma {:induction false} TrimSplit(t: string) returns (post: string)
    requires t != "" && !IsWhitespace(t[0])
    ensures t == Trim(t) + post && Blank(post)
  {
    assert TrimStart(t) == t;
    TrimEndSplit(t);
    post := t[|Trim(t)|..];
  }

  /** Ids, character by character: a letter or digit, then letters, digits, dashes, underscores and dots, 64 in all. */
  lemma {:induction false} IdMeans(s: string, c: char)
    ensures !IsId("") && (IsId([c]) <==> IsAlphanumeric(c))
    ensures s != "" ==> (IsId(s + [c]) <==> IsId(s) && (IsAlphanumeric(c) || c in "-_.") && |s| < 64)
  {
    hide IsAlphanumeric;
    var all := s + [c];
    assert all[|s|] == c && forall i :: 0 <= i < |s| ==> all[i] == s[i];
    assert "-_." == ['-', '_', '.'];
  }

  lemma {:induction false} NameOfText(s: string)
    requires ParseName(s).Some?
    ensures s == NameText(ParseName(s).value)
  {
  }

  lemma {:induction false} CutAt(s: string, i: nat)
    requires i < |s|
    ensures s == s[..i] + ([s[i]] + s[i + 1..])
  {
  }

  lemma {:induction false} PiecesJoin(s: string)
    requires SplitPieces(s).Some?
    ensures s == JoinPieces(SplitPieces(s).value.ty, SplitPieces(s).value.id, SplitPieces(s).value.ns)
  {
    hide Find;
    var slash := Find(s, '/');
    var rest := s[slash + 1..];
    var at := Find(rest, '@');
    CutAt(s, slash);
    PiecesOf(s[..slash], rest);
    if at < |rest| {
      CutAt(rest, at);
    } else {
      assert rest[..at] + "" == rest;
    }
  }

  lemma {:induction false} PiecesOf(ty: string, rest: string)
    ensures ty + (['/'] + rest) == ty + ['/'] + rest
  {
  }

  lemma {:induction false} KeyOfText(s: string)
    requires ParseKey(s).Some?
    ensures Spells(s, NodeKeyIs(ParseKey(s).value))
  {
    hide SplitPieces, ParseType, IsKeyText;
    PiecesJoin(s);
  }

  lemma {:induction false} TypeOfText(s: string) returns (ty: TypeSource)
    requires ParseTargetType(s).Some?
    ensures TypeWord(ty) == s
    ensures ParseTargetType(s).value == (match ty case AnyType(_) => AllTypes case NamedType(t) => OneType(t))
  {
    if s == "*" || s == "any" {
      ty := AnyType(s == "*");
    } else {
      ty := NamedType(ParseType(s).value);
    }
  }

  /** The word of a target and what is written in it. */
  lemma {:induction false} TargetOfText(s: string, pre: string, post: string) returns (t: TargetSource)
    requires ParseTarget(s).Some? && Blank(pre) && Blank(post)
    ensures TargetWritten(t) && t.pre == pre && t.post == post
    ensures TargetWord(t) == s && TargetMeaning(t) == ParseTarget(s).value
  {
    hide SplitPieces, ParseTargetType, JoinPieces, Collapse, IsTargetText, Blank, ParseTargetId, ParseNamespace;
    PiecesJoin(s);
    var p := SplitPieces(s).value;
    var ty := TypeOfText(p.ty);
    var id := IdOfText(p.id);
    var ns := SpaceOfText(p.ns);
    t := TargetSource(pre, ty, id, ns, post);
  }

  lemma {:induction false} IdOfText(s: string) returns (id: IdSource)
    requires ParseTargetId(s).Some?
    ensures IdWord(id) == s
    ensures ParseTargetId(s).value ==
      match id case AnyId(_) => AllIds case PatternId(p) => WildcardPattern(Collapse(p)) case PlainId(i) => LiteralId(i)
    ensures match id
            case AnyId(_) => true
            case PatternId(p) => IsTargetText(p) && '*' in p && p != "*"
            case PlainId(i) => IsTargetText(i) && '*' !in i && i != "any"
  {
    if s == "*" || s == "any" {
      id := AnyId(s == "*");
    } else if '*' in s {
      id := PatternId(s);
    } else {
      id := PlainId(s);
    }
  }

  lemma {:induction false} SpaceOfText(s: Option<string>) returns (ns: SpaceSource)
    requires ParseNamespace(s).Some?
    ensures SpaceWord(ns) == s
    ensures ParseNamespace(s).value ==
      match ns case AnyName(_) => AllNamespaces case NamedSpace(n) => LiteralNamespace(n) case _ => Local
    ensures ns.NamedSpace? ==> IsTargetText(ns.ns) && ns.ns != "*" && ns.ns != "any" && ns.ns != "local"
  {
    match s
    case None => ns := NoSpaceName;
    case Some(n) =>
      if n == "*" || n == "any" {
        ns := AnyName(n == "*");
      } else if n == "local" {
        ns := LocalName;
      } else {
        ns := NamedSpace(n);
      }
  }

  // ---------- Tokens ----------

  lemma {:induction false} LexedSpace(s: string)
    requires s != "" && IsWhitespace(s[0])
    ensures Lex(s) == [Whitespace] + Lex(s[WhitespaceRun(s)..])
  {
    assert !IsDelimiter(s[0]);
  }

  lemma {:induction false} TrimSkips(ts: seq<Token>)
    ensures TrimTokens([Whitespace] + ts) == TrimTokens(ts)
  {
    assert ([Whitespace] + ts)[1..] == ts;
  }

  /** The text before the first token that is not whitespace is blank. */
  lemma {:induction false} LexTrim(s: string) returns (pre: string, rest: string)
    ensures s == pre + rest && Blank(pre) && Lex(rest) == TrimTokens(Lex(s))
    ensures rest != "" ==> !IsWhitespace(rest[0])
  {
    hide Lex, TrimTokens;
    var n := WhitespaceRun(s);
    RunIsBlank(s);
    pre, rest := s[..n], s[n..];
    StartIsTrimmed(rest);
    if s != "" && IsWhitespace(s[0]) {
      LexedSpace(s);
      TrimSkips(Lex(rest));
    } else {
      assert rest == s;
    }
  }

  lemma {:induction false} RunIsBlank(s: string)
    ensures Blank(s[..WhitespaceRun(s)])
  {
    if s != "" && IsWhitespace(s[0]) {
      RunIsBlank(s[1..]);
      var n := WhitespaceRun(s);
      assert s[..n] == [s[0]] + s[1..][..n - 1];
    }
  }

  lemma {:induction false} StartIsTrimmed(s: string)
    requires s != "" ==> !IsWhitespace(s[0])
    ensures TrimTokens(Lex(s)) == Lex(s)
  {
  }

  lemma {:induction false} RunStops(s: string)
    ensures Boundary(s[TextRun(s)..])
  {
    if s != "" && !IsDelimiter(s[0]) {
      RunStops(s[1..]);
      assert s[TextRun(s)..] == s[1..][TextRun(s[1..])..];
    }
  }

  /** A text token is a stretch of the text up to a delimiter. */
  lemma {:induction false} LexedText(s: string) returns (rest: string)
    requires Lex(s) != [] && Lex(s)[0].Text?
    ensures s == Lex(s)[0].s + rest && TextOk(Lex(s)[0].s) && Lex(s)[1..] == Lex(rest) && Boundary(rest)
    ensures TrimTokens(Lex(rest)) == Lex(rest)
  {
    var n := TextRun(s);
    RunStops(s);
    rest := s[n..];
    assert s == s[..n] + rest;
    StartIsTrimmed(rest);
  }

  lemma {:induction false} LexedDelimiter(s: string, c: char, token: Token)
    requires (c == '(' && token == OpenParen) || (c == ')' && token == CloseParen) || (c == ',' && token == Comma)
    requires Lex(s) != [] && Lex(s)[0] == token
    ensures s == [c] + s[1..] && Lex(s)[1..] == Lex(s[1..])
  {
  }

  // ---------- Filters ----------

  /** A filter read at the start of `s`: its source has no whitespace after a closing parenthesis yet. */
  ghost predicate ReadsAs(s: string, src: Source, rest: string) {
    && Written(src) && After(src) == ""
    && s == src.pre + Core(src) + rest
    && (!HasArguments(src) ==> Boundary(rest))
    && ParseFilter(Lex(s)) == Ok(Parsed(Meaning(src), Lex(rest)))
  }

  lemma {:induction false} Ahead(s: string) returns (pre: string, t: string, rest: string, post: string)
    requires ParseFilter(Lex(s)).Ok?
    ensures s == pre + t + rest && Blank(pre) && t != "" && Boundary(rest)
    ensures t == Trim(t) + post && Blank(post)
    ensures Lex(pre + t + rest) == Lex(s)
    ensures TrimTokens(Lex(s)) == [Text(t)] + Lex(rest) && TrimTokens(Lex(rest)) == Lex(rest)
  {
    hide Trim, Lex, TrimTokens;
    var r;
    pre, r := LexTrim(s);
    FirstIsText(Lex(s));
    rest := LexedText(r);
    t := Lex(r)[0].s;
    post := TrimSplit(t);
    assert Lex(r) == [Lex(r)[0]] + Lex(r)[1..];
    assert pre + (t + rest) == pre + t + rest;
  }

  lemma {:induction false} FirstIsText(ts: seq<Token>)
    requires ParseFilter(ts).Ok?
    ensures TrimTokens(ts) != [] && TrimTokens(ts)[0].Text?
  {
  }

  /** A word without arguments. */
  lemma {:induction false} WordHasSource(s: string, pre: string, t: string, rest: string, post: string) returns (src: Source)
    requires ParseFilter(Lex(s)).Ok? && s == pre + t + rest && Blank(pre) && Blank(post) && t == Trim(t) + post && Boundary(rest)
    requires TrimTokens(Lex(s)) == [Text(t)] + Lex(rest)
    requires ParseName(Trim(t)).None? || StandsAlone(ParseName(Trim(t)).value)
    ensures ReadsAs(s, src, rest)
  {
    hide Lex, Trim, ParseName, ParseKind, NameText, KindText, TrimTokens, Blank, Boundary;
    var ts := TrimTokens(Lex(s));
    assert ts[0] == Text(t) && ts[1..] == Lex(rest);
    var word := Trim(t);
    if ParseName(word).None? {
      src := Kind(pre, ParseKind(word).value, post);
    } else {
      NameOfText(word);
      AloneIsNamed(ParseName(word).value);
      src := Source.Alone(pre, FilterText.Alone(ParseName(word).value), post);
    }
  }

  lemma {:induction false} AloneIsNamed(name: Name)
    requires StandsAlone(name)
    ensures NameOf(FilterText.Alone(name)) == name
  {
  }

  /** What a name with arguments is made of. */
  lemma {:induction false} CallShape(s: string, t: string, rest: string) returns (inner: string)
    requires ParseFilter(Lex(s)).Ok? && TrimTokens(Lex(s)) == [Text(t)] + Lex(rest) && TrimTokens(Lex(rest)) == Lex(rest)
    requires ParseName(Trim(t)).Some? && !StandsAlone(ParseName(Trim(t)).value)
    ensures rest == "(" + inner
    ensures ParseArguments(ParseName(Trim(t)).value, TrimTokens(Lex(inner))).Ok?
    ensures var args := ParseArguments(ParseName(Trim(t)).value, TrimTokens(Lex(inner))).value;
      args.rest != [] && args.rest[0].CloseParen? && ParseFilter(Lex(s)).value == Parsed(args.value, args.rest[1..])
  {
    hide Lex, Trim, ParseName, TrimTokens, ParseArguments, StandsAlone;
    var ts := TrimTokens(Lex(s));
    assert ts[0] == Text(t) && ts[1..] == Lex(rest);
    assert Lex(rest) != [] && Lex(rest)[0] == OpenParen;
    LexedDelimiter(rest, '(', OpenParen);
    inner := rest[1..];
  }

  lemma {:induction false} FilterHasSource(s: string) returns (src: Source, rest: string)
    requires ParseFilter(Lex(s)).Ok?
    ensures ReadsAs(s, src, rest)
    decreases |s|, 2
  {
    hide Lex, Trim, ParseName, TrimTokens, ParseArguments, StandsAlone, ParseFilter, Blank, ReadsAs, NameText;
    var pre, t, after, post := Ahead(s);
    var name := ParseName(Trim(t));
    if name.None? || StandsAlone(name.value) {
      rest := after;
      src := WordHasSource(s, pre, t, rest, post);
    } else {
      var inner := CallShape(s, t, after);
      NameOfText(Trim(t));
      var tail;
      src, tail := ArgumentsHaveSource(name.value, pre, post, inner);
      var args := ParseArguments(name.value, TrimTokens(Lex(inner))).value;
      assert Lex(tail) == args.rest;
      LexedDelimiter(tail, ')', CloseParen);
      rest := tail[1..];
      CallReads(s, src, t, inner, rest);
    }
  }

  /** Putting a call together again. */
  lemma {:induction false} CallReads(s: string, src: Source, t: string, inner: string, rest: string)
    requires Written(src) && HasArguments(src) && After(src) == "" && Word(src) == t
    requires s == src.pre + t + ("(" + inner) && inner == Inner(src) + ([')'] + rest)
    requires ParseFilter(Lex(s)) == Ok(Parsed(Meaning(src), Lex(rest)))
    ensures ReadsAs(s, src, rest)
  {
    hide Lex, ParseFilter, Written, Word, Inner, Meaning;
    calc {
      s;
      src.pre + t + ("(" + (Inner(src) + ([')'] + rest)));
      src.pre + (t + "(" + Inner(src) + ")") + rest;
    }
  }

  /** The source of a call whose arguments start `inner`; its closing parenthesis is the next character. */
  lemma {:induction false} ArgumentsHaveSource(name: Name, pre: string, gap: string, inner: string) returns (src: Source, tail: string)
    requires !StandsAlone(name) && Blank(pre) && Blank(gap)
    requires ParseArguments(name, TrimTokens(Lex(inner))).Ok?
    requires
      var args := ParseArguments(name, TrimTokens(Lex(inner))).value;
      args.rest != [] && args.rest[0].CloseParen?
    ensures Written(src) && HasArguments(src) && src.pre == pre && src.post == "" && Word(src) == NameText(name) + gap
    ensures inner == Inner(src) + tail
    ensures ParseArguments(name, TrimTokens(Lex(inner))) == Ok(Parsed(Meaning(src), Lex(tail)))
    decreases |inner|, 4
  {
    hide Lex, TrimTokens, ParseList, ParseTargetList, ParseLeaf, ParseFilter, NameText, Blank, ReadsAs;
    TrimTwice(Lex(inner));
    match name {
      case AnyOfName => src, tail := ListHasSource(AnyOfName, pre, gap, inner);
      case AllOfName => src, tail := ListHasSource(AllOfName, pre, gap, inner);
      case OneOfName => src, tail := ListHasSource(OneOfName, pre, gap, inner);
      case NodeTargetIsName => src, tail := TargetsHaveSource(pre, gap, inner);
      case NotName =>
        ParseTrims(Lex(inner));
        var negated;
        negated, tail := FilterHasSource(inner);
        src := NegationOf(negated, pre, gap, inner, tail);
      case _ => src, tail := LeafHasSource(name, pre, gap, inner);
    }
  }

  lemma {:induction false} NegationOf(negated: Source, pre: string, gap: string, inner: string, tail: string) returns (src: Source)
    requires ReadsAs(inner, negated, tail) && Blank(pre) && Blank(gap)
    ensures Written(src) && HasArguments(src) && src.pre == pre && src.post == "" && Word(src) == NameText(NotName) + gap
    ensures inner == Inner(src) + tail && Meaning(src) == Not(Meaning(negated))
    ensures ParseFilter(Lex(inner)) == Ok(Parsed(Meaning(negated), Lex(tail)))
  {
    hide Lex, ParseFilter, NameText, Core, Meanings;
    src := Negation(pre, gap, negated, "");
    assert Core(negated) + "" == Core(negated);
    assert Inner(src) == negated.pre + Core(negated);
  }

  // ---------- One argument ----------

  lemma {:induction false} LeafOfText(name: Name, ts: seq<Token>, t: string) returns (filter: EventFilter)
    requires ts != [] && ts[0] == Text(t) && ParseLeaf(name, ts).Ok? && TextOk(t)
    requires name.AgentIsName? || name.EnvIsName? || name.CannonIsName? || name.EventIsName? || name.NodeKeyIsName? || name.TransactionIsName?
    ensures NameOf(filter) == name && ParseLeaf(name, ts) == Ok(Parsed(filter, ts[1..]))
    ensures Spells(if name.TransactionIsName? then t else Trim(t), filter)
  {
    hide Trim, ParseKind, ParseKey, KindText, IsId;
    filter := ParseLeaf(name, ts).value.value;
    match name {
      case NodeKeyIsName => KeyOfText(Trim(t));
      case _ =>
    }
  }

  lemma {:induction false} LeafStartsText(name: Name, ts: seq<Token>)
    requires ParseLeaf(name, ts).Ok?
    ensures ts != [] && ts[0].Text?
  {
  }

  lemma {:induction false} LeafHasSource(name: Name, pre: string, gap: string, inner: string) returns (src: Source, tail: string)
    requires name.AgentIsName? || name.EnvIsName? || name.CannonIsName? || name.EventIsName? || name.NodeKeyIsName? || name.TransactionIsName?
    requires ParseLeaf(name, TrimTokens(Lex(inner))).Ok? && Blank(pre) && Blank(gap)
    ensures Written(src) && HasArguments(src) && src.pre == pre && src.post == "" && Word(src) == NameText(name) + gap
    ensures inner == Inner(src) + tail
    ensures ParseLeaf(name, TrimTokens(Lex(inner))) == Ok(Parsed(Meaning(src), Lex(tail)))
  {
    hide Lex, Trim, TrimTokens, ParseLeaf, Spells, NameText, Blank;
    var open, r := LexTrim(inner);
    LeafStartsText(name, Lex(r));
    tail := LexedText(r);
    var t := Lex(r)[0].s;
    var filter := LeafOfText(name, Lex(r), t);
    var post := TrimSplit(t);
    if name.TransactionIsName? {
      assert Blank("") by { BlankNothing(); }
      assert t + "" == t;
      src := Source.Leaf(pre, gap, open, t, filter, "", "");
    } else {
      src := Source.Leaf(pre, gap, open, Trim(t), filter, post, "");
    }
    BlankNothing();
    assert inner == (open + t) + tail;
  }

  lemma {:induction false} BlankNothing()
    ensures Blank("")
  {
  }

  // ---------- Lists ----------

  /** A source with the whitespace after its closing parenthesis. */
  function Ended(src: Source, post: string): (r: Source)
    requires After(src) == "" && (!HasArguments(src) ==> post == "")
    ensures HasArguments(r) == HasArguments(src)
    ensures r.pre == src.pre && After(r) == post
  {
    match src
    case Alone(_, _, _) => src
    case Kind(_, _, _) => src
    case Leaf(pre, gap, open, text, filter, shut, _) => Source.Leaf(pre, gap, open, text, filter, shut, post)
    case Targets(pre, gap, open, targets, last, _) => Targets(pre, gap, open, targets, last, post)
    case Negation(pre, gap, inner, _) => Negation(pre, gap, inner, post)
    case List(pre, gap, open, name, items, last, _) => List(pre, gap, open, name, items, last, post)
  }

  lemma {:induction false} EndedSame(src: Source, post: string)
    requires After(src) == "" && (!HasArguments(src) ==> post == "") && Written(src) && Blank(post)
    ensures Written(Ended(src, post)) && Meaning(Ended(src, post)) == Meaning(src)
    ensures Render(Ended(src, post)) == src.pre + (Core(src) + post)
  {
    hide Meanings, Blank;
    assert Core(Ended(src, post)) == Core(src);
  }

  /** What follows an element: whitespace, then a comma or a closing parenthesis. */
  lemma {:induction false} AfterShape(s: string) returns (post: string, rest: string)
    requires AfterElement(Lex(s)).Ok?
    ensures s == post + rest && Blank(post) && rest != "" && (Boundary(s) ==> post == "")
    ensures AfterElement(Lex(s)).value.Done? ==> rest[0] == ')' && AfterElement(Lex(s)).value == Done(Lex(rest))
    ensures AfterElement(Lex(s)).value.More? ==>
      rest == "," + rest[1..] && AfterElement(Lex(s)).value == More(TrimTokens(Lex(rest[1..])))
  {
    hide Lex, TrimTokens;
    post, rest := LexTrim(s);
    if Lex(rest)[0].Comma? {
      LexedDelimiter(rest, ',', Comma);
    } else {
      LexedDelimiter(rest, ')', CloseParen);
    }
  }

  /** What a list that does not end at once is read as. */
  lemma {:induction false} ListUnfolds(ts: seq<Token>)
    requires ParseList(ts).Ok? && !ts[0].CloseParen?
    ensures ParseFilter(ts).Ok? && AfterElement(ParseFilter(ts).value.rest).Ok?
    ensures
      var first := ParseFilter(ts).value;
      match AfterElement(first.rest).value
      case Done(rest) => ParseList(ts) == Ok(Parsed([first.value], rest))
      case More(rest) =>
        ParseList(rest).Ok? && ParseList(ts) == Ok(Parsed([first.value] + ParseList(rest).value.value, ParseList(rest).value.rest))
  {
    hide ParseFilter, AfterElement;
  }

  lemma {:induction false} ListStarts(ts: seq<Token>)
    requires ParseList(ts).Ok?
    ensures ts != [] && (ts[0].CloseParen? ==> ParseList(ts) == Ok(Parsed([], ts)))
  {
  }

  /** The elements at the start of `s`, and the last comma. */
  lemma {:induction false} ItemsHaveSource(s: string) returns (items: seq<Source>, last: Option<string>, tail: string)
    requires ParseList(TrimTokens(Lex(s))).Ok? && !TrimTokens(Lex(s))[0].CloseParen?
    ensures items != [] && (forall i :: 0 <= i < |items| ==> Written(items[i])) && LastWritten(last, |items|)
    ensures s == RenderItems(items, last) + tail
    ensures ParseList(TrimTokens(Lex(s))) == Ok(Parsed(Meanings(items), Lex(tail)))
    decreases |s|, 3, 0
  {
    hide Lex, TrimTokens, ParseList, ParseFilter, AfterElement, Written, Core, Render, Meaning, Blank;
    var ts := TrimTokens(Lex(s));
    ListUnfolds(ts);
    ParseTrims(Lex(s));
    var src, after := FilterHasSource(s);
    var post, rest := AfterShape(after);
    EndedSame(src, post);
    var item := Ended(src, post);
    assert src.pre + Core(src) + (post + rest) == (src.pre + (Core(src) + post)) + rest;
    assert s == Render(item) + rest;
    if rest[0] == ')' {
      items, last, tail := [item], None, rest;
      assert Meanings([item]) == [Meaning(item)];
      assert Render(item) + "" == Render(item);
    } else {
      var more := rest[1..];
      ListStarts(TrimTokens(Lex(more)));
      if TrimTokens(Lex(more))[0].CloseParen? {
        var space;
        space, tail := LexTrim(more);
        items, last := [item], Some(space);
        LastReads(s, item, rest, space, tail);
      } else {
        var others;
        others, last, tail := ItemsHaveSource(more);
        items := [item] + others;
        MoreReads(s, item, others, last, rest, tail);
      }
    }
  }

  lemma {:induction false} LastReads(s: string, item: Source, rest: string, space: string, tail: string)
    requires s == Render(item) + rest && rest == "," + (space + tail)
    ensures s == RenderItems([item], Some(space)) + tail
    ensures Meanings([item]) == [Meaning(item)] && [Meaning(item)] + [] == [Meaning(item)]
  {
    hide Render, Meaning;
    assert RenderItems([item], Some(space)) == Render(item) + ("," + space);
  }

  lemma {:induction false} MoreReads(s: string, item: Source, others: seq<Source>, last: Option<string>, rest: string, tail: string)
    requires others != [] && s == Render(item) + rest && rest == "," + (RenderItems(others, last) + tail)
    ensures s == RenderItems([item] + others, last) + tail
    ensures Meanings([item] + others) == [Meaning(item)] + Meanings(others)
  {
    hide Render, Meaning;
    var items := [item] + others;
    assert items[0] == item && items[1..] == others;
    assert RenderItems(items, last) == Render(item) + ("," + RenderItems(others, last));
  }

  lemma {:induction false} ListHasSource(name: Name, pre: string, gap: string, inner: string) returns (src: Source, tail: string)
    requires name.AnyOfName? || name.AllOfName? || name.OneOfName?
    requires ParseList(TrimTokens(Lex(inner))).Ok? && Blank(pre) && Blank(gap)
    ensures Written(src) && HasArguments(src) && src.pre == pre && src.post == "" && Word(src) == NameText(name) + gap
    ensures inner == Inner(src) + tail && src.List? && src.name == name
    ensures ParseList(TrimTokens(Lex(inner))) == Ok(Parsed(Meanings(src.items), Lex(tail)))
    decreases |inner|, 3, 1
  {
    hide Lex, TrimTokens, ParseList, NameText, Blank, RenderItems, Meanings;
    ListStarts(TrimTokens(Lex(inner)));
    BlankNothing();
    if TrimTokens(Lex(inner))[0].CloseParen? {
      var open;
      open, tail := LexTrim(inner);
      src := List(pre, gap, open, name, [], None, "");
      assert Meanings([]) == [];
    } else {
      var items, last;
      items, last, tail := ItemsHaveSource(inner);
      src := List(pre, gap, "", name, items, last, "");
    }
  }

  // ---------- Targets ----------

  lemma {:induction false} TargetsUnfold(ts: seq<Token>)
    requires ParseTargetList(ts).Ok? && !ts[0].CloseParen?
    ensures ts[0].Text? && ParseTarget(Trim(ts[0].s)).Some? && AfterElement(ts[1..]).Ok?
    ensures
      var first := ParseTarget(Trim(ts[0].s)).value;
      match AfterElement(ts[1..]).value
      case Done(rest) => ParseTargetList(ts) == Ok(Parsed([first], rest))
      case More(rest) =>
        ParseTargetList(rest).Ok?
        && ParseTargetList(ts) == Ok(Parsed([first] + ParseTargetList(rest).value.value, ParseTargetList(rest).value.rest))
  {
    hide ParseTarget, AfterElement, Trim;
  }

  lemma {:induction false} TargetsStart(ts: seq<Token>)
    requires ParseTargetList(ts).Ok?
    ensures ts != [] && (ts[0].CloseParen? ==> ParseTargetList(ts) == Ok(Parsed([], ts)))
  {
  }

  /** The first target at the start of `s`. */
  lemma {:induction false} FirstTarget(s: string) returns (t: TargetSource, after: string)
    requires ParseTargetList(TrimTokens(Lex(s))).Ok? && !TrimTokens(Lex(s))[0].CloseParen?
    ensures TargetWritten(t) && s == RenderTarget(t) + after && Boundary(after)
    ensures
      var ts := TrimTokens(Lex(s));
      ts[0].Text? && ParseTarget(Trim(ts[0].s)) == Some(TargetMeaning(t)) && ts[1..] == Lex(after)
  {
    hide Lex, TrimTokens, ParseTargetList, ParseTarget, Trim, Blank, TargetWord, TargetWritten;
    TargetsStart(TrimTokens(Lex(s)));
    TargetsUnfold(TrimTokens(Lex(s)));
    var pre, r := LexTrim(s);
    after := LexedText(r);
    var text := Lex(r)[0].s;
    var post := TrimSplit(text);
    t := TargetOfText(Trim(text), pre, post);
    assert pre + (text + after) == (pre + text) + after;
  }

  lemma {:induction false} TargetSourcesOf(s: string) returns (targets: seq<TargetSource>, last: Option<string>, tail: string)
    requires ParseTargetList(TrimTokens(Lex(s))).Ok? && !TrimTokens(Lex(s))[0].CloseParen?
    ensures targets != [] && (forall i :: 0 <= i < |targets| ==> TargetWritten(targets[i])) && LastWritten(last, |targets|)
    ensures s == RenderTargets(targets, last) + tail
    ensures ParseTargetList(TrimTokens(Lex(s))) == Ok(Parsed(TargetMeanings(targets), Lex(tail)))
    decreases |s|
  {
    hide Lex, TrimTokens, ParseTargetList, ParseTarget, Trim, Blank, AfterElement, TargetWritten, TargetMeaning, RenderTarget;
    TargetsUnfold(TrimTokens(Lex(s)));
    var t, after := FirstTarget(s);
    var post, rest := AfterShape(after);
    assert after == rest;
    if rest[0] == ')' {
      targets, last, tail := [t], None, rest;
      assert TargetMeanings([t]) == [TargetMeaning(t)];
      assert RenderTarget(t) + "" == RenderTarget(t);
    } else {
      var more := rest[1..];
      TargetsStart(TrimTokens(Lex(more)));
      if TrimTokens(Lex(more))[0].CloseParen? {
        var space;
        space, tail := LexTrim(more);
        targets, last := [t], Some(space);
        LastTargetReads(s, t, rest, space, tail);
      } else {
        var others;
        others, last, tail := TargetSourcesOf(more);
        targets := [t] + others;
        MoreTargetsRead(s, t, others, last, rest, tail);
      }
    }
  }

  lemma {:induction false} LastTargetReads(s: string, t: TargetSource, rest: string, space: string, tail: string)
    requires s == RenderTarget(t) + rest && rest == "," + (space + tail)
    ensures s == RenderTargets([t], Some(space)) + tail
    ensures TargetMeanings([t]) == [TargetMeaning(t)] && [TargetMeaning(t)] + [] == [TargetMeaning(t)]
  {
    hide RenderTarget, TargetMeaning;
    assert RenderTargets([t], Some(space)) == RenderTarget(t) + ("," + space);
  }

  lemma {:induction false} MoreTargetsRead(
    s: string, t: TargetSource, others: seq<TargetSource>, last: Option<string>, rest: string, tail: string)
    requires others != [] && s == RenderTarget(t) + rest && rest == "," + (RenderTargets(others, last) + tail)
    ensures s == RenderTargets([t] + others, last) + tail
    ensures TargetMeanings([t] + others) == [TargetMeaning(t)] + TargetMeanings(others)
  {
    hide RenderTarget, TargetMeaning;
    var targets := [t] + others;
    assert targets[0] == t && targets[1..] == others;
    assert RenderTargets(targets, last) == RenderTarget(t) + ("," + RenderTargets(others, last));
  }

  lemma {:induction false} TargetsHaveSource(pre: string, gap: string, inner: string) returns (src: Source, tail: string)
    requires ParseTargetList(TrimTokens(Lex(inner))).Ok? && Blank(pre) && Blank(gap)
    ensures Written(src) && HasArguments(src) && src.pre == pre && src.post == "" && Word(src) == NameText(NodeTargetIsName) + gap
    ensures inner == Inner(src) + tail && src.Targets?
    ensures ParseTargetList(TrimTokens(Lex(inner))) == Ok(Parsed(TargetMeanings(src.targets), Lex(tail)))
  {
    hide Lex, TrimTokens, ParseTargetList, NameText, Blank, RenderTargets, TargetMeanings, TargetWritten;
    TargetsStart(TrimTokens(Lex(inner)));
    BlankNothing();
    if TrimTokens(Lex(inner))[0].CloseParen? {
      var open;
      open, tail := LexTrim(inner);
      src := Targets(pre, gap, open, [], None, "");
      assert TargetMeanings([]) == [];
    } else {
      var targets, last;
      targets, last, tail := TargetSourcesOf(inner);
      src := Targets(pre, gap, "", targets, last, "");
    }
  }

  // ---------- Whole texts ----------

  lemma {:induction false} NoBlankBefore(post: string, rest: string)
    requires Blank(post)
    ensures Boundary(post + rest) ==> post == ""
  {
    assert post != "" ==> (post + rest)[0] == post[0];
  }

  lemma {:induction false} NothingLexed(s: string)
    requires Lex(s) == []
    ensures s == ""
  {
  }

  /** Whatever is read as a filter is the text of a source that means it. */
  lemma {:induction false} ParsedHasSource(s: string) returns (src: Source)
    requires Parse(s).Ok?
    ensures Written(src) && Render(src) == s && Meaning(src) == Parse(s).value
  {
    hide Lex, TrimTokens, ParseFilter, Written, Core, Render, Meaning, Blank;
    var read, after := FilterHasSource(s);
    var post, rest := LexTrim(after);
    NothingLexed(rest);
    NoBlankBefore(post, rest);
    assert post + "" == post && read.pre + Core(read) + post == read.pre + (Core(read) + post);
    EndedSame(read, post);
    src := Ended(read, post);
  }

  /** A text is read as a filter exactly if it is the text of a written source that means it. */
  lemma {:induction false} ParsesExactly(s: string, filter: EventFilter)
    ensures Parse(s) == Ok(filter) <==> exists src: Source :: Written(src) && Render(src) == s && Meaning(src) == filter
  {
    hide Parse, Render, Meaning, Written;
    if Parse(s) == Ok(filter) {
      var src := ParsedHasSource(s);
    }
    forall src: Source | Written(src) && Render(src) == s && Meaning(src) == filter ensures Parse(s) == Ok(filter) {
      SourceParses(src);
    }
  }
}
