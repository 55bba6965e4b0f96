/**
 What the parser reports for texts that are not filters: an unknown word, a
 missing word or parenthesis, a value that does not fit, an end that comes too
 soon, and text after the end.
 */
module FilterErrors {
  import opened Wrappers
  import opened Text
  import opened Nodes
  import opened Filter
  import opened FilterText
  import opened FilterProofs
  import opened FilterSource
  import opened FilterGrammar

  /** The token at a place where a text token ends. */
  function FoundIn(rest: string): Found
    requires Boundary(rest)
  {
    if rest == "" then EndOfText
    else if rest[0] == '(' then Other(OpenParen)
    else if rest[0] == ')' then Other(CloseParen)
    else Other(Comma)
  }

  lemma {:induction false} FoundIs(rest: string)
    requires Boundary(rest)
    ensures FoundAt(Lex(rest)) == FoundIn(rest) && TrimTokens(Lex(rest)) == Lex(rest)
  {
    hide Lex, TrimTokens;
    LexNothing();
    if rest != "" {
      LexDelimiter(rest[0], rest[1..]);
      assert rest == [rest[0]] + rest[1..];
      TrimSpace("", Lex(rest));
      assert Space("") + Lex(rest) == Lex(rest);
    } else {
      TrimSpace("", []);
      assert Space("") + [] == [];
    }
  }

  lemma {:induction false} LexWord(pre: string, word: string, rest: string)
    requires Blank(pre) && TextOk(word) && Boundary(rest)
    ensures TrimTokens(Lex(pre + (word + rest))) == [Text(word)] + Lex(rest)
  {
    hide Lex, TrimTokens;
    LexText(word, rest);
    LexBlank(pre, word + rest);
    TrimSpace(pre, [Text(word)] + Lex(rest));
  }

  /** There is no word where a filter should be. */
  lemma {:induction false} NoWord(pre: string, rest: string)
    requires Blank(pre) && Boundary(rest)
    ensures Parse(pre + rest) == Err(ExpectedToken(FilterNameLabel, FoundIn(rest)))
  {
    hide Lex, TrimTokens;
    LexBlank(pre, rest);
    FoundIs(rest);
    TrimSpace(pre, Lex(rest));
  }

  /** The word is neither the name of a filter nor an event kind. */
  lemma {:induction false} UnknownWord(pre: string, word: string, rest: string)
    requires Blank(pre) && TextOk(word) && Boundary(rest)
    requires ParseName(Trim(word)).None? && ParseKind(Trim(word)).None?
    ensures Parse(pre + (word + rest)) == Err(InvalidFilter(Trim(word)))
  {
    hide Lex, TrimTokens, Trim, ParseName, ParseKind;
    LexWord(pre, word, rest);
  }

  /** A filter that takes arguments has no opening parenthesis. */
  lemma {:induction false} NoArguments(pre: string, word: string, rest: string)
    requires Blank(pre) && TextOk(word) && Boundary(rest) && (rest != "" ==> rest[0] != '(')
    requires ParseName(Trim(word)).Some? && !StandsAlone(ParseName(Trim(word)).value)
    ensures Parse(pre + (word + rest)) == Err(ExpectedToken(OpenParenLabel, FoundIn(rest)))
  {
    hide Lex, TrimTokens, Trim, ParseName, StandsAlone, ParseArguments;
    LexWord(pre, word, rest);
    FoundIs(rest);
    AfterFirst(Text(word), Lex(rest));
  }

  /** What is expected between the parentheses of a filter for one value. */
  function LabelOf(name: Name): Parsable {
    match name
    case AgentIsName => AgentIdLabel
    case EnvIsName => EnvIdLabel
    case CannonIsName => CannonIdLabel
    case EventIsName => EventKindLabel
    case NodeKeyIsName => NodeKeyLabel
    case _ => TransactionIdLabel
  }

  predicate TakesValue(name: Name) {
    name.AgentIsName? || name.EnvIsName? || name.CannonIsName? || name.EventIsName? || name.NodeKeyIsName? || name.TransactionIsName?
  }

  /** The value a filter of that name can have. */
  ghost predicate Accepts(name: Name, text: string) {
    match name
    case AgentIsName => IsId(text)
    case EnvIsName => IsId(text)
    case CannonIsName => IsId(text)
    case EventIsName => exists kind :: text == KindText(kind)
    case NodeKeyIsName => exists key :: Spells(text, NodeKeyIs(key))
    case _ => true
  }

  lemma {:induction false} OpenCall(pre: string, word: string, inner: string)
    requires Blank(pre) && TextOk(word) && ParseName(Trim(word)).Some? && !StandsAlone(ParseName(Trim(word)).value)
    ensures
      var r := ParseArguments(ParseName(Trim(word)).value, TrimTokens(Lex(inner)));
      && (r.Err? ==> Parse(pre + (word + ("(" + inner))) == Err(r.error))
      && (r.Ok? && !(r.value.rest != [] && r.value.rest[0].CloseParen?) ==>
            Parse(pre + (word + ("(" + inner))) == Err(ExpectedToken(CloseParenLabel, FoundAt(r.value.rest))))
  {
    hide Lex, TrimTokens, Trim, ParseName, StandsAlone, ParseArguments;
    LexDelimiter('(', inner);
    assert "(" + inner == ['('] + inner;
    LexWord(pre, word, "(" + inner);
    FoundIs("(" + inner);
    AfterFirst(Text(word), [OpenParen] + Lex(inner));
    AfterFirst(OpenParen, Lex(inner));
  }

  /** A value that does not fit, or none at all. */
  lemma {:induction false} BadValue(pre: string, word: string, open: string, value: string, rest: string)
    requires Blank(pre) && TextOk(word) && ParseName(Trim(word)).Some? && TakesValue(ParseName(Trim(word)).value)
    requires Blank(open) && (value == "" || TextOk(value)) && Boundary(rest)
    requires value != "" ==> !Accepts(ParseName(Trim(word)).value, Trim(value))
    ensures
      var name := ParseName(Trim(word)).value;
      Parse(pre + (word + ("(" + (open + (value + rest))))) ==
        Err(if value == "" then ExpectedToken(LabelOf(name), FoundIn(rest)) else BadText(LabelOf(name)))
  {
    hide Lex, TrimTokens, Trim, ParseName, ParseArguments, Parse, Accepts;
    var name, inner := ParseName(Trim(word)).value, open + (value + rest);
    OpenCall(pre, word, inner);
    if value == "" {
      assert value + rest == rest;
      LexBlank(open, rest);
      FoundIs(rest);
      TrimSpace(open, Lex(rest));
      NoValue(name, Lex(rest), rest);
    } else {
      LexWord(open, value, rest);
      WrongValue(name, value, Lex(rest));
    }
  }

  lemma {:induction false} NoValue(name: Name, ts: seq<Token>, rest: string)
    requires TakesValue(name) && Boundary(rest) && FoundAt(ts) == FoundIn(rest)
    ensures !StandsAlone(name) && ParseArguments(name, ts) == Err(ExpectedToken(LabelOf(name), FoundIn(rest)))
  {
    hide Trim, ParseKind, ParseKey;
    assert ts == [] || !ts[0].Text?;
  }

  lemma {:induction false} WrongValue(name: Name, value: string, rest: seq<Token>)
    requires TakesValue(name) && !Accepts(name, Trim(value))
    ensures !StandsAlone(name) && ParseArguments(name, [Text(value)] + rest) == Err(BadText(LabelOf(name)))
  {
    hide Trim, ParseKind, ParseKey, KindText, Spells, IsId;
    var text := Trim(value);
    if ParseKey(text).Some? {
      KeyOfText(text);
    }
    if ParseKind(text).Some? {
      assert text == KindText(ParseKind(text).value);
    }
  }

  /** A value that is not closed. */
  lemma {:induction false} OpenValue(src: Source, rest: string)
    requires Written(src) && src.Leaf? && Boundary(rest) && (rest != "" ==> rest[0] != ')')
    ensures Parse(src.pre + (Word(src) + ("(" + (Inner(src) + rest)))) == Err(ExpectedToken(CloseParenLabel, FoundIn(rest)))
  {
    hide Lex, TrimTokens, Trim, ParseName, Parse, NameText, ParseLeaf, Spells;
    WordIsText(src);
    NameRoundTrip(SourceName(src));
    var t := src.text + src.shut;
    LeafIsText(src.text, src.filter, src.shut);
    assert (src.open + t) + rest == src.open + (t + rest);
    LexWord(src.open, t, rest);
    FoundIs(rest);
    ParseLeafText(src.text, src.filter, src.shut, Lex(rest));
    LeafName(src.filter, src.text);
    OpenCall(src.pre, Word(src), Inner(src) + rest);
  }

  lemma {:induction false} LeafName(filter: EventFilter, text: string)
    requires Spells(text, filter)
    ensures TakesValue(NameOf(filter)) && !StandsAlone(NameOf(filter))
    ensures forall ts :: ParseArguments(NameOf(filter), ts) == ParseLeaf(NameOf(filter), ts)
  {
    hide ParseLeaf;
  }

  // ---------- Text after the end ----------

  lemma {:induction false} LexCoreThen(src: Source, rest: string)
    requires Written(src) && After(src) == "" && (HasArguments(src) || Boundary(rest))
    ensures Lex(Core(src) + rest) == CoreTokens(src) + Lex(rest)
  {
    hide Lex, Core, CoreTokens, Written;
    if HasArguments(src) {
      LexCoreBlank(src, rest);
      assert "" + rest == rest;
    } else {
      LexCore(src, rest);
    }
  }

  lemma {:induction false} SomethingLexed(s: string)
    requires !Blank(s)
    ensures TrimTokens(Lex(s)) != []
  {
    hide Lex, TrimTokens;
    var pre, rest := LexTrim(s);
    assert rest == "" ==> s == pre;
    MoreLexed(rest);
  }

  lemma {:induction false} MoreLexed(s: string)
    ensures s != "" ==> Lex(s) != []
  {
  }

  /** More than whitespace follows a filter. */
  lemma {:induction false} TextAfterEnd(src: Source, rest: string)
    requires Written(src) && After(src) == "" && (HasArguments(src) || Boundary(rest)) && !Blank(rest)
    ensures Parse(Render(src) + rest) == Err(TrailingTokens)
  {
    hide Lex, TrimTokens, ParseFilter, CoreTokens, Meaning, Core, Written;
    CoreStart(src);
    assert Core(src) + "" == Core(src);
    assert Render(src) + rest == src.pre + (Core(src) + rest);
    LexCoreThen(src, rest);
    WrittenPre(src);
    LexBlank(src.pre, Core(src) + rest);
    var ts := CoreTokens(src) + Lex(rest);
    TrimSpace(src.pre, ts);
    ParseTrims(Space(src.pre) + ts);
    ParseCore(src, Lex(rest));
    SomethingLexed(rest);
  }

  lemma {:induction false} WrittenPre(src: Source)
    requires Written(src)
    ensures Blank(src.pre)
  {
  }

  // ---------- Lists ----------

  /** A list that ends too soon: after its parenthesis, an element, or a comma. */
  lemma {:induction false} OpenList(src: Source)
    requires Written(src) && src.List?
    ensures
      Parse(src.pre + (Word(src) + ("(" + Inner(src)))) ==
        Err(if src.items == [] || src.last.Some? then ExpectedToken(CloseParenLabel, EndOfText)
            else ExpectedToken(CommaOrCloseParenLabel, EndOfText))
  {
    hide Lex, TrimTokens, Trim, ParseName, Parse, NameText, ParseList, ItemsTokens, RenderItems;
    WordIsText(src);
    NameRoundTrip(src.name);
    OpenCall(src.pre, Word(src), Inner(src));
    LexNothing();
    if src.items == [] {
      LexBlank(src.open, "");
      assert src.open + "" == src.open && Space(src.open) + [] == Space(src.open);
      TrimSpace(src.open, []);
      NothingListed();
    } else {
      LexOpenItems(src.items, src.last);
      OpenItems(src.items, src.last);
    }
    TrimTwice(Lex(Inner(src)));
    ListError(src.name, TrimTokens(Lex(Inner(src))));
  }

  lemma {:induction false} NothingListed()
    ensures ParseList([]) == Err(ExpectedToken(CloseParenLabel, EndOfText))
  {
  }

  lemma {:induction false} ListError(name: Name, ts: seq<Token>)
    requires (name.AnyOfName? || name.AllOfName? || name.OneOfName?) && TrimTokens(ts) == ts && ParseList(ts).Err?
    ensures !StandsAlone(name) && ParseArguments(name, ts) == Err(ParseList(ts).error)
  {
    hide ParseList, TrimTokens;
  }

  lemma {:induction false} LexOpenItems(items: seq<Source>, last: Option<string>)
    requires items != [] && (forall i :: 0 <= i < |items| ==> Written(items[i])) && (last.Some? ==> Blank(last.value))
    ensures Lex(RenderItems(items, last)) == ItemsTokens(items, last)
    decreases |items|
  {
    hide Lex, Render, FullTokens, Written;
    LexNothing();
    if |items| == 1 {
      LexOpenLast(last);
      LexSource(items[0], RenderLast(last));
    } else {
      var others := RenderItems(items[1..], last);
      LexOpenItems(items[1..], last);
      LexDelimiter(',', others);
      assert "," + others == [','] + others;
      LexSource(items[0], "," + others);
    }
  }

  lemma {:induction false} LexOpenLast(last: Option<string>)
    requires last.Some? ==> Blank(last.value)
    ensures Lex(RenderLast(last)) == LastTokens(last) && Boundary(RenderLast(last))
  {
    hide Lex;
    LexNothing();
    if last.Some? {
      LexBlank(last.value, "");
      assert last.value + "" == last.value;
      assert Space(last.value) + [] == Space(last.value);
      LexDelimiter(',', last.value);
      assert "," + last.value == [','] + last.value;
    }
  }

  lemma {:induction false} ListFailsLater(ts: seq<Token>, first: Parsed<EventFilter>)
    requires ts != [] && ts[0].Text? && ParseFilter(ts) == Ok(first)
    ensures AfterElement(first.rest).Err? ==> ParseList(ts) == Err(AfterElement(first.rest).error)
    ensures AfterElement(first.rest).Ok? && AfterElement(first.rest).value.More? && ParseList(AfterElement(first.rest).value.rest).Err? ==>
      ParseList(ts) == Err(ParseList(AfterElement(first.rest).value.rest).error)
  {
    hide ParseFilter, AfterElement;
  }

  lemma {:induction false} OpenItems(items: seq<Source>, last: Option<string>)
    requires items != [] && forall i :: 0 <= i < |items| ==> Written(items[i])
    ensures
      ParseList(TrimTokens(ItemsTokens(items, last))) ==
        Err(if last.Some? then ExpectedToken(CloseParenLabel, EndOfText) else ExpectedToken(CommaOrCloseParenLabel, EndOfText))
    decreases |items|
  {
    hide ParseList, ParseFilter, AfterElement, CoreTokens, TrimTokens, Meaning, Written, ItemsTokens, LastTokens, Space, After;
    var src := items[0];
    var more := Space(After(src)) + MoreItems(items, last, []);
    var ts := CoreTokens(src) + more;
    ItemsShape(items, last, []);
    assert ItemsTokens(items, last) + [] == ItemsTokens(items, last);
    ParseCore(src, more);
    if |items| == 1 {
      OpenAfter(After(src), last);
      NothingListed();
    } else {
      var others := ItemsTokens(items[1..], last);
      assert others + [] == others;
      AfterComma(After(src), others);
      OpenItems(items[1..], last);
    }
    ListFailsLater(ts, Parsed(Meaning(src), more));
  }

  lemma {:induction false} OpenAfter(post: string, last: Option<string>)
    ensures AfterElement(Space(post) + (LastTokens(last) + [])) ==
      if last.Some? then Ok(More([])) else Err(ExpectedToken(CommaOrCloseParenLabel, EndOfText))
  {
    match last
    case None =>
      assert LastTokens(last) + [] == [];
      TrimSpace(post, []);
    case Some(space) =>
      assert LastTokens(last) + [] == [Comma] + Space(space);
      AfterComma(post, Space(space));
      TrimSpace(space, []);
      assert Space(space) + [] == Space(space);
  }
}
