/**
 The textual forms of retention spans, rules and policies and of height
 requests: printing a value and parsing the text gives the value back.
 */
module PolicyText {
  import opened Wrappers
  import opened Retention
  import opened Text

  datatype SpanError = MissingUnit | InvalidUnlimited | InvalidValue | InvalidUnit

  datatype RuleError = MissingColon | BadDuration(span: SpanError) | BadKeep(span: SpanError)

  datatype PolicyError = BadRule(number: nat, rule: RuleError)

  // ---------- Spans ----------

  function UnitOf(span: Span): (unit: char)
    ensures unit !in {':', ','} && (unit == 'U' <==> span.Unlimited?)
  {
    match span
    case Unlimited => 'U'
    case Minute(_) => 'm'
    case Hour(_) => 'h'
    case Day(_) => 'D'
    case Week(_) => 'W'
    case Month(_) => 'M'
    case Year(_) => 'Y'
  }

  function PrintSpan(span: Span): string {
    (if span.Unlimited? then "" else Digits(span.n)) + [UnitOf(span)]
  }

  function WithUnit(unit: char, value: NonZeroU8): Result<Span, SpanError> {
    match unit
    case 'm' => Ok(Minute(value))
    case 'h' => Ok(Hour(value))
    case 'D' => Ok(Day(value))
    case 'W' => Ok(Week(value))
    case 'M' => Ok(Month(value))
    case 'Y' => Ok(Year(value))
    case _ => Err(InvalidUnit)
  }

  function ParseSpan(s: string): Result<Span, SpanError> {
    if s == "" then
      Err(MissingUnit)
    else
      var unit := s[|s| - 1];
      if unit == 'U' then
        if |s| != 1 then Err(InvalidUnlimited) else Ok(Unlimited)
      else
        match ParseUnsigned(s[..|s| - 1], 255)
        case None => Err(InvalidValue)
        case Some(value) => if value == 0 then Err(InvalidValue) else WithUnit(unit, value)
  }

  lemma {:induction false} ParseSpanParts(digits: string, unit: char, value: nat)
    requires unit != 'U' && ParseUnsigned(digits, 255) == Some(value) && value != 0
    ensures ParseSpan(digits + [unit]) == WithUnit(unit, value)
  {
    var s := digits + [unit];
    assert s[..|s| - 1] == digits;
  }

  lemma {:induction false} WithUnitOf(span: Span)
    requires !span.Unlimited?
    ensures WithUnit(UnitOf(span), span.n) == Ok(span)
  {
  }

  lemma {:induction false} SpanRoundTrip(span: Span)
    ensures ParseSpan(PrintSpan(span)) == Ok(span)
  {
    if !span.Unlimited? {
      UnsignedRoundTrip(span.n, 255);
      ParseSpanParts(Digits(span.n), UnitOf(span), span.n);
      WithUnitOf(span);
    }
  }

  // ---------- Lengths ----------

  /** A minute, an hour, a day, a week, a month of 30 days and a year of 365. */
  function UnitLength(unit: char): int {
    match unit
    case 'm' => 60 * SECOND
    case 'h' => 60 * 60 * SECOND
    case 'D' => 24 * 60 * 60 * SECOND
    case 'W' => 7 * 24 * 60 * 60 * SECOND
    case 'M' => 30 * 24 * 60 * 60 * SECOND
    case 'Y' => 365 * 24 * 60 * 60 * SECOND
    case _ => 0
  }

  /**
   A text is a limited span exactly if it is a number between 1 and 255 and the
   letter of a unit, and then the span lasts that many of those units.
   */
  lemma {:induction false} TextGivesLength(digits: string, unit: char)
    requires unit != 'U'
    ensures
      var value, span := ParseUnsigned(digits, 255), ParseSpan(digits + [unit]);
      && (span.Ok? <==> value.Some? && value.value != 0 && unit in "mhDWMY")
      && (span.Ok? ==> AsDelta(span.value) == Some(value.value * UnitLength(unit)))
  {
    hide ParseUnsigned;
    var s := digits + [unit];
    assert s[..|s| - 1] == digits;
    var value := ParseUnsigned(digits, 255);
    if value.Some? && value.value != 0 {
      UnitsGiveLength(unit, value.value);
    }
  }

  lemma {:induction false} UnitsGiveLength(unit: char, value: NonZeroU8)
    ensures WithUnit(unit, value).Ok? <==> unit in "mhDWMY"
    ensures WithUnit(unit, value).Ok? ==> AsDelta(WithUnit(unit, value).value) == Some(value * UnitLength(unit))
  {
    assert "mhDWMY" == ['m', 'h', 'D', 'W', 'M', 'Y'];
  }

  /** What is wrong with a text that is no span, in the order in which it is looked at. */
  lemma {:induction false} SpanFails(s: string, unit: char)
    ensures ParseSpan(s) == Err(MissingUnit) <==> s == ""
    ensures ParseSpan(s + [unit]) == Err(InvalidUnlimited) <==> unit == 'U' && s != ""
    ensures ParseSpan(s + [unit]) == Err(InvalidValue) <==>
      unit != 'U' && forall n :: 1 <= n <= 255 ==> ParseUnsigned(s, 255) != Some(n)
    ensures ParseSpan(s + [unit]) == Err(InvalidUnit) <==>
      unit !in "UmhDWMY" && exists n :: 1 <= n <= 255 && ParseUnsigned(s, 255) == Some(n)
  {
    hide ParseUnsigned;
    var all := s + [unit];
    assert all[..|all| - 1] == s && all[|all| - 1] == unit;
    assert "UmhDWMY" == ['U', 'm', 'h', 'D', 'W', 'M', 'Y'];
    var value := ParseUnsigned(s, 255);
    if value.Some? && value.value != 0 {
      UnitsGiveLength(unit, value.value);
      assert "mhDWMY" == ['m', 'h', 'D', 'W', 'M', 'Y'];
    }
  }

  // ---------- Rules ----------

  function PrintRule(rule: Rule): string {
    PrintSpan(rule.duration) + ":" + PrintSpan(rule.keep)
  }

  function ParseRule(s: string): Result<Rule, RuleError> {
    var colon := Find(s, ':');
    if colon == |s| then
      Err(MissingColon)
    else
      match ParseSpan(s[..colon])
      case Err(e) => Err(BadDuration(e))
      case Ok(duration) =>
        match ParseSpan(s[colon + 1..])
        case Err(e) => Err(BadKeep(e))
        case Ok(keep) => Ok(Rule(duration, keep))
  }

  /** Neither separator of a policy occurs in the text of a span. */
  lemma {:induction false} SpanHasNoSeparator(span: Span)
    ensures ':' !in PrintSpan(span) && ',' !in PrintSpan(span) && PrintSpan(span) != ""
  {
  }

  lemma {:induction false} RuleRoundTrip(rule: Rule)
    ensures ParseRule(PrintRule(rule)) == Ok(rule)
    ensures ',' !in PrintRule(rule) && PrintRule(rule) != ""
  {
    var d, k := PrintSpan(rule.duration), PrintSpan(rule.keep);
    SpanHasNoSeparator(rule.duration);
    SpanHasNoSeparator(rule.keep);
    FindAfter(d, ':', k);
    var s := PrintRule(rule);
    assert s == d + [':'] + k;
    assert s[..|d|] == d && s[|d| + 1..] == k;
    SpanRoundTrip(rule.duration);
    SpanRoundTrip(rule.keep);
  }

  lemma {:induction false} ParsedSpanHasNoColon(s: string)
    requires ParseSpan(s).Ok?
    ensures ':' !in s
  {
    var unit := s[|s| - 1];
    assert s == s[..|s| - 1] + [unit];
    assert unit != ':';
    if unit != 'U' {
      var n := s[..|s| - 1];
      assert ParseUnsigned(n, 255).Some?;
    }
  }

  /** A text is a rule exactly if it is two spans with a colon between them. */
  lemma {:induction false} RuleMeans(s: string, rule: Rule)
    ensures ParseRule(s) == Ok(rule) <==>
      exists d: string, k: string :: s == d + ":" + k && ParseSpan(d) == Ok(rule.duration) && ParseSpan(k) == Ok(rule.keep)
  {
    hide ParseSpan;
    var colon := Find(s, ':');
    if ParseRule(s) == Ok(rule) {
      assert s == s[..colon] + ":" + s[colon + 1..];
    }
    forall d: string, k: string | s == d + ":" + k && ParseSpan(d) == Ok(rule.duration) && ParseSpan(k) == Ok(rule.keep)
      ensures ParseRule(s) == Ok(rule)
    {
      ParsedSpanHasNoColon(d);
      FindAfter(d, ':', k);
      assert s[..|d|] == d && s[|d| + 1..] == k;
    }
  }

  /** What is wrong with a text that is no rule: the first of a missing colon, a bad duration and a bad keep. */
  lemma {:induction false} RuleFails(s: string, e: SpanError)
    ensures ParseRule(s) == Err(MissingColon) <==> ':' !in s
    ensures ParseRule(s) == Err(BadDuration(e)) <==>
      exists d: string, k: string :: s == d + ":" + k && ':' !in d && ParseSpan(d) == Err(e)
    ensures ParseRule(s) == Err(BadKeep(e)) <==>
      exists d: string, k: string :: s == d + ":" + k && ':' !in d && ParseSpan(d).Ok? && ParseSpan(k) == Err(e)
  {
    hide ParseSpan;
    var colon := Find(s, ':');
    if colon < |s| {
      assert s == s[..colon] + ":" + s[colon + 1..];
    } else {
      assert s[..colon] == s;
    }
    forall d: string, k: string | s == d + ":" + k && ':' !in d ensures colon == |d| && s[..colon] == d && s[colon + 1..] == k {
      FindAfter(d, ':', k);
      assert s[..|d|] == d && s[|d| + 1..] == k;
    }
  }

  // ---------- Policies ----------

  function PrintRules(policy: Policy): (texts: seq<string>)
    ensures |texts| == |policy|
    ensures forall i :: 0 <= i < |policy| ==> texts[i] == PrintRule(policy[i])
  {
    if policy == [] then [] else [PrintRule(policy[0])] + PrintRules(policy[1..])
  }

  function PrintPolicy(policy: Policy): string {
    Join(PrintRules(policy), ",")
  }

  /** Parse the pieces of a policy, the first of which has number `number`; empty pieces are skipped. */
  function ParseRules(pieces: seq<string>, number: nat): Result<Policy, PolicyError> {
    if pieces == [] then
      Ok([])
    else if pieces[0] == "" then
      ParseRules(pieces[1..], number + 1)
    else
      match ParseRule(pieces[0])
      case Err(e) => Err(BadRule(number, e))
      case Ok(rule) =>
        match ParseRules(pieces[1..], number + 1)
        case Err(e) => Err(e)
        case Ok(rules) => Ok([rule] + rules)
  }

  function ParsePolicy(s: string): Result<Policy, PolicyError> {
    ParseRules(Split(s, ','), 1)
  }

  lemma {:induction false} ParseRulesCons(piece: string, rest: seq<string>, number: nat)
    requires piece != "" && ParseRule(piece).Ok? && ParseRules(rest, number + 1).Ok?
    ensures ParseRules([piece] + rest, number) == Ok([ParseRule(piece).value] + ParseRules(rest, number + 1).value)
  {
    assert ([piece] + rest)[1..] == rest;
  }

  lemma {:induction false} ParseEachRule(texts: seq<string>, policy: Policy, number: nat)
    requires |texts| == |policy|
    requires forall i :: 0 <= i < |texts| ==> texts[i] != "" && ParseRule(texts[i]) == Ok(policy[i])
    ensures ParseRules(texts, number) == Ok(policy)
  {
    if texts != [] {
      ParseEachRule(texts[1..], policy[1..], number + 1);
      ParseRulesCons(texts[0], texts[1..], number);
      assert texts == [texts[0]] + texts[1..];
      assert policy == [policy[0]] + policy[1..];
    }
  }

  /** Every policy, the empty one included, reads back from its own text. */
  lemma {:induction false} PolicyRoundTrip(policy: Policy)
    ensures ParsePolicy(PrintPolicy(policy)) == Ok(policy)
  {
    if policy == [] {
      assert Split("", ',') == [""];
      assert [""][1..] == [];
    } else {
      var texts := PrintRules(policy);
      forall i | 0 <= i < |policy|
        ensures ',' !in texts[i] && texts[i] != "" && ParseRule(texts[i]) == Ok(policy[i])
      {
        RuleRoundTrip(policy[i]);
      }
      SplitJoin(texts, ',');
      ParseEachRule(texts, policy, 1);
    }
  }

  /** The pieces that are not empty. */
  function Filled(pieces: seq<string>): seq<string> {
    if pieces == [] then []
    else if pieces[0] == "" then Filled(pieces[1..])
    else [pieces[0]] + Filled(pieces[1..])
  }

  /** The texts are the rules of the policy, one by one. */
  predicate AreRules(texts: seq<string>, policy: Policy) {
    |texts| == |policy| && forall i :: 0 <= i < |texts| ==> ParseRule(texts[i]) == Ok(policy[i])
  }

  lemma {:induction false} RulesAreFilled(pieces: seq<string>, number: nat, policy: Policy)
    ensures ParseRules(pieces, number) == Ok(policy) <==> AreRules(Filled(pieces), policy)
    decreases |pieces|
  {
    hide ParseRule;
    if pieces != [] {
      if pieces[0] == "" || policy == [] {
        RulesAreFilled(pieces[1..], number + 1, policy);
      } else {
        RulesAreFilled(pieces[1..], number + 1, policy[1..]);
        FirstRule(pieces[0], Filled(pieces[1..]), policy);
        assert policy == [policy[0]] + policy[1..];
        if ParseRules(pieces, number).Ok? {
          var rules := ParseRules(pieces[1..], number + 1).value;
          assert ([ParseRule(pieces[0]).value] + rules)[1..] == rules;
        }
      }
    }
  }

  lemma {:induction false} FirstRule(piece: string, others: seq<string>, policy: Policy)
    requires policy != []
    ensures AreRules([piece] + others, policy) <==> ParseRule(piece) == Ok(policy[0]) && AreRules(others, policy[1..])
  {
    hide ParseRule;
    var texts := [piece] + others;
    if AreRules(texts, policy) {
      forall i | 0 <= i < |others| ensures ParseRule(others[i]) == Ok(policy[1..][i]) {
        assert texts[i + 1] == others[i];
      }
    }
  }

  /**
   A text is a policy exactly if its pieces between commas, the empty ones left
   out, are the rules in order: commas too many change nothing.
   */
  lemma {:induction false} PolicyMeans(s: string, policy: Policy)
    ensures ParsePolicy(s) == Ok(policy) <==> AreRules(Filled(Split(s, ',')), policy)
  {
    RulesAreFilled(Split(s, ','), 1, policy);
  }

  /** The n-th piece, counted from `number`, is the first that is not a rule, and why. */
  predicate FailsFirst(pieces: seq<string>, number: nat, n: nat, e: RuleError) {
    && number <= n < number + |pieces| && pieces[n - number] != "" && ParseRule(pieces[n - number]) == Err(e)
    && forall i :: 0 <= i < n - number ==> pieces[i] == "" || ParseRule(pieces[i]).Ok?
  }

  lemma {:induction false} RulesFail(pieces: seq<string>, number: nat, n: nat, e: RuleError)
    ensures ParseRules(pieces, number) == Err(BadRule(n, e)) <==> FailsFirst(pieces, number, n, e)
    decreases |pieces|
  {
    hide ParseRule;
    if pieces != [] {
      RulesFail(pieces[1..], number + 1, n, e);
      if FailsFirst(pieces, number, n, e) && n > number {
        forall i | 0 <= i < n - number - 1 ensures pieces[1..][i] == "" || ParseRule(pieces[1..][i]).Ok? {
          assert pieces[i + 1] == pieces[1..][i];
        }
      }
      if FailsFirst(pieces[1..], number + 1, n, e) {
        forall i | 0 < i < n - number ensures pieces[i] == "" || ParseRule(pieces[i]).Ok? {
          assert pieces[1..][i - 1] == pieces[i];
        }
      }
    }
  }

  /** The error names the first piece that is neither empty nor a rule, counting all pieces from one. */
  lemma {:induction false} PolicyFails(s: string, n: nat, e: RuleError)
    ensures ParsePolicy(s) == Err(BadRule(n, e)) <==> FailsFirst(Split(s, ','), 1, n, e)
  {
    RulesFail(Split(s, ','), 1, n, e);
  }

  // ---------- Height requests ----------

  const MAX_U32 := 0xFFFF_FFFF

  datatype HeightRequest = Top | Absolute(height: nat) | Checkpoint(span: Span)

  predicate ValidHeight(request: HeightRequest) {
    request.Absolute? ==> request.height <= MAX_U32
  }

  function PrintHeight(request: HeightRequest): string {
    match request
    case Top => "top"
    case Absolute(height) => Digits(height)
    case Checkpoint(span) => PrintSpan(span)
  }

  function ParseHeight(s: string): Option<HeightRequest> {
    if s == "top" then
      Some(Top)
    else
      match ParseUnsigned(s, MAX_U32)
      case Some(height) => Some(Absolute(height))
      case None =>
        match ParseSpan(s)
        case Ok(span) => Some(Checkpoint(span))
        case Err(_) => None
  }

  /** No text is of two of the three forms, so the order in which they are tried does not matter. */
  lemma {:induction false} HeightFormsDisjoint(s: string)
    ensures s == "top" ==> ParseUnsigned(s, MAX_U32).None? && ParseSpan(s).Err?
    ensures ParseUnsigned(s, MAX_U32).Some? ==> ParseSpan(s).Err?
  {
    if s != "" {
      var unit := s[|s| - 1];
      if '0' <= unit <= '9' {
        assert unit !in {'U', 'm', 'h', 'D', 'W', 'M', 'Y'};
      }
    }
  }

  /** A text is the top, a height of 32 bits, or a span, exactly if it is one of them. */
  lemma {:induction false} HeightMeans(s: string, height: nat, span: Span)
    ensures ParseHeight(s) == Some(Top) <==> s == "top"
    ensures ParseHeight(s) == Some(Absolute(height)) <==> ParseUnsigned(s, 4_294_967_295) == Some(height)
    ensures ParseHeight(s) == Some(Checkpoint(span)) <==> ParseSpan(s) == Ok(span)
  {
    hide ParseUnsigned, ParseSpan;
    HeightFormsDisjoint(s);
  }

  lemma {:induction false} HeightRoundTrip(request: HeightRequest)
    requires ValidHeight(request)
    ensures ParseHeight(PrintHeight(request)) == Some(request)
  {
    match request
    case Top =>
    case Absolute(height) =>
      UnsignedRoundTrip(height, MAX_U32);
      HeightFormsDisjoint(Digits(height));
    case Checkpoint(span) =>
      SpanRoundTrip(span);
      HeightFormsDisjoint(PrintSpan(span));
  }
}
