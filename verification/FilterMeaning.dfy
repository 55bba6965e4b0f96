/**
 What the plain filters mean: which events each of them picks out, that they
 tell any two events apart, and what the patterns of node targets match.
 */
module FilterMeaning {
  import opened Wrappers
  import opened Nodes
  import opened Filter

  // ---------- Plain filters ----------

  /** A filter for one value matches the events that have it in the place the filter is about. */
  lemma {:induction false} IdsMatch(event: Event, agent: string, env: string, cannon: string, x: string)
    requires event.agent == Some(agent) && event.env == Some(env) && event.cannon == Some(cannon)
    ensures Matches(event, AgentIs(x)) <==> x == agent
    ensures Matches(event, EnvIs(x)) <==> x == env
    ensures Matches(event, CannonIs(x)) <==> x == cannon
  {
  }

  lemma {:induction false} OthersMatch(event: Event, key: NodeKey, transaction: string, x: string, other: NodeKey, kind: EventKind)
    requires event.nodeKey == Some(key) && event.transaction == Some(transaction)
    ensures Matches(event, TransactionIs(x)) <==> x == transaction
    ensures Matches(event, NodeKeyIs(other)) <==> other == key
    ensures Matches(event, EventIs(kind)) <==> kind == event.kind
  {
  }

  /** The filters that ask for a value at all match when the filter for some value does. */
  lemma {:induction false} HasMeansSome(event: Event)
    ensures Matches(event, HasAgent) <==> exists x :: Matches(event, AgentIs(x))
    ensures Matches(event, HasEnv) <==> exists x :: Matches(event, EnvIs(x))
  {
    if event.agent.Some? {
      assert Matches(event, AgentIs(event.agent.value));
    }
    if event.env.Some? {
      assert Matches(event, EnvIs(event.env.value));
    }
  }

  lemma {:induction false} HasOthersMeansSome(event: Event)
    ensures Matches(event, HasTransaction) <==> exists x :: Matches(event, TransactionIs(x))
    ensures Matches(event, HasCannon) <==> exists x :: Matches(event, CannonIs(x))
    ensures Matches(event, HasNodeKey) <==> exists key :: Matches(event, NodeKeyIs(key))
  {
    if event.transaction.Some? {
      assert Matches(event, TransactionIs(event.transaction.value));
    }
    if event.cannon.Some? {
      assert Matches(event, CannonIs(event.cannon.value));
    }
    if event.nodeKey.Some? {
      assert Matches(event, NodeKeyIs(event.nodeKey.value));
    }
  }

  /** An event with no value in a place matches no filter for one there, whatever else it has. */
  lemma {:induction false} NothingMatches(event: Event, x: string, key: NodeKey, targets: NodeTargets)
    ensures !Matches(event.(agent := None), AgentIs(x)) && !Matches(event.(env := None), EnvIs(x))
    ensures !Matches(event.(transaction := None), TransactionIs(x)) && !Matches(event.(cannon := None), CannonIs(x))
    ensures !Matches(event.(nodeKey := None), NodeKeyIs(key)) && !Matches(event.(nodeKey := None), NodeTargetIs(targets))
  {
  }

  predicate IsForOneValue(filter: EventFilter) {
    filter.AgentIs? || filter.EnvIs? || filter.TransactionIs? || filter.CannonIs? || filter.NodeKeyIs? || filter.EventIs?
  }

  /** Events are the same exactly if the filters for one value do not tell them apart. */
  lemma {:induction false} FiltersTellApart(a: Event, b: Event)
    ensures a == b <==> forall filter | IsForOneValue(filter) :: Matches(a, filter) <==> Matches(b, filter)
  {
    if a != b {
      var filter := Difference(a, b);
    }
  }

  lemma {:induction false} Difference(a: Event, b: Event) returns (filter: EventFilter)
    requires a != b
    ensures IsForOneValue(filter) && Matches(a, filter) != Matches(b, filter)
  {
    if a.kind != b.kind {
      filter := EventIs(a.kind);
    } else if a.agent != b.agent {
      filter := AgentIs(if a.agent.Some? then a.agent.value else b.agent.value);
    } else if a.env != b.env {
      filter := EnvIs(if a.env.Some? then a.env.value else b.env.value);
    } else if a.transaction != b.transaction {
      filter := TransactionIs(if a.transaction.Some? then a.transaction.value else b.transaction.value);
    } else if a.cannon != b.cannon {
      filter := CannonIs(if a.cannon.Some? then a.cannon.value else b.cannon.value);
    } else {
      filter := NodeKeyIs(if a.nodeKey.Some? then a.nodeKey.value else b.nodeKey.value);
    }
  }

  /** Lists, one filter at a time: all, any, and exactly one. */
  lemma {:induction false} ListsMatch(event: Event, first: EventFilter, others: seq<EventFilter>)
    ensures Matches(event, Unfiltered) && Matches(event, AllOf([])) && !Matches(event, AnyOf([])) && !Matches(event, OneOf([]))
    ensures Matches(event, Not(first)) != Matches(event, first)
    ensures Matches(event, AllOf([first] + others)) <==> Matches(event, first) && Matches(event, AllOf(others))
    ensures Matches(event, AnyOf([first] + others)) <==> Matches(event, first) || Matches(event, AnyOf(others))
    ensures
      Matches(event, OneOf([first] + others)) <==>
        if Matches(event, first) then !Matches(event, AnyOf(others)) else Matches(event, OneOf(others))
  {
    AllOfAppend(event, [first], others);
    AnyOfAppend(event, [first], others);
    assert AllOf([first]).filters[0] == first && AnyOf([first]).filters[0] == first;
    assert ([first] + others)[1..] == others;
    NoneMatches(event, others);
  }

  lemma {:induction false} NoneMatches(event: Event, filters: seq<EventFilter>)
    ensures MatchCount(event, filters) == 0 <==> !Matches(event, AnyOf(filters))
  {
    if filters != [] {
      NoneMatches(event, filters[1..]);
      assert filters == [filters[0]] + filters[1..];
      AnyOfAppend(event, [filters[0]], filters[1..]);
      assert AnyOf([filters[0]]).filters[0] == filters[0];
    }
  }

  // ---------- Patterns ----------

  /** A pattern of one character. */
  lemma {:induction false} OneMatches(c: char, s: string)
    ensures WildcardMatches("", s) <==> s == ""
    ensures c == '*' ==> WildcardMatches([c], s)
    ensures c == '?' ==> (WildcardMatches([c], s) <==> |s| == 1)
    ensures c != '*' && c != '?' ==> (WildcardMatches([c], s) <==> s == [c])
  {
    if c == '*' {
      StarMatchesAll(s);
      assert [c] == "*";
    } else {
      assert [c][1..] == "";
      assert s != "" ==> (s[1..] == "" <==> |s| == 1);
    }
  }

  /** Two patterns one after the other match exactly the texts of two parts they match. */
  lemma {:induction false} PatternsCompose(p: string, q: string, s: string)
    ensures WildcardMatches(p + q, s) <==> exists i: nat :: i <= |s| && WildcardMatches(p, s[..i]) && WildcardMatches(q, s[i..])
  {
    if WildcardMatches(p + q, s) {
      var i := PartsOf(p, q, s);
    }
    forall i: nat | i <= |s| && WildcardMatches(p, s[..i]) && WildcardMatches(q, s[i..]) ensures WildcardMatches(p + q, s) {
      PartsMatch(p, q, s, i);
    }
  }

  lemma {:induction false} PartsOf(p: string, q: string, s: string) returns (i: nat)
    requires WildcardMatches(p + q, s)
    ensures i <= |s| && WildcardMatches(p, s[..i]) && WildcardMatches(q, s[i..])
    decreases |p| + |s|
  {
    if p == "" {
      assert p + q == q && s[0..] == s && s[..0] == "";
      i := 0;
    } else {
      assert (p + q)[1..] == p[1..] + q && (p + q)[0] == p[0];
      if p[0] == '*' && WildcardMatches(p[1..] + q, s) {
        i := PartsOf(p[1..], q, s);
      } else if p[0] == '*' {
        i := PartsOf(p, q, s[1..]);
        i := i + 1;
        assert s[..i][1..] == s[1..][..i - 1] && s[i..] == s[1..][i - 1..];
      } else {
        i := PartsOf(p[1..], q, s[1..]);
        i := i + 1;
        assert s[..i][1..] == s[1..][..i - 1] && s[i..] == s[1..][i - 1..];
      }
    }
  }

  lemma {:induction false} PartsMatch(p: string, q: string, s: string, i: nat)
    requires i <= |s| && WildcardMatches(p, s[..i]) && WildcardMatches(q, s[i..])
    ensures WildcardMatches(p + q, s)
    decreases |p| + |s|
  {
    if p == "" {
      assert p + q == q && s[0..] == s;
    } else {
      assert (p + q)[1..] == p[1..] + q && (p + q)[0] == p[0];
      if i > 0 {
        assert s[..i][1..] == s[1..][..i - 1] && s[i..] == s[1..][i - 1..];
      }
      if p[0] == '*' && WildcardMatches(p[1..], s[..i]) {
        PartsMatch(p[1..], q, s, i);
      } else if p[0] == '*' {
        PartsMatch(p, q, s[1..], i - 1);
      } else {
        PartsMatch(p[1..], q, s[1..], i - 1);
      }
    }
  }

  /** A pattern without wildcards matches itself only, and with a star after it what begins with it. */
  lemma {:induction false} PlainPatterns(p: string, s: string)
    requires '*' !in p && '?' !in p
    ensures WildcardMatches(p, s) <==> s == p
    ensures WildcardMatches(p + "*", s) <==> p <= s
  {
    PlainMatchesItself(p, s);
    PatternsCompose(p, "*", s);
    if p <= s {
      assert s[..|p|] == p;
      PlainMatchesItself(p, s[..|p|]);
      StarMatchesAll(s[|p|..]);
    }
    forall i: nat | i <= |s| && WildcardMatches(p, s[..i]) ensures p <= s {
      PlainMatchesItself(p, s[..i]);
    }
  }

  lemma {:induction false} PlainMatchesItself(p: string, s: string)
    requires '*' !in p && '?' !in p
    ensures WildcardMatches(p, s) <==> s == p
    decreases |p|
  {
    if p != "" && s != "" {
      PlainMatchesItself(p[1..], s[1..]);
      assert p == [p[0]] + p[1..] && s == [s[0]] + s[1..];
    }
  }

  // ---------- Targets ----------

  /** The target made of the parts of a key. */
  function TargetOf(key: NodeKey): NodeTarget {
    NodeTarget(OneType(key.ty), LiteralId(key.id), match key.ns case None => Local case Some(ns) => LiteralNamespace(ns))
  }

  /** It matches that key and no other, and each of its parts is looked at on its own. */
  lemma {:induction false} TargetOfKey(key: NodeKey, other: NodeKey)
    requires CanonicalKey(key) && CanonicalKey(other)
    ensures TargetMatches(TargetOf(key), other) <==> other == key
    ensures TargetMatches(TargetOf(key).(ty := AllTypes), other) <==> other.id == key.id && other.ns == key.ns
    ensures TargetMatches(TargetOf(key).(id := AllIds), other) <==> other.ty == key.ty && other.ns == key.ns
    ensures TargetMatches(TargetOf(key).(ns := AllNamespaces), other) <==> other.ty == key.ty && other.id == key.id
    ensures
      TargetMatches(TargetOf(key).(id := WildcardPattern(key.id + "*")), other) <==>
        other.ty == key.ty && key.id <= other.id && other.ns == key.ns
  {
    KeyTextIsPlain(key.id);
    PlainPatterns(key.id, other.id);
  }

  lemma {:induction false} KeyTextIsPlain(s: string)
    requires IsKeyText(s)
    ensures '*' !in s && '?' !in s
  {
  }

  /** The local namespace is that of keys that have none or say so, whichever way the target puts it. */
  lemma {:induction false} LocalMatches(target: NodeTarget, key: NodeKey)
    requires target.ns == Local || target.ns == LiteralNamespace("local")
    ensures TargetMatches(target, key) <==>
      TargetMatches(target.(ns := AllNamespaces), key) && (key.ns.Some? ==> key.ns.value == "local")
  {
  }

  /** Letters and digits by their codes. */
  lemma {:induction false} AlphanumericIs(c: char)
    ensures IsAlphanumeric(c) <==> 65 <= c as int <= 90 || 97 <= c as int <= 122 || 48 <= c as int <= 57
  {
  }

  /** A list of targets matches the keys that one of them matches. */
  lemma {:induction false} TargetsMatchSome(event: Event, targets: seq<NodeTarget>)
    ensures
      Matches(event, NodeTargetIs(TargetsFrom(targets))) <==>
        event.nodeKey.Some? && exists target :: target in targets && TargetMatches(target, event.nodeKey.value)
  {
    var list := TargetList(TargetsFrom(targets));
    assert list == targets;
  }
}
