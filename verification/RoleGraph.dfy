/** The role dependency graph: validation, topological ranks and the maximal fusion chain. */
module RoleGraph {
  import opened Wrappers
  import opened Core

  // ----- looking roles up by name -----

  function FindRole(roles: seq<RoleSpec>, name: string): (r: Option<RoleSpec>)
    ensures r.Some? ==> r.value in roles && r.value.name == name
    ensures r.None? ==> forall i :: 0 <= i < |roles| ==> roles[i].name != name
  {
    if roles == [] then None
    else if roles[0].name == name then Some(roles[0])
    else FindRole(roles[1..], name)
  }

  predicate HasRole(roles: seq<RoleSpec>, name: string)
  {
    FindRole(roles, name).Some?
  }

  function Role(roles: seq<RoleSpec>, name: string): (r: RoleSpec)
    requires HasRole(roles, name)
    ensures r in roles && r.name == name
  {
    FindRole(roles, name).value
  }

  predicate UniqueNames(roles: seq<RoleSpec>)
  {
    forall i, j :: 0 <= i < j < |roles| ==> roles[i].name != roles[j].name
  }

  lemma RoleIsUnique(roles: seq<RoleSpec>, role: RoleSpec)
    requires UniqueNames(roles) && role in roles
    ensures FindRole(roles, role.name) == Some(role)
  {
    var k :| 0 <= k < |roles| && roles[k] == role;
    var found := FindRole(roles, role.name);
    if found.Some? {
      var m :| 0 <= m < |roles| && roles[m] == found.value;
    }
  }

  function Names(roles: seq<RoleSpec>): (r: set<string>)
    ensures forall n :: n in r <==> HasRole(roles, n)
  {
    set i | 0 <= i < |roles| :: roles[i].name
  }

  lemma {:induction false} NamesCount(roles: seq<RoleSpec>)
    requires UniqueNames(roles)
    ensures |Names(roles)| == |roles|
  {
    if roles != [] {
      var n := |roles| - 1;
      NamesCount(roles[..n]);
      assert Names(roles) == Names(roles[..n]) + {roles[n].name};
      assert forall i :: 0 <= i < n ==> roles[..n][i].name != roles[n].name;
    }
  }

  // ----- well-formedness -----

  predicate IsWhitespace(c: char)
  {
    || '\U{0009}' <= c <= '\U{000D}' || c == ' ' || c == '\U{0085}' || c == '\U{00A0}' || c == '\U{1680}'
    || '\U{2000}' <= c <= '\U{200A}' || c == '\U{2028}' || c == '\U{2029}' || c == '\U{202F}'
    || c == '\U{205F}' || c == '\U{3000}'
  }

  /** The name is empty once surrounding white space is trimmed. */
  predicate IsBlank(name: string)
  {
    forall i :: 0 <= i < |name| ==> IsWhitespace(name[i])
  }

  predicate NoRepeats(names: seq<string>)
  {
    forall i, j :: 0 <= i < j < |names| ==> names[i] != names[j]
  }

  predicate GoodNames(roles: seq<RoleSpec>)
  {
    UniqueNames(roles) && forall i :: 0 <= i < |roles| ==> !IsBlank(roles[i].name)
  }

  predicate GoodReferences(roles: seq<RoleSpec>, names: seq<string>)
  {
    NoRepeats(names) && forall i :: 0 <= i < |names| ==> HasRole(roles, names[i])
  }

  predicate GoodDependencies(roles: seq<RoleSpec>)
  {
    forall i :: 0 <= i < |roles| ==> GoodReferences(roles, roles[i].dependsOn)
  }

  /** `order` lists some roles, each after all of its dependencies. */
  ghost predicate PartialOrder(roles: seq<RoleSpec>, order: seq<string>)
  {
    && NoRepeats(order)
    && forall k :: 0 <= k < |order| ==>
         HasRole(roles, order[k])
         && forall d :: d in Role(roles, order[k]).dependsOn ==> d in order[..k]
  }

  ghost predicate TopologicalOrder(roles: seq<RoleSpec>, order: seq<string>)
  {
    PartialOrder(roles, order) && forall n :: HasRole(roles, n) ==> n in order
  }

  ghost predicate Acyclic(roles: seq<RoleSpec>)
  {
    exists order :: TopologicalOrder(roles, order)
  }

  ghost predicate WellFormedReferences(roles: seq<RoleSpec>, outputs: seq<string>)
  {
    roles != [] && outputs != [] && GoodNames(roles) && GoodDependencies(roles) && GoodReferences(roles, outputs)
  }

  ghost predicate ValidGraph(roles: seq<RoleSpec>, outputs: seq<string>)
  {
    WellFormedReferences(roles, outputs) && Acyclic(roles)
  }

  // ----- validation -----

  datatype GraphError =
    | NoRoles | NoOutputs | EmptyName | DuplicateRole | UnknownDependency | RepeatedDependency
    | UnknownOutput | RepeatedOutput | Cycle

  method CheckNames(roles: seq<RoleSpec>) returns (error: Option<GraphError>, names: set<string>)
    ensures error.None? <==> GoodNames(roles)
    ensures error.None? ==> names == Names(roles)
    ensures error.Some? ==> error.value in {EmptyName, DuplicateRole}
  {
    names := {};
    for k := 0 to |roles|
      invariant GoodNames(roles[..k])
      invariant names == set i | 0 <= i < k :: roles[i].name
    {
      if IsBlank(roles[k].name) {
        return Some(EmptyName), names;
      }
      if roles[k].name in names {
        return Some(DuplicateRole), names;
      }
      names := names + {roles[k].name};
    }
    assert roles[..|roles|] == roles;
    return None, names;
  }

  method CheckReferences(roles: seq<RoleSpec>, known: set<string>, references: seq<string>,
                         unknown: GraphError, repeated: GraphError)
    returns (error: Option<GraphError>)
    requires known == Names(roles)
    ensures error.None? <==> GoodReferences(roles, references)
    ensures error.Some? ==> error.value in {unknown, repeated}
  {
    var seen: set<string> := {};
    for k := 0 to |references|
      invariant GoodReferences(roles, references[..k])
      invariant seen == set i | 0 <= i < k :: references[i]
    {
      if references[k] !in known {
        return Some(unknown);
      }
      if references[k] in seen {
        return Some(repeated);
      }
      seen := seen + {references[k]};
    }
    assert references[..|references|] == references;
    return None;
  }

  method CheckDependencies(roles: seq<RoleSpec>, known: set<string>) returns (error: Option<GraphError>)
    requires known == Names(roles)
    ensures error.None? <==> GoodDependencies(roles)
    ensures error.Some? ==> error.value in {UnknownDependency, RepeatedDependency}
  {
    for k := 0 to |roles|
      invariant forall i :: 0 <= i < k ==> GoodReferences(roles, roles[i].dependsOn)
    {
      error := CheckReferences(roles, known, roles[k].dependsOn, UnknownDependency, RepeatedDependency);
      if error.Some? {
        return;
      }
    }
    return None;
  }

  /** Whether every dependency of the role at `k` is already resolved. */
  predicate DependenciesIn(dependsOn: seq<string>, resolved: set<string>)
  {
    forall i :: 0 <= i < |dependsOn| ==> dependsOn[i] in resolved
  }

  ghost function Elements(order: seq<string>): set<string>
  {
    set i | 0 <= i < |order| :: order[i]
  }

  lemma {:induction false} DistinctElementsCount(order: seq<string>)
    requires NoRepeats(order)
    ensures |Elements(order)| == |order|
  {
    if order != [] {
      var n := |order| - 1;
      DistinctElementsCount(order[..n]);
      assert Elements(order) == Elements(order[..n]) + {order[n]};
      assert forall i :: 0 <= i < n ==> order[..n][i] != order[n];
    }
  }

  /** A partial order as long as the role list mentions every role. */
  lemma FullOrderIsTopological(roles: seq<RoleSpec>, order: seq<string>)
    requires UniqueNames(roles) && PartialOrder(roles, order)
    ensures |order| <= |roles|
    ensures |order| == |roles| ==> TopologicalOrder(roles, order)
  {
    NamesCount(roles);
    DistinctElementsCount(order);
    assert Elements(order) <= Names(roles);
    SubsetCardinality(Elements(order), Names(roles));
    if |order| == |roles| {
      forall n | HasRole(roles, n) ensures n in order {
        assert n in Elements(order);
      }
    }
  }

  lemma SubsetCardinality(a: set<string>, b: set<string>)
    requires a <= b
    ensures |a| <= |b|
    ensures |a| == |b| ==> a == b
  {
    assert |b| == |a| + |b - a| by { assert b == a + (b - a); }
    if |a| == |b| { assert b - a == {}; }
  }

  lemma ExtendOrder(roles: seq<RoleSpec>, order: seq<string>, role: RoleSpec)
    requires UniqueNames(roles) && PartialOrder(roles, order) && role in roles
    requires role.name !in order
    requires DependenciesIn(role.dependsOn, Elements(order))
    ensures PartialOrder(roles, order + [role.name])
    ensures Elements(order + [role.name]) == Elements(order) + {role.name}
  {
    RoleIsUnique(roles, role);
    var order' := order + [role.name];
    assert order'[..|order|] == order;
    forall k | 0 <= k < |order'|
      ensures HasRole(roles, order'[k])
      ensures forall d :: d in Role(roles, order'[k]).dependsOn ==> d in order'[..k]
    {
      if k < |order| {
        assert order'[..k] == order[..k] && order'[k] == order[k];
      } else {
        forall d | d in role.dependsOn ensures d in order'[..k] {
          assert d in Elements(order);
        }
      }
    }
    forall i, j | 0 <= i < j < |order'| ensures order'[i] != order'[j] {
      if j == |order| { assert order[i] in order; }
    }
    forall n | n in Elements(order) + {role.name} ensures n in Elements(order') {
      if n in Elements(order) {
        var i :| 0 <= i < |order| && order[i] == n;
        assert order'[i] == n;
      } else {
        assert order'[|order|] == n;
      }
    }
  }

  /** A pass that resolves nothing new on an incomplete set refutes every topological order. */
  lemma StuckMeansCycle(roles: seq<RoleSpec>, resolved: set<string>)
    requires UniqueNames(roles)
    requires exists n :: HasRole(roles, n) && n !in resolved
    requires forall i :: 0 <= i < |roles| ==>
               roles[i].name in resolved || !DependenciesIn(roles[i].dependsOn, resolved)
    ensures !Acyclic(roles)
  {
    if Acyclic(roles) {
      var order :| TopologicalOrder(roles, order);
      var n :| HasRole(roles, n) && n !in resolved;
      var k :| 0 <= k < |order| && order[k] == n;
      var m := FirstOutside(order, resolved, k);
      var role := Role(roles, order[m]);
      var i :| 0 <= i < |roles| && roles[i] == role;
      forall d | 0 <= d < |role.dependsOn| ensures role.dependsOn[d] in resolved {
        assert role.dependsOn[d] in order[..m];
      }
      assert false;
    }
  }

  lemma FirstOutside(order: seq<string>, resolved: set<string>, k: nat) returns (m: nat)
    requires k < |order| && order[k] !in resolved
    ensures m <= k && order[m] !in resolved && forall i :: 0 <= i < m ==> order[i] in resolved
  {
    m := 0;
    while order[m] in resolved
      invariant m <= k && forall i :: 0 <= i < m ==> order[i] in resolved
      decreases k - m
    {
      m := m + 1;
    }
  }

  /** One pass over the roles, resolving in place whatever has become resolvable. */
  method ResolvePass(roles: seq<RoleSpec>, before: set<string>, ghost order: seq<string>)
    returns (resolved: set<string>, ghost order': seq<string>)
    requires UniqueNames(roles) && PartialOrder(roles, order) && before == Elements(order)
    ensures PartialOrder(roles, order') && resolved == Elements(order') && order <= order'
    ensures resolved == before ==> order' == order
    ensures resolved == before ==> forall i :: 0 <= i < |roles| ==>
              roles[i].name in resolved || !DependenciesIn(roles[i].dependsOn, resolved)
  {
    resolved, order' := before, order;
    for k := 0 to |roles|
      invariant PartialOrder(roles, order') && resolved == Elements(order') && order <= order'
      invariant |order'| == |order| || |order'| > |order|
      invariant order' != order ==> resolved != before
      invariant order' == order ==> forall i :: 0 <= i < k ==>
                  roles[i].name in resolved || !DependenciesIn(roles[i].dependsOn, resolved)
    {
      if roles[k].name !in resolved && DependenciesIn(roles[k].dependsOn, resolved) {
        ExtendOrder(roles, order', roles[k]);
        assert before <= resolved by {
          forall n | n in before ensures n in Elements(order') {
            var i :| 0 <= i < |order| && order[i] == n;
            assert order'[i] == n;
          }
        }
        assert roles[k].name !in before;
        resolved := resolved + {roles[k].name};
        order' := order' + [roles[k].name];
        assert roles[k].name in resolved;
      }
    }
  }

  /**
   * Accepts exactly the graphs whose names, references and outputs are well formed and that have a
   * topological order; at most one round per role is needed.
   */
  method ValidateRoleGraph(roles: seq<RoleSpec>, outputs: seq<string>)
    returns (result: Result<(), GraphError>, ghost rounds: nat)
    ensures result.Success? <==> ValidGraph(roles, outputs)
    ensures result == Failure(Cycle) <==> WellFormedReferences(roles, outputs) && !Acyclic(roles)
    ensures rounds <= |roles|
  {
    rounds := 0;
    if roles == [] { return Failure(NoRoles), 0; }
    if outputs == [] { return Failure(NoOutputs), 0; }
    var error, names := CheckNames(roles);
    if error.Some? { return Failure(error.value), 0; }
    error := CheckDependencies(roles, names);
    if error.Some? { return Failure(error.value), 0; }
    error := CheckReferences(roles, names, outputs, UnknownOutput, RepeatedOutput);
    if error.Some? { return Failure(error.value), 0; }

    var resolved: set<string> := {};
    ghost var order: seq<string> := [];
    while true
      invariant PartialOrder(roles, order) && resolved == Elements(order)
      invariant rounds <= |order| < |roles|
      decreases |roles| - |order|
    {
      var before := |resolved|;
      ghost var was := order;
      DistinctElementsCount(order);
      var resolved', order' := ResolvePass(roles, resolved, order);
      DistinctElementsCount(order');
      FullOrderIsTopological(roles, order');
      rounds := rounds + 1;
      if |resolved'| == |roles| {
        return Success(()), rounds;
      }
      if |resolved'| == before {
        assert order' == order && resolved' == resolved;
        NamesCount(roles);
        assert exists n :: HasRole(roles, n) && n !in resolved by {
          if forall n :: HasRole(roles, n) ==> n in resolved {
            assert Names(roles) <= resolved;
            SubsetCardinality(Names(roles), resolved);
            assert false;
          }
        }
        StuckMeansCycle(roles, resolved);
        return Failure(Cycle), rounds;
      }
      resolved, order := resolved', order';
    }
  }

  // ----- ranks -----

  /** The position of a role in a topological order: a measure that falls along dependencies. */
  ghost function Rank(roles: seq<RoleSpec>, name: string): (r: nat)
    requires Acyclic(roles) && HasRole(roles, name)
    ensures r < |RankOrder(roles)| && RankOrder(roles)[r] == name
  {
    var r :| 0 <= r < |RankOrder(roles)| && RankOrder(roles)[r] == name;
    r
  }

  ghost function RankOrder(roles: seq<RoleSpec>): (order: seq<string>)
    requires Acyclic(roles)
    ensures TopologicalOrder(roles, order)
  {
    var order :| TopologicalOrder(roles, order);
    order
  }

  lemma DependencyRanksLower(roles: seq<RoleSpec>, name: string, dependency: string)
    requires Acyclic(roles) && HasRole(roles, name) && dependency in Role(roles, name).dependsOn
    ensures HasRole(roles, dependency) && Rank(roles, dependency) < Rank(roles, name)
  {
    var order := RankOrder(roles);
    var k := Rank(roles, name);
    assert dependency in order[..k];
    var i :| 0 <= i < k && order[i] == dependency;
    var r := Rank(roles, dependency);
  }

  // ----- fusion chains -----

  function Consumers(roles: seq<RoleSpec>, name: string): (r: seq<RoleSpec>)
    ensures forall c :: c in r <==> c in roles && name in c.dependsOn
  {
    if roles == [] then []
    else
      var rest := Consumers(roles[1..], name);
      assert forall c :: c in roles <==> c == roles[0] || c in roles[1..];
      if name in roles[0].dependsOn then [roles[0]] + rest else rest
  }

  /** The role that may follow `current` in a fusion chain, given the roles still waiting. */
  function NextInChain(definition: JobDefinition, waiting: set<string>, current: RoleSpec): (r: Option<RoleSpec>)
    ensures r.Some? ==> r.value in definition.roles && r.value.dependsOn == [current.name]
  {
    if current.name in definition.outputs then None
    else
      var consumers := Consumers(definition.roles, current.name);
      if |consumers| != 1 then None
      else
        var consumer := consumers[0];
        assert consumer in consumers;
        if !consumer.Chainable() || consumer.dependsOn != [current.name] || consumer.name !in waiting then None
        else Some(consumer)
  }

  ghost predicate IsFusionChain(definition: JobDefinition, waiting: set<string>, chain: seq<RoleSpec>)
  {
    && chain != []
    && (forall i :: 0 <= i < |chain| - 1 ==>
          NextInChain(definition, waiting, chain[i]) == Some(chain[i + 1]))
    && (|chain| > 1 ==> chain[0].Chainable())
  }

  lemma GraphFacts(definition: JobDefinition)
    requires ValidGraph(definition.roles, definition.outputs)
    ensures UniqueNames(definition.roles) && Acyclic(definition.roles)
  {
  }

  method FusionChain(definition: JobDefinition, waiting: set<string>, first: RoleSpec)
    returns (chain: seq<RoleSpec>)
    requires ValidGraph(definition.roles, definition.outputs)
    requires first in definition.roles && first.Logical?
    ensures IsFusionChain(definition, waiting, chain) && chain[0] == first
    ensures first.Chainable() ==> NextInChain(definition, waiting, chain[|chain| - 1]).None?
    ensures !first.Chainable() ==> chain == [first]
  {
    hide Consumers, PartialOrder, TopologicalOrder, WellFormedReferences;
    GraphFacts(definition);
    chain := [first];
    if !first.Chainable() {
      return;
    }
    var current := first;
    RoleIsUnique(definition.roles, first);
    while true
      invariant IsFusionChain(definition, waiting, chain) && chain[0] == first
      invariant current == chain[|chain| - 1] && current in definition.roles
      invariant HasRole(definition.roles, current.name)
      decreases |RankOrder(definition.roles)| - Rank(definition.roles, current.name)
    {
      var next := NextInChain(definition, waiting, current);
      if next.None? {
        break;
      }
      RoleIsUnique(definition.roles, next.value);
      DependencyRanksLower(definition.roles, next.value.name, current.name);
      chain := chain + [next.value];
      current := next.value;
    }
  }

  /** A link of a fusion chain is invisible from outside: nobody but the next link consumes it. */
  ghost predicate PrivateEdge(definition: JobDefinition, producer: string, consumer: string)
  {
    && producer !in definition.outputs
    && HasRole(definition.roles, consumer)
    && Role(definition.roles, consumer).dependsOn == [producer]
    && (forall c :: HasRole(definition.roles, c) && producer in Role(definition.roles, c).dependsOn ==> c == consumer)
  }

  lemma ChainEdgesArePrivate(definition: JobDefinition, waiting: set<string>, chain: seq<RoleSpec>)
    requires UniqueNames(definition.roles)
    requires IsFusionChain(definition, waiting, chain) && chain[0] in definition.roles
    ensures forall i :: 0 <= i < |chain| ==> FindRole(definition.roles, chain[i].name) == Some(chain[i])
    ensures forall i :: 0 <= i < |chain| - 1 ==> PrivateEdge(definition, chain[i].name, chain[i + 1].name)
    ensures forall i :: 1 <= i < |chain| ==> chain[i].name in waiting
    ensures |chain| > 1 ==> forall i :: 0 <= i < |chain| ==> chain[i].Chainable()
  {
    forall i | 0 <= i < |chain| ensures FindRole(definition.roles, chain[i].name) == Some(chain[i]) {
      if i > 0 { assert NextInChain(definition, waiting, chain[i - 1]) == Some(chain[i]); }
      RoleIsUnique(definition.roles, chain[i]);
    }
    forall i | 0 <= i < |chain| - 1
      ensures PrivateEdge(definition, chain[i].name, chain[i + 1].name)
    {
      var consumers := Consumers(definition.roles, chain[i].name);
      assert NextInChain(definition, waiting, chain[i]) == Some(chain[i + 1]);
      forall c | HasRole(definition.roles, c) && chain[i].name in Role(definition.roles, c).dependsOn
        ensures c == chain[i + 1].name
      {
        assert Role(definition.roles, c) in consumers;
      }
    }
    forall i | 1 <= i < |chain| ensures chain[i].name in waiting && chain[i].Chainable() {
      assert NextInChain(definition, waiting, chain[i - 1]) == Some(chain[i]);
    }
  }

  /** A chain never returns to a role it has left. */
  lemma {:induction false} ChainRanksRise(definition: JobDefinition, waiting: set<string>, chain: seq<RoleSpec>,
                                          i: nat, j: nat)
    requires ValidGraph(definition.roles, definition.outputs)
    requires IsFusionChain(definition, waiting, chain) && chain[0] in definition.roles
    requires i < j < |chain|
    ensures HasRole(definition.roles, chain[i].name) && HasRole(definition.roles, chain[j].name)
    ensures Rank(definition.roles, chain[i].name) < Rank(definition.roles, chain[j].name)
    ensures chain[i].name != chain[j].name
    decreases j
  {
    ChainEdgesArePrivate(definition, waiting, chain);
    assert PrivateEdge(definition, chain[j - 1].name, chain[j].name);
    DependencyRanksLower(definition.roles, chain[j].name, chain[j - 1].name);
    if i < j - 1 {
      ChainRanksRise(definition, waiting, chain, i, j - 1);
    }
  }
}
