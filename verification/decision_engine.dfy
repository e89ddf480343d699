/** Decision rules: two redundant structures, a two-key sort, and a fail-fast evaluation. */

module Decisions {
  import opened Wrappers
  import opened Seqs
  import opened Dicts
  import opened Data
  import opened StableSort

  datatype Rule = Rule(name: string, priority: int, id: string, description: string)

  /** What calling a rule's predicate does this time. */
  datatype Verdict = Match | NoMatch | Raises

  datatype DecisionError = InvalidRule | DuplicateRule | RuleNotFound | InvalidInput | RuleEvaluation(rule: string)

  datatype Rules = Rules(table: Dict<string, Rule>, order: seq<string>)

  function RuleId(): Rule -> string {
    (r: Rule) => r.id
  }

  function Register(e: Rules, rule: Rule): Result<Rules, DecisionError> {
    if rule.id == "" || rule.name == "" then Err(InvalidRule)
    else if rule.id in e.table.vals then Err(DuplicateRule)
    else Ok(Rules(Put(e.table, rule.id, rule), e.order + [rule.id]))
  }

  /** list.remove drops the first occurrence; the id must be there. */
  function Remove(e: Rules, id: string): Result<Rules, DecisionError>
    requires Agree(e)
  {
    if id == "" then Err(InvalidRule)
    else if id !in e.table.vals then Err(RuleNotFound)
    else
      assert id in e.table.keys;
      Ok(Rules(Del(e.table, id), WithoutFirst(e.order, id)))
  }

  /** Both structures hold the same ids in the same order. */
  ghost predicate Agree(e: Rules) {
    e.order == e.table.keys && KeyedBy(e.table, RuleId())
  }

  // ---- list_rules ------------------------------------------------------------------

  function Position(order: seq<string>, id: string): nat {
    if id in order then IndexOf(order, id) else |order|
  }

  function IdPriority(e: Rules): string -> int {
    (id: string) => if id in e.table.vals then e.table.vals[id].priority else 0
  }

  function IdPosition(e: Rules): string -> int {
    (id: string) => Position(e.order, id)
  }

  function RuleAt(e: Rules): string -> Rule {
    (id: string) => if id in e.table.vals then e.table.vals[id] else Rule("", 0, "", "")
  }

  function ListRules(e: Rules): seq<Rule> {
    Map(RuleAt(e), Sort(IdPriority(e), IdPosition(e), e.table.keys))
  }

  function Priority(): Rule -> int {
    (r: Rule) => r.priority
  }

  function RegisteredAt(e: Rules): Rule -> int {
    (r: Rule) => Position(e.order, r.id)
  }

  /** s arranges the registered rules by priority, earlier registered first among equals. */
  ghost predicate Arranges(e: Rules, s: seq<Rule>) {
    Increasing(Priority(), RegisteredAt(e), s) && forall r :: r in s <==> Holds(e, r)
  }

  ghost predicate Holds(e: Rules, r: Rule) {
    r.id in e.table.vals && e.table.vals[r.id] == r
  }

  lemma IdsAreSorted(e: Rules, ids: seq<string>)
    requires Agree(e) && ids == Sort(IdPriority(e), IdPosition(e), e.table.keys)
    ensures Increasing(IdPriority(e), IdPosition(e), ids)
    ensures forall id :: id in ids <==> id in e.table.vals
  {
    forall i, j | 0 <= i < j < |e.order|
      ensures IdPosition(e)(e.order[i]) != IdPosition(e)(e.order[j])
    {
      assert e.order[i] in e.order && e.order[j] in e.order;
    }
    SortIncreases(IdPriority(e), IdPosition(e), e.table.keys);
    SortMembers(IdPriority(e), IdPosition(e), e.table.keys);
    hide Sort;
  }

  lemma ListMembers(e: Rules, r: Rule)
    requires Agree(e)
    ensures r in ListRules(e) <==> Holds(e, r)
  {
    hide Sort;
    var ids := Sort(IdPriority(e), IdPosition(e), e.table.keys);
    IdsAreSorted(e, ids);
    if Holds(e, r) {
      var i :| 0 <= i < |ids| && ids[i] == r.id;
      assert ListRules(e)[i] == r;
    }
    if r in ListRules(e) {
      var i :| 0 <= i < |ids| && ListRules(e)[i] == r;
      assert ids[i] in ids;
    }
  }

  lemma ListArranges(e: Rules)
    requires Agree(e)
    ensures Arranges(e, ListRules(e))
  {
    hide Sort, Position;
    var ids := Sort(IdPriority(e), IdPosition(e), e.table.keys);
    IdsAreSorted(e, ids);
    var rules := ListRules(e);
    forall i, j | 0 <= i < j < |rules|
      ensures Before(Priority(), RegisteredAt(e), rules[i], rules[j])
    {
      assert ids[i] in ids && ids[j] in ids;
      assert Before(IdPriority(e), IdPosition(e), ids[i], ids[j]);
    }
    forall r
      ensures r in rules <==> Holds(e, r)
    {
      ListMembers(e, r);
    }
  }

  /** list_rules is the one stable sort of the registered rules by priority. */
  lemma ListIsTheStableSort(e: Rules, s: seq<Rule>)
    requires Agree(e)
    ensures Arranges(e, s) <==> s == ListRules(e)
  {
    ListArranges(e);
    if Arranges(e, s) {
      IncreasingIsUnique(Priority(), RegisteredAt(e), s, ListRules(e));
    }
  }

  // ---- Registering and removing ---------------------------------------------------------

  lemma RegisterAgrees(e: Rules, rule: Rule)
    requires Agree(e) && Register(e, rule).Ok?
    ensures Agree(Register(e, rule).value)
  {
  }

  lemma RemoveAgrees(e: Rules, id: string)
    requires Agree(e) && Remove(e, id).Ok?
    ensures Agree(Remove(e, id).value)
  {
    WithoutFirstIsFilter(e.order, id);
  }

  function NoLaterThan(priority: int): Rule -> bool {
    (r: Rule) => r.priority <= priority
  }

  function LaterThan(priority: int): Rule -> bool {
    (r: Rule) => r.priority > priority
  }

  function NotRule(id: string): Rule -> bool {
    (r: Rule) => r.id != id
  }

  lemma PositionSnoc(order: seq<string>, id: string, x: string)
    requires x in order && id !in order
    ensures Position(order + [id], x) == Position(order, x) < |order|
    ensures Position(order + [id], id) == |order|
  {
    var more := order + [id];
    assert more[IndexOf(order, x)] == x;
    assert forall i :: 0 <= i < |order| ==> more[i] == order[i];
  }

  lemma PositionWithout(order: seq<string>, id: string, x: string)
    requires NoDup(order) && id in order && x in order && x != id
    ensures Position(order, x) != Position(order, id)
    ensures Position(WithoutFirst(order, id), x)
         == if Position(order, x) > Position(order, id) then Position(order, x) - 1 else Position(order, x)
  {
    var i, j := IndexOf(order, id), IndexOf(order, x);
    var less := WithoutFirst(order, id);
    var k := if j > i then j - 1 else j;
    assert less[k] == x;
    assert forall m :: 0 <= m < k ==> less[m] == order[if m < i then m else m + 1] != x;
  }

  /** Closing the gap at `cut` does not reorder anything. */
  lemma IncreasingShift<T(!new)>(priority: T -> int, p: T -> int, q: T -> int, cut: int, s: seq<T>)
    requires Increasing(priority, p, s)
    requires forall x :: x in s ==> p(x) != cut && q(x) == if p(x) > cut then p(x) - 1 else p(x)
    ensures Increasing(priority, q, s)
  {
    forall i, j | 0 <= i < j < |s|
      ensures Before(priority, q, s[i], s[j])
    {
      assert s[i] in s && s[j] in s && Before(priority, p, s[i], s[j]);
    }
  }

  lemma KeptInOrder(e: Rules, rule: Rule, keep: Rule -> bool)
    requires Agree(e) && Register(e, rule).Ok?
    ensures Increasing(Priority(), RegisteredAt(Register(e, rule).value), Filter(keep, ListRules(e)))
    ensures forall r :: r in Filter(keep, ListRules(e)) <==> Holds(e, r) && keep(r)
    ensures forall r :: r in Filter(keep, ListRules(e)) ==>
      RegisteredAt(Register(e, rule).value)(r) < RegisteredAt(Register(e, rule).value)(rule)
  {
    hide ListRules, Position, Filter;
    var kept, more := Filter(keep, ListRules(e)), Register(e, rule).value;
    ListArranges(e);
    FilterIncreases(Priority(), RegisteredAt(e), keep, ListRules(e));
    FilterMembers(keep, ListRules(e));
    forall r | r in kept
      ensures RegisteredAt(more)(r) == RegisteredAt(e)(r) < |e.order| == RegisteredAt(more)(rule)
    {
      assert Holds(e, r) && r.id in e.order;
      PositionSnoc(e.order, rule.id, r.id);
    }
    IncreasingShift(Priority(), RegisteredAt(e), RegisteredAt(more), |e.order|, kept);
  }

  /** A new rule goes after every rule of its priority or less and before all the others,
      which keep their order. */
  lemma RegisterInserts(e: Rules, rule: Rule)
    requires Agree(e) && Register(e, rule).Ok?
    ensures ListRules(Register(e, rule).value)
         == Filter(NoLaterThan(rule.priority), ListRules(e)) + [rule] + Filter(LaterThan(rule.priority), ListRules(e))
  {
    hide ListRules, Position, Filter;
    var more := Register(e, rule).value;
    var before := Filter(NoLaterThan(rule.priority), ListRules(e));
    var after := Filter(LaterThan(rule.priority), ListRules(e));
    KeptInOrder(e, rule, NoLaterThan(rule.priority));
    KeptInOrder(e, rule, LaterThan(rule.priority));
    JoinIncreases(Priority(), RegisteredAt(more), before, rule, after);
    var s := before + [rule] + after;
    forall r
      ensures r in s <==> Holds(more, r)
    {
      assert r in s <==> r in before || r == rule || r in after;
    }
    RegisterAgrees(e, rule);
    ListIsTheStableSort(more, s);
  }

  /** Removing a rule deletes it in place. */
  lemma RemoveDeletesInPlace(e: Rules, id: string)
    requires Agree(e) && Remove(e, id).Ok?
    ensures ListRules(Remove(e, id).value) == Filter(NotRule(id), ListRules(e))
  {
    hide ListRules, Position, Filter, WithoutFirst;
    var less, s := Remove(e, id).value, Filter(NotRule(id), ListRules(e));
    assert id in e.order;
    ListArranges(e);
    FilterIncreases(Priority(), RegisteredAt(e), NotRule(id), ListRules(e));
    FilterMembers(NotRule(id), ListRules(e));
    forall r | r in s
      ensures RegisteredAt(e)(r) != Position(e.order, id)
      ensures RegisteredAt(less)(r)
        == if RegisteredAt(e)(r) > Position(e.order, id) then RegisteredAt(e)(r) - 1 else RegisteredAt(e)(r)
    {
      assert Holds(e, r) && r.id in e.order && NotRule(id)(r);
      PositionWithout(e.order, id, r.id);
    }
    IncreasingShift(Priority(), RegisteredAt(e), RegisteredAt(less), Position(e.order, id), s);
    forall r
      ensures r in s <==> Holds(less, r)
    {
      assert r in s <==> Holds(e, r) && r.id != id;
    }
    RemoveAgrees(e, id);
    ListIsTheStableSort(less, s);
  }

  // ---- Runs ---------------------------------------------------------------------------

  datatype Op = RegisterRule(rule: Rule) | RemoveRule(id: string)

  function Apply(e: Rules, op: Op): Rules
    requires Agree(e)
  {
    match op
    case RegisterRule(rule) => (match Register(e, rule) case Ok(more) => more case Err(_) => e)
    case RemoveRule(id) => (match Remove(e, id) case Ok(less) => less case Err(_) => e)
  }

  /** Over every run, refused calls included, the table and the list hold the same ids in the
      same order; so list.remove and the index lookups of the sort never miss. */
  function Run(e: Rules, ops: seq<Op>): (after: Rules)
    requires Agree(e)
    ensures Agree(after)
  {
    if ops == [] then e
    else
      var before, op := Run(e, ops[..|ops| - 1]), ops[|ops| - 1];
      ApplyAgrees(before, op);
      Apply(before, op)
  }

  lemma ApplyAgrees(e: Rules, op: Op)
    requires Agree(e)
    ensures Agree(Apply(e, op))
  {
    hide Agree, WithoutFirst;
    match op
    case RegisterRule(rule) =>
      if Register(e, rule).Ok? {
        RegisterAgrees(e, rule);
      }
    case RemoveRule(id) =>
      if Remove(e, id).Ok? {
        RemoveAgrees(e, id);
      }
  }

  // ---- Evaluation ------------------------------------------------------------------------

  datatype Evaluation = Evaluation(rule: string, name: string, matched: bool)

  datatype Decision = Decision(
    decisionType: string,
    id: nat,
    matched: seq<Rule>,
    results: seq<Attributes>,
    evaluations: seq<Evaluation>,
    matchedCount: nat,
    totalCount: nat)

  datatype Notice =
    | DecisionFailed(decisionType: string, rule: string)
    | DecisionEvaluated(decisionType: string, rules: nat, matched: nat)
    | DecisionCreated(decisionType: string, id: nat, matched: nat)

  function Matches(verdict: Rule -> Verdict): Rule -> bool {
    (r: Rule) => verdict(r) == Match
  }

  function EvaluationOf(verdict: Rule -> Verdict): Rule -> Evaluation {
    (r: Rule) => Evaluation(r.id, r.name, verdict(r) == Match)
  }

  function Matched(): Evaluation -> bool {
    (v: Evaluation) => v.matched
  }

  function EvaluatedId(): Evaluation -> string {
    (v: Evaluation) => v.rule
  }

  /** The decision's matched rules are those its own trace says matched, in the same order. */
  lemma TraceNamesTheMatches(verdict: Rule -> Verdict, rules: seq<Rule>)
    ensures Map(RuleId(), Filter(Matches(verdict), rules))
         == Map(EvaluatedId(), Filter(Matched(), Map(EvaluationOf(verdict), rules)))
  {
    FilterMap(EvaluationOf(verdict), Matches(verdict), Matched(), rules);
    hide Filter;
  }
}

/** What registering, removing and evaluating rules comes to. */
module DecisionEffects {
  import opened Wrappers
  import opened Seqs
  import opened Dicts
  import opened Decisions

  /** register_rule: a rule without id or name is refused first, then one whose id is in use;
      otherwise it goes last in both structures. */
  lemma RegisterEffect(e: Rules, rule: Rule)
    requires Agree(e)
    ensures match Register(e, rule)
      case Err(error) =>
        if rule.id == "" || rule.name == "" then error == InvalidRule
        else rule.id in e.table.vals && error == DuplicateRule
      case Ok(more) =>
        && rule.id != "" && rule.name != "" && rule.id !in e.table.vals
        && Binds(e.table, more.table, rule.id, rule) && more.order == more.table.keys == e.table.keys + [rule.id]
  {
    PutBinds(e.table, rule.id, rule);
    hide Put;
  }

  /** remove_rule: that rule leaves both structures and the others keep their order. */
  lemma RemoveEffect(e: Rules, id: string)
    requires Agree(e)
    ensures match Remove(e, id)
      case Err(error) =>
        if id == "" then error == InvalidRule else id !in e.table.vals && error == RuleNotFound
      case Ok(less) =>
        && id != "" && id in e.table.vals && Unbinds(e.table, less.table, id)
        && less.order == less.table.keys == Filter(Except(id), e.table.keys)
  {
    DelUnbinds(e.table, id);
    if id in e.table.vals {
      assert id in e.table.keys;
      WithoutFirstIsFilter(e.order, id);
    }
    hide Filter, Del, WithoutFirst;
  }

  /** The matched rules are those whose predicate matched, in list order; the trace has one
      entry per rule, in list order, telling its id, its name and whether it matched. */
  lemma EvaluationEffect(verdict: Rule -> Verdict, rules: seq<Rule>) returns (places: seq<int>)
    ensures Picks(rules, places, Filter(Matches(verdict), rules))
    ensures forall i, j :: 0 <= i < j < |places| ==> places[i] < places[j]
    ensures forall n :: n in places <==> 0 <= n < |rules| && verdict(rules[n]) == Match
    ensures var trace := Map(EvaluationOf(verdict), rules);
      |trace| == |rules| && forall n :: 0 <= n < |rules| ==>
        trace[n].rule == rules[n].id && trace[n].name == rules[n].name && (trace[n].matched <==> n in places)
  {
    places := FilterPicks(Matches(verdict), rules);
    hide Filter, Picks;
  }
}

/** The engine itself. */
module DecisionEngines {
  import opened Wrappers
  import opened Seqs
  import opened Dicts
  import opened Data
  import opened StableSort
  import opened Decisions

  lemma NothingEvaluated(verdict: Rule -> Verdict, none: seq<Rule>)
    requires none == []
    ensures Map(EvaluationOf(verdict), none) == [] && Filter(Matches(verdict), none) == []
  {
  }

  lemma EvaluateStep(verdict: Rule -> Verdict, rules: seq<Rule>, i: nat)
    requires i < |rules|
    ensures Map(EvaluationOf(verdict), rules[..i + 1])
         == Map(EvaluationOf(verdict), rules[..i])
            + [Evaluation(rules[i].id, rules[i].name, verdict(rules[i]) == Match)]
    ensures Filter(Matches(verdict), rules[..i + 1])
         == Filter(Matches(verdict), rules[..i]) + (if verdict(rules[i]) == Match then [rules[i]] else [])
    ensures rules[..i + 1] == rules[..i] + [rules[i]]
  {
    PrefixStep(rules, i);
    FilterSnoc(Matches(verdict), rules[..i], rules[i]);
  }

  class DecisionEngine {
    var rules: Dict<string, Rule>
    var registrationOrder: seq<string>
    var notices: seq<Notice>
    /** Decision ids drawn so far. */
    var drawn: nat

    ghost function State(): Rules
      reads this
    {
      Rules(rules, registrationOrder)
    }

    ghost predicate Valid()
      reads this
    {
      Agree(State())
    }

    constructor ()
      ensures Valid() && State() == Rules(Empty(), []) && notices == []
    {
      rules, registrationOrder, notices, drawn := Empty(), [], [], 0;
    }

    method RegisterRule(rule: Rule) returns (r: Result<(), DecisionError>)
      requires Valid()
      modifies this`rules, this`registrationOrder
      ensures Valid()
      ensures match Register(old(State()), rule)
        case Ok(more) => r == Ok(()) && State() == more
        case Err(error) => r == Err(error) && State() == old(State())
    {
      if rule.id == "" || rule.name == "" {
        return Err(InvalidRule);
      }
      if rule.id in rules.vals {
        return Err(DuplicateRule);
      }
      RegisterAgrees(State(), rule);
      rules := Put(rules, rule.id, rule);
      registrationOrder := registrationOrder + [rule.id];
      return Ok(());
    }

    method RemoveRule(id: string) returns (r: Result<(), DecisionError>)
      requires Valid()
      modifies this`rules, this`registrationOrder
      ensures Valid()
      ensures match Remove(old(State()), id)
        case Ok(less) => r == Ok(()) && State() == less
        case Err(error) => r == Err(error) && State() == old(State())
    {
      if id == "" {
        return Err(InvalidRule);
      }
      if id !in rules.vals {
        return Err(RuleNotFound);
      }
      RemoveAgrees(State(), id);
      assert id in registrationOrder;
      rules := Del(rules, id);
      registrationOrder := WithoutFirst(registrationOrder, id);
      return Ok(());
    }

    method ListRules() returns (listed: seq<Rule>)
      ensures listed == Decisions.ListRules(State())
    {
      listed := Decisions.ListRules(Rules(rules, registrationOrder));
    }

    /** Calls the predicates in list order and stops at the first that raises. `consulted` is
        the rules whose predicates were called. */
    method EvaluateAll(results: seq<Attributes>, decisionType: string, verdict: Rule -> Verdict)
      returns (r: Result<Decision, DecisionError>, ghost consulted: seq<Rule>)
      requires Valid()
      modifies this`notices, this`drawn
      ensures decisionType == "" || results == [] ==>
        r == Err(InvalidInput) && consulted == [] && notices == old(notices) && drawn == old(drawn)
      ensures decisionType != "" && results != [] ==>
        var rules := Decisions.ListRules(State());
        match r
        case Ok(d) =>
          && (forall i :: 0 <= i < |rules| ==> verdict(rules[i]) != Raises)
          && consulted == rules
          && d == Decision(decisionType, old(drawn), Filter(Matches(verdict), rules), results,
                           Map(EvaluationOf(verdict), rules), |Filter(Matches(verdict), rules)|, |rules|)
          && notices == old(notices) + [DecisionEvaluated(decisionType, |rules|, |d.matched|),
                                        DecisionCreated(decisionType, d.id, |d.matched|)]
          && drawn == old(drawn) + 1
        case Err(error) =>
          && consulted != [] && consulted <= rules
          && (forall i :: 0 <= i < |consulted| ==> (verdict(rules[i]) == Raises <==> i == |consulted| - 1))
          && error == RuleEvaluation(consulted[|consulted| - 1].id)
          && notices == old(notices) + [DecisionFailed(decisionType, consulted[|consulted| - 1].id)]
          && drawn == old(drawn)
    {
      hide Decisions.ListRules, Filter, Map, Agree;
      consulted := [];
      if decisionType == "" || results == [] {
        return Err(InvalidInput), [];
      }
      var listed := ListRules();
      var matched, evaluations := [], [];
      NothingEvaluated(verdict, listed[..0]);
      for i := 0 to |listed|
        invariant consulted == listed[..i]
        invariant forall j :: 0 <= j < i ==> verdict(listed[j]) != Raises
        invariant matched == Filter(Matches(verdict), listed[..i])
        invariant evaluations == Map(EvaluationOf(verdict), listed[..i])
        invariant notices == old(notices) && drawn == old(drawn)
      {
        var rule := listed[i];
        EvaluateStep(verdict, listed, i);
        consulted := consulted + [rule];
        var outcome := verdict(rule);
        if outcome == Raises {
          notices := notices + [DecisionFailed(decisionType, rule.id)];
          return Err(RuleEvaluation(rule.id)), consulted;
        }
        evaluations := evaluations + [Evaluation(rule.id, rule.name, outcome == Match)];
        if outcome == Match {
          matched := matched + [rule];
        }
      }
      assert listed[..|listed|] == listed;
      notices := notices + [DecisionEvaluated(decisionType, |listed|, |matched|)];
      var d := Decision(decisionType, drawn, matched, results, evaluations, |matched|, |listed|);
      drawn := drawn + 1;
      notices := notices + [DecisionCreated(decisionType, d.id, |matched|)];
      return Ok(d), consulted;
    }
  }
}
