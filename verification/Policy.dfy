/** core/policy: first-match rules over tool name and arguments. */
module Policy {
  import opened Wrappers

  /** Values of a policy file and of call arguments. YAML integers become Go ints, YAML floats and
      every JSON number become float64. */
  datatype Value =
    | Null
    | Bool(b: bool)
    | Str(s: string)
    | Int(i: int)
    | Float(r: real)
    | List(items: seq<Value>)
    | Object(fields: map<string, Value>)

  datatype Action = Allow | Deny | ApprovalRequired | Redact | Unknown(text: string)

  /** One entry of a rule's when map. */
  datatype Condition = Condition(key: string, want: Value)

  /** The conditions are listed in the order in which the map is ranged over. */
  datatype Rule = Rule(tool: string, action: Action, redactFields: seq<string>, when: seq<Condition>)

  datatype AgentPolicy = AgentPolicy(rules: seq<Rule>, maxToolCallsPerTurn: int, defaultAction: Action,
      operationClasses: map<string, string>)

  datatype Decision = Decision(action: Action, redactFields: seq<string>)

  datatype Match = Yes | No | Panic

  predicate Composite(v: Value) {
    v.List? || v.Object?
  }

  /** Go's != on two interface values: different dynamic types differ, two maps or two slices panic. */
  function Compare(got: Value, want: Value): Match {
    if (got.List? && want.List?) || (got.Object? && want.Object?) then Panic
    else if got == want then Yes
    else No
  }

  function MatchWhen(when: seq<Condition>, args: map<string, Value>): Match {
    if when == [] then Yes
    else if when[0].key !in args then No
    else
      match Compare(args[when[0].key], when[0].want)
      case Yes => MatchWhen(when[1..], args)
      case other => other
  }

  /** The argument object; anything else leaves the map empty. */
  function ArgsMap(args: Value): map<string, Value> {
    if args.Object? then args.fields else map[]
  }

  function MatchRule(rule: Rule, tool: string, args: Value): Match {
    if rule.tool != tool then No else MatchWhen(rule.when, ArgsMap(args))
  }

  function EvaluateRules(rules: seq<Rule>, default: Action, tool: string, args: Value): Option<Decision> {
    if rules == [] then Some(Decision(default, []))
    else
      match MatchRule(rules[0], tool, args)
      case Yes => Some(Decision(rules[0].action, rules[0].redactFields))
      case Panic => None
      case No => EvaluateRules(rules[1..], default, tool, args)
  }

  /** The decision for a call; None when a comparison panics. */
  function Evaluate(policy: AgentPolicy, tool: string, args: Value): Option<Decision> {
    EvaluateRules(policy.rules, policy.defaultAction, tool, args)
  }

  // ---------- first match ----------

  /** k is the first rule that does not simply fail to match; |rules| if there is none. */
  predicate FirstHit(rules: seq<Rule>, tool: string, args: Value, k: nat) {
    && k <= |rules|
    && (forall j | 0 <= j < k :: MatchRule(rules[j], tool, args) == No)
    && (k < |rules| ==> MatchRule(rules[k], tool, args) != No)
  }

  /** The decision is that of the lowest-index matching rule, else the default. */
  lemma {:induction false} FirstMatchDecides(rules: seq<Rule>, default: Action, tool: string, args: Value, k: nat)
    requires FirstHit(rules, tool, args, k)
    ensures EvaluateRules(rules, default, tool, args) ==
            if k == |rules| then Some(Decision(default, []))
            else if MatchRule(rules[k], tool, args) == Panic then None
            else Some(Decision(rules[k].action, rules[k].redactFields))
  {
    if k > 0 {
      FirstMatchDecides(rules[1..], default, tool, args, k - 1);
    }
  }

  function RulesFor(rules: seq<Rule>, tool: string): seq<Rule> {
    if rules == [] then []
    else (if rules[0].tool == tool then [rules[0]] else []) + RulesFor(rules[1..], tool)
  }

  /** Rules for other tools never matter. */
  lemma {:induction false} OtherToolsIrrelevant(rules: seq<Rule>, default: Action, tool: string, args: Value)
    ensures EvaluateRules(RulesFor(rules, tool), default, tool, args) == EvaluateRules(rules, default, tool, args)
  {
    if rules != [] {
      OtherToolsIrrelevant(rules[1..], default, tool, args);
      if rules[0].tool == tool {
        assert RulesFor(rules, tool)[1..] == RulesFor(rules[1..], tool);
      } else {
        assert RulesFor(rules, tool) == RulesFor(rules[1..], tool);
      }
    }
  }

  /** Rules after an unconditional rule for the same tool never matter, nor does the default then. */
  lemma {:induction false} UnconditionalRuleShadows(rules: seq<Rule>, rest: seq<Rule>, other: seq<Rule>,
                                                    default: Action, default': Action, tool: string, args: Value)
    requires rules != [] && rules[|rules| - 1].tool == tool && rules[|rules| - 1].when == []
    ensures EvaluateRules(rules + rest, default, tool, args) == EvaluateRules(rules + other, default', tool, args)
  {
    hide MatchRule;
    var front, back := rules + rest, rules + other;
    assert front[0] == rules[0] == back[0];
    if |rules| > 1 {
      assert front[1..] == rules[1..] + rest && back[1..] == rules[1..] + other;
      UnconditionalRuleShadows(rules[1..], rest, other, default, default', tool, args);
    } else {
      UnconditionalMatches(rules[0], tool, args);
    }
  }

  lemma UnconditionalMatches(rule: Rule, tool: string, args: Value)
    requires rule.tool == tool && rule.when == []
    ensures MatchRule(rule, tool, args) == Yes
  {
  }

  // ---------- conditions ----------

  predicate Holds(c: Condition, args: map<string, Value>) {
    c.key in args && args[c.key] == c.want
  }

  /** Conditions on scalars: the rule matches when all of them hold, in whatever order they are tried. */
  lemma {:induction false} ScalarWhenIsConjunction(when: seq<Condition>, args: map<string, Value>)
    requires forall c | c in when :: !Composite(c.want)
    ensures MatchWhen(when, args) == if (forall c | c in when :: Holds(c, args)) then Yes else No
  {
    if when != [] {
      ScalarWhenIsConjunction(when[1..], args);
      assert when[0] in when;
      assert forall c | c in when[1..] :: c in when;
      if Holds(when[0], args) {
        assert Compare(args[when[0].key], when[0].want) == Yes;
        assert forall c | c in when :: c == when[0] || c in when[1..];
      }
    }
  }

  lemma {:induction false} MatchWhenIff(when: seq<Condition>, args: map<string, Value>)
    ensures MatchWhen(when, args) == Yes <==>
              forall c | c in when :: c.key in args && args[c.key] == c.want && !c.want.List? && !c.want.Object?
  {
    if when != [] {
      MatchWhenIff(when[1..], args);
      assert when[0] in when;
      assert forall c | c in when[1..] :: c in when;
      assert forall c | c in when :: c == when[0] || c in when[1..];
    }
  }

  /** A rule matches a call exactly when it names the call's tool and each of its conditions is a scalar
      equal to the call's own argument of that name. Arguments that are no object meet no condition. */
  lemma RuleMatchesIff(rule: Rule, tool: string, args: Value)
    ensures MatchRule(rule, tool, args) == Yes <==>
              && rule.tool == tool
              && forall c | c in rule.when ::
                   && args.Object? && c.key in args.fields && args.fields[c.key] == c.want
                   && !c.want.List? && !c.want.Object?
    ensures MatchRule(rule, tool, args) == Panic ==> args.Object? && exists c :: c in rule.when && c.key in args.fields
  {
    MatchWhenIff(rule.when, ArgsMap(args));
    if MatchRule(rule, tool, args) == Panic {
      PanicNeedsComposite(rule.when, ArgsMap(args));
    }
  }

  lemma ScalarWhenOrderFree(a: seq<Condition>, b: seq<Condition>, args: map<string, Value>)
    requires multiset(a) == multiset(b)
    requires forall c | c in a :: !Composite(c.want)
    ensures MatchWhen(a, args) == MatchWhen(b, args)
  {
    forall c ensures c in a <==> c in b {
      assert c in a <==> c in multiset(a);
      assert c in b <==> c in multiset(b);
    }
    ScalarWhenIsConjunction(a, args);
    ScalarWhenIsConjunction(b, args);
  }

  /** Argument values decoded from JSON hold no Go ints at the top. */
  predicate FromJson(args: map<string, Value>) {
    forall k | k in args :: !args[k].Int?
  }

  /** A rule whose condition was written as a YAML integer matches no JSON call: a Go int never
      equals a float64. */
  lemma {:induction false} IntegerConditionNeverMatches(when: seq<Condition>, args: map<string, Value>, c: Condition)
    requires c in when && c.want.Int? && FromJson(args)
    ensures MatchWhen(when, args) != Yes
  {
    if when[0] != c {
      IntegerConditionNeverMatches(when[1..], args, c);
    }
  }

  /** A comparison panics only on a map or list condition that meets a map or list argument. */
  lemma {:induction false} PanicNeedsComposite(when: seq<Condition>, args: map<string, Value>)
    requires MatchWhen(when, args) == Panic
    ensures exists c :: c in when && c.key in args && Compare(args[c.key], c.want) == Panic
  {
    if Compare(args[when[0].key], when[0].want) == Panic {
      assert when[0] in when;
    } else {
      PanicNeedsComposite(when[1..], args);
      var c :| c in when[1..] && c.key in args && Compare(args[c.key], c.want) == Panic;
      assert c in when;
    }
  }

  // ---------- validation ----------

  predicate IsRuleAction(a: Action) {
    !a.Unknown?
  }

  predicate IsOperationClass(c: string) {
    c == "read" || c == "write"
  }

  datatype PolicyError = BadDefault | EmptyTool(index: nat) | BadAction(index: nat) | BadClass

  function RuleError(rules: seq<Rule>, from: nat): Option<PolicyError>
    requires from <= |rules|
    decreases |rules| - from
  {
    if from == |rules| then None
    else if rules[from].tool == "" then Some(EmptyTool(from))
    else if !IsRuleAction(rules[from].action) then Some(BadAction(from))
    else RuleError(rules, from + 1)
  }

  function ValidatePolicy(policy: AgentPolicy): Option<PolicyError> {
    if !IsRuleAction(policy.defaultAction) || policy.defaultAction == ApprovalRequired || policy.defaultAction == Redact
    then Some(BadDefault)
    else
      var bad := RuleError(policy.rules, 0);
      if bad.Some? then bad
      else if exists op | op in policy.operationClasses :: !IsOperationClass(policy.operationClasses[op])
      then Some(BadClass)
      else None
  }

  lemma {:induction false} RuleErrorIff(rules: seq<Rule>, from: nat)
    requires from <= |rules|
    ensures RuleError(rules, from) == None <==>
              forall i | from <= i < |rules| ::
                rules[i].tool != "" && rules[i].action in {Allow, Deny, ApprovalRequired, Redact}
    decreases |rules| - from
  {
    if from < |rules| {
      RuleErrorIff(rules, from + 1);
    }
  }

  /** What an accepted policy looks like: it defaults to allow or deny, every rule names a tool and one of the
      four actions, and every operation is classed as a read or a write. */
  lemma ValidIff(policy: AgentPolicy)
    ensures ValidatePolicy(policy) == None <==>
            && policy.defaultAction in {Allow, Deny}
            && (forall i | 0 <= i < |policy.rules| ::
                  policy.rules[i].tool != "" && policy.rules[i].action in {Allow, Deny, ApprovalRequired, Redact})
            && (forall op | op in policy.operationClasses :: policy.operationClasses[op] in {"read", "write"})
  {
    RuleErrorIff(policy.rules, 0);
  }

  /** Under an accepted policy every decision is one of the four actions the gate knows, so its
      unsupported-decision branch is never taken. */
  lemma ValidPolicyDecides(policy: AgentPolicy, tool: string, args: Value)
    requires ValidatePolicy(policy) == None
    ensures Evaluate(policy, tool, args).Some? ==>
              Evaluate(policy, tool, args).value.action in {Allow, Deny, ApprovalRequired, Redact}
  {
    ValidIff(policy);
    DecisionFromRules(policy.rules, policy.defaultAction, tool, args);
  }

  lemma {:induction false} DecisionFromRules(rules: seq<Rule>, default: Action, tool: string, args: Value)
    requires IsRuleAction(default) && forall i | 0 <= i < |rules| :: IsRuleAction(rules[i].action)
    ensures EvaluateRules(rules, default, tool, args).Some? ==>
      IsRuleAction(EvaluateRules(rules, default, tool, args).value.action)
  {
    if rules != [] {
      DecisionFromRules(rules[1..], default, tool, args);
    }
  }
}
