/** The tool audit of an arm (src/toolbench/shell_safety.py, `arm_violations` and its gate tests). */
module ArmAudit {
  import opened Options
  import opened Sorting
  import opened Text

  const BANNED_TOOLS := {"Task", "Agent"}

  const GATE_OPEN := "Bash("
  const GATE_CLOSE := ":*)"

  // The operators that reach a second command: ; & | ` $ ( ) < > and a line break.
  predicate IsOperator(c: char) {
    || c == ';' || c == '&' || c == '|' || c == '`' || c == '$'
    || c == '(' || c == ')' || c == '<' || c == '>' || c == '\n'
  }

  predicate HasOperator(s: string) {
    exists c :: c in s && IsOperator(c)
  }

  predicate EndsWith(s: string, tail: string) {
    |tail| <= |s| && s[|s| - |tail|..] == tail
  }

  // `Bash(<prefix>:*)`; no shorter rule can both start and end this way.
  predicate IsGateRule(rule: string) {
    |rule| >= |GATE_OPEN| + |GATE_CLOSE| && GATE_OPEN <= rule && EndsWith(rule, GATE_CLOSE)
  }

  function GatePrefixes(allowed: seq<string>): seq<string> {
    if allowed == [] then []
    else
      var rest := GatePrefixes(allowed[1..]);
      if IsGateRule(allowed[0])
      then [allowed[0][|GATE_OPEN|..|allowed[0]| - |GATE_CLOSE|]] + rest
      else rest
  }

  // The command is the prefix, or the prefix and then a blank.
  predicate MatchesPrefixAtBoundary(command: string, prefix: string) {
    prefix <= command && (|command| == |prefix| || IsSpace(command[|prefix|]))
  }

  predicate CommandEscapesGate(command: string, prefixes: seq<string>) {
    var stripped := Strip(command);
    !(exists p :: p in prefixes && MatchesPrefixAtBoundary(stripped, p)) || HasOperator(stripped)
  }

  // One call as the audit sees it: its tool, and for Bash its command when that can be read.
  datatype Call = Call(name: string, command: Option<string>)

  function Granted(allowed: seq<string>): set<string> {
    set t | t in allowed && !(GATE_OPEN <= t)
  }

  predicate Gated(allowed: seq<string>) {
    "Bash" !in Granted(allowed) && GatePrefixes(allowed) != []
  }

  predicate ToolForbidden(name: string, allowed: seq<string>) {
    || name in BANNED_TOOLS
    || (name !in Granted(allowed) && !(name == "Bash" && GatePrefixes(allowed) != []))
  }

  // A Bash call of a gated arm must be readable and must not escape the gate.
  function BashViolation(call: Call, allowed: seq<string>): set<string> {
    if !Gated(allowed) || call.name != "Bash" then {}
    else if call.command.None? then {"Bash:<unreadable command>"}
    else if CommandEscapesGate(call.command.value, GatePrefixes(allowed)) then {"Bash:" + call.command.value}
    else {}
  }

  // What a single call adds to the violations.
  function CallViolations(call: Call, allowed: seq<string>): set<string> {
    (if ToolForbidden(call.name, allowed) then {call.name} else {})
    + BashViolation(call, allowed)
  }

  function Violations(calls: seq<Call>, allowed: seq<string>): set<string> {
    if calls == [] then {}
    else Violations(calls[..|calls| - 1], allowed) + CallViolations(calls[|calls| - 1], allowed)
  }

  function Used(calls: seq<Call>): set<string> {
    set i | 0 <= i < |calls| :: calls[i].name
  }

  // The audit works on the set of used names and then on the Bash calls; call by call it comes to the
  // same, listed in order.
  method ArmViolations(calls: seq<Call>, allowed: seq<string>) returns (listed: seq<string>)
    ensures listed == InOrder(StringLeq, Violations(calls, allowed))
  {
    var violations := CollectViolations(calls, allowed);
    StringsAreOrdered();
    listed := ListInOrder(StringLeq, violations);
  }

  method CollectViolations(calls: seq<Call>, allowed: seq<string>) returns (violations: set<string>)
    ensures violations == Violations(calls, allowed)
  {
    var granted := Granted(allowed);
    var fullShell := "Bash" in granted;
    var prefixes := GatePrefixes(allowed);
    if prefixes != [] {
      granted := granted + {"Bash"};
    }
    var used := Used(calls);
    violations := (used - granted) + (used * BANNED_TOOLS);
    assert violations == set name | name in used && ToolForbidden(name, allowed);
    ghost var names := violations;
    ghost var bash: set<string> := {};
    if !fullShell && prefixes != [] {
      for i := 0 to |calls|
        invariant violations == names + BashViolations(calls[..i], allowed)
      {
        assert calls[..i + 1][..i] == calls[..i];
        if calls[i].name != "Bash" {
          continue;
        }
        if calls[i].command.None? {
          violations := violations + {"Bash:<unreadable command>"};
        } else if CommandEscapesGate(calls[i].command.value, prefixes) {
          violations := violations + {"Bash:" + calls[i].command.value};
        }
      }
      assert calls[..|calls|] == calls;
    } else {
      NoBashViolations(calls, allowed);
    }
    TwoPasses(calls, allowed);
  }

  // The second pass alone.
  function BashViolations(calls: seq<Call>, allowed: seq<string>): set<string> {
    if calls == [] then {}
    else BashViolations(calls[..|calls| - 1], allowed) + BashViolation(calls[|calls| - 1], allowed)
  }

  lemma NoBashViolations(calls: seq<Call>, allowed: seq<string>)
    requires !Gated(allowed)
    ensures BashViolations(calls, allowed) == {}
  {}

  lemma {:induction false} TwoPasses(calls: seq<Call>, allowed: seq<string>)
    ensures Violations(calls, allowed) ==
            (set name | name in Used(calls) && ToolForbidden(name, allowed)) + BashViolations(calls, allowed)
  {
    if calls != [] {
      var init, last := calls[..|calls| - 1], calls[|calls| - 1];
      TwoPasses(init, allowed);
      assert Used(calls) == Used(init) + {last.name} by {
        assert forall i :: 0 <= i < |init| ==> init[i].name == calls[i].name;
        assert last.name == calls[|calls| - 1].name;
      }
    }
  }

  lemma {:induction false} ViolationsOfCall(calls: seq<Call>, allowed: seq<string>, i: nat)
    requires i < |calls|
    ensures CallViolations(calls[i], allowed) <= Violations(calls, allowed)
  {
    if i < |calls| - 1 {
      ViolationsOfCall(calls[..|calls| - 1], allowed, i);
    }
  }

  // Gate prefixes of a list are those of its parts.
  lemma {:induction false} GatePrefixesAppend(a: seq<string>, b: seq<string>)
    ensures GatePrefixes(a + b) == GatePrefixes(a) + GatePrefixes(b)
  {
    if a == [] {
      assert a + b == b;
    } else {
      GatePrefixesAppend(a[1..], b);
      assert (a + b)[1..] == a[1..] + b;
    }
  }

  lemma {:induction false} NoGatePrefixes(a: seq<string>)
    requires forall t :: t in a ==> !(GATE_OPEN <= t)
    ensures GatePrefixes(a) == []
  {
    if a != [] {
      assert a[0] in a;
      assert forall t :: t in a[1..] ==> t in a;
      NoGatePrefixes(a[1..]);
    }
  }

  /******* What counts as a violation *******/

  // The rule that grants the commands behind a prefix.
  function RuleFor(prefix: string): string {
    "Bash(" + prefix + ":*)"
  }

  predicate ReachesFurther(c: char) {
    c in {';', '&', '|', '`', '$', '(', ')', '<', '>', '\n'}
  }

  // The prefix itself, or the prefix and then a blank.
  predicate Follows(command: string, prefix: string) {
    command == prefix || (prefix < command && IsSpace(command[|prefix|]))
  }

  // Some rule lets this command through, and it cannot reach a second one.
  ghost predicate LetThrough(command: string, allowed: seq<string>) {
    && (exists prefix :: RuleFor(prefix) in allowed && Follows(Strip(command), prefix))
    && (forall c :: c in Strip(command) ==> !ReachesFurther(c))
  }

  // The whole shell is granted by its own name, part of it by rules.
  ghost predicate OnlyByRule(allowed: seq<string>) {
    "Bash" !in allowed && exists prefix :: RuleFor(prefix) in allowed
  }

  ghost predicate MayUse(name: string, allowed: seq<string>) {
    && name != "Task" && name != "Agent"
    && ((name in allowed && !("Bash(" <= name)) || (name == "Bash" && exists prefix :: RuleFor(prefix) in allowed))
  }

  // A tool that may not be used, a Bash command nobody can read, or one no rule lets through.
  ghost predicate Violates(call: Call, allowed: seq<string>, v: string) {
    || (v == call.name && !MayUse(call.name, allowed))
    || (&& call.name == "Bash" && OnlyByRule(allowed)
        && (match call.command
            case None => v == "Bash:<unreadable command>"
            case Some(command) => v == "Bash:" + command && !LetThrough(command, allowed)))
  }

  lemma {:induction false} PrefixMeaning(allowed: seq<string>, prefix: string)
    ensures prefix in GatePrefixes(allowed) <==> RuleFor(prefix) in allowed
  {
    if allowed != [] {
      PrefixMeaning(allowed[1..], prefix);
      assert allowed == [allowed[0]] + allowed[1..];
      RuleMeaning(allowed[0], prefix);
    }
  }

  lemma RuleMeaning(rule: string, prefix: string)
    ensures rule == RuleFor(prefix) <==>
            IsGateRule(rule) && rule[|GATE_OPEN|..|rule| - |GATE_CLOSE|] == prefix
  {
    if IsGateRule(rule) {
      var n := |rule| - |GATE_CLOSE|;
      assert rule == rule[..|GATE_OPEN|] + rule[|GATE_OPEN|..n] + rule[n..];
    }
    if rule == RuleFor(prefix) {
      assert rule[..5] == "Bash(" && rule[|rule| - 3..] == ":*)" && rule[5..|rule| - 3] == prefix;
    }
  }

  lemma OperatorMeaning(s: string)
    ensures HasOperator(s) <==> exists c :: c in s && ReachesFurther(c)
  {}

  lemma EscapeMeaning(command: string, allowed: seq<string>)
    ensures CommandEscapesGate(command, GatePrefixes(allowed)) <==> !LetThrough(command, allowed)
  {
    OperatorMeaning(Strip(command));
    forall p
      ensures p in GatePrefixes(allowed) <==> RuleFor(p) in allowed
      ensures MatchesPrefixAtBoundary(Strip(command), p) <==> Follows(Strip(command), p)
    {
      PrefixMeaning(allowed, p);
    }
  }

  lemma PrefixesExist(allowed: seq<string>)
    ensures GatePrefixes(allowed) != [] <==> exists prefix :: RuleFor(prefix) in allowed
  {
    var ps := GatePrefixes(allowed);
    if ps != [] {
      PrefixMeaning(allowed, ps[0]);
    }
    if prefix :| RuleFor(prefix) in allowed {
      PrefixMeaning(allowed, prefix);
    }
  }

  lemma CallMeaning(call: Call, allowed: seq<string>, v: string)
    ensures v in CallViolations(call, allowed) <==> Violates(call, allowed, v)
  {
    PrefixesExist(allowed);
    if call.command.Some? {
      EscapeMeaning(call.command.value, allowed);
    }
  }

  // The audit lists exactly these, each once.
  lemma {:induction false} ViolationMeaning(calls: seq<Call>, allowed: seq<string>, v: string)
    ensures v in Violations(calls, allowed) <==> exists call :: call in calls && Violates(call, allowed, v)
  {
    if calls != [] {
      var init, last := calls[..|calls| - 1], calls[|calls| - 1];
      assert calls == init + [last];
      ViolationMeaning(init, allowed, v);
      CallMeaning(last, allowed, v);
    }
  }
}
