/** The fix checkpoint of an arm, derived from its oracle (src/toolbench/complex.py). */
module TestGate {
  import opened Options
  import opened Text
  import opened ArmAudit

  predicate IsLetter(c: char) {
    'a' <= c <= 'z' || 'A' <= c <= 'Z'
  }

  predicate IsWordChar(c: char) {
    IsLetter(c) || '0' <= c <= '9' || c == '_' || c == '-'
  }

  predicate IsBareWord(s: string) {
    s != "" && IsLetter(s[0]) && forall c :: c in s ==> IsWordChar(c)
  }

  // `^[A-Za-z][A-Za-z0-9_-]*$`: Python's `$` also matches before a final line break.
  predicate MatchesBareWord(token: string) {
    IsBareWord(if token != "" && token[|token| - 1] == '\n' then token[..|token| - 1] else token)
  }

  // How many tokens make up the command's identity: the first, and the bare words right after it.
  function GateLength(cmd: seq<string>, i: nat): (n: nat)
    requires 0 < i <= |cmd|
    ensures i <= n <= |cmd|
    decreases |cmd| - i
  {
    if i < |cmd| && MatchesBareWord(cmd[i]) then GateLength(cmd, i + 1) else i
  }

  function GateTokens(cmd: seq<string>): (tokens: seq<string>)
    requires cmd != []
    ensures tokens != [] && tokens <= cmd
  {
    cmd[..GateLength(cmd, 1)]
  }

  function GateRule(tokens: seq<string>): string {
    GATE_OPEN + JoinWith(" ", tokens) + GATE_CLOSE
  }

  // `None` is the refusal of an empty oracle command.
  method DeriveTestGate(cmd: seq<string>) returns (gate: Option<string>)
    ensures gate == if cmd == [] then None else Some(GateRule(GateTokens(cmd)))
  {
    if cmd == [] {
      return None;
    }
    var prefix := [cmd[0]];
    var i := 1;
    while i < |cmd| && MatchesBareWord(cmd[i])
      invariant 1 <= i <= |cmd| && prefix == cmd[..i]
      invariant GateLength(cmd, 1) == GateLength(cmd, i)
    {
      prefix := prefix + [cmd[i]];
      i := i + 1;
    }
    return Some(GATE_OPEN + JoinWith(" ", prefix) + GATE_CLOSE);
  }

  // The token without a final line break.
  function Chomp(token: string): string {
    if token != "" && token[|token| - 1] == '\n' then token[..|token| - 1] else token
  }

  predicate Letter(c: char) {
    'a' <= c <= 'z' || 'A' <= c <= 'Z'
  }

  predicate Digit(c: char) {
    '0' <= c <= '9'
  }

  // A letter and then letters, digits, underscores and hyphens.
  predicate Bare(token: string) {
    var word := Chomp(token);
    && word != "" && Letter(word[0])
    && forall c :: c in word ==> Letter(c) || Digit(c) || c == '_' || c == '-'
  }

  lemma BareMeaning(token: string)
    ensures MatchesBareWord(token) <==> Bare(token)
  {
    forall c: char
      ensures IsWordChar(c) <==> Letter(c) || Digit(c) || c == '_' || c == '-'
    {}
  }

  lemma {:induction false} GateLengthMeaning(cmd: seq<string>, i: nat)
    requires 0 < i <= |cmd|
    ensures var n := GateLength(cmd, i);
            && (forall k :: i <= k < n ==> Bare(cmd[k]))
            && (n < |cmd| ==> !Bare(cmd[n]))
    decreases |cmd| - i
  {
    if i < |cmd| {
      BareMeaning(cmd[i]);
      if MatchesBareWord(cmd[i]) {
        GateLengthMeaning(cmd, i + 1);
      }
    }
  }

  // The gate lets through what starts with the program and all the bare words right behind it, and it is
  // the only rule of that kind the token list makes.
  lemma GateMeaning(cmd: seq<string>, n: nat)
    requires 0 < n <= |cmd| && (forall k :: 1 <= k < n ==> Bare(cmd[k])) && (n < |cmd| ==> !Bare(cmd[n]))
    ensures GateTokens(cmd) == cmd[..n]
    ensures GateRule(GateTokens(cmd)) == "Bash(" + JoinWith(" ", cmd[..n]) + ":*)"
  {
    GateLengthMeaning(cmd, 1);
    if GateLength(cmd, 1) < n {
      assert false;
    }
  }

  const BASELINE_TOOLS := ["Read", "TodoWrite"]

  const SERENA_PREFIX := "mcp__plugin_serena_serena__"

  const SERENA_TOOLS := [
    SERENA_PREFIX + "find_symbol",
    SERENA_PREFIX + "find_referencing_symbols",
    SERENA_PREFIX + "find_file",
    SERENA_PREFIX + "search_for_pattern",
    SERENA_PREFIX + "get_symbols_overview",
    SERENA_PREFIX + "list_dir",
    SERENA_PREFIX + "read_file",
    SERENA_PREFIX + "replace_symbol_body",
    SERENA_PREFIX + "insert_after_symbol",
    SERENA_PREFIX + "insert_before_symbol",
    SERENA_PREFIX + "replace_content"]

  const NATIVE_TOOLS := ["Grep", "Glob", "Edit"]

  datatype ArmSpec = ArmSpec(name: string, allowedTools: seq<string>)

  function SerenaArm(gate: string): ArmSpec {
    ArmSpec("serena", BASELINE_TOOLS + [gate] + SERENA_TOOLS)
  }

  function NativeArm(gate: string): ArmSpec {
    ArmSpec("native", BASELINE_TOOLS + [gate] + NATIVE_TOOLS)
  }

  function BuildArms(gate: string): seq<ArmSpec> {
    [SerenaArm(gate),
     NativeArm(gate),
     ArmSpec("bash", BASELINE_TOOLS + ["Bash"]),
     ArmSpec("control", BASELINE_TOOLS + [gate] + SERENA_TOOLS + NATIVE_TOOLS + ["Bash"])]
  }

  /******* What the gated arms permit *******/

  // A token an oracle command may hold: no blanks, no shell operators.
  predicate PlainToken(token: string) {
    IsWord(token) && !HasOperator(token)
  }

  predicate StartsOther(tools: seq<string>) {
    forall t :: t in tools ==> t != "" && t[0] != 'B'
  }

  lemma ToolsStartOther()
    ensures StartsOther(BASELINE_TOOLS) && StartsOther(NATIVE_TOOLS) && StartsOther(SERENA_TOOLS)
  {
    assert SERENA_PREFIX[0] == 'm';
  }

  lemma GateRulePrefix(tokens: seq<string>)
    ensures IsGateRule(GateRule(tokens))
    ensures GatePrefixes([GateRule(tokens)]) == [JoinWith(" ", tokens)]
  {
    var rule, prefix := GateRule(tokens), JoinWith(" ", tokens);
    assert rule[|GATE_OPEN|..|rule| - |GATE_CLOSE|] == prefix;
    assert rule[|rule| - |GATE_CLOSE|..] == GATE_CLOSE;
    assert rule[..|GATE_OPEN|] == GATE_OPEN;
    var rest: seq<string> := [rule][1..];
    assert rest == [];
  }

  // An arm whose only Bash rule is the gate.
  lemma ArmIsGated(before: seq<string>, tokens: seq<string>, after: seq<string>)
    requires StartsOther(before) && StartsOther(after)
    ensures var allowed := before + [GateRule(tokens)] + after;
            GatePrefixes(allowed) == [JoinWith(" ", tokens)] && Gated(allowed)
  {
    var gate := GateRule(tokens);
    GateRulePrefix(tokens);
    NoGatePrefixes(before);
    NoGatePrefixes(after);
    GatePrefixesAppend(before, [gate]);
    GatePrefixesAppend(before + [gate], after);
    assert "Bash" != gate && "Bash"[0] == 'B';
  }

  lemma NoOperatorInJoin(tokens: seq<string>)
    requires forall t :: t in tokens ==> !HasOperator(t)
    ensures !HasOperator(JoinWith(" ", tokens))
  {
    if |tokens| > 1 {
      var init := tokens[..|tokens| - 1];
      assert forall t :: t in init ==> t in tokens;
      NoOperatorInJoin(init);
      assert tokens[|tokens| - 1] in tokens;
    } else if |tokens| == 1 {
      assert tokens[0] in tokens;
    }
  }

  lemma {:induction false} JoinPrefix(tokens: seq<string>, n: nat)
    requires 0 < n <= |tokens|
    ensures MatchesPrefixAtBoundary(JoinWith(" ", tokens), JoinWith(" ", tokens[..n]))
  {
    if n == |tokens| {
      assert tokens[..n] == tokens;
    } else {
      var init := tokens[..|tokens| - 1];
      JoinPrefix(init, n);
      assert init[..n] == tokens[..n];
      var a, b := JoinWith(" ", init), JoinWith(" ", tokens);
      assert b == a + " " + tokens[|tokens| - 1];
      assert b[|a|] == ' ';
    }
  }

  lemma {:induction false} JoinTrimmed(tokens: seq<string>)
    requires tokens != [] && forall t :: t in tokens ==> IsWord(t)
    ensures JoinWith(" ", tokens) != "" && Trimmed(JoinWith(" ", tokens))
  {
    var n := |tokens| - 1;
    assert IsWord(tokens[n]) && tokens[n][0] in tokens[n] && tokens[n][|tokens[n]| - 1] in tokens[n];
    if n > 0 {
      JoinTrimmed(tokens[..n]);
    }
  }

  // Running the oracle's own argv under its gated arms breaks no rule.
  lemma {:induction false} OracleFitsItsGate(cmd: seq<string>, after: seq<string>)
    requires cmd != [] && (forall t :: t in cmd ==> PlainToken(t)) && StartsOther(after)
    ensures var allowed := BASELINE_TOOLS + [GateRule(GateTokens(cmd))] + after;
            Violations([Call("Bash", Some(JoinWith(" ", cmd)))], allowed) == {}
  {
    var command, tokens := JoinWith(" ", cmd), GateTokens(cmd);
    var call := Call("Bash", Some(command));
    ToolsStartOther();
    ArmIsGated(BASELINE_TOOLS, tokens, after);
    JoinTrimmed(cmd);
    TrimmedStays(command);
    JoinPrefix(cmd, |tokens|);
    NoOperatorInJoin(cmd);
    assert JoinWith(" ", tokens) in [JoinWith(" ", tokens)];
    assert [call][..0] == [];
  }

  // A full shell is not gated.
  lemma ShellIsFree(before: seq<string>, call: Call)
    requires call.name == "Bash"
    ensures Violations([call], before + ["Bash"]) == {}
  {
    var allowed := before + ["Bash"];
    assert allowed[|before|] == "Bash";
    assert "Bash" in Granted(allowed);
    assert [call][..0] == [];
  }

  predicate Fits(cmd: seq<string>, arm: ArmSpec) {
    Violations([Call("Bash", Some(JoinWith(" ", cmd)))], arm.allowedTools) == {}
  }

  lemma OracleFitsGatedArms(cmd: seq<string>)
    requires cmd != [] && forall t :: t in cmd ==> PlainToken(t)
    ensures var gate := GateRule(GateTokens(cmd)); Fits(cmd, SerenaArm(gate)) && Fits(cmd, NativeArm(gate))
  {
    ToolsStartOther();
    OracleFitsItsGate(cmd, SERENA_TOOLS);
    OracleFitsItsGate(cmd, NATIVE_TOOLS);
  }

  // Every arm accepts the oracle's own command.
  lemma OracleFitsEveryArm(cmd: seq<string>)
    requires cmd != [] && forall t :: t in cmd ==> PlainToken(t)
    ensures forall arm :: arm in BuildArms(GateRule(GateTokens(cmd))) ==> Fits(cmd, arm)
  {
    var gate := GateRule(GateTokens(cmd));
    var call := Call("Bash", Some(JoinWith(" ", cmd)));
    OracleFitsGatedArms(cmd);
    ShellIsFree(BASELINE_TOOLS, call);
    ShellIsFree(BASELINE_TOOLS + [gate] + SERENA_TOOLS + NATIVE_TOOLS, call);
    var arms := BuildArms(gate);
    assert Fits(cmd, arms[2]) && Fits(cmd, arms[3]);
  }

  // Every Bash command a gated arm accepts starts with the gate's tokens and holds no operator.
  lemma {:induction false} AcceptedStartsWithGate(cmd: seq<string>, after: seq<string>, calls: seq<Call>, i: nat)
    requires cmd != [] && (forall t :: t in cmd ==> PlainToken(t)) && StartsOther(after)
    requires i < |calls| && calls[i].name == "Bash"
    requires Violations(calls, BASELINE_TOOLS + [GateRule(GateTokens(cmd))] + after) == {}
    ensures calls[i].command.Some?
    ensures GateTokens(cmd) <= Words(calls[i].command.value)
    ensures !HasOperator(Strip(calls[i].command.value))
  {
    var tokens := GateTokens(cmd);
    var prefix := JoinWith(" ", tokens);
    ToolsStartOther();
    ArmIsGated(BASELINE_TOOLS, tokens, after);
    ViolationsOfCall(calls, BASELINE_TOOLS + [GateRule(tokens)] + after, i);
    assert calls[i].command.Some? && !CommandEscapesGate(calls[i].command.value, [prefix]);
    var stripped := Strip(calls[i].command.value);
    assert MatchesPrefixAtBoundary(stripped, prefix);
    var rest := stripped[|prefix|..];
    assert stripped == prefix + rest;
    assert rest != "" ==> IsSpace(rest[0]);
    WordsAppend(prefix, rest);
    assert forall t :: t in tokens ==> t in cmd;
    WordsOfJoin(tokens);
    WordsStrip(calls[i].command.value);
  }
}
