/** The call both parsers keep pending, and the record they emit for it (src/toolbench/parsers.py, `_PendingCall`). */
module CallRecords {
  import opened Options
  import opened Transcript
  import opened ToolJoin

  datatype PendingCall = PendingCall(
    name: string,
    inputChars: nat,
    sessionId: string,
    ts: string,
    usage: Option<Usage>,
    provenance: Provenance,
    model: Option<string>,
    rawInput: Option<string>,
    turnKey: Option<string>)

  datatype ResultInfo = ResultInfo(outputChars: nat, error: bool, source: Option<string>)

  const DEFERRAL_TOOL_NAMES := {"ToolSearch"}
  const SUBAGENT_TOOL_NAMES := {"Agent", "Task", "spawn_agent"}

  function Finish(c: Emitted<PendingCall, ResultInfo>): ToolCall {
    var u := c.use;
    var r := match c
             case Joined(_, res) => res
             case Unmatched(_) => ResultInfo(0, false, None);
    ToolCall(u.name, u.inputChars, r.outputChars, u.sessionId, u.ts, u.usage, u.provenance, r.error,
             u.model, c.Unmatched?, r.source, u.name in DEFERRAL_TOOL_NAMES,
             u.name in SUBAGENT_TOOL_NAMES, u.rawInput, u.turnKey)
  }

  function FinishAll(cs: seq<Emitted<PendingCall, ResultInfo>>): (calls: seq<ToolCall>)
    ensures |calls| == |cs|
  {
    if cs == [] then [] else FinishAll(cs[..|cs| - 1]) + [Finish(cs[|cs| - 1])]
  }

  lemma {:induction false} FinishAppend(a: seq<Emitted<PendingCall, ResultInfo>>, b: seq<Emitted<PendingCall,
          ResultInfo>>)
    ensures FinishAll(a + b) == FinishAll(a) + FinishAll(b)
  {
    if b == [] {
      assert a + b == a;
    } else {
      var init, last := b[..|b| - 1], b[|b| - 1];
      FinishAppend(a, init);
      assert b == init + [last];
      FinishLast(a + init, last);
      FinishLast(init, last);
      assert a + b == (a + init) + [last];
    }
  }

  lemma FinishLast(cs: seq<Emitted<PendingCall, ResultInfo>>, last: Emitted<PendingCall, ResultInfo>)
    ensures FinishAll(cs + [last]) == FinishAll(cs) + [Finish(last)]
  {
    assert (cs + [last])[..|cs|] == cs;
  }

  lemma FinishAt(cs: seq<Emitted<PendingCall, ResultInfo>>, i: nat)
    requires i < |cs|
    ensures FinishAll(cs)[i] == Finish(cs[i])
  {
    if i < |cs| - 1 {
      FinishAt(cs[..|cs| - 1], i);
    }
  }
}
