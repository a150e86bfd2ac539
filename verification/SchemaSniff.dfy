/**
 Schema detection (src/toolbench/adapters.py, `detect_parser`): a bounded look at the head that replays
 what it read.
 */
module SchemaSniff {
  import opened Options

  datatype Parser = Claude | HermesTrace | Codex

  const HERMES_TRACE_VERSION := "hermes-agent"
  const CODEX_RECORD_TYPES := {"session_meta", "response_item", "event_msg", "turn_context", "compacted"}

  // What the `claims_line` predicates look at in a decoded object.
  datatype Facts = Facts(hasSessionId: bool, version: Option<string>, kind: Option<string>, payloadIsObject: bool)

  datatype RawLine = Blank | Undecodable | NotAnObject | Object(facts: Facts)

  predicate Claims(p: Parser, f: Facts) {
    match p
    case Claude => f.hasSessionId && f.version != Some(HERMES_TRACE_VERSION)
    case HermesTrace => f.hasSessionId && f.version == Some(HERMES_TRACE_VERSION)
    case Codex => f.kind.Some? && f.kind.value in CODEX_RECORD_TYPES && f.payloadIsObject
  }

  // The parsers that claim a line, in registry order.
  function Claimants(line: RawLine): seq<Parser> {
    if !line.Object? then []
    else
      (if Claims(Claude, line.facts) then [Claude] else [])
      + (if Claims(HermesTrace, line.facts) then [HermesTrace] else [])
      + (if Claims(Codex, line.facts) then [Codex] else [])
  }

  // Only a line that is both session-shaped and codex-shaped is claimed twice.
  lemma ClaimedTwice(line: RawLine)
    ensures |Claimants(line)| <= 2
    ensures |Claimants(line)| == 2 <==> line.Object? && line.facts.hasSessionId && Claims(Codex, line.facts)
    ensures forall p :: p in Claimants(line) <==> line.Object? && Claims(p, line.facts)
  {
    if line.Object? {
      var f := line.facts;
      assert Claims(Claude, f) ==> Claimants(line)[0] == Claude;
      assert Claims(HermesTrace, f) ==> Claimants(line)[0] == HermesTrace;
      assert Claims(Codex, f) ==> Claimants(line)[|Claimants(line)| - 1] == Codex;
    }
  }

  function NonBlanks(lines: seq<RawLine>): nat {
    if lines == [] then 0
    else NonBlanks(lines[..|lines| - 1]) + if lines[|lines| - 1].Blank? then 0 else 1
  }

  // They are the positions of the lines that are not blank.
  lemma {:induction false} NonBlanksMeaning(lines: seq<RawLine>)
    ensures NonBlanks(lines) == |set i | 0 <= i < |lines| && lines[i] != Blank|
  {
    if lines != [] {
      var n := |lines| - 1;
      NonBlanksMeaning(lines[..n]);
      var before := set i | 0 <= i < n && lines[..n][i] != Blank;
      var all := set i | 0 <= i < |lines| && lines[i] != Blank;
      assert all == if lines[n] != Blank then before + {n} else before;
    }
  }

  // Line i is the first claimed one, and it lies among the first `window` non-blank lines.
  ghost predicate FirstClaimed(lines: seq<RawLine>, window: int, i: nat) {
    && i < |lines| && Claimants(lines[i]) != []
    && NonBlanks(lines[..i]) < window
    && forall j :: 0 <= j < i ==> Claimants(lines[j]) == []
  }

  class LineIterator {
    const lines: seq<RawLine>
    var pos: nat

    constructor (lines: seq<RawLine>)
      ensures this.lines == lines && pos == 0
    {
      this.lines, pos := lines, 0;
    }

    function Remaining(): seq<RawLine>
      requires pos <= |lines|
      reads this
    {
      lines[pos..]
    }

    method Next() returns (line: Option<RawLine>)
      requires pos <= |lines|
      modifies this
      ensures pos <= |lines|
      ensures old(Remaining()) == [] ==> line == None && Remaining() == []
      ensures old(Remaining()) != [] ==> line == Some(old(Remaining())[0]) && Remaining() == old(Remaining())[1..]
    {
      if pos == |lines| {
        return None;
      }
      line := Some(lines[pos]);
      pos := pos + 1;
    }
  }

  datatype Detection =
    | Detected(parser: Parser, replayed: seq<RawLine>)
    | UnknownSchema(seen: nat)
    | AmbiguousSchema(claimed: seq<Parser>)

  // The outcome of detection over a whole input, of which the first `read` lines were consumed.
  ghost predicate Decides(d: Detection, input: seq<RawLine>, window: int, read: nat)
    requires read <= |input|
  {
    match d
    case Detected(parser, replayed) =>
      replayed == input && read > 0 && FirstClaimed(input, window, read - 1) && Claimants(input[read - 1]) == [parser]
    case AmbiguousSchema(claimed) =>
      read > 0 && FirstClaimed(input, window, read - 1) && Claimants(input[read - 1]) == claimed && |claimed| > 1
    case UnknownSchema(seen) =>
      && (forall i :: !FirstClaimed(input, window, i))
      && (read == |input| || NonBlanks(input[..read]) > window)
      && seen == (if NonBlanks(input[..read]) <= window then NonBlanks(input[..read]) else Bound(window))
  }

  method DetectParser(it: LineIterator, window: int) returns (d: Detection, ghost read: nat)
    requires it.pos <= |it.lines|
    modifies it
    ensures it.pos <= |it.lines|
    ensures read <= |old(it.Remaining())| && it.Remaining() == old(it.Remaining())[read..]
    ensures Decides(d, old(it.Remaining()), window, read)
    ensures NonBlanks(old(it.Remaining())[..read]) <= Bound(window) + 1
  {
    ghost var input := it.Remaining();
    var buffered: seq<RawLine> := [];
    var seen := 0;
    read := 0;
    while true
      invariant it.pos <= |it.lines|
      invariant read <= |input| && it.Remaining() == input[read..] && buffered == input[..read]
      invariant seen == NonBlanks(input[..read]) && seen <= Bound(window)
      invariant Unclaimed(input, read)
      decreases |input| - read
    {
      var line := it.Next();
      if line.None? {
        assert read == |input| && input[..read] == input;
        EndDecides(input, window);
        return UnknownSchema(seen), read;
      }
      assert line.value == input[read];
      NonBlanksStep(input, read);
      read := read + 1;
      buffered := buffered + [line.value];
      if line.value.Blank? {
        continue;
      }
      if seen >= window {
        FullDecides(input, window, read);
        return UnknownSchema(seen), read;
      }
      seen := seen + 1;
      var claimed := Claimants(line.value);
      if claimed != [] {
        ClaimDecides(input, window, read);
      }
      if |claimed| > 1 {
        return AmbiguousSchema(claimed), read;
      }
      if claimed != [] {
        Replay(input, read);
        return Detected(claimed[0], buffered + it.Remaining()), read;
      }
    }
  }

  // No line before position n is claimed.
  ghost predicate Unclaimed(input: seq<RawLine>, n: nat)
    requires n <= |input|
  {
    forall j :: 0 <= j < n ==> Claimants(input[j]) == []
  }

  // The lines a window lets through.
  function Bound(window: int): nat {
    if window > 0 then window else 0
  }

  lemma NonBlanksStep(input: seq<RawLine>, n: nat)
    requires n < |input|
    ensures NonBlanks(input[..n + 1]) == NonBlanks(input[..n]) + if input[n].Blank? then 0 else 1
    ensures input[..n + 1] == input[..n] + [input[n]]
  {
    assert input[..n + 1][..n] == input[..n];
  }

  lemma Replay(input: seq<RawLine>, n: nat)
    requires n <= |input|
    ensures input[..n] + input[n..] == input
  {}

  // The input ended.
  lemma EndDecides(input: seq<RawLine>, window: int)
    requires Unclaimed(input, |input|) && NonBlanks(input) <= Bound(window)
    ensures input[..|input|] == input
    ensures Decides(UnknownSchema(NonBlanks(input)), input, window, |input|)
  {
    assert input[..|input|] == input;
  }

  // The window was full before the last line read.
  lemma FullDecides(input: seq<RawLine>, window: int, read: nat)
    requires 0 < read <= |input| && Unclaimed(input, read - 1) && !input[read - 1].Blank?
    requires window <= NonBlanks(input[..read - 1]) <= Bound(window)
    ensures Decides(UnknownSchema(NonBlanks(input[..read - 1])), input, window, read)
  {
    NonBlanksStep(input, read - 1);
    NothingBefore(input, window, read - 1);
  }

  // The last line read is claimed.
  lemma ClaimDecides(input: seq<RawLine>, window: int, read: nat)
    requires 0 < read <= |input| && Unclaimed(input, read - 1) && Claimants(input[read - 1]) != []
    requires NonBlanks(input[..read - 1]) < window
    ensures var claimed := Claimants(input[read - 1]);
            var d := if |claimed| > 1 then AmbiguousSchema(claimed) else Detected(claimed[0], input);
            Decides(d, input, window, read)
  {
    assert FirstClaimed(input, window, read - 1);
  }

  lemma NonBlanksMonotone(lines: seq<RawLine>, m: nat, n: nat)
    requires m <= n <= |lines|
    ensures NonBlanks(lines[..m]) <= NonBlanks(lines[..n])
  {
    if m < n {
      assert lines[..n][..n - 1] == lines[..n - 1];
      NonBlanksMonotone(lines, m, n - 1);
    }
  }

  // Once the window is full and nothing was claimed, nothing is.
  lemma NothingBefore(input: seq<RawLine>, window: int, n: nat)
    requires n <= |input| && NonBlanks(input[..n]) >= window
    requires forall j :: 0 <= j < n ==> Claimants(input[j]) == []
    ensures forall i :: !FirstClaimed(input, window, i)
  {
    forall i: nat | n <= i < |input|
      ensures NonBlanks(input[..i]) >= window
    {
      NonBlanksMonotone(input, n, i);
    }
  }

  // Detection has one answer, the claimants of an ambiguous line and the lines it saw included.
  lemma {:induction false} DetectionIsUnique(d: Detection, e: Detection, input: seq<RawLine>, window: int,
          m: nat, n: nat)
    requires m <= |input| && n <= |input|
    requires Decides(d, input, window, m) && Decides(e, input, window, n)
    ensures d == e
    ensures !d.UnknownSchema? ==> m == n
  {
    if d.UnknownSchema? && e.UnknownSchema? {
      NonBlanksMonotone(input, m, |input|);
      NonBlanksMonotone(input, n, |input|);
    } else if !d.UnknownSchema? && !e.UnknownSchema? {
      assert FirstClaimed(input, window, m - 1) && FirstClaimed(input, window, n - 1);
      assert m == n;
    }
  }

  lemma OneFirst(input: seq<RawLine>, window: int, i: nat, j: nat)
    requires FirstClaimed(input, window, i) && FirstClaimed(input, window, j)
    ensures i == j
  {}

  predicate SessionShaped(line: RawLine) {
    line.Object? && line.facts.hasSessionId
  }

  predicate CodexShaped(line: RawLine) {
    && line.Object? && line.facts.payloadIsObject && line.facts.kind.Some?
    && line.facts.kind.value in {"session_meta", "response_item", "event_msg", "turn_context", "compacted"}
  }

  lemma ShapesClaimed(line: RawLine)
    ensures Claimants(line) == [] <==> !SessionShaped(line) && !CodexShaped(line)
    ensures Claimants(line) == [Codex] <==> CodexShaped(line) && !SessionShaped(line)
    ensures Claimants(line) == [HermesTrace] <==>
            SessionShaped(line) && !CodexShaped(line) && line.facts.version == Some("hermes-agent")
    ensures Claimants(line) == [Claude] <==>
            SessionShaped(line) && !CodexShaped(line) && line.facts.version != Some("hermes-agent")
  {
    ClaimedTwice(line);
    var claimed := Claimants(line);
    assert claimed == [] <==> |claimed| == 0;
    assert forall p: Parser :: claimed == [p] <==> |claimed| == 1 && p in claimed;
    assert forall p :: p in claimed <==> line.Object? && Claims(p, line.facts);
    if claimed != [] {
      assert claimed[0] in claimed;
    }
  }

  // The line that decides: no line before it has either shape, and its own shape picks the parser; a
  // session of the Hermes exporter is told by its version.
  lemma {:induction false} DetectedMeaning(d: Detection, input: seq<RawLine>, window: int, read: nat)
    requires read <= |input| && Decides(d, input, window, read) && d.Detected?
    ensures d.replayed == input
    ensures forall j :: 0 <= j < read - 1 ==> !SessionShaped(input[j]) && !CodexShaped(input[j])
    ensures var line := input[read - 1];
            match d.parser
            case Codex => CodexShaped(line) && !SessionShaped(line)
            case HermesTrace =>
              SessionShaped(line) && !CodexShaped(line) && line.facts.version == Some("hermes-agent")
            case Claude => SessionShaped(line) && !CodexShaped(line) && line.facts.version != Some("hermes-agent")
  {
    ShapesClaimed(input[read - 1]);
    forall j | 0 <= j < read - 1
      ensures !SessionShaped(input[j]) && !CodexShaped(input[j])
    {
      ShapesClaimed(input[j]);
    }
  }

  // Detection raises the ambiguity exactly when the first claimed line within the window is both
  // session-shaped and codex-shaped.
  lemma WhenAmbiguous(d: Detection, input: seq<RawLine>, window: int, read: nat)
    requires read <= |input| && Decides(d, input, window, read)
    ensures d.AmbiguousSchema? <==>
            exists i: nat ::
              FirstClaimed(input, window, i) && input[i].facts.hasSessionId && Claims(Codex, input[i].facts)
  {
    if !d.UnknownSchema? {
      ClaimedTwice(input[read - 1]);
      forall i: nat | FirstClaimed(input, window, i)
        ensures i == read - 1
      {
        OneFirst(input, window, i, read - 1);
      }
    }
  }

  // A codex record that also carries a session id raises it.
  lemma DataIsAmbiguous(d: Detection, read: nat)
    requires read <= 1
    requires Decides(d, [Object(Facts(true, None, Some("response_item"), true))], 100, read)
    ensures d == AmbiguousSchema([Claude, Codex])
  {
    var line := Object(Facts(true, None, Some("response_item"), true));
    assert [line][..0] == [];
    assert FirstClaimed([line], 100, 0);
    WhenAmbiguous(d, [line], 100, read);
  }
}
