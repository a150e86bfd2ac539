/** The records the parsers read and produce (src/toolbench/transcript.py). */
module Transcript {
  import opened Options

  // git's stamp for a checkout that is on no branch.
  const DETACHED_BRANCH := "HEAD"

  /******* What a decoded transcript line holds *******/

  // A JSON value where a token count is expected. A fraction is known by the integer it truncates
  // to and by whether it is above zero.
  datatype Count = Flag(on: bool) | Whole(n: int) | Fraction(truncated: int, positive: bool) | NoNumber {
    // Booleans and anything that is no number read as 0.
    function AsInt(): int {
      match this
      case Whole(n) => n
      case Fraction(t, _) => t
      case _ => 0
    }

    // Python counts `True` as a number here.
    predicate AboveZero() {
      match this
      case Flag(on) => on
      case Whole(n) => n > 0
      case Fraction(_, positive) => positive
      case NoNumber => false
    }
  }

  datatype Usage = Usage(read: Count, creation: Count, input: Count, output: Count)

  datatype Block =
    | ToolUse(id: Option<string>, name: Option<string>, inputLen: nat, rawInput: string)
    | ToolResult(toolUseId: Option<string>, content: Option<nat>, isError: bool)
    | Text(nonBlank: bool)
    | Thinking
    | OtherBlock

  // `None` for a field means that it is absent or not of the type the parser asks for.
  datatype Message = Message(
    userRole: bool,
    id: Option<string>,
    model: Option<string>,
    usage: Option<Usage>,
    content: Option<seq<Block>>)

  // The top-level `toolUseID` key is tested for presence before its value is looked at.
  datatype TopLevelId = NoKey | NotAString | Id(id: string)

  datatype Entry = Entry(
    userType: bool,
    message: Option<Message>,
    requestId: Option<string>,
    sessionId: Option<string>,
    timestamp: Option<string>,
    gitBranch: Option<string>,
    cwd: Option<string>,
    toolUseID: TopLevelId,
    toolUseResult: Option<nat>)

  // One line of a JSONL stream as the reader sees it after stripping and decoding.
  datatype Line<E> = Blank | Malformed | Record(entry: E)

  function Records<E>(lines: seq<Line<E>>): seq<E> {
    if lines == [] then []
    else
      var last := lines[|lines| - 1];
      if last.Record? then Records(lines[..|lines| - 1]) + [last.entry]
      else Records(lines[..|lines| - 1])
  }

  function MalformedCount<E>(lines: seq<Line<E>>): nat {
    if lines == [] then 0
    else MalformedCount(lines[..|lines| - 1]) + if lines[|lines| - 1].Malformed? then 1 else 0
  }

  // Appending a record or another line to the lines read so far.
  lemma LineStep<E>(lines: seq<Line<E>>, i: nat)
    requires i < |lines|
    ensures Records(lines[..i + 1]) ==
            if lines[i].Record? then Records(lines[..i]) + [lines[i].entry] else Records(lines[..i])
    ensures MalformedCount(lines[..i + 1]) == MalformedCount(lines[..i]) + if lines[i].Malformed? then 1 else 0
  {
    assert lines[..i + 1][..i] == lines[..i];
  }

  // Of each line alone: a record is kept, a malformed line is counted, a blank one is neither.
  lemma {:induction false} LinesMeaning<E>(a: seq<Line<E>>, e: E, b: seq<Line<E>>)
    ensures Records(a + [Record(e)] + b) == Records(a) + [e] + Records(b)
    ensures Records(a + [Malformed] + b) == Records(a + [Blank] + b) == Records(a) + Records(b)
    ensures MalformedCount(a + [Malformed] + b) == MalformedCount(a) + 1 + MalformedCount(b)
    ensures MalformedCount(a + [Record(e)] + b) == MalformedCount(a + [Blank] + b) ==
            MalformedCount(a) + MalformedCount(b)
  {
    LineBetween(a, Record(e), b);
    LineBetween(a, Malformed, b);
    LineBetween(a, Blank, b);
  }

  lemma LineBetween<E>(a: seq<Line<E>>, l: Line<E>, b: seq<Line<E>>)
    ensures Records(a + [l] + b) == Records(a) + (if l.Record? then [l.entry] else []) + Records(b)
    ensures MalformedCount(a + [l] + b) == MalformedCount(a) + (if l.Malformed? then 1 else 0) + MalformedCount(b)
  {
    LinesAppend(a, [l]);
    LinesAppend(a + [l], b);
    assert [l][..0] == [];
  }

  lemma {:induction false} LinesAppend<E>(a: seq<Line<E>>, b: seq<Line<E>>)
    ensures Records(a + b) == Records(a) + Records(b)
    ensures MalformedCount(a + b) == MalformedCount(a) + MalformedCount(b)
  {
    if b == [] {
      assert a + b == a;
    } else {
      LinesAppend(a, b[..|b| - 1]);
      assert (a + b)[..|a + b| - 1] == a + b[..|b| - 1];
    }
  }

  /******* What a parse produces *******/

  datatype Provenance = Present | AbsentBySchema | AbsentByExport | AbsentUnexpected

  datatype ToolCall = ToolCall(
    name: string,
    inputChars: nat,
    outputChars: nat,
    sessionId: string,
    ts: string,
    usage: Option<Usage>,
    provenance: Provenance,
    error: bool,
    model: Option<string>,
    noResult: bool,
    resultSource: Option<string>,
    isDeferral: bool,
    isSubagentFanout: bool,
    rawInput: Option<string>,
    turnKey: Option<string>)
  {
    function Tokens(): nat {
      outputChars / 4
    }

    function InputTokens(): nat {
      inputChars / 4
    }
  }

  datatype TurnStats = TurnStats(toolUses: nat, nonToolOutput: bool)

  datatype BranchUsage = BranchUsage(read: int, creation: int, input: int, output: int, messages: int) {
    function Plus(b: BranchUsage): BranchUsage {
      BranchUsage(read + b.read, creation + b.creation, input + b.input, output + b.output,
                  messages + b.messages)
    }

    function Minus(b: BranchUsage): BranchUsage {
      BranchUsage(read - b.read, creation - b.creation, input - b.input, output - b.output,
                  messages - b.messages)
    }
  }

  const NO_USAGE := BranchUsage(0, 0, 0, 0, 0)

  // The five columns of a bucket.
  function Read(u: BranchUsage): int { u.read }
  function Creation(u: BranchUsage): int { u.creation }
  function Input(u: BranchUsage): int { u.input }
  function Output(u: BranchUsage): int { u.output }
  function Messages(u: BranchUsage): int { u.messages }

  datatype ParseResult = ParseResult(
    calls: seq<ToolCall>,
    malformed: nat,
    cacheRead: Option<int>,
    cacheCreation: Option<int>,
    inputTokens: int,
    outputTokens: int,
    usageMessages: int,
    usageByBranch: map<string, BranchUsage>,
    detachedByCwd: map<string, BranchUsage>,
    unjoinable: map<string, nat>,
    turns: map<string, TurnStats>)
}
