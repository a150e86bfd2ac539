/**
 The parameter string of a tool (tools/code_analysis.py).

 `_extract_params` prints the arguments of a definition, each with its annotation; `_parse_params`
 reads them back. A printed signature comes back argument by argument, except that an annotation is
 read up to its first equals sign only.
 */
module Params {
  import opened Options
  import opened Text

  // An argument of a function definition: its annotation is source text, if there is one.
  datatype Arg = Arg(name: string, annotation: Option<string>)

  // A parsed parameter; a missing annotation reads as "".
  datatype Param = Param(name: string, annotation: string)

  /******* Printing *******/

  function Printed(a: Arg): string {
    match a.annotation
    case None => a.name
    case Some(text) => a.name + ": " + text
  }

  function PrintedAll(args: seq<Arg>): seq<string> {
    if args == [] then []
    else
      var last := args[|args| - 1];
      var rest := PrintedAll(args[..|args| - 1]);
      if last.name == "self" then rest else rest + [Printed(last)]
  }

  function Extracted(args: seq<Arg>): string {
    JoinWith(", ", PrintedAll(args))
  }

  method ExtractParams(args: seq<Arg>) returns (text: string)
    ensures text == Extracted(args)
  {
    var params: seq<string> := [];
    for i := 0 to |args|
      invariant params == PrintedAll(args[..i])
    {
      assert args[..i + 1][..i] == args[..i];
      if args[i].name == "self" {
        continue;
      }
      params := params + [Printed(args[i])];
    }
    assert args[..|args|] == args;
    return JoinWith(", ", params);
  }

  // A method's parameters as they are printed.
  lemma {:induction false} MethodPrinted()
    ensures Extracted([Arg("self", None), Arg("x", Some("int")), Arg("y", None)]) == "x: int, y"
  {
    var args := [Arg("self", None), Arg("x", Some("int")), Arg("y", None)];
    assert args[..2][..1] == args[..1] && args[..1][..0] == [];
    assert Printed(args[1]) == "x" + ": " + "int" == "x: int" && Printed(args[2]) == "y";
    assert PrintedAll(args[..1]) == [];
    assert PrintedAll(args[..2]) == ["x: int"];
    assert PrintedAll(args) == ["x: int", "y"];
    assert ["x: int", "y"][..1] == ["x: int"];
  }

  /******* Parsing *******/

  predicate Opens(c: char) {
    c == '(' || c == '[' || c == '{'
  }

  predicate Closes(c: char) {
    c == ')' || c == ']' || c == '}'
  }

  datatype Scan = Scan(depth: nat, buf: string, pieces: seq<string>)

  // One character of the scan: a comma outside all brackets ends a piece, and closing more than was
  // opened leaves the depth at zero.
  function ScanChar(s: Scan, c: char): Scan {
    if Opens(c) then Scan(s.depth + 1, s.buf + [c], s.pieces)
    else if Closes(c) then Scan(if s.depth > 0 then s.depth - 1 else 0, s.buf + [c], s.pieces)
    else if c == ',' && s.depth == 0 then
      Scan(0, "", if Strip(s.buf) != "" then s.pieces + [Strip(s.buf)] else s.pieces)
    else Scan(s.depth, s.buf + [c], s.pieces)
  }

  function ScanText(s: Scan, text: string): Scan {
    if text == "" then s else ScanChar(ScanText(s, text[..|text| - 1]), text[|text| - 1])
  }

  function Pieces(text: string): seq<string> {
    ScanText(Scan(0, "", []), text + ",").pieces
  }

  function StripStars(s: string): string {
    if s != "" && s[0] == '*' then StripStars(s[1..]) else s
  }

  function ReadPiece(piece: string): Param {
    var seg := Strip(StripStars(piece));
    if ':' in seg
    then Param(Strip(Before(':', seg)), Strip(Before('=', After(':', seg))))
    else Param(Strip(Before('=', seg)), "")
  }

  predicate Kept(name: string) {
    name != "" && name != "self" && name != "cls"
  }

  function ReadPieces(pieces: seq<string>): seq<Param> {
    if pieces == [] then []
    else
      var rest := ReadPieces(pieces[..|pieces| - 1]);
      var p := ReadPiece(pieces[|pieces| - 1]);
      if Kept(p.name) then rest + [p] else rest
  }

  function Parsed(text: string): seq<Param> {
    if text == "" then [] else ReadPieces(Pieces(text))
  }

  method ParseParams(text: string) returns (parts: seq<Param>)
    ensures parts == Parsed(text)
  {
    if text == "" {
      return [];
    }
    parts := [];
    var depth, buf: string, pieces: seq<string> := 0, "", [];
    var chars := text + ",";
    for i := 0 to |chars|
      invariant depth >= 0 && Scan(depth, buf, pieces) == ScanText(Scan(0, "", []), chars[..i])
    {
      assert chars[..i + 1][..i] == chars[..i];
      var c := chars[i];
      if Opens(c) {
        depth := depth + 1;
        buf := buf + [c];
      } else if Closes(c) {
        depth := if depth > 0 then depth - 1 else 0;
        buf := buf + [c];
      } else if c == ',' && depth == 0 {
        var seg := Strip(buf);
        if seg != "" {
          pieces := pieces + [seg];
        }
        buf := "";
      } else {
        buf := buf + [c];
      }
    }
    assert chars[..|chars|] == chars;
    for i := 0 to |pieces|
      invariant parts == ReadPieces(pieces[..i])
    {
      assert pieces[..i + 1][..i] == pieces[..i];
      var p := ReadPiece(pieces[i]);
      if Kept(p.name) {
        parts := parts + [p];
      }
    }
    assert pieces[..|pieces|] == pieces;
  }

  /******* Which arguments survive the round trip *******/

  predicate PlainChar(c: char) {
    !IsSpace(c) && !Opens(c) && !Closes(c) && c != ',' && c != ':' && c != '=' && c != '*'
  }

  predicate PlainName(name: string) {
    name != "" && forall c :: c in name ==> PlainChar(c)
  }

  // The bracket depth after a text read from depth zero; None once a comma stands outside brackets.
  function DepthOf(text: string): Option<nat> {
    if text == "" then Some(0)
    else
      var c := text[|text| - 1];
      match DepthOf(text[..|text| - 1])
      case None => None
      case Some(d) =>
        if Opens(c) then Some(d + 1)
        else if Closes(c) then Some(if d > 0 then d - 1 else 0)
        else if c == ',' && d == 0 then None
        else Some(d)
  }

  predicate Delimited(text: string) {
    DepthOf(text) == Some(0)
  }

  predicate PlainArg(a: Arg) {
    && PlainName(a.name)
    && (a.annotation.Some? ==> a.annotation.value != "" && Trimmed(a.annotation.value) && Delimited(a.annotation.value))
  }

  /******* Scanning printed arguments *******/

  lemma ScanLast(s: Scan, text: string, c: char)
    ensures ScanText(s, text + [c]) == ScanChar(ScanText(s, text), c)
  {
    assert (text + [c])[..|text|] == text;
  }

  lemma {:induction false} ScanInPieces(s: Scan, a: string, b: string)
    ensures ScanText(s, a + b) == ScanText(ScanText(s, a), b)
  {
    if b == "" {
      assert a + b == a;
    } else {
      var init, c := b[..|b| - 1], b[|b| - 1];
      ScanInPieces(s, a, init);
      ScanLast(s, a + init, c);
      ScanLast(ScanText(s, a), init, c);
      assert b == init + [c] && a + b == (a + init) + [c];
    }
  }

  lemma {:induction false} ScanDelimited(s: Scan, text: string)
    requires s.depth == 0 && DepthOf(text).Some?
    ensures ScanText(s, text) == Scan(DepthOf(text).value, s.buf + text, s.pieces)
  {
    if text == "" {
      assert s.buf + text == s.buf;
    } else {
      var init, c := text[..|text| - 1], text[|text| - 1];
      ScanDelimited(s, init);
      assert s.buf + text == (s.buf + init) + [c];
    }
  }

  lemma DepthLast(text: string, c: char)
    ensures DepthOf(text + [c]) ==
            match DepthOf(text)
            case None => None
            case Some(d) =>
              if Opens(c) then Some(d + 1)
              else if Closes(c) then Some(if d > 0 then d - 1 else 0)
              else if c == ',' && d == 0 then None
              else Some(d)
  {
    assert (text + [c])[..|text|] == text;
  }

  lemma {:induction false} DepthAppend(a: string, b: string)
    requires Delimited(a)
    ensures DepthOf(a + b) == DepthOf(b)
  {
    if b == "" {
      assert a + b == a;
    } else {
      var init, c := b[..|b| - 1], b[|b| - 1];
      DepthAppend(a, init);
      DepthLast(a + init, c);
      DepthLast(init, c);
      assert b == init + [c] && a + b == (a + init) + [c];
    }
  }

  lemma {:induction false} FlatIsDelimited(text: string)
    requires forall c :: c in text ==> !Opens(c) && !Closes(c) && c != ','
    ensures Delimited(text)
  {
    if text != "" {
      var init := text[..|text| - 1];
      assert forall c :: c in init ==> c in text;
      FlatIsDelimited(init);
      assert text[|text| - 1] in text;
    }
  }

  lemma PrintedIsPiece(a: Arg)
    requires PlainArg(a)
    ensures Printed(a) != "" && Trimmed(Printed(a)) && Delimited(Printed(a))
    ensures Printed(a)[0] == a.name[0] != '*'
  {
    assert a.name[0] in a.name && a.name[|a.name| - 1] in a.name;
    FlatIsDelimited(a.name);
    if a.annotation.Some? {
      var text := a.annotation.value;
      FlatIsDelimited(": ");
      DepthAppend(a.name, ": ");
      DepthAppend(a.name + ": ", text);
      var printed := a.name + ": " + text;
      assert printed[|printed| - 1] == text[|text| - 1];
    }
  }

  lemma StripBlankFirst(s: string)
    ensures Strip(" " + s) == Strip(s)
  {
    assert (" " + s)[1..] == s;
  }

  // A text and the comma after it make one piece.
  lemma ScanPiece(pieces: seq<string>, text: string)
    requires Delimited(text) && Strip(text) != ""
    ensures ScanText(Scan(0, "", pieces), text + [',']) == Scan(0, "", pieces + [Strip(text)])
  {
    var s := Scan(0, "", pieces);
    ScanDelimited(s, text);
    assert s.buf + text == text;
    ScanLast(s, text, ',');
    EndPiece(Scan(0, text, pieces));
  }

  // The comma after a piece.
  lemma EndPiece(s: Scan)
    requires s.depth == 0 && Strip(s.buf) != ""
    ensures ScanChar(s, ',') == Scan(0, "", s.pieces + [Strip(s.buf)])
  {
    var r := ScanChar(s, ',');
    assert r.depth == 0 && r.buf == "" && r.pieces == s.pieces + [Strip(s.buf)];
  }

  lemma PieceAfterBlank(piece: string)
    requires piece != "" && Trimmed(piece) && Delimited(piece)
    ensures Delimited(" " + piece) && Strip(" " + piece) == piece && Strip(piece) == piece
  {
    FlatIsDelimited(" ");
    DepthAppend(" ", piece);
    StripBlankFirst(piece);
    TrimmedStays(piece);
  }

  predicate PieceText(p: string) {
    p != "" && Trimmed(p) && Delimited(p)
  }

  lemma {:induction false} ScanJoined(pieces: seq<string>)
    requires pieces != [] && forall p :: p in pieces ==> PieceText(p)
    ensures JoinWith(", ", pieces) != ""
    ensures ScanText(Scan(0, "", []), JoinWith(", ", pieces) + [',']) == Scan(0, "", pieces)
  {
    var init, last := pieces[..|pieces| - 1], pieces[|pieces| - 1];
    assert PieceText(last) && pieces == init + [last];
    PieceAfterBlank(last);
    if init == [] {
      ScanPiece([], last);
      assert [] + [last] == pieces;
    } else {
      forall p | p in init
        ensures PieceText(p)
      {
        assert p in pieces;
      }
      ScanJoined(init);
      JoinLast(", ", init, last);
      ScanAnother(JoinWith(", ", init), init, last);
    }
  }

  lemma ScanAnother(text: string, init: seq<string>, last: string)
    requires ScanText(Scan(0, "", []), text + [',']) == Scan(0, "", init)
    requires Delimited(" " + last) && Strip(" " + last) == last && last != ""
    ensures ScanText(Scan(0, "", []), (text + ", " + last) + [',']) == Scan(0, "", init + [last])
  {
    var tail := (" " + last) + [','];
    ScanInPieces(Scan(0, "", []), text + [','], tail);
    ScanPiece(init, " " + last);
    assert (text + ", " + last) + [','] == (text + [',']) + tail;
  }

  /******* Reading printed arguments *******/

  // An annotation is read up to its first equals sign.
  function ReadAnnotation(a: Arg): string {
    match a.annotation
    case None => ""
    case Some(text) => Strip(Before('=', text))
  }

  lemma ReadPrinted(a: Arg)
    requires PlainArg(a)
    ensures ReadPiece(Printed(a)) == Param(a.name, ReadAnnotation(a))
  {
    PrintedIsPiece(a);
    var printed := Printed(a);
    assert StripStars(printed) == printed;
    TrimmedStays(printed);
    assert a.name[0] in a.name && a.name[|a.name| - 1] in a.name;
    TrimmedStays(a.name);
    match a.annotation {
      case None =>
        BeforeAbsent('=', a.name);
      case Some(text) =>
        assert printed == a.name + [':'] + (" " + text);
        SplitAt(':', a.name, " " + text);
        assert (" " + text)[1..] == text;
        assert Before('=', " " + text) == " " + Before('=', text);
        StripBlankFirst(Before('=', text));
    }
  }

  function Readable(args: seq<Arg>): seq<Param> {
    if args == [] then []
    else
      var last := args[|args| - 1];
      var rest := Readable(args[..|args| - 1]);
      if Kept(last.name) then rest + [Param(last.name, ReadAnnotation(last))] else rest
  }

  lemma {:induction false} ReadPrintedAll(args: seq<Arg>)
    requires forall a :: a in args ==> PlainArg(a)
    ensures ReadPieces(PrintedAll(args)) == Readable(args)
    ensures forall p :: p in PrintedAll(args) ==> PieceText(p)
  {
    if args != [] {
      var init, last := args[..|args| - 1], args[|args| - 1];
      assert forall a :: a in init ==> a in args;
      ReadPrintedAll(init);
      assert last in args;
      PrintedIsPiece(last);
      ReadPrinted(last);
      var pieces := PrintedAll(init);
      assert (pieces + [Printed(last)])[..|pieces|] == pieces;
    }
  }

  // Parsing the printed signature gives back every argument but `self` and `cls`, each annotation read
  // up to its first equals sign.
  lemma {:induction false} PrintThenParse(args: seq<Arg>)
    requires forall a :: a in args ==> PlainArg(a)
    ensures Parsed(Extracted(args)) == Readable(args)
  {
    ReadPrintedAll(args);
    if PrintedAll(args) != [] {
      ScanJoined(PrintedAll(args));
      assert Extracted(args) + "," == Extracted(args) + [','];
    }
  }

  // The arguments themselves, as parameters.
  function AsParams(args: seq<Arg>): seq<Param> {
    if args == [] then []
    else
      var last := args[|args| - 1];
      var rest := AsParams(args[..|args| - 1]);
      if Kept(last.name) then rest + [Param(last.name, last.annotation.GetOr(""))] else rest
  }

  predicate HoldsEqualsSign(a: Arg) {
    Kept(a.name) && a.annotation.Some? && '=' in a.annotation.value
  }

  lemma StripShorter(s: string)
    ensures |Strip(s)| <= |s|
  {
    LeftStripTrims(s);
    RightStripTrims(LeftStrip(s));
  }

  lemma {:induction false} BeforeShorter(c: char, s: string)
    ensures |Before(c, s)| <= |s|
    ensures c in s ==> |Before(c, s)| < |s|
  {
    if s != "" && s[0] != c {
      BeforeShorter(c, s[1..]);
      assert c in s ==> c in s[1..];
    }
  }

  lemma AnnotationSurvives(a: Arg)
    requires PlainArg(a)
    ensures ReadAnnotation(a) == a.annotation.GetOr("") <==> (a.annotation.Some? ==> '=' !in a.annotation.value)
  {
    if a.annotation.Some? {
      var text := a.annotation.value;
      BeforeShorter('=', text);
      StripShorter(Before('=', text));
      if '=' !in text {
        BeforeAbsent('=', text);
        TrimmedStays(text);
      }
    }
  }

  lemma {:induction false} ReadableLength(args: seq<Arg>)
    ensures |Readable(args)| == |AsParams(args)|
  {
    if args != [] {
      ReadableLength(args[..|args| - 1]);
    }
  }

  lemma DefaultsSplit(args: seq<Arg>)
    requires args != []
    ensures var init, last := args[..|args| - 1], args[|args| - 1];
            && (forall a :: a in init ==> a in args)
            && last in args
            && ((forall a :: a in args ==> !HoldsEqualsSign(a)) <==>
                (forall a :: a in init ==> !HoldsEqualsSign(a)) && !HoldsEqualsSign(last))
  {
    assert args == args[..|args| - 1] + [args[|args| - 1]];
  }

  lemma {:induction false} ReadableIsExact(args: seq<Arg>)
    requires forall a :: a in args ==> PlainArg(a)
    ensures Readable(args) == AsParams(args) <==> forall a :: a in args ==> !HoldsEqualsSign(a)
  {
    if args != [] {
      var init, last := args[..|args| - 1], args[|args| - 1];
      DefaultsSplit(args);
      ReadableIsExact(init);
      ReadableLength(init);
      AnnotationSurvives(last);
      if Kept(last.name) {
        var x, y := Readable(init), AsParams(init);
        var p, q := Param(last.name, ReadAnnotation(last)), Param(last.name, last.annotation.GetOr(""));
        assert x + [p] == y + [q] <==> x == y && p == q by {
          if x + [p] == y + [q] {
            assert x == (x + [p])[..|x|] && y == (y + [q])[..|y|];
            assert p == (x + [p])[|x|] && q == (y + [q])[|y|];
          }
        }
      }
    }
  }

  // The round trip is exact precisely when no kept annotation holds an equals sign.
  lemma {:induction false} RoundTrip(args: seq<Arg>)
    requires forall a :: a in args ==> PlainArg(a)
    ensures Parsed(Extracted(args)) == AsParams(args) <==> forall a :: a in args ==> !HoldsEqualsSign(a)
  {
    PrintThenParse(args);
    ReadableIsExact(args);
  }

  // Text without brackets keeps the depth; outside all brackets it must hold no comma.
  lemma {:induction false} DepthKept(text: string, flat: string)
    requires DepthOf(text).Some?
    requires forall c :: c in flat ==> !Opens(c) && !Closes(c) && (c == ',' ==> DepthOf(text).value > 0)
    ensures DepthOf(text + flat) == DepthOf(text)
  {
    if flat == "" {
      assert text + flat == text;
    } else {
      var init, c := flat[..|flat| - 1], flat[|flat| - 1];
      assert c in flat && forall d :: d in init ==> d in flat;
      DepthKept(text, init);
      DepthLast(text + init, c);
      assert text + flat == (text + init) + [c];
    }
  }

  lemma DepthAfter(text: string, flat: string, bracket: char)
    requires DepthOf(text).Some?
    requires forall c :: c in flat ==> !Opens(c) && !Closes(c) && (c == ',' ==> DepthOf(text).value > 0)
    ensures Opens(bracket) ==> DepthOf(text + flat + [bracket]) == Some(DepthOf(text).value + 1)
    ensures Closes(bracket) && DepthOf(text).value > 0 ==>
              DepthOf(text + flat + [bracket]) == Some(DepthOf(text).value - 1)
  {
    DepthKept(text, flat);
    DepthLast(text + flat, bracket);
  }

  // An ordinary annotation that does not survive.
  lemma EqualsSignIsCut()
    ensures var args := [Arg("n", Some("Annotated[int, Field(gt=0)]"))];
            (forall a :: a in args ==> PlainArg(a)) && Parsed(Extracted(args)) != AsParams(args)
  {
    var text := "Annotated[int, Field(gt=0)]";
    NestedIsDelimited();
    assert text[23] == '=';
    CutAnnotation("n", text);
  }

  lemma NestedIsDelimited()
    ensures Delimited("Annotated[int, Field(gt=0)]")
  {
    NestedOpens();
    DepthAfter("Annotated[int, Field(", "gt=0", ')');
    assert "Annotated[int, Field(" + "gt=0" + [')'] == "Annotated[int, Field(gt=0)";
    DepthLast("Annotated[int, Field(gt=0)", ']');
    assert "Annotated[int, Field(gt=0)" + [']'] == "Annotated[int, Field(gt=0)]";
  }

  lemma NestedOpens()
    ensures DepthOf("Annotated[int, Field(") == Some(2)
  {
    OneBracketOpens();
    DepthAfter("Annotated[", "int, Field", '(');
    assert "Annotated[" + "int, Field" + ['('] == "Annotated[int, Field(";
  }

  lemma OneBracketOpens()
    ensures DepthOf("Annotated[") == Some(1)
  {
    FlatIsDelimited("Annotated");
    DepthLast("Annotated", '[');
    assert "Annotated" + ['['] == "Annotated[";
  }

  lemma CutAnnotation(name: string, text: string)
    requires PlainName(name) && Kept(name) && text != "" && Trimmed(text) && Delimited(text) && '=' in text
    ensures var args := [Arg(name, Some(text))];
            (forall a :: a in args ==> PlainArg(a)) && Parsed(Extracted(args)) != AsParams(args)
  {
    var a := Arg(name, Some(text));
    assert HoldsEqualsSign(a) && a in [a];
    RoundTrip([a]);
  }
}
