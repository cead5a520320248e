/** Parsing a generated manifest. */
module ManifestRoundTrip {
  import opened Bytes
  import opened Manifest

  // ---------------------------------------------------------------------------
  // The parser as a fold
  // ---------------------------------------------------------------------------

  function Clean(line: string): string {
    TrimSpace(DropCr(line))
  }

  function RunLines(st: State, ls: seq<string>): State
    decreases |ls|
  {
    if ls == [] then st else RunLines(Step(st, Clean(ls[0])), ls[1..])
  }

  predicate Fit(ls: seq<string>) {
    forall i :: 0 <= i < |ls| ==> Size(ls[i]) <= MAX_LINE
  }

  lemma {:induction false} ParseIsRun(st: State, ls: seq<string>)
    ensures ParseFrom(st, ls).tooLong <==> !Fit(ls)
    ensures Fit(ls) ==> ParseFrom(st, ls) == Parsed(Flush(RunLines(st, ls)), false)
    decreases |ls|
  {
    hide Step, TrimSpace, DropCr, Size, Flush;
    if ls != [] && Size(ls[0]) <= MAX_LINE {
      ParseIsRun(Step(st, Clean(ls[0])), ls[1..]);
      assert forall i :: 0 < i < |ls| ==> ls[i] == ls[1..][i - 1];
    }
  }

  lemma {:induction false} RunAppend(st: State, a: seq<string>, b: seq<string>)
    ensures RunLines(st, a + b) == RunLines(RunLines(st, a), b)
    decreases |a|
  {
    hide Step, Clean;
    if a == [] {
      assert a + b == b;
    } else {
      assert (a + b)[1..] == a[1..] + b;
      RunAppend(Step(st, Clean(a[0])), a[1..], b);
    }
  }

  // ---------------------------------------------------------------------------
  // The generated lines
  // ---------------------------------------------------------------------------

  lemma {:induction false} NothingToTrim(s: string)
    requires s != "" && !IsSpace(s[0]) && !IsSpace(s[|s| - 1])
    ensures TrimSpace(s) == s && Clean(s) == s
  {
  }

  lemma {:induction false} TrimFront(s: string)
    requires s != "" && !IsSpace(s[0]) && !IsSpace(s[|s| - 1])
    ensures TrimSpace(" " + s) == s
  {
    NothingToTrim(s);
    assert (" " + s)[1..] == s;
    assert IsSpace(' ');
    hide IsSpace;
  }

  lemma {:induction false} TrimBack(s: string)
    requires s != "" && !IsSpace(s[0]) && !IsSpace(s[|s| - 1])
    ensures TrimSpace(s + " ") == s && TrimSpace(s + "  ") == s
  {
    assert IsSpace(' ');
    hide IsSpace;
    var s1, s2 := s + " ", s + "  ";
    assert s1[0] == s[0] && s2[0] == s[0];
    assert s1[..|s1| - 1] == s && s2[..|s2| - 1] == s1;
    assert TrimRight(s) == s;
    assert TrimRight(s1) == s;
    assert TrimRight(s2) == TrimRight(s1);
  }

  lemma {:induction false} ServiceLine(st: State, name: string)
    ensures Step(st, Clean("[services." + name + "]")) == State(Flush(st), Some(Service(name, "", "")))
  {
    hide TrimSpace, Flush, DropCr;
    var line := "[services." + name + "]";
    NothingToTrim(line);
    assert line[..10] == "[services." && line[|line| - 1..] == "]" && line[10..|line| - 1] == name;
  }

  /** A key, an equals sign and a quoted value; the value may hold anything but a newline. */
  lemma {:induction false} KeyLine(st: State, key: string, pad: string, val: string)
    requires st.current.Some? && key != "" && key[0] !in {'#', '['} && (forall i :: 0 <= i < |key| ==> !IsSpace(key[i]) && key[i] != '=')
    requires pad == " " || pad == "  "
    ensures Step(st, Clean(key + pad + "= \"" + val + "\"")) == st.(current := Some(Assign(st.current.value, key, val)))
  {
    hide TrimSpace, Flush, Assign, DropCr;
    var quoted := "\"" + val + "\"";
    var line := key + pad + "= \"" + val + "\"";
    assert line == key + pad + "=" + (" " + quoted);
    assert line[0] == key[0];
    NothingToTrim(line);
    EqualsAt(key + pad, " " + quoted);
    assert line[..|key + pad|] == key + pad && line[|key + pad| + 1..] == " " + quoted;
    TrimBack(key);
    TrimFront(quoted);
    assert quoted[1..|quoted| - 1] == val;
    assert !HasPrefix(line, "#") && !HasPrefix(line, "[") && !HasPrefix(line, SERVICES) by {
      assert "#"[0] == '#' && "["[0] == '[' && SERVICES[0] == '[';
    }
  }

  lemma {:induction false} EqualsAt(a: string, b: string)
    requires '=' !in a
    ensures Index(a + "=" + b, '=') == |a|
  {
    var t := a + "=" + b;
    assert t[|a|] == '=';
    assert forall j :: 0 <= j < |a| ==> t[j] == a[j];
    assert forall j :: |a| < j <= |t| ==> t[..j][|a|] == '=';
  }

  lemma {:induction false} SkippedLine(st: State, line: string)
    requires line == "" || (line[0] == '#' && !IsSpace(line[|line| - 1]))
    ensures Step(st, Clean(line)) == st
  {
    hide TrimSpace;
    if line == "" {
      assert TrimSpace("") == "" by { EmptyTrim(); }
    } else {
      NothingToTrim(line);
    }
  }

  lemma {:induction false} EmptyTrim()
    ensures TrimSpace("") == ""
  {
  }

  /** The four lines of one worker describe it, whatever came before. */
  lemma {:induction false} WorkerBlock(st: State, w: Worker)
    ensures RunLines(st, WorkerLines(w)) == State(Flush(st), Some(Service(w.name, w.cmd, "./bin/" + w.name)))
  {
    hide Step, Clean, Flush;
    var ls := WorkerLines(w);
    var st1 := State(Flush(st), Some(Service(w.name, "", "")));
    var st2 := st1.(current := Some(Service(w.name, w.cmd, "")));
    var st3 := st2.(current := Some(Service(w.name, w.cmd, "./bin/" + w.name)));
    ServiceLine(st, w.name);
    KeyLine(st1, "dev_cmd", "  ", w.cmd);
    assert "dev_cmd" + "  " + "= \"" + w.cmd + "\"" == ls[1];
    KeyLine(st2, "prod_cmd", " ", "./bin/" + w.name);
    assert "prod_cmd" + " " + "= \"" + ("./bin/" + w.name) + "\"" == ls[2];
    SkippedLine(st3, "");
    assert Step(st, Clean(ls[0])) == st1 && Step(st1, Clean(ls[1])) == st2 && Step(st2, Clean(ls[2])) == st3 && Step(st3, Clean(ls[3])) == st3;
    RunFour(st, ls);
  }

  lemma {:induction false} RunFour(st: State, ls: seq<string>)
    requires |ls| == 4
    ensures RunLines(st, ls) == Step(Step(Step(Step(st, Clean(ls[0])), Clean(ls[1])), Clean(ls[2])), Clean(ls[3]))
  {
    hide Step, Clean;
    var st1 := Step(st, Clean(ls[0]));
    var st2 := Step(st1, Clean(ls[1]));
    var st3 := Step(st2, Clean(ls[2]));
    assert ls[1..][1..] == ls[2..] && ls[2..][1..] == ls[3..] && ls[3..][1..] == [];
    assert RunLines(st, ls) == RunLines(st1, ls[1..]) == RunLines(st2, ls[2..]) == RunLines(st3, ls[3..]);
    assert RunLines(st3, ls[3..]) == RunLines(Step(st3, Clean(ls[3])), []);
  }

  lemma {:induction false} RunStays(st: State, ls: seq<string>)
    requires forall i :: 0 <= i < |ls| ==> Step(st, Clean(ls[i])) == st
    ensures RunLines(st, ls) == st
  {
    hide Step, Clean;
    if ls != [] {
      assert forall i :: 0 <= i < |ls[1..]| ==> ls[1..][i] == ls[i + 1];
      RunStays(st, ls[1..]);
    }
  }

  // ---------------------------------------------------------------------------
  // The project section
  // ---------------------------------------------------------------------------

  const EMPTY: State := State([], None)

  /** Comments, blanks and the project's own section, before any service. */
  lemma {:induction false} FixedLine(line: string)
    requires line in ABOVE_NAME || line in BELOW_NAME
    ensures Step(EMPTY, Clean(line)) == EMPTY
  {
    hide TrimSpace, DropCr;
    if line == "" || line[0] == '#' {
      SkippedLine(EMPTY, line);
    } else {
      NothingToTrim(line);
    }
  }

  lemma {:induction false} FixedBlocks()
    ensures RunLines(EMPTY, ABOVE_NAME) == EMPTY && RunLines(EMPTY, BELOW_NAME) == EMPTY
  {
    hide Step, Clean;
    forall i | 0 <= i < |ABOVE_NAME| ensures Step(EMPTY, Clean(ABOVE_NAME[i])) == EMPTY { FixedLine(ABOVE_NAME[i]); }
    forall i | 0 <= i < |BELOW_NAME| ensures Step(EMPTY, Clean(BELOW_NAME[i])) == EMPTY { FixedLine(BELOW_NAME[i]); }
    RunStays(EMPTY, ABOVE_NAME);
    RunStays(EMPTY, BELOW_NAME);
  }

  /** The lines that a printed line, with newlines inside or not, is scanned as. */
  function Pieces(line: string): seq<string> {
    Lines(line + "\n")
  }

  predicate OpensService(line: string) {
    HasPrefix(line, SERVICES) && HasSuffix(line, "]")
  }

  /** No line of the name entry looks like a service header. */
  predicate NoServiceInside(project: string) {
    forall i :: 0 <= i < |Pieces(NameLine(project))| ==> !OpensService(Clean(Pieces(NameLine(project))[i]))
  }

  lemma {:induction false} NothingOpens(ls: seq<string>)
    requires forall i :: 0 <= i < |ls| ==> !OpensService(Clean(ls[i]))
    ensures RunLines(EMPTY, ls) == EMPTY
  {
    hide Clean, OpensService;
    forall i | 0 <= i < |ls| ensures Step(EMPTY, Clean(ls[i])) == EMPTY { StaysEmpty(Clean(ls[i])); }
    RunStays(EMPTY, ls);
  }

  lemma {:induction false} StaysEmpty(line: string)
    requires !OpensService(line)
    ensures Step(EMPTY, line) == EMPTY
  {
  }

  /** Services are never forgotten, and a service header adds one. */
  lemma {:induction false} StepGrows(st: State, line: string)
    ensures |Flush(Step(st, line))| >= |Flush(st)|
    ensures OpensService(line) ==> |Flush(Step(st, line))| == |Flush(st)| + 1
  {
    hide TrimSpace, Unquote, Index, HasSuffix, Assign;
    assert SERVICES[0] == '[' && "#"[0] == '#';
  }

  lemma {:induction false} RunGrows(st: State, ls: seq<string>)
    ensures |Flush(RunLines(st, ls))| >= |Flush(st)|
    ensures (exists i :: 0 <= i < |ls| && OpensService(Clean(ls[i]))) ==> |Flush(RunLines(st, ls))| > |Flush(st)|
    decreases |ls|
  {
    hide Step, Clean, Flush, OpensService;
    if ls != [] {
      StepGrows(st, Clean(ls[0]));
      RunGrows(Step(st, Clean(ls[0])), ls[1..]);
      assert forall i :: 0 < i < |ls| ==> ls[i] == ls[1..][i - 1];
    }
  }

  /** The header as the scanner sees it. */
  function HeaderSeen(project: string): seq<string> {
    ABOVE_NAME + Pieces(NameLine(project)) + BELOW_NAME
  }

  /** The project section contributes nothing exactly when no line of the project's name looks like a service header. */
  lemma {:induction false} HeaderBlock(project: string)
    ensures Flush(RunLines(EMPTY, HeaderSeen(project))) == [] <==> NoServiceInside(project)
    ensures NoServiceInside(project) ==> RunLines(EMPTY, HeaderSeen(project)) == EMPTY
  {
    hide Step, Clean, Pieces, RunLines, OpensService;
    var ps := Pieces(NameLine(project));
    FixedBlocks();
    RunAppend(EMPTY, ABOVE_NAME + ps, BELOW_NAME);
    RunAppend(EMPTY, ABOVE_NAME, ps);
    RunGrows(EMPTY, ps);
    RunGrows(RunLines(EMPTY, ps), BELOW_NAME);
    if NoServiceInside(project) { NothingOpens(ps); }
  }

  lemma {:induction false} AllBlocks(st: State, ws: seq<Worker>)
    ensures Flush(RunLines(st, AllWorkerLines(ws))) == Flush(st) + Described(ws)
  {
    hide WorkerLines, RunLines, Step;
    if ws == [] {
      RunStays(st, []);
    } else {
      var front, w := ws[..|ws| - 1], ws[|ws| - 1];
      AllBlocks(st, front);
      RunAppend(st, AllWorkerLines(front), WorkerLines(w));
      WorkerBlock(RunLines(st, AllWorkerLines(front)), w);
      assert Described(ws) == Described(front) + [Service(w.name, w.cmd, "./bin/" + w.name)];
    }
  }

  // ---------------------------------------------------------------------------
  // What a parsed service can hold
  // ---------------------------------------------------------------------------

  predicate PlainService(s: Service) {
    OneLine(s.name) && OneLine(s.devCmd) && OneLine(s.prodCmd)
  }

  predicate PlainState(st: State) {
    && (forall i :: 0 <= i < |st.services| ==> PlainService(st.services[i]))
    && (st.current.Some? ==> PlainService(st.current.value))
  }

  lemma {:induction false} PiecesPlain(s: string)
    requires OneLine(s)
    ensures OneLine(TrimSpace(s)) && OneLine(Unquote(TrimSpace(s)))
  {
    hide TrimLeft, TrimRight;
  }

  lemma {:induction false} StepStaysPlain(st: State, line: string)
    requires PlainState(st) && OneLine(line)
    ensures PlainState(Step(st, line))
  {
    hide TrimSpace, Unquote, Index, HasPrefix, HasSuffix;
    var i := Index(line, '=');
    if i < |line| {
      PiecesPlain(line[..i]);
      PiecesPlain(line[i + 1..]);
    }
  }

  /** No parsed name or command holds a newline, whatever the text. */
  lemma {:induction false} ParsedIsPlain(st: State, ls: seq<string>)
    requires PlainState(st) && forall i :: 0 <= i < |ls| ==> OneLine(ls[i])
    ensures forall i :: 0 <= i < |ParseFrom(st, ls).services| ==> PlainService(ParseFrom(st, ls).services[i])
    decreases |ls|
  {
    hide Step, TrimLeft, TrimRight, Size;
    if ls != [] && Size(ls[0]) <= MAX_LINE {
      var line := Clean(ls[0]);
      assert OneLine(line);
      StepStaysPlain(st, line);
      ParsedIsPlain(Step(st, line), ls[1..]);
    }
  }

  // ---------------------------------------------------------------------------
  // Line lengths
  // ---------------------------------------------------------------------------

  lemma {:induction false} SizeAppend(a: string, b: string)
    ensures Size(a + b) == Size(a) + Size(b)
  {
    if a == "" {
      assert a + b == b;
    } else {
      assert (a + b)[1..] == a[1..] + b;
      SizeAppend(a[1..], b);
    }
  }

  lemma {:induction false} SizeAscii(a: string)
    requires forall i :: 0 <= i < |a| ==> a[i] as int < 0x80
    ensures Size(a) == |a|
  {
    if a != "" { SizeAscii(a[1..]); }
  }

  lemma {:induction false} SizeBound(a: string)
    ensures Size(a) <= 4 * |a|
  {
    if a != "" { SizeBound(a[1..]); }
  }

  predicate Ascii(s: string) {
    forall i :: 0 <= i < |s| ==> s[i] as int < 0x80
  }

  lemma {:induction false} SizeAround(a: string, b: string, c: string)
    requires Ascii(a) && Ascii(c)
    ensures Size(a + b + c) == |a| + Size(b) + |c|
  {
    SizeAppend(a + b, c);
    SizeAppend(a, b);
    SizeAscii(a);
    SizeAscii(c);
  }

  /** The names and the commands leave room for the rest of their lines. */
  predicate Short(ws: seq<Worker>) {
    forall i :: 0 <= i < |ws| ==> Size(ws[i].name) <= MAX_LINE - 19 && Size(ws[i].cmd) <= MAX_LINE - 13
  }

  predicate PlainWorkers(ws: seq<Worker>) {
    forall i :: 0 <= i < |ws| ==> OneLine(ws[i].name) && OneLine(ws[i].cmd)
  }

  lemma {:induction false} WorkerFits(w: Worker)
    ensures Fit(WorkerLines(w)) <==> Size(w.name) <= MAX_LINE - 19 && Size(w.cmd) <= MAX_LINE - 13
  {
    hide Size;
    var ls := WorkerLines(w);
    SizeAround("[services.", w.name, "]");
    SizeAround("dev_cmd  = \"", w.cmd, "\"");
    SizeAround("prod_cmd = \"./bin/", w.name, "\"");
    SizeBound("");
    assert |ls| == 4 && Size(ls[3]) == 0;
    assert Size(ls[0]) == Size(w.name) + 11 && Size(ls[1]) == Size(w.cmd) + 13 && Size(ls[2]) == Size(w.name) + 19;
  }

  lemma {:induction false} FixedFits()
    ensures Fit(ABOVE_NAME) && Fit(BELOW_NAME)
  {
    hide Size;
    forall i | 0 <= i < |ABOVE_NAME| ensures Size(ABOVE_NAME[i]) <= MAX_LINE { SizeBound(ABOVE_NAME[i]); assert |ABOVE_NAME[i]| <= 100; }
    forall i | 0 <= i < |BELOW_NAME| ensures Size(BELOW_NAME[i]) <= MAX_LINE { SizeBound(BELOW_NAME[i]); assert |BELOW_NAME[i]| <= 100; }
  }

  lemma {:induction false} FitAppend(a: seq<string>, b: seq<string>)
    ensures Fit(a + b) <==> Fit(a) && Fit(b)
  {
    hide Size;
    if Fit(a + b) {
      forall i | 0 <= i < |a| ensures Size(a[i]) <= MAX_LINE { assert (a + b)[i] == a[i]; }
      forall i | 0 <= i < |b| ensures Size(b[i]) <= MAX_LINE { assert (a + b)[|a| + i] == b[i]; }
    }
  }

  lemma {:induction false} WorkersFit(ws: seq<Worker>)
    ensures Fit(AllWorkerLines(ws)) <==> Short(ws)
  {
    hide Size, Fit, WorkerLines;
    if ws == [] {
      assert Fit([]) by { FitAppend([], []); NothingFits(); }
    } else {
      var front, w := ws[..|ws| - 1], ws[|ws| - 1];
      WorkersFit(front);
      WorkerFits(w);
      FitAppend(AllWorkerLines(front), WorkerLines(w));
      assert forall i :: 0 <= i < |front| ==> front[i] == ws[i];
    }
  }

  lemma {:induction false} NothingFits()
    ensures Fit([])
  {
  }

  // ---------------------------------------------------------------------------
  // The theorem
  // ---------------------------------------------------------------------------

  lemma {:induction false} WorkerLinesPlain(ws: seq<Worker>)
    requires PlainWorkers(ws)
    ensures forall i :: 0 <= i < |AllWorkerLines(ws)| ==> OneLine(AllWorkerLines(ws)[i])
  {
    if ws != [] { WorkerLinesPlain(ws[..|ws| - 1]); }
  }

  /** Newline-free lines are scanned as they were, before whatever follows. */
  lemma {:induction false} LinesBefore(ls: seq<string>, t: string)
    requires forall i :: 0 <= i < |ls| ==> OneLine(ls[i])
    ensures Lines(Text(ls) + t) == ls + Lines(t)
    decreases |ls|
  {
    hide Lines;
    if ls == [] {
      assert Text(ls) + t == t;
    } else {
      var rest := Text(ls[1..]) + t;
      assert Text(ls) + t == ls[0] + "\n" + rest;
      FirstLine(ls[0], rest);
      LinesBefore(ls[1..], t);
    }
  }

  lemma {:induction false} FirstLine(l: string, rest: string)
    requires OneLine(l)
    ensures Lines(l + "\n" + rest) == [l] + Lines(rest)
  {
    var t := l + "\n" + rest;
    IndexIs(l, rest);
    assert t[..|l|] == l && t[|l| + 1..] == rest;
  }

  /** A printed line is scanned piece by piece, before whatever follows. */
  lemma {:induction false} PiecesBefore(l: string, t: string)
    ensures Lines(l + "\n" + t) == Pieces(l) + Lines(t)
    decreases |l|
  {
    hide Lines;
    var i := Index(l, '\n');
    if i == |l| {
      assert l[..i] == l;
      FirstLine(l, t);
      FirstLine(l, "");
      NoLines();
      assert l + "\n" + "" == l + "\n";
    } else {
      var head, tail := l[..i], l[i + 1..];
      assert l == head + "\n" + tail;
      assert l + "\n" + t == head + "\n" + (tail + "\n" + t);
      assert l + "\n" == head + "\n" + (tail + "\n");
      FirstLine(head, tail + "\n" + t);
      FirstLine(head, tail + "\n");
      PiecesBefore(tail, t);
    }
  }

  lemma {:induction false} NoLines()
    ensures Lines("") == []
  {
  }

  lemma {:induction false} FixedPlain()
    ensures forall i :: 0 <= i < |ABOVE_NAME| ==> OneLine(ABOVE_NAME[i])
    ensures forall i :: 0 <= i < |BELOW_NAME| ==> OneLine(BELOW_NAME[i])
  {
    assert OneLine(TITLE) && OneLine(RULE) && OneLine(ORIGIN) && OneLine(HEADING);
    assert OneLine("[project]") && OneLine("version = \"1.0.0\"") && OneLine("");
    hide OneLine;
  }

  /** The generated text as the scanner sees it, when names and commands hold no newline. */
  lemma {:induction false} LinesSeen(project: string, ws: seq<Worker>)
    requires PlainWorkers(ws)
    ensures Lines(Text(ManifestLines(project, ws))) == HeaderSeen(project) + AllWorkerLines(ws)
  {
    hide Lines, Text, AllWorkerLines, Pieces, NameLine, OneLine;
    var name, below := NameLine(project), BELOW_NAME + AllWorkerLines(ws);
    FixedPlain();
    WorkerLinesPlain(ws);
    assert ManifestLines(project, ws) == ABOVE_NAME + ([name] + below);
    TextAppend(ABOVE_NAME, [name] + below);
    TextAppend([name], below);
    OneText(name, Text(below));
    LinesBefore(ABOVE_NAME, Text([name] + below));
    PiecesBefore(name, Text(below));
    LinesBefore(below, "");
    NoLines();
    assert Text(below) + "" == Text(below);
    assert ABOVE_NAME + (Pieces(name) + below) == HeaderSeen(project) + AllWorkerLines(ws);
  }

  lemma {:induction false} OneText(l: string, t: string)
    ensures Text([l]) + t == l + "\n" + t
  {
    assert Text([l]) == l + "\n" + Text([]);
  }

  /** The lines of the project's name entry fit the scanner, and none looks like a service header. */
  predicate HarmlessProject(project: string) {
    Fit(Pieces(NameLine(project))) && NoServiceInside(project)
  }

  /** With newline-free names and commands the parser sees the generated lines. */
  lemma {:induction false} ParseGenerated(project: string, ws: seq<Worker>)
    requires PlainWorkers(ws)
    ensures Parse(Text(ManifestLines(project, ws))) == Parsed(Described(ws), false) <==> Short(ws) && HarmlessProject(project)
  {
    hide Size, RunLines, Step, Text, Lines, PlainWorkers, AllWorkerLines, Described, Fit, ParseFrom, Flush, Pieces, NoServiceInside, Short;
    var seen := HeaderSeen(project) + AllWorkerLines(ws);
    LinesSeen(project, ws);
    ParseIsRun(EMPTY, seen);
    FixedFits();
    FitAppend(HeaderSeen(project), AllWorkerLines(ws));
    FitAppend(ABOVE_NAME + Pieces(NameLine(project)), BELOW_NAME);
    FitAppend(ABOVE_NAME, Pieces(NameLine(project)));
    WorkersFit(ws);
    RunAppend(EMPTY, HeaderSeen(project), AllWorkerLines(ws));
    HeaderBlock(project);
    var st := RunLines(EMPTY, HeaderSeen(project));
    AllBlocks(st, ws);
    assert Flush(st) + Described(ws) == Described(ws) <==> Flush(st) == [] by {
      assert |Flush(st) + Described(ws)| == |Flush(st)| + |Described(ws)|;
      assert [] + Described(ws) == Described(ws);
    }
  }

  /**
   * Round trip, exactly: a generated manifest parses back to the same services, in order,
   * with the same `dev_cmd` and `./bin/<name>` as `prod_cmd`, if and only if no name or
   * command holds a newline, every line is within the scanner's limit, and no line inside the
   * project's name looks like a service header.
   */
  lemma {:induction false} RoundTrip(project: string, ws: seq<Worker>)
    ensures Parse(Text(ManifestLines(project, ws))) == Parsed(Described(ws), false)
       <==> PlainWorkers(ws) && Short(ws) && HarmlessProject(project)
  {
    hide Size, Text, Lines, HeaderLines, AllWorkerLines, ParseFrom, Short, HarmlessProject;
    var p := Parse(Text(ManifestLines(project, ws)));
    ParsedIsPlain(State([], None), Lines(Text(ManifestLines(project, ws))));
    if p.services == Described(ws) {
      forall i | 0 <= i < |ws| ensures OneLine(ws[i].name) && OneLine(ws[i].cmd) {
        assert PlainService(p.services[i]) && p.services[i].name == ws[i].name && p.services[i].devCmd == ws[i].cmd;
      }
    }
    if PlainWorkers(ws) { ParseGenerated(project, ws); }
  }

  /** A project name without newlines is harmless exactly when its line fits. */
  lemma {:induction false} OneLineProject(project: string)
    requires OneLine(project)
    ensures HarmlessProject(project) <==> Size(project) <= MAX_LINE - 9
  {
    hide Size, Lines, TrimSpace, DropCr;
    var line := NameLine(project);
    FirstLine(line, "");
    NoLines();
    assert line + "\n" + "" == line + "\n" && Pieces(line) == [line];
    SizeAround("name = \"", project, "\"");
    NothingToTrim(line);
    assert line[0] == 'n' && SERVICES[0] == '[';
    assert Clean(Pieces(line)[0]) == line && !HasPrefix(line, SERVICES);
    assert Size(line) == Size(project) + 9;
    assert Fit([line]) <==> Size([line][0]) <= MAX_LINE;
  }
}
