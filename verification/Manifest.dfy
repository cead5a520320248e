/**
 * The `callwire.toml` manifest: printer (go/callwire/cmd/callwire/main.go:335-368) and
 * line parser (go/callwire/orchestration.go:30-97).
 *
 * Text is a sequence of Unicode characters. The scanner's limit counts UTF-8 bytes.
 */
module Manifest {
  import opened Bytes

  datatype Service = Service(name: string, devCmd: string, prodCmd: string)

  /** `services` and `scanner.Err()`: on a line that is too long the services so far come with the error. */
  datatype Parsed = Parsed(services: seq<Service>, tooLong: bool)

  // ---------------------------------------------------------------------------
  // Go's string functions
  // ---------------------------------------------------------------------------

  /** `unicode.IsSpace`. */
  predicate IsSpace(c: char) {
    c in {'\t', '\n', '\U{B}', '\U{C}', '\r', ' ', '\U{85}', '\U{A0}', '\U{1680}',
          '\U{2028}', '\U{2029}', '\U{202F}', '\U{205F}', '\U{3000}'}
    || '\U{2000}' <= c <= '\U{200A}'
  }

  function TrimLeft(s: string): (r: string)
    ensures |r| <= |s| && r == s[|s| - |r|..]
    ensures (r != "" ==> !IsSpace(r[0])) && forall i :: 0 <= i < |s| - |r| ==> IsSpace(s[i])
  {
    if s != "" && IsSpace(s[0]) then TrimLeft(s[1..]) else s
  }

  function TrimRight(s: string): (r: string)
    ensures |r| <= |s| && r == s[..|r|]
    ensures (r != "" ==> !IsSpace(r[|r| - 1])) && forall i :: |r| <= i < |s| ==> IsSpace(s[i])
  {
    if s != "" && IsSpace(s[|s| - 1]) then TrimRight(s[..|s| - 1]) else s
  }

  function TrimSpace(s: string): string {
    TrimRight(TrimLeft(s))
  }

  predicate HasPrefix(s: string, p: string) {
    p <= s
  }

  predicate HasSuffix(s: string, p: string) {
    |p| <= |s| && s[|s| - |p|..] == p
  }

  /** The first occurrence of a character, or the length. */
  function Index(s: string, c: char): (i: nat)
    ensures i <= |s| && (i < |s| ==> s[i] == c) && c !in s[..i]
  {
    if s == "" || s[0] == c then 0
    else
      var i := Index(s[1..], c);
      assert s[..i + 1] == [s[0]] + s[1..][..i];
      i + 1
  }

  function Utf8Size(c: char): nat {
    if c as int < 0x80 then 1 else if c as int < 0x800 then 2 else if c as int < 0x1_0000 then 3 else 4
  }

  function Size(s: string): nat {
    if s == "" then 0 else Utf8Size(s[0]) + Size(s[1..])
  }

  // ---------------------------------------------------------------------------
  // bufio.Scanner with ScanLines
  // ---------------------------------------------------------------------------

  /** A line longer than this, without its newline, fills the scanner's buffer. */
  const MAX_LINE: int := 64 * 1024 - 1

  /** The raw lines; an empty piece after the last newline is no line. */
  function Lines(text: string): (ls: seq<string>)
    ensures forall i :: 0 <= i < |ls| ==> '\n' !in ls[i]
    decreases |text|
  {
    if text == "" then []
    else
      var i := Index(text, '\n');
      [text[..i]] + if i < |text| then Lines(text[i + 1..]) else []
  }

  /** `Text()`: a carriage return before the newline is dropped. */
  function DropCr(s: string): string {
    if HasSuffix(s, "\r") then s[..|s| - 1] else s
  }

  function Text(ls: seq<string>): string {
    if ls == [] then "" else ls[0] + "\n" + Text(ls[1..])
  }

  predicate OneLine(s: string) {
    '\n' !in s
  }

  lemma {:induction false} IndexIs(l: string, rest: string)
    requires OneLine(l)
    ensures Index(l + "\n" + rest, '\n') == |l|
  {
    var t := l + "\n" + rest;
    assert t[|l|] == '\n';
    assert forall j :: 0 <= j < |l| ==> t[j] == l[j];
    assert forall j :: |l| < j <= |t| ==> t[..j][|l|] == '\n';
  }

  lemma {:induction false} TextAppend(a: seq<string>, b: seq<string>)
    ensures Text(a + b) == Text(a) + Text(b)
  {
    if a == [] {
      assert a + b == b;
    } else {
      assert (a + b)[1..] == a[1..] + b;
      TextAppend(a[1..], b);
    }
  }

  // ---------------------------------------------------------------------------
  // The parser
  // ---------------------------------------------------------------------------

  const SERVICES: string := "[services."

  datatype State = State(services: seq<Service>, current: Option<Service>)

  function Flush(st: State): seq<Service> {
    st.services + if st.current.Some? then [st.current.value] else []
  }

  /** The surrounding quotes, if both are there. */
  function Unquote(v: string): string {
    if |v| >= 2 && v[0] == '"' && v[|v| - 1] == '"' then v[1..|v| - 1] else v
  }

  function Assign(s: Service, key: string, val: string): Service {
    if key == "dev_cmd" then s.(devCmd := val) else if key == "prod_cmd" then s.(prodCmd := val) else s
  }

  /** One line of the manifest, trimmed. */
  function Step(st: State, line: string): State {
    if line == "" || HasPrefix(line, "#") then st
    else if HasPrefix(line, SERVICES) && HasSuffix(line, "]") then
      assert line[|SERVICES| - 1] == '.';
      State(Flush(st), Some(Service(line[|SERVICES|..|line| - 1], "", "")))
    else if HasPrefix(line, "[") then State(Flush(st), None)
    else if st.current.None? then st
    else
      var i := Index(line, '=');
      if i == |line| then st
      else st.(current := Some(Assign(st.current.value, TrimSpace(line[..i]), Unquote(TrimSpace(line[i + 1..])))))
  }

  /** The parser's loop over the raw lines, from a state. */
  function ParseFrom(st: State, ls: seq<string>): Parsed
    decreases |ls|
  {
    if ls == [] then Parsed(Flush(st), false)
    else if Size(ls[0]) > MAX_LINE then Parsed(Flush(st), true)
    else ParseFrom(Step(st, TrimSpace(DropCr(ls[0]))), ls[1..])
  }

  function Parse(text: string): Parsed {
    ParseFrom(State([], None), Lines(text))
  }

  /** `parseCallwireToml` on the file's contents. */
  method ParseManifest(text: string) returns (services: seq<Service>, tooLong: bool)
    ensures Parsed(services, tooLong) == Parse(text)
  {
    hide Step, TrimSpace, DropCr, Lines, Size;
    services, tooLong := [], false;
    var current: Option<Service> := None;
    var lines := Lines(text);
    var i := 0;
    assert lines[0..] == lines;
    while i < |lines|
      invariant 0 <= i <= |lines| && !tooLong
      invariant Parse(text) == ParseFrom(State(services, current), lines[i..])
    {
      if Size(lines[i]) > MAX_LINE {
        tooLong := true;
        break;
      }
      var line := TrimSpace(DropCr(lines[i]));
      services, current := ReadLine(services, current, line);
      assert lines[i..][1..] == lines[i + 1..];
      i := i + 1;
    }
    if current.Some? {
      services := services + [current.value];
    }
  }

  /** The body of the parser's loop. */
  method ReadLine(services0: seq<Service>, current0: Option<Service>, line: string)
    returns (services: seq<Service>, current: Option<Service>)
    ensures State(services, current) == Step(State(services0, current0), line)
  {
    hide TrimSpace;
    services, current := services0, current0;
    if line == "" || HasPrefix(line, "#") {
      return;
    }
    if HasPrefix(line, SERVICES) && HasSuffix(line, "]") {
      if current.Some? {
        services := services + [current.value];
      }
      var name := line[|SERVICES|..];
      assert line[|SERVICES| - 1] == '.';
      name := name[..|name| - 1];
      assert name == line[|SERVICES|..|line| - 1];
      current := Some(Service(name, "", ""));
      return;
    }
    if HasPrefix(line, "[") {
      if current.Some? {
        services := services + [current.value];
        current := None;
      }
      return;
    }
    if current.None? {
      return;
    }
    var i := Index(line, '=');
    if i == |line| {
      return;
    }
    var key := TrimSpace(line[..i]);
    var val := TrimSpace(line[i + 1..]);
    if |val| >= 2 && val[0] == '"' && val[|val| - 1] == '"' {
      val := val[1..|val| - 1];
    }
    if key == "dev_cmd" {
      current := Some(current.value.(devCmd := val));
    } else if key == "prod_cmd" {
      current := Some(current.value.(prodCmd := val));
    }
  }

  // ---------------------------------------------------------------------------
  // The printer
  // ---------------------------------------------------------------------------

  datatype Worker = Worker(name: string, cmd: string)

  /** A horizontal rule of box-drawing characters. */
  function Rule(n: nat): string {
    seq(n, _ => '─')
  }

  const TITLE: string := "# callwire.toml"
  const RULE: string := "# " + Rule(60)
  const ORIGIN: string := "# Generated by `callwire init` (Go CLI)"
  const HEADING: string := "# " + Rule(2) + " Worker services " + Rule(41)

  function NameLine(project: string): string {
    "name = \"" + project + "\""
  }

  const ABOVE_NAME: seq<string> := [TITLE, RULE, ORIGIN, RULE, "", "[project]"]
  const BELOW_NAME: seq<string> := ["version = \"1.0.0\"", "", HEADING, ""]

  function HeaderLines(project: string): seq<string> {
    ABOVE_NAME + [NameLine(project)] + BELOW_NAME
  }

  function WorkerLines(w: Worker): seq<string> {
    ["[services." + w.name + "]", "dev_cmd  = \"" + w.cmd + "\"", "prod_cmd = \"./bin/" + w.name + "\"", ""]
  }

  function AllWorkerLines(ws: seq<Worker>): seq<string> {
    if ws == [] then [] else AllWorkerLines(ws[..|ws| - 1]) + WorkerLines(ws[|ws| - 1])
  }

  function ManifestLines(project: string, ws: seq<Worker>): seq<string> {
    HeaderLines(project) + AllWorkerLines(ws)
  }

  lemma {:induction false} TextOfFour(a: string, b: string, c: string, d: string)
    ensures Text([a, b, c, d]) == a + "\n" + (b + "\n" + (c + "\n" + (d + "\n")))
  {
    assert [a, b, c, d][1..] == [b, c, d] && [b, c, d][1..] == [c, d] && [c, d][1..] == [d] && [d][1..] == [];
    assert Text([d]) == d + "\n";
    assert Text([c, d]) == c + "\n" + Text([d]);
    assert Text([b, c, d]) == b + "\n" + Text([c, d]);
  }

  /** The three prints per worker, as lines. */
  lemma {:induction false} WorkerText(s: string, w: Worker)
    ensures s + Text(WorkerLines(w))
         == s + "[services." + w.name + "]\n" + "dev_cmd  = \"" + w.cmd + "\"\n" + "prod_cmd = \"./bin/" + w.name + "\"\n\n"
  {
    hide Text;
    TextOfFour("[services." + w.name + "]", "dev_cmd  = \"" + w.cmd + "\"", "prod_cmd = \"./bin/" + w.name + "\"", "");
  }

  lemma {:induction false} AboveText()
    ensures Text(ABOVE_NAME)
         == "# callwire.toml\n" + RULE + "\n" + "# Generated by `callwire init` (Go CLI)\n" + RULE + "\n\n" + "[project]\n"
  {
    hide Text;
    assert ABOVE_NAME == [TITLE, RULE, ORIGIN] + [RULE, "", "[project]"];
    TextAppend([TITLE, RULE, ORIGIN], [RULE, "", "[project]"]);
    TextOfThree(TITLE, RULE, ORIGIN);
    TextOfThree(RULE, "", "[project]");
  }

  lemma {:induction false} BelowText()
    ensures Text(BELOW_NAME) == "version = \"1.0.0\"\n\n" + HEADING + "\n\n"
  {
    hide Text;
    TextOfFour("version = \"1.0.0\"", "", HEADING, "");
  }

  /** The prints of the header, as lines. */
  lemma {:induction false} HeaderText(project: string)
    ensures Text(HeaderLines(project)) == Text(ABOVE_NAME) + ("name = \"" + project + "\"\n") + Text(BELOW_NAME)
  {
    TextAppend(ABOVE_NAME + [NameLine(project)], BELOW_NAME);
    TextAppend(ABOVE_NAME, [NameLine(project)]);
    assert Text([NameLine(project)]) == NameLine(project) + "\n";
  }

  lemma {:induction false} TextOfThree(a: string, b: string, c: string)
    ensures Text([a, b, c]) == a + "\n" + (b + "\n" + (c + "\n"))
  {
    assert [a, b, c][1..] == [b, c] && [b, c][1..] == [c] && [c][1..] == [];
    assert Text([c]) == c + "\n";
    assert Text([b, c]) == b + "\n" + Text([c]);
  }

  /** The text that `scanAndGenerate` builds. */
  method Generate(project: string, ws: seq<Worker>) returns (b: string)
    ensures b == Text(ManifestLines(project, ws))
  {
    hide Text, HeaderLines, WorkerLines;
    HeaderText(project);
    AboveText();
    BelowText();
    b := "# callwire.toml\n";
    b := b + RULE + "\n";
    b := b + "# Generated by `callwire init` (Go CLI)\n";
    b := b + RULE + "\n\n";
    b := b + "[project]\n";
    b := b + "name = \"" + project + "\"\n";
    b := b + "version = \"1.0.0\"\n\n";
    b := b + HEADING + "\n\n";
    assert b == Text(HeaderLines(project));
    var i := 0;
    assert HeaderLines(project) + AllWorkerLines(ws[..0]) == HeaderLines(project);
    while i < |ws|
      invariant 0 <= i <= |ws| && b == Text(ManifestLines(project, ws[..i]))
    {
      assert ws[..i + 1][..i] == ws[..i];
      assert ManifestLines(project, ws[..i + 1]) == ManifestLines(project, ws[..i]) + WorkerLines(ws[i]);
      TextAppend(ManifestLines(project, ws[..i]), WorkerLines(ws[i]));
      WorkerText(b, ws[i]);
      b := b + "[services." + ws[i].name + "]\n";
      b := b + "dev_cmd  = \"" + ws[i].cmd + "\"\n";
      b := b + "prod_cmd = \"./bin/" + ws[i].name + "\"\n\n";
      i := i + 1;
    }
    assert ws[..i] == ws;
  }

  /** What the manifest describes. */
  function Described(ws: seq<Worker>): seq<Service> {
    seq(|ws|, i requires 0 <= i < |ws| => Service(ws[i].name, ws[i].cmd, "./bin/" + ws[i].name))
  }
}
