/**
 * What the line parser of `callwire.toml` reads, for every text: one service per service header,
 * with the last setting of each key between that header and the next section.
 */
module ManifestSections {
  import opened Bytes
  import opened Manifest

  /** Trimming takes the white space off both ends and nothing else. */
  lemma {:induction false} TrimmedEnds(s: string) returns (i: nat, j: nat)
    ensures i <= j <= |s| && TrimSpace(s) == s[i..j]
    ensures forall k :: (0 <= k < i || j <= k < |s|) ==> IsSpace(s[k])
    ensures i < j ==> !IsSpace(s[i]) && !IsSpace(s[j - 1])
  {
    var l := TrimLeft(s);
    i := |s| - |l|;
    j := i + |TrimRight(l)|;
    assert l == s[i..];
    assert forall k :: i <= k < |s| ==> s[k] == l[k - i];
    hide IsSpace;
  }

  // ---------------------------------------------------------------------------
  // Lines by what they say
  // ---------------------------------------------------------------------------

  predicate Section(line: string) {
    line != "" && line[0] == '['
  }

  /** `[services.<name>]`. */
  predicate Header(line: string) {
    |line| > |"[services."| && line[..|"[services."|] == "[services." && line[|line| - 1] == ']'
  }

  function HeaderName(line: string): string
    requires Header(line)
  {
    line[|"[services."|..|line| - 1]
  }

  /** `key = value`, at the first equals sign of a line that is no comment and no section. */
  predicate Sets(line: string, key: string) {
    && line != "" && line[0] != '#' && line[0] != '[' && '=' in line
    && TrimSpace(line[..Index(line, '=')]) == key
  }

  /** The value with its white space and one pair of quotes taken off. */
  function Setting(line: string): string
    requires '=' in line
  {
    var i := Index(line, '=');
    assert i < |line|;
    var v := TrimSpace(line[i + 1..]);
    if |v| >= 2 && v[0] == '"' == v[|v| - 1] then v[1..|v| - 1] else v
  }

  /** The last setting of a key before the next section. */
  function LastSetting(lines: seq<string>, key: string, default: string): string {
    if lines == [] || Section(lines[0]) then default
    else LastSetting(lines[1..], key, if Sets(lines[0], key) then Setting(lines[0]) else default)
  }

  /** One service per header, in order. */
  function Sections(lines: seq<string>): seq<Service> {
    if lines == [] then []
    else
      var rest := lines[1..];
      (if Header(lines[0]) then [Service(HeaderName(lines[0]), LastSetting(rest, "dev_cmd", ""), LastSetting(rest, "prod_cmd", ""))] else [])
      + Sections(rest)
  }

  // ---------------------------------------------------------------------------
  // The parser's state machine
  // ---------------------------------------------------------------------------

  function Fold(st: State, lines: seq<string>): State
    decreases |lines|
  {
    if lines == [] then st else Fold(Step(st, lines[0]), lines[1..])
  }

  /** The service being read, once the settings up to the next section are in. */
  function Completed(current: Option<Service>, lines: seq<string>): seq<Service> {
    if current.None? then []
    else
      var s := current.value;
      [Service(s.name, LastSetting(lines, "dev_cmd", s.devCmd), LastSetting(lines, "prod_cmd", s.prodCmd))]
  }

  /** A section that opens no service closes the one being read and loses nothing. */
  lemma {:induction false} OtherSection(st: State, line: string)
    requires Section(line) && !Header(line)
    ensures Step(st, line).current.None? && Flush(Step(st, line)) == Flush(st)
  {
    assert |line| == |SERVICES| && HasPrefix(line, SERVICES) && HasSuffix(line, "]") ==> line == SERVICES;
  }

  /** A service header closes the one being read and opens its own. */
  lemma {:induction false} ServiceHeader(st: State, line: string)
    requires Header(line)
    ensures Step(st, line) == State(Flush(st), Some(Service(HeaderName(line), "", "")))
  {
    assert line[..|SERVICES|][0] == '[' && HasPrefix(line, SERVICES) && !HasPrefix(line, "#");
    assert HasSuffix(line, "]") by { assert line[|line| - 1..] == "]"; }
  }

  /** Any other line changes at most the key it sets, in the service being read. */
  lemma {:induction false} OtherLine(st: State, line: string)
    requires !Section(line)
    ensures Step(st, line).services == st.services && (st.current.None? ==> Step(st, line).current.None?)
    ensures st.current.Some? ==>
      var s := st.current.value;
      Step(st, line).current == Some(Service(
        s.name,
        if Sets(line, "dev_cmd") then Setting(line) else s.devCmd,
        if Sets(line, "prod_cmd") then Setting(line) else s.prodCmd))
  {
    hide TrimSpace;
    if line != "" {
      assert HasPrefix(line, "#") <==> line[0] == '#';
      assert !HasPrefix(line, "[") && !HasPrefix(line, SERVICES);
      assert '=' in line <==> Index(line, '=') < |line| by { assert line[..|line|] == line; }
    }
  }

  lemma {:induction false} FoldIsSections(st: State, lines: seq<string>)
    ensures Flush(Fold(st, lines)) == st.services + Completed(st.current, lines) + Sections(lines)
    decreases |lines|
  {
    hide Step, Header, Sets, Setting, HeaderName;
    if lines != [] {
      var line, rest := lines[0], lines[1..];
      FoldIsSections(Step(st, line), rest);
      if Header(line) {
        HeaderIsSection(line);
        ServiceHeader(st, line);
      } else if Section(line) {
        OtherSection(st, line);
      } else {
        OtherLine(st, line);
      }
    }
  }

  lemma {:induction false} HeaderIsSection(line: string)
    requires Header(line)
    ensures Section(line)
  {
    assert line[0] == line[..|"[services."|][0];
  }

  // ---------------------------------------------------------------------------
  // Whole texts
  // ---------------------------------------------------------------------------

  function Trimmed(lines: seq<string>): seq<string> {
    seq(|lines|, i requires 0 <= i < |lines| => TrimSpace(DropCr(lines[i])))
  }

  lemma {:induction false} ParseFolds(st: State, lines: seq<string>) returns (n: nat)
    ensures n <= |lines| && (forall i :: 0 <= i < n ==> Size(lines[i]) <= MAX_LINE) && (n < |lines| ==> Size(lines[n]) > MAX_LINE)
    ensures ParseFrom(st, lines) == Parsed(Flush(Fold(st, Trimmed(lines[..n]))), n < |lines|)
    decreases |lines|
  {
    hide Step, TrimSpace, DropCr, Size;
    if lines == [] || Size(lines[0]) > MAX_LINE {
      n := 0;
    } else {
      var m := ParseFolds(Step(st, TrimSpace(DropCr(lines[0]))), lines[1..]);
      n := m + 1;
      assert lines[1..][..m] == lines[..n][1..];
      assert Trimmed(lines[..n])[1..] == Trimmed(lines[1..][..m]);
    }
  }

  /**
   * For every text: the services are those of its sections, up to the first line that is too
   * long for the scanner, and there is an error exactly if there is such a line.
   */
  lemma {:induction false} ParseIsSections(text: string) returns (n: nat)
    ensures n <= |Lines(text)| && forall i :: 0 <= i < n ==> Size(Lines(text)[i]) < 64 * 1024
    ensures n < |Lines(text)| ==> Size(Lines(text)[n]) >= 64 * 1024
    ensures Parse(text) == Parsed(Sections(Trimmed(Lines(text)[..n])), n < |Lines(text)|)
  {
    hide Sections, Lines, Fold, Step, TrimSpace, DropCr, Size;
    n := ParseFolds(State([], None), Lines(text));
    FoldIsSections(State([], None), Trimmed(Lines(text)[..n]));
  }
}
