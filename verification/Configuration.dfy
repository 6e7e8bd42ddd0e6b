/** The configuration text: printed by the listener (mylsnr.cpp), parsed line by line through a
    reused buffer by the dispatcher (mydisp.cpp, ApplicationConfig.cpp). */
module Configuration {
  import opened DescriptorPassing

  type Text = seq<byte>

  const NUL: byte := 0
  const NEWLINE: byte := 10
  const LABEL: Text := [67, 79, 78, 70, 73, 71]                                  // CONFIG
  const EXIT: Text := [69, 88, 73, 84]                                           // EXIT
  const PPID: Text := [80, 80, 73, 68, 61]                                       // PPID=
  const CONFIGPID: Text := [67, 79, 78, 70, 73, 71, 80, 80, 73, 68, 61]          // CONFIGPPID=
  const CAFILE: Text := [67, 65, 70, 73, 76, 69, 61]                             // CAFILE=
  const CERTFILE: Text := [67, 69, 82, 84, 70, 73, 76, 69, 61]                   // CERTFILE=
  const KEYFILE: Text := [75, 69, 89, 70, 73, 76, 69, 61]                        // KEYFILE=

  const LINE_BUFFER: nat := 256
  const CONFIG_BUFFER: nat := 4096

  datatype Settings = Settings(ca: Text, cert: Text, key: Text)

  /** The C string that starts a piece of memory: everything before the first NUL. */
  function CString(s: Text): (r: Text)
    ensures r <= s && NUL !in r
    ensures |r| < |s| ==> s[|r|] == NUL
  {
    if s == [] || s[0] == NUL then [] else [s[0]] + CString(s[1..])
  }

  lemma {:induction false} CStringUnique(s: Text, r: Text)
    requires r < s && NUL !in r && s[|r|] == NUL
    ensures CString(s) == r
    decreases |s|
  {
    if r == [] {
    } else {
      assert s[0] == r[0];
      assert s[1..][..|r| - 1] == r[1..];
      CStringUnique(s[1..], r[1..]);
    }
  }

  lemma {:induction false} CStringOfClean(s: Text)
    requires NUL !in s
    ensures CString(s) == s
    decreases |s|
  {
    if s == [] {
    } else {
      assert s[0] in s;
      CStringOfClean(s[1..]);
    }
  }

  lemma {:induction false} CStringReaches(s: Text, k: nat)
    requires k <= |s| && NUL !in s[..k]
    ensures k <= |CString(s)|
    decreases k
  {
    if k == 0 {
    } else {
      assert s[0] == s[..k][0] && s[1..][..k - 1] == s[..k][1..];
      CStringReaches(s[1..], k - 1);
    }
  }

  /** One NAME=VALUE line, as a C string, read into the settings. */
  function ReadOption(st: Settings, line: Text): (r: Settings) {
    if CONFIGPID <= line then st
    else if CAFILE <= line then st.(ca := line[|CAFILE|..])
    else if CERTFILE <= line then st.(cert := line[|CERTFILE|..])
    else if KEYFILE <= line then st.(key := line[|KEYFILE|..])
    else st
  }

  /** The newline-terminated lines of a text; the unterminated tail is discarded. */
  function Lines(s: Text): (ls: seq<Text>)
    decreases |s|
  {
    if NEWLINE !in s then []
    else
      var i := FirstNewline(s);
      [s[..i]] + Lines(s[i + 1..])
  }

  function FirstNewline(s: Text): (i: nat)
    requires NEWLINE in s
    ensures i < |s| && s[i] == NEWLINE && NEWLINE !in s[..i]
  {
    if s[0] == NEWLINE then 0
    else
      assert s == [s[0]] + s[1..];
      var i := FirstNewline(s[1..]);
      assert s[..i + 1] == [s[0]] + s[1..][..i];
      i + 1
  }

  /** Split the text into lines and read them in order. */
  function Parse(st: Settings, lines: seq<Text>): (r: Settings)
    decreases |lines|
  {
    if lines == [] then st else Parse(ReadOption(st, CString(lines[0])), lines[1..])
  }

  lemma FirstLine(line: Text, rest: Text)
    requires NEWLINE !in line
    ensures Lines(line + [NEWLINE] + rest) == [line] + Lines(rest)
  {
    var s := line + [NEWLINE] + rest;
    assert s[|line|] == NEWLINE;
    var i := FirstNewline(s);
    assert forall j :: 0 <= j < |line| ==> s[j] == line[j] && line[j] in line;
    assert forall j :: 0 <= j < i ==> s[j] in s[..i];
    assert i == |line|;
    assert s[..i] == line && s[i + 1..] == rest;
  }

  /** Lines, each with its newline. */
  function Terminated(lines: seq<Text>): Text
    decreases |lines|
  {
    if lines == [] then [] else lines[0] + [NEWLINE] + Terminated(lines[1..])
  }

  lemma TerminatedCons(line: Text, lines: seq<Text>, tail: Text)
    ensures Terminated([line] + lines) + tail == line + [NEWLINE] + (Terminated(lines) + tail)
  {
    assert ([line] + lines)[1..] == lines;
  }

  lemma {:induction false} CutAtNewline(s: Text)
    requires NEWLINE in s
    ensures
      var i := FirstNewline(s);
      Lines(s) == [s[..i]] + Lines(s[i + 1..]) && s == s[..i] + [NEWLINE] + s[i + 1..] && NEWLINE !in s[..i]
  {
    hide FirstNewline;
    var i := FirstNewline(s);
    assert s == s[..i] + [s[i]] + s[i + 1..];
    LinesUnfold(s);
  }

  lemma {:induction false} LinesUnfold(s: Text)
    requires NEWLINE in s
    ensures Lines(s) == [s[..FirstNewline(s)]] + Lines(s[FirstNewline(s) + 1..])
  {
    hide FirstNewline;
  }

  ghost predicate NoNewlines(lines: seq<Text>) {
    forall i :: 0 <= i < |lines| ==> NEWLINE !in lines[i]
  }

  /** A text is its lines, each with its newline, and a tail without one; the tail is no line. */
  lemma {:induction false} LinesAndTail(s: Text) returns (tail: Text)
    ensures s == Terminated(Lines(s)) + tail && NEWLINE !in tail && NoNewlines(Lines(s))
    decreases |s|
  {
    hide Terminated, Lines;
    if NEWLINE !in s {
      tail := s;
      NoLinesAtAll(s);
    } else {
      var i := FirstNewline(s);
      CutAtNewline(s);
      tail := LinesAndTail(s[i + 1..]);
      TerminatedCons(s[..i], Lines(s[i + 1..]), tail);
    }
  }

  lemma NoLinesAtAll(s: Text)
    requires NEWLINE !in s
    ensures Lines(s) == [] && Terminated([]) + s == s
  {
  }

  /** And the other way round. */
  lemma {:induction false} LinesOfTerminated(lines: seq<Text>, tail: Text)
    requires NEWLINE !in tail && NoNewlines(lines)
    ensures Lines(Terminated(lines) + tail) == lines
    decreases |lines|
  {
    if lines == [] {
      assert [] + tail == tail;
    } else {
      LinesOfTerminated(lines[1..], tail);
      FirstLine(lines[0], Terminated(lines[1..]) + tail);
      assert Terminated(lines) + tail == lines[0] + [NEWLINE] + (Terminated(lines[1..]) + tail);
      assert [lines[0]] + lines[1..] == lines;
    }
  }

  /** Reading a text is reading its first line and then the rest. */
  lemma ParseFirstLine(st: Settings, line: Text, rest: Text)
    requires NEWLINE !in line
    ensures Parse(st, Lines(line + [NEWLINE] + rest)) == Parse(ReadOption(st, CString(line)), Lines(rest))
    ensures LinesFit(Lines(line + [NEWLINE] + rest)) <==> |line| < LINE_BUFFER && LinesFit(Lines(rest))
  {
    FirstLine(line, rest);
    var ls := [line] + Lines(rest);
    assert ls[0] == line && ls[1..] == Lines(rest);
    assert forall i :: 0 <= i < |Lines(rest)| ==> ls[i + 1] == Lines(rest)[i];
  }

  lemma ParseLineAt(st: Settings, s: Text, start: nat, end: nat)
    requires start <= end < |s| && s[end] == NEWLINE
    requires forall k :: start <= k < end ==> s[k] != NEWLINE
    ensures Parse(st, Lines(s[start..])) == Parse(ReadOption(st, CString(s[start..end])), Lines(s[end + 1..]))
    ensures LinesFit(Lines(s[start..])) <==> end - start < LINE_BUFFER && LinesFit(Lines(s[end + 1..]))
  {
    assert s[start..] == s[start..end] + [NEWLINE] + s[end + 1..];
    ParseFirstLine(st, s[start..end], s[end + 1..]);
  }

  /** The program's own walk over the text, with its two pointers. */
  function Walk(st: Settings, s: Text, start: nat, end: nat): Settings
    requires start <= end <= |s|
    decreases |s| - end
  {
    if end == |s| then st
    else if s[end] != NEWLINE then Walk(st, s, start, end + 1)
    else Walk(ReadOption(st, CString(s[start..end])), s, end + 1, end + 1)
  }

  /** On that walk no line overruns the line buffer. */
  predicate WalkFits(s: Text, start: nat, end: nat)
    requires start <= end <= |s|
    decreases |s| - end
  {
    if end == |s| then true
    else if s[end] != NEWLINE then WalkFits(s, start, end + 1)
    else end - start < LINE_BUFFER && WalkFits(s, end + 1, end + 1)
  }

  lemma NoLines(st: Settings, s: Text)
    requires NEWLINE !in s
    ensures Parse(st, Lines(s)) == st && LinesFit(Lines(s))
  {
  }

  lemma {:induction false} WalkIsParse(st: Settings, s: Text, start: nat, end: nat)
    requires start <= end <= |s|
    requires forall k :: start <= k < end ==> s[k] != NEWLINE
    ensures Walk(st, s, start, end) == Parse(st, Lines(s[start..]))
    ensures WalkFits(s, start, end) <==> LinesFit(Lines(s[start..]))
    decreases |s| - end
  {
    hide Lines, Parse, LinesFit, ReadOption, CString;
    if end == |s| {
      NoLines(st, s[start..]);
    } else if s[end] != NEWLINE {
      WalkIsParse(st, s, start, end + 1);
    } else {
      ParseLineAt(st, s, start, end);
      WalkIsParse(ReadOption(st, CString(s[start..end])), s, end + 1, end + 1);
    }
  }

  class ApplicationConfig {
    var caFile: Text
    var certFile: Text
    var keyFile: Text

    function Current(): Settings
      reads this
    {
      Settings(caFile, certFile, keyFile)
    }

    constructor ()
      ensures Current() == Settings([], [], [])
    {
      caFile, certFile, keyFile := [], [], [];
    }

    /** retrieveConfigOption on a NUL-terminated line in memory. The comparisons may run past the
        terminator into stale bytes; the result depends on the C string alone. */
    method RetrieveConfigOption(configLine: array<byte>)
      requires configLine.Length >= |CONFIGPID| && NUL in configLine[..]
      modifies this
      ensures Current() == ReadOption(old(Current()), CString(configLine[..]))
    {
      ghost var memory := configLine[..];
      PrefixSeesOnlyCString(memory, CONFIGPID);
      PrefixSeesOnlyCString(memory, CAFILE);
      PrefixSeesOnlyCString(memory, CERTFILE);
      PrefixSeesOnlyCString(memory, KEYFILE);
      if configLine[..|CONFIGPID|] == CONFIGPID {
      } else if configLine[..|CAFILE|] == CAFILE {
        caFile := CString(configLine[|CAFILE|..]);
      } else if configLine[..|CERTFILE|] == CERTFILE {
        certFile := CString(configLine[|CERTFILE|..]);
      } else if configLine[..|KEYFILE|] == KEYFILE {
        keyFile := CString(configLine[|KEYFILE|..]);
      }
    }
  }

  /** A keyword without NUL matches the memory exactly when it matches the C string in it, and
      the C string after the keyword is the rest of that C string. */
  lemma PrefixSeesOnlyCString(memory: Text, keyword: Text)
    requires NUL in memory && NUL !in keyword && |keyword| <= |memory|
    ensures memory[..|keyword|] == keyword <==> keyword <= CString(memory)
    ensures memory[..|keyword|] == keyword ==> CString(memory[|keyword|..]) == CString(memory)[|keyword|..]
  {
    var c, k := CString(memory), |keyword|;
    if memory[..k] == keyword {
      CStringReaches(memory, k);
      assert c[..k] == keyword;
      CStringAfter(memory, k);
    }
    assert keyword <= c ==> c[..k] == memory[..k];
  }

  lemma CStringAfter(memory: Text, k: nat)
    requires NUL in memory && k <= |CString(memory)|
    ensures CString(memory[k..]) == CString(memory)[k..]
  {
    var c := CString(memory);
    assert c != memory;
    var rest := c[k..];
    assert memory[k..][..|rest|] == rest;
    CStringUnique(memory[k..], rest);
  }

  predicate LinesFit(lines: seq<Text>) {
    forall i :: 0 <= i < |lines| ==> |lines[i]| < LINE_BUFFER
  }

  /** processConfig. `lineBuffer` holds arbitrary bytes on entry and is reused from line to line;
      `contextError` is whether the SSL context creation that follows fails. */
  method ProcessConfig(appCfg: ApplicationConfig, config: array<byte>, size: nat, lineBuffer: array<byte>,
      contextError: bool)
    returns (ok: bool)
    requires size <= config.Length && lineBuffer.Length == LINE_BUFFER && config != lineBuffer
    requires LinesFit(Lines(config[..size]))
    modifies appCfg, lineBuffer
    ensures appCfg.Current() == Parse(old(appCfg.Current()), Lines(config[..size]))
    ensures ok <==> !contextError
  {
    hide Parse, Lines, LinesFit, ReadOption, CString;
    var start, end := 0, 0;
    ghost var input := config[..size];
    assert input[0..] == input;
    WalkIsParse(appCfg.Current(), input, 0, 0);
    while end < size
      invariant 0 <= start <= end <= size && config[..size] == input
      invariant WalkFits(input, start, end)
      invariant Walk(appCfg.Current(), input, start, end) == Walk(old(appCfg.Current()), input, 0, 0)
      decreases size - end
    {
      if config[end] != NEWLINE {
        end := end + 1;
        continue;
      }
      SliceAgrees(config, size, start, end);
      ReadLine(appCfg, config, start, end, lineBuffer);
      end := end + 1;
      start := end;
    }
    ok := !contextError;
  }

  lemma SliceAgrees(config: array<byte>, size: nat, start: nat, end: nat)
    requires start <= end <= size <= config.Length
    ensures config[start..end] == config[..size][start..end]
  {
  }

  method ReadLine(appCfg: ApplicationConfig, config: array<byte>, start: nat, end: nat, lineBuffer: array<byte>)
    requires start <= end <= config.Length && end - start < lineBuffer.Length == LINE_BUFFER && config != lineBuffer
    modifies appCfg, lineBuffer
    ensures appCfg.Current() == ReadOption(old(appCfg.Current()), CString(config[start..end]))
  {
    CopyLine(config, start, end, lineBuffer);
    appCfg.RetrieveConfigOption(lineBuffer);
  }

  /** memcpy into the line buffer and terminate: the C string there is the line's, whatever stood behind it. */
  method CopyLine(config: array<byte>, start: nat, end: nat, lineBuffer: array<byte>)
    requires start <= end <= config.Length && end - start < lineBuffer.Length && config != lineBuffer
    modifies lineBuffer
    ensures NUL in lineBuffer[..]
    ensures CString(lineBuffer[..]) == CString(config[start..end])
  {
    var n := end - start;
    forall i | 0 <= i < n {
      lineBuffer[i] := config[start + i];
    }
    lineBuffer[n] := NUL;
    ghost var line := config[start..end];
    ghost var c := CString(line);
    assert lineBuffer[..n] == line;
    assert lineBuffer[..][|c|] == NUL;
    assert c <= line && lineBuffer[..][..|c|] == c;
    CStringUnique(lineBuffer[..], c);
  }

  // ----- the last setting of an option wins

  predicate SetsCa(line: Text) {
    CAFILE <= CString(line)
  }

  predicate SetsCert(line: Text) {
    CERTFILE <= CString(line)
  }

  predicate SetsKey(line: Text) {
    KEYFILE <= CString(line)
  }

  /** The position of the last line with a property, or the number of lines when there is none. */
  ghost function LastIndex(lines: seq<Text>, p: Text -> bool): (i: nat)
    ensures i <= |lines|
    ensures i < |lines| ==> p(lines[i])
    ensures forall j :: 0 <= j < |lines| && p(lines[j]) ==> i < |lines| && j <= i
    decreases |lines|
  {
    if lines == [] then 0
    else
      var n := |lines| - 1;
      if p(lines[n]) then n
      else
        var i := LastIndex(lines[..n], p);
        assert forall j :: 0 <= j < n ==> lines[..n][j] == lines[j];
        if i == n then n + 1 else i
  }

  /** The value a line gives after a keyword. */
  function Value(line: Text, keyword: Text): Text
    requires keyword <= CString(line)
  {
    CString(line)[|keyword|..]
  }

  ghost function LastValue(before: Text, lines: seq<Text>, p: Text -> bool, keyword: Text): Text
    requires forall line :: p(line) ==> keyword <= CString(line)
  {
    var i := LastIndex(lines, p);
    if i < |lines| then Value(lines[i], keyword) else before
  }

  lemma LastValueStep(before: Text, lines: seq<Text>, p: Text -> bool, keyword: Text)
    requires forall line :: p(line) ==> keyword <= CString(line)
    requires lines != []
    ensures
      var n := |lines| - 1;
      LastValue(before, lines, p, keyword) ==
        if p(lines[n]) then Value(lines[n], keyword) else LastValue(before, lines[..n], p, keyword)
  {
  }

  /** The four keywords exclude one another, so a line sets at most one option. */
  lemma OptionSet(st: Settings, line: Text)
    ensures
      var c := CString(line);
      ReadOption(st, c) == Settings(
        if SetsCa(line) then c[|CAFILE|..] else st.ca,
        if SetsCert(line) then c[|CERTFILE|..] else st.cert,
        if SetsKey(line) then c[|KEYFILE|..] else st.key)
  {
    var c := CString(line);
    if CONFIGPID <= c {
      assert c[0] == 67 && c[1] == 79;
    } else if CAFILE <= c {
      assert c[0] == 67 && c[1] == 65;
    } else if CERTFILE <= c {
      assert c[0] == 67;
    }
  }

  /** Reading any lines into any settings leaves, for each option, the value of the last line that sets it. */
  lemma {:induction false} LastSettingWins(st: Settings, lines: seq<Text>)
    ensures Parse(st, lines) == Settings(
      LastValue(st.ca, lines, SetsCa, CAFILE),
      LastValue(st.cert, lines, SetsCert, CERTFILE),
      LastValue(st.key, lines, SetsKey, KEYFILE))
    decreases |lines|
  {
    if lines == [] {
    } else {
      var n := |lines| - 1;
      ParseLast(st, lines);
      LastSettingWins(st, lines[..n]);
      OptionSet(Parse(st, lines[..n]), lines[n]);
      LastValueStep(st.ca, lines, SetsCa, CAFILE);
      LastValueStep(st.cert, lines, SetsCert, CERTFILE);
      LastValueStep(st.key, lines, SetsKey, KEYFILE);
    }
  }

  lemma {:induction false} ParseLast(st: Settings, lines: seq<Text>)
    requires lines != []
    ensures Parse(st, lines) == ReadOption(Parse(st, lines[..|lines| - 1]), CString(lines[|lines| - 1]))
    decreases |lines|
  {
    var n := |lines| - 1;
    if n == 0 {
    } else {
      ParseLast(ReadOption(st, CString(lines[0])), lines[1..]);
      assert lines[..n][1..] == lines[1..][..n - 1];
    }
  }

  // ----- the listener's print and the round trip

  function Decimal(n: nat): (d: Text)
    ensures NEWLINE !in d && NUL !in d && |d| >= 1
    ensures forall k: nat :: k >= 1 && n < Pow10(k) ==> |d| <= k
    ensures Denotes(d) == n
  {
    if n < 10 then
      assert Denotes([48 + n]) == n by {
        assert [48 + n][..0] == [];
      }
      [48 + n]
    else
      assert (Decimal(n / 10) + [48 + n % 10])[..|Decimal(n / 10)|] == Decimal(n / 10);
      assert forall k: nat :: k >= 1 && n < Pow10(k) ==> k >= 2 && n / 10 < Pow10(k - 1);
      Decimal(n / 10) + [48 + n % 10]
  }

  /** The number a sequence of decimal digits stands for. */
  function Denotes(d: Text): int {
    if d == [] then 0 else 10 * Denotes(d[..|d| - 1]) + d[|d| - 1] - 48
  }

  function Pow10(k: nat): nat {
    if k == 0 then 1 else 10 * Pow10(k - 1)
  }

  /** The body the listener prints; %s stops at a NUL. */
  function PrintConfig(pid: nat, names: Settings): Text {
    PPID + Decimal(pid) + [NEWLINE]
    + CaLines(names)
  }

  ghost predicate Clean(s: Text) {
    NEWLINE !in s && NUL !in s
  }

  ghost predicate AllClean(st: Settings) {
    Clean(st.ca) && Clean(st.cert) && Clean(st.key)
  }

  function KeyLine(names: Settings): Text {
    KEYFILE + CString(names.key) + [NEWLINE]
  }

  function CertLines(names: Settings): Text {
    CERTFILE + CString(names.cert) + [NEWLINE] + KeyLine(names)
  }

  function CaLines(names: Settings): Text {
    CAFILE + CString(names.ca) + [NEWLINE] + CertLines(names)
  }

  /** The label runs into the first line of the body. */
  lemma LabelJoinsBody(pid: nat, names: Settings)
    ensures LABEL + PrintConfig(pid, names) == (CONFIGPID + Decimal(pid)) + [NEWLINE] + CaLines(names)
  {
    assert LABEL + PPID == CONFIGPID;
    assert LABEL + (PPID + Decimal(pid) + [NEWLINE] + CaLines(names)) ==
      LABEL + PPID + Decimal(pid) + [NEWLINE] + CaLines(names);
  }

  lemma CleanKeywords()
    ensures Clean(CONFIGPID) && Clean(CAFILE) && Clean(CERTFILE) && Clean(KEYFILE)
  {
  }

  lemma CleanSum(a: Text, b: Text)
    requires Clean(a) && Clean(b)
    ensures Clean(a + b) && CString(a + b) == a + b
  {
    CStringOfClean(a + b);
  }

  lemma LastTwoLines(c: Text, d: Text)
    requires NEWLINE !in c && NEWLINE !in d
    ensures Lines(c + [NEWLINE] + (d + [NEWLINE])) == [c] + [d]
  {
    OnlyLine(d);
    FirstLine(c, d + [NEWLINE]);
  }

  lemma OnlyLine(d: Text)
    requires NEWLINE !in d
    ensures Lines(d + [NEWLINE]) == [d]
  {
    assert d + [NEWLINE] + [] == d + [NEWLINE];
    FirstLine(d, []);
  }

  lemma TwoLines(a: Text, b: Text, rest: Text)
    requires NEWLINE !in a && NEWLINE !in b
    ensures Lines(a + [NEWLINE] + (b + [NEWLINE] + rest)) == [a] + ([b] + Lines(rest))
  {
    FirstLine(b, rest);
    FirstLine(a, b + [NEWLINE] + rest);
  }

  lemma FourLines(a: Text, b: Text, c: Text, d: Text)
    requires NEWLINE !in a && NEWLINE !in b && NEWLINE !in c && NEWLINE !in d
    ensures Lines(a + [NEWLINE] + (b + [NEWLINE] + (c + [NEWLINE] + (d + [NEWLINE])))) == [a, b, c, d]
  {
    hide Lines;
    var tail := c + [NEWLINE] + (d + [NEWLINE]);
    LastTwoLines(c, d);
    TwoLines(a, b, tail);
    assert Lines(tail) == [c, d];
    assert [a] + ([b] + [c, d]) == [a, b, c, d];
  }

  /** The four lines of the label and body together. */
  lemma PrintedLines(pid: nat, names: Settings)
    requires AllClean(names)
    ensures Lines(LABEL + PrintConfig(pid, names))
         == [CONFIGPID + Decimal(pid), CAFILE + names.ca, CERTFILE + names.cert, KEYFILE + names.key]
  {
    CleanKeywords();
    CStringOfClean(names.ca);
    CStringOfClean(names.cert);
    CStringOfClean(names.key);
    CleanSum(CONFIGPID, Decimal(pid));
    CleanSum(CAFILE, names.ca);
    CleanSum(CERTFILE, names.cert);
    CleanSum(KEYFILE, names.key);
    LabelJoinsBody(pid, names);
    FourLines(CONFIGPID + Decimal(pid), CAFILE + names.ca, CERTFILE + names.cert, KEYFILE + names.key);
  }

  /** Parsing what the listener prints yields exactly its three names if and only if no name
      holds a newline or a NUL, from any settings that hold none (a fresh dispatcher's are empty). */
  lemma ConfigRoundTrip(st: Settings, pid: nat, names: Settings)
    requires AllClean(st)
    ensures Parse(st, Lines(LABEL + PrintConfig(pid, names))) == names <==> AllClean(names)
  {
    ParsedIsClean(st, LABEL + PrintConfig(pid, names));
    if AllClean(names) {
      CleanRoundTrip(st, pid, names);
    }
  }

  lemma ReadsKeyword(st: Settings, v: Text)
    ensures ReadOption(st, CONFIGPID + v) == st
    ensures ReadOption(st, CAFILE + v) == st.(ca := v)
    ensures ReadOption(st, CERTFILE + v) == st.(cert := v)
    ensures ReadOption(st, KEYFILE + v) == st.(key := v)
  {
    assert (CAFILE + v)[1] == 65 && (CERTFILE + v)[1] == 69 && (KEYFILE + v)[0] == 75;
    assert (CAFILE + v)[|CAFILE|..] == v && (CERTFILE + v)[|CERTFILE|..] == v && (KEYFILE + v)[|KEYFILE|..] == v;
  }

  /** The forward half needs nothing of the settings before. */
  lemma CleanRoundTrip(st: Settings, pid: nat, names: Settings)
    requires AllClean(names)
    ensures Parse(st, Lines(LABEL + PrintConfig(pid, names))) == names
  {
    CleanKeywords();
    CleanSum(CONFIGPID, Decimal(pid));
    CleanSum(CAFILE, names.ca);
    CleanSum(CERTFILE, names.cert);
    CleanSum(KEYFILE, names.key);
    PrintedLines(pid, names);
    ReadsKeyword(st, Decimal(pid));
    ReadsKeyword(st, names.ca);
    ReadsKeyword(st.(ca := names.ca), names.cert);
    ReadsKeyword(st.(ca := names.ca, cert := names.cert), names.key);
    ParseFour(st, CONFIGPID + Decimal(pid), CAFILE + names.ca, CERTFILE + names.cert, KEYFILE + names.key);
  }

  lemma ParseFour(st: Settings, a: Text, b: Text, c: Text, d: Text)
    ensures Parse(st, [a, b, c, d]) ==
      ReadOption(ReadOption(ReadOption(ReadOption(st, CString(a)), CString(b)), CString(c)), CString(d))
  {
    ParseCons(st, a, [b, c, d]);
    ParseCons(ReadOption(st, CString(a)), b, [c, d]);
    var st2 := ReadOption(ReadOption(st, CString(a)), CString(b));
    ParseCons(st2, c, [d]);
    ParseCons(ReadOption(st2, CString(c)), d, []);
    assert [a] + [b, c, d] == [a, b, c, d] && [b] + [c, d] == [b, c, d] && [c] + [d] == [c, d] && [d] + [] == [d];
  }

  lemma ParseCons(st: Settings, line: Text, rest: seq<Text>)
    ensures Parse(st, [line] + rest) == Parse(ReadOption(st, CString(line)), rest)
  {
    assert ([line] + rest)[1..] == rest;
  }

  lemma OptionIsClean(st: Settings, line: Text)
    requires AllClean(st) && NEWLINE !in line
    ensures AllClean(ReadOption(st, CString(line)))
  {
    var c := CString(line);
    assert forall x :: x in c ==> x in line;
    assert forall i :: 0 <= i <= |c| ==> Clean(c[i..]);
  }

  lemma {:induction false} ParsedIsClean(st: Settings, s: Text)
    requires AllClean(st)
    ensures AllClean(Parse(st, Lines(s)))
    decreases |s|
  {
    if NEWLINE in s {
      var i := FirstNewline(s);
      OptionIsClean(st, s[..i]);
      ParsedIsClean(ReadOption(st, CString(s[..i])), s[i + 1..]);
      assert s == s[..i] + [NEWLINE] + s[i + 1..];
      ParseFirstLine(st, s[..i], s[i + 1..]);
    }
  }

  /** Option lines that fit the line buffer: the printed text then fits it line by line, and
      neither the 4096-byte print nor the 4096-byte read, label included, truncates it. */
  lemma PrintFits(pid: nat, names: Settings)
    requires AllClean(names) && pid <= INT_MAX
    requires |CAFILE + names.ca| < LINE_BUFFER && |CERTFILE + names.cert| < LINE_BUFFER
    requires |KEYFILE + names.key| < LINE_BUFFER
    ensures LinesFit(Lines(LABEL + PrintConfig(pid, names)))
    ensures |PrintConfig(pid, names)| < CONFIG_BUFFER
    ensures |LABEL + PrintConfig(pid, names)| <= CONFIG_BUFFER
  {
    hide Lines, CString;
    PrintedLines(pid, names);
    assert Pow10(10) == 10_000_000_000 by {
      assert Pow10(5) == 100_000;
    }
    CStringOfClean(names.ca);
    CStringOfClean(names.cert);
    CStringOfClean(names.key);
  }
}
