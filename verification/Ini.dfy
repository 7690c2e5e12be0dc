/** The configuration file: lines of at most 511 characters, sections, keys, comments. */
module Ini {
  import opened Text
  import opened Config

  const NUL: char := '\0'
  const COMMENT: set<char> := {'#', ';'}
  const MAX_LINE: nat := 512
  const SECTION_SIZE: nat := 32

  datatype Statement = Nothing | Section(name: string) | Entry(key: string, value: string)

  /** What one line, a C string, says. */
  function ParseLine(line: string): Statement {
    var t := TrimLeft(line);
    if t == "" || t[0] in COMMENT then Nothing else ParseBody(Strip(t[..Find(t, COMMENT)]))
  }

  function ParseBody(u: string): Statement {
    if u == "" then Nothing
    else if u[0] == '[' then
      var n := Find(u, {']'});
      if n == |u| then Nothing else Section(Copied(u[1..n], SECTION_SIZE))
    else
      var n := Find(u, {'='});
      if n == |u| then Nothing else ParseEntry(u[..n], u[n + 1..])
  }

  function ParseEntry(key: string, value: string): Statement {
    if Strip(key) == "" then Nothing else Entry(Strip(key), Strip(value))
  }

  datatype State = State(section: string, cfg: AppCfg)

  function Obey(st: State, stmt: Statement): State {
    match stmt
    case Nothing => st
    case Section(name) => st.(section := name)
    case Entry(key, value) => st.(cfg := HandleKey(st.section, key, value, st.cfg))
  }

  /** How much fgets reads: up to and including the newline, but never more than fits its buffer. */
  function LineLength(text: string): (n: nat)
    requires text != ""
    ensures 0 < n <= |text| && n < MAX_LINE
  {
    var n := Find(text, {'\n'});
    var all := if n < |text| then n + 1 else n;
    if all < MAX_LINE then all else MAX_LINE - 1
  }

  /** A buffer as the C string functions see it. */
  function CString(s: string): string { s[..Find(s, {NUL})] }

  function LoadText(st: State, text: string): State
    decreases |text|
  {
    if text == "" then st else
      var n := LineLength(text);
      LoadText(Obey(st, ParseLine(CString(text[..n]))), text[n..])
  }

  /** cfg_load_file, on a file that can be opened. */
  function Load(cfg: AppCfg, text: string): AppCfg { LoadText(State("", cfg), text).cfg }

  // ---------- ways of writing a statement ----------

  /** One line of a file: what it says, with any padding and any remark. */
  datatype Layout =
    | Blank(pad: string, remark: string)
    | Header(pad: string, name: string, rest: string)
    | Setting(pad: string, key: string, before: string, after: string, value: string, trail: string, remark: string)

  function Body(l: Layout): string {
    match l
    case Blank(pad, remark) => pad + remark
    case Header(pad, name, rest) => pad + ("[" + name + "]" + rest)
    case Setting(pad, key, before, after, value, trail, remark) =>
      pad + ((key + before + "=") + (after + value + trail) + remark)
  }

  function Written(l: Layout): string { Body(l) + "\n" }

  function WrittenAll(ls: seq<Layout>): string {
    if ls == [] then "" else Written(ls[0]) + WrittenAll(ls[1..])
  }

  function Meaning(l: Layout): Statement {
    match l
    case Blank(_, _) => Nothing
    case Header(_, name, _) => Section(name)
    case Setting(_, key, _, _, value, _, _) => Entry(key, value)
  }

  predicate IsRemark(s: string) { s == "" || s[0] == '#' || s[0] == ';' }

  predicate IsKey(s: string) { s != "" && Tight(s) && s[0] != '[' && Free(s, {'#', ';', '='}) }

  predicate IsValue(s: string) { Tight(s) && Free(s, {'#', ';'}) }

  /** The line fits fgets's buffer, holds one newline and no NUL, and its parts are what their names say. */
  predicate Proper(l: Layout) {
    && |Written(l)| < 512
    && Free(Body(l), {'\n', '\0'})
    && match l
       case Blank(pad, remark) => AllSpace(pad) && IsRemark(remark)
       case Header(pad, name, _) => AllSpace(pad) && Free(name, {'#', ';', ']'}) && |name| < 32
       case Setting(pad, key, before, after, value, trail, remark) =>
         && AllSpace(pad) && AllSpace(before) && AllSpace(after) && AllSpace(trail)
         && IsKey(key) && IsValue(value) && IsRemark(remark)
  }

  lemma FreeConcat(a: string, b: string, cs: set<char>)
    ensures Free(a + b, cs) <==> Free(a, cs) && Free(b, cs)
  {
    assert Free(a + b, cs) ==> (forall i :: 0 <= i < |a| ==> a[i] == (a + b)[i]);
    assert forall i :: 0 <= i < |b| ==> b[i] == (a + b)[|a| + i];
  }

  lemma FindAfter(a: string, b: string, cs: set<char>)
    requires Free(a, cs) && b != "" && b[0] in cs
    ensures Find(a + b, cs) == |a|
  {
    assert (a + b)[..|a|] == a;
    FindIs(a + b, cs, |a|);
  }

  lemma {:induction false} FindBeyond(a: string, b: string, cs: set<char>)
    requires Free(a, cs)
    ensures Find(a + b, cs) >= |a|
  {
    if a != "" {
      assert (a + b)[1..] == a[1..] + b;
      FindBeyond(a[1..], b, cs);
    }
  }

  lemma {:induction false} TrimRightAppend(a: string, b: string)
    requires a != "" && !IsSpace(a[|a| - 1])
    ensures TrimRight(a + b) == a + TrimRight(b)
    decreases |b|
  {
    if b == "" {
      assert a + b == a;
    } else if IsSpace(b[|b| - 1]) {
      assert (a + b)[..|a + b| - 1] == a + b[..|b| - 1];
      TrimRightAppend(a, b[..|b| - 1]);
    }
  }

  lemma StripFrom(a: string, b: string)
    requires a != "" && !IsSpace(a[0]) && !IsSpace(a[|a| - 1])
    ensures Strip(a + b) == a + TrimRight(b)
  {
    TrimRightAppend(a, b);
  }

  lemma ParseBlank(l: Layout)
    requires l.Blank? && Proper(l)
    ensures ParseLine(Written(l)) == Nothing
  {
    if l.remark == "" {
      assert Written(l) == (l.pad + "\n") + "";
      TrimLeftIs(l.pad + "\n", "");
    } else {
      assert Written(l) == l.pad + (l.remark + "\n");
      TrimLeftIs(l.pad, l.remark + "\n");
    }
  }

  lemma ParseSectionName(name: string, tail: string)
    requires Free(name, {']'}) && |name| < SECTION_SIZE
    ensures ParseBody(("[" + name + "]") + tail) == Section(name)
  {
    var u := ("[" + name) + ("]" + tail);
    assert ("[" + name + "]") + tail == u;
    FreeConcat("[", name, {']'});
    FindAfter("[" + name, "]" + tail, {']'});
    assert u[1..|name| + 1] == name;
  }

  /** What is left of a header once the comment is cut off: the brackets, and something after them. */
  lemma HeaderUncommented(open: string, rest: string) returns (tail: string)
    requires open != "" && Free(open, COMMENT)
    ensures var t := open + rest; t[..Find(t, COMMENT)] == open + tail
  {
    FindBeyond(open, rest, COMMENT);
    var t := open + rest;
    tail := t[|open|..Find(t, COMMENT)];
  }

  lemma BracketsAreFree(name: string)
    requires Free(name, COMMENT)
    ensures Free("[" + name + "]", COMMENT)
  {
    FreeConcat("[", name, COMMENT);
    FreeConcat("[" + name, "]", COMMENT);
  }

  lemma ParseHeader(l: Layout)
    requires l.Header? && Proper(l)
    ensures ParseLine(Written(l)) == Section(l.name)
  {
    var open, rest := "[" + l.name + "]", l.rest + "\n";
    var t := open + rest;
    assert Written(l) == l.pad + t;
    TrimLeftIs(l.pad, t);
    BracketsAreFree(l.name);
    var tail := HeaderUncommented(open, rest);
    StripFrom(open, tail);
    ParseSectionName(l.name, TrimRight(tail));
  }

  lemma TrimmedValue(after: string, value: string, trail: string)
    requires AllSpace(after) && AllSpace(trail) && Tight(value)
    ensures Strip(TrimRight(after + value + trail)) == value
  {
    if value == "" {
      assert after + value + trail == "" + (after + trail);
      TrimRightIs("", after + trail);
    } else {
      assert after + value + trail == (after + value) + trail;
      assert (after + value)[|after + value| - 1] == value[|value| - 1];
      TrimRightIs(after + value, trail);
      assert after + value == after + value + "";
      StripIs(after, value, "");
    }
  }

  lemma ParseNamed(name: string, tail: string)
    requires name != "" && name[0] != '[' && Free(name, {'='})
    ensures ParseBody(name + ("=" + tail)) == ParseEntry(name, tail)
  {
    var u := name + ("=" + tail);
    FindAfter(name, "=" + tail, {'='});
    assert u[..|name|] == name && u[|name| + 1..] == tail;
  }

  lemma StripAfterEquals(name: string, right: string)
    requires name != "" && !IsSpace(name[0])
    ensures Strip((name + "=") + right) == name + ("=" + TrimRight(right))
  {
    var left := name + "=";
    assert left[0] == name[0] && left[|left| - 1] == '=';
    StripFrom(left, right);
    assert left + TrimRight(right) == name + ("=" + TrimRight(right));
  }

  lemma PaddedKey(key: string, before: string)
    requires IsKey(key) && AllSpace(before)
    ensures Free(key + before, {'='}) && Strip(key + before) == key
  {
    FreeConcat(key, before, {'='});
    assert "" + key + before == key + before;
    StripIs("", key, before);
  }

  lemma ParseSettingBody(key: string, before: string, after: string, value: string, trail: string)
    requires IsKey(key) && AllSpace(before) && AllSpace(after) && AllSpace(trail) && IsValue(value)
    ensures ParseBody(Strip((key + before + "=") + (after + value + trail))) == Entry(key, value)
  {
    var name, right := key + before, after + value + trail;
    assert name[0] == key[0];
    PaddedKey(key, before);
    TrimmedValue(after, value, trail);
    StripAfterEquals(name, right);
    ParseNamed(name, TrimRight(right));
  }

  lemma ParseSetting(l: Layout)
    requires l.Setting? && Proper(l)
    ensures ParseLine(Written(l)) == Entry(l.key, l.value)
  {
    var left, right := l.key + l.before + "=", l.after + l.value + l.trail;
    var t := left + right + l.remark + "\n";
    assert Written(l) == l.pad + t;
    assert t[0] == l.key[0];
    TrimLeftIs(l.pad, t);
    assert t[0] !in COMMENT;
    FreeConcat(l.key, l.before, COMMENT);
    FreeConcat(l.key + l.before, "=", COMMENT);
    FreeConcat(l.after, l.value, COMMENT);
    FreeConcat(l.after + l.value, l.trail, COMMENT);
    FreeConcat(left, right, COMMENT);
    if l.remark == "" {
      var trail := l.trail + "\n";
      assert t == left + (l.after + l.value + trail);
      FreeConcat(left + right, "\n", COMMENT);
      assert t == left + right + "\n";
      FindIs(t, COMMENT, |t|);
      assert t[..|t|] == t;
      ParseSettingBody(l.key, l.before, l.after, l.value, trail);
    } else {
      assert t == (left + right) + (l.remark + "\n");
      FindAfter(left + right, l.remark + "\n", COMMENT);
      assert t[..|left + right|] == left + right;
      ParseSettingBody(l.key, l.before, l.after, l.value, l.trail);
    }
  }

  lemma ParseWritten(l: Layout)
    requires Proper(l)
    ensures ParseLine(Written(l)) == Meaning(l)
  {
    match l
    case Blank(_, _) => ParseBlank(l);
    case Header(_, _, _) => ParseHeader(l);
    case Setting(_, _, _, _, _, _, _) => ParseSetting(l);
  }

  // ---------- lines that say nothing, and lines too long ----------

  /** A header whose bracket is not closed, a line without an equals sign, and an entry without a key are passed
      over. */
  lemma BrokenLinesSayNothing(line: string)
    requires Tight(line) && Free(line, {'#', ';'})
    ensures line != "" && line[0] == '[' && Free(line, {']'}) ==> ParseLine(line) == Nothing
    ensures line != "" && line[0] != '[' && Free(line, {'='}) ==> ParseLine(line) == Nothing
    ensures line != "" && line[0] == '=' ==> ParseLine(line) == Nothing
  {
    TrimLeftIs("", line);
    assert "" + line == line;
    assert line[..|line|] == line;
    FindIs(line, COMMENT, |line|);
    TightIsStripped(line);
    if line != "" {
      if Free(line, {']'}) {
        FindIs(line, {']'}, |line|);
      }
      if Free(line, {'='}) {
        FindIs(line, {'='}, |line|);
      }
      if line[0] == '=' {
        assert line[..0] == "";
        FindIs(line, {'='}, 0);
      }
    }
  }

  lemma TightIsStripped(s: string)
    requires Tight(s)
    ensures Strip(s) == s
  {
    StripIs("", s, "");
    assert "" + s + "" == s;
  }

  /** A line longer than the buffer is read in pieces of 511 characters. */
  lemma LongLinesAreCut(text: string)
    requires |text| >= 511 && Free(text[..511], {'\n'})
    ensures LineLength(text) == 511
  {
    FindBeyond(text[..511], text[511..], {'\n'});
    assert text == text[..511] + text[511..];
  }

  // ---------- whole files ----------

  function Follow(st: State, ls: seq<Layout>): State
    decreases |ls|
  {
    if ls == [] then st else Follow(Obey(st, Meaning(ls[0])), ls[1..])
  }

  lemma FirstLine(l: Layout, rest: string)
    requires Proper(l)
    ensures var text := Written(l) + rest;
            LineLength(text) == |Written(l)| && CString(text[..|Written(l)|]) == Written(l)
  {
    var text := Written(l) + rest;
    FreeConcat(Body(l), "\n", {NUL});
    assert Free(Body(l), {'\n'}) && Free(Body(l), {NUL});
    assert text == Body(l) + ("\n" + rest);
    FindAfter(Body(l), "\n" + rest, {'\n'});
    assert text[..|Written(l)|] == Written(l);
    assert Written(l)[..|Written(l)|] == Written(l);
    FindIs(Written(l), {NUL}, |Written(l)|);
  }

  /** Loading a file obeys the statements its lines are layouts of, in order. */
  lemma {:induction false} LoadFollowsLayouts(st: State, ls: seq<Layout>)
    requires forall l <- ls :: Proper(l)
    ensures LoadText(st, WrittenAll(ls)) == Follow(st, ls)
    decreases |ls|
  {
    if ls != [] {
      var rest := WrittenAll(ls[1..]);
      FirstLine(ls[0], rest);
      ParseWritten(ls[0]);
      assert WrittenAll(ls)[|Written(ls[0])|..] == rest;
      LoadFollowsLayouts(Obey(st, Meaning(ls[0])), ls[1..]);
    }
  }

  /** The lines that say something. */
  function Said(ls: seq<Layout>): seq<Statement> {
    if ls == [] then []
    else if Meaning(ls[0]).Nothing? then Said(ls[1..])
    else [Meaning(ls[0])] + Said(ls[1..])
  }

  function Run(st: State, stmts: seq<Statement>): State
    decreases |stmts|
  {
    if stmts == [] then st else Run(Obey(st, stmts[0]), stmts[1..])
  }

  lemma {:induction false} OnlyWhatIsSaidMatters(st: State, ls: seq<Layout>)
    ensures Follow(st, ls) == Run(st, Said(ls))
    decreases |ls|
  {
    if ls != [] {
      OnlyWhatIsSaidMatters(Obey(st, Meaning(ls[0])), ls[1..]);
      if !Meaning(ls[0]).Nothing? {
        assert Said(ls)[1..] == Said(ls[1..]);
      }
    }
  }

  // ---------- the documented file ----------

  function VideoStatements(cfg: AppCfg): seq<Statement> {
    [Section("video"), Entry("card_path", cfg.cardPath), Entry("connector", cfg.connectorName),
     Entry("plane_id", Decimal(cfg.planeId)), Entry("udp_port", Decimal(cfg.udpPort)),
     Entry("vid_pt", Decimal(cfg.vidPt)), Entry("appsink_max_buffers", Decimal(cfg.maxBuffers)),
     Entry("gst_log", BoolName(cfg.gstLog))]
  }

  function RecordStatements(cfg: AppCfg): seq<Statement> {
    [Section("record"), Entry("enable", BoolName(cfg.record.enable)),
     Entry("output_path", cfg.record.outputPath), Entry("mode", ModeName(cfg.record.mode))]
  }

  /** The documented layout: both sections, every key. */
  function Statements(cfg: AppCfg): seq<Statement> { VideoStatements(cfg) + RecordStatements(cfg) }

  predicate IsInt(v: int) { -0x8000_0000 <= v < 0x8000_0000 }

  /** The numbers are ints and the strings fit their fields. */
  predicate Fits(cfg: AppCfg) {
    && IsInt(cfg.planeId) && IsInt(cfg.udpPort) && IsInt(cfg.vidPt) && IsInt(cfg.maxBuffers)
    && |cfg.cardPath| < 64 && |cfg.connectorName| < 32 && |cfg.record.outputPath| < 4096
  }

  lemma VideoKey(key: string, value: string, cfg: AppCfg)
    ensures HandleKey("video", key, value, cfg) == HandleGlobalKey(key, value, cfg)
  {
  }

  lemma TextKeys(value: string, cfg: AppCfg)
    ensures HandleGlobalKey("card_path", value, cfg) == cfg.(cardPath := Copied(value, CARD_PATH_SIZE))
    ensures HandleGlobalKey("connector", value, cfg) == cfg.(connectorName := Copied(value, CONNECTOR_SIZE))
  {
    NotSame("connector", "card_path", 1);
  }

  lemma PlaneIdKey(v: int, cfg: AppCfg)
    requires IsInt(v)
    ensures HandleGlobalKey("plane_id", Decimal(v), cfg) == cfg.(planeId := v)
  {
    DecimalParses(v);
  }

  lemma UdpPortKey(v: int, cfg: AppCfg)
    requires IsInt(v)
    ensures HandleGlobalKey("udp_port", Decimal(v), cfg) == cfg.(udpPort := v)
  {
    DecimalParses(v);
    NotSame("udp_port", "plane_id", 0);
  }

  lemma VidPtKey(v: int, cfg: AppCfg)
    requires IsInt(v)
    ensures HandleGlobalKey("vid_pt", Decimal(v), cfg) == cfg.(vidPt := v)
  {
    DecimalParses(v);
  }

  lemma MaxBuffersKey(v: int, cfg: AppCfg)
    requires IsInt(v)
    ensures HandleGlobalKey("appsink_max_buffers", Decimal(v), cfg) == cfg.(maxBuffers := v)
  {
    DecimalParses(v);
  }

  lemma NumberKeys(v: int, cfg: AppCfg)
    requires IsInt(v)
    ensures HandleGlobalKey("plane_id", Decimal(v), cfg) == cfg.(planeId := v)
    ensures HandleGlobalKey("udp_port", Decimal(v), cfg) == cfg.(udpPort := v)
    ensures HandleGlobalKey("vid_pt", Decimal(v), cfg) == cfg.(vidPt := v)
    ensures HandleGlobalKey("appsink_max_buffers", Decimal(v), cfg) == cfg.(maxBuffers := v)
  {
    PlaneIdKey(v, cfg);
    UdpPortKey(v, cfg);
    VidPtKey(v, cfg);
    MaxBuffersKey(v, cfg);
  }

  lemma GstLogKey(b: bool, cfg: AppCfg)
    ensures HandleGlobalKey("gst_log", BoolName(b), cfg) == cfg.(gstLog := b)
  {
    BoolParses(b);
  }

  lemma RecordKeys(r: RecordCfg, cfg: AppCfg)
    ensures HandleKey("record", "enable", BoolName(r.enable), cfg) == cfg.(record := cfg.record.(enable := r.enable))
    ensures HandleKey("record", "output_path", r.outputPath, cfg)
            == cfg.(record := cfg.record.(outputPath := Copied(r.outputPath, PATH_SIZE)))
    ensures HandleKey("record", "mode", ModeName(r.mode), cfg) == cfg.(record := cfg.record.(mode := r.mode))
  {
    BoolParses(r.enable);
    ModeParses(r.mode);
    NotSame("mode", "path", 0);
  }

  lemma RunAt(st: State, stmts: seq<Statement>, k: nat)
    requires k < |stmts|
    ensures Run(st, stmts[k..]) == Run(Obey(st, stmts[k]), stmts[k + 1..])
  {
    assert stmts[k..][1..] == stmts[k + 1..];
  }

  lemma {:induction false} RunAppend(st: State, a: seq<Statement>, b: seq<Statement>)
    ensures Run(st, a + b) == Run(Run(st, a), b)
    decreases |a|
  {
    if a == [] {
      assert a + b == b;
    } else {
      assert (a + b)[1..] == a[1..] + b;
      RunAppend(Obey(st, a[0]), a[1..], b);
    }
  }

  lemma RunNumbers(c2: AppCfg, cfg: AppCfg)
    requires Fits(cfg)
    ensures Run(State("video", c2), VideoStatements(cfg)[3..])
            == State("video", c2.(planeId := cfg.planeId, udpPort := cfg.udpPort, vidPt := cfg.vidPt,
                                  maxBuffers := cfg.maxBuffers, gstLog := cfg.gstLog))
  {
    var s := VideoStatements(cfg);
    var c3 := c2.(planeId := cfg.planeId);
    var c4 := c3.(udpPort := cfg.udpPort);
    var c5 := c4.(vidPt := cfg.vidPt);
    var c6 := c5.(maxBuffers := cfg.maxBuffers);
    VideoNumbers(c2, cfg);
    GstLogKey(cfg.gstLog, c6);
    VideoKey("gst_log", BoolName(cfg.gstLog), c6);
    RunAt(State("video", c2), s, 3);
    RunAt(State("video", c3), s, 4);
    RunAt(State("video", c4), s, 5);
    RunAt(State("video", c5), s, 6);
    RunAt(State("video", c6), s, 7);
  }

  lemma RunVideo(st: State, cfg: AppCfg)
    requires Fits(cfg)
    ensures Run(st, VideoStatements(cfg))
            == State("video", cfg.(configPath := st.cfg.configPath, record := st.cfg.record))
  {
    var s := VideoStatements(cfg);
    var c1 := st.cfg.(cardPath := cfg.cardPath);
    var c2 := c1.(connectorName := cfg.connectorName);
    VideoText(st.cfg, cfg);
    assert s[0..] == s;
    RunAt(st, s, 0);
    RunAt(State("video", st.cfg), s, 1);
    RunAt(State("video", c1), s, 2);
    RunNumbers(c2, cfg);
  }

  lemma VideoText(c: AppCfg, cfg: AppCfg)
    requires Fits(cfg)
    ensures HandleKey("video", "card_path", cfg.cardPath, c) == c.(cardPath := cfg.cardPath)
    ensures var c1 := c.(cardPath := cfg.cardPath);
            HandleKey("video", "connector", cfg.connectorName, c1) == c1.(connectorName := cfg.connectorName)
  {
    var c1 := c.(cardPath := cfg.cardPath);
    TextKeys(cfg.cardPath, c);
    VideoKey("card_path", cfg.cardPath, c);
    TextKeys(cfg.connectorName, c1);
    VideoKey("connector", cfg.connectorName, c1);
  }

  lemma VideoNumber(v: int, c: AppCfg)
    requires IsInt(v)
    ensures HandleKey("video", "plane_id", Decimal(v), c) == c.(planeId := v)
    ensures HandleKey("video", "udp_port", Decimal(v), c) == c.(udpPort := v)
    ensures HandleKey("video", "vid_pt", Decimal(v), c) == c.(vidPt := v)
    ensures HandleKey("video", "appsink_max_buffers", Decimal(v), c) == c.(maxBuffers := v)
  {
    NumberKeys(v, c);
    VideoKey("plane_id", Decimal(v), c);
    VideoKey("udp_port", Decimal(v), c);
    VideoKey("vid_pt", Decimal(v), c);
    VideoKey("appsink_max_buffers", Decimal(v), c);
  }

  lemma VideoNumbers(c: AppCfg, cfg: AppCfg)
    requires Fits(cfg)
    ensures HandleKey("video", "plane_id", Decimal(cfg.planeId), c) == c.(planeId := cfg.planeId)
    ensures var c1 := c.(planeId := cfg.planeId);
            && HandleKey("video", "udp_port", Decimal(cfg.udpPort), c1) == c1.(udpPort := cfg.udpPort)
            && var c2 := c1.(udpPort := cfg.udpPort);
               && HandleKey("video", "vid_pt", Decimal(cfg.vidPt), c2) == c2.(vidPt := cfg.vidPt)
               && var c3 := c2.(vidPt := cfg.vidPt);
                  HandleKey("video", "appsink_max_buffers", Decimal(cfg.maxBuffers), c3)
                  == c3.(maxBuffers := cfg.maxBuffers)
  {
    var c1 := c.(planeId := cfg.planeId);
    var c2 := c1.(udpPort := cfg.udpPort);
    VideoNumber(cfg.planeId, c);
    VideoNumber(cfg.udpPort, c1);
    VideoNumber(cfg.vidPt, c2);
    VideoNumber(cfg.maxBuffers, c2.(vidPt := cfg.vidPt));
  }

  lemma RunRecord(st: State, cfg: AppCfg)
    requires Fits(cfg)
    ensures Run(st, RecordStatements(cfg)) == State("record", st.cfg.(record := cfg.record))
  {
    var s, r := RecordStatements(cfg), cfg.record;
    var c1 := st.cfg.(record := st.cfg.record.(enable := r.enable));
    var c2 := c1.(record := c1.record.(outputPath := r.outputPath));
    RecordKeys(r, st.cfg);
    RecordKeys(r, c1);
    RecordKeys(r, c2);
    assert s[0..] == s;
    RunAt(st, s, 0);
    RunAt(State("record", st.cfg), s, 1);
    RunAt(State("record", c1), s, 2);
    RunAt(State("record", c2), s, 3);
  }

  /** However the documented file is laid out (padding, remarks, blank lines), and whatever was configured
      before, loading it gives the settings it was written for; only config_path is not in it. */
  lemma EveryLayoutLoads(before: AppCfg, cfg: AppCfg, ls: seq<Layout>)
    requires Fits(cfg) && Said(ls) == Statements(cfg) && forall l <- ls :: Proper(l)
    ensures Load(before, WrittenAll(ls)) == cfg.(configPath := before.configPath)
  {
    LoadFollowsLayouts(State("", before), ls);
    OnlyWhatIsSaidMatters(State("", before), ls);
    RunAppend(State("", before), VideoStatements(cfg), RecordStatements(cfg));
    RunVideo(State("", before), cfg);
    RunRecord(State("video", cfg.(configPath := before.configPath, record := before.record)), cfg);
  }

  // ---------- the plain layout ----------

  /** key = value */
  function Plain(stmt: Statement): Layout {
    match stmt
    case Nothing => Blank("", "")
    case Section(name) => Header("", name, "")
    case Entry(key, value) => Setting("", key, " ", " ", value, "", "")
  }

  function PlainAll(stmts: seq<Statement>): seq<Layout> {
    if stmts == [] then [] else [Plain(stmts[0])] + PlainAll(stmts[1..])
  }

  function Render(cfg: AppCfg): string { WrittenAll(PlainAll(Statements(cfg))) }

  predicate IsWritable(s: string, room: int) {
    IsValue(s) && Free(s, {'\n', NUL}) && |s| <= room
  }

  /** What can be written in the documented file: no comment character, newline, NUL or outer white space,
      and an output path that leaves its line within the buffer. */
  predicate Writable(cfg: AppCfg) {
    && Fits(cfg)
    && IsWritable(cfg.cardPath, 63) && IsWritable(cfg.connectorName, 31) && IsWritable(cfg.record.outputPath, 496)
  }

  predicate IsPlain(stmt: Statement) {
    match stmt
    case Nothing => false
    case Section(name) => |name| < SECTION_SIZE && Free(name, COMMENT + {']', '\n', NUL})
    case Entry(key, value) => IsKey(key) && Free(key, {'\n', NUL}) && IsWritable(value, 507 - |key|)
  }

  lemma PlainIsProper(stmt: Statement)
    requires IsPlain(stmt)
    ensures Proper(Plain(stmt)) && Meaning(Plain(stmt)) == stmt
  {
    var l := Plain(stmt);
    if stmt.Entry? {
      assert Body(l) == stmt.key + " = " + stmt.value;
      FreeConcat(stmt.key, " = ", {'\n', NUL});
      FreeConcat(stmt.key + " = ", stmt.value, {'\n', NUL});
    } else {
      assert Body(l) == "[" + stmt.name + "]";
    }
  }

  lemma {:induction false} PlainAllProper(stmts: seq<Statement>)
    requires forall s <- stmts :: IsPlain(s)
    ensures Said(PlainAll(stmts)) == stmts && forall l <- PlainAll(stmts) :: Proper(l)
    decreases |stmts|
  {
    if stmts != [] {
      PlainIsProper(stmts[0]);
      PlainAllProper(stmts[1..]);
      assert PlainAll(stmts)[1..] == PlainAll(stmts[1..]);
    }
  }

  predicate GoodKey(key: string) { |key| <= 19 && IsKey(key) && Free(key, {'\n', NUL}) }

  predicate IsWord(s: string) { forall i :: 0 <= i < |s| ==> 'a' <= s[i] <= 'z' || s[i] == '_' }

  lemma WordIsGood(key: string)
    requires key != "" && |key| <= 19 && IsWord(key)
    ensures GoodKey(key) && IsWritable(key, 63)
  {
  }

  lemma NamesAreGood()
    ensures GoodKey("card_path") && GoodKey("connector") && GoodKey("plane_id") && GoodKey("udp_port")
    ensures GoodKey("vid_pt") && GoodKey("appsink_max_buffers") && GoodKey("gst_log")
    ensures GoodKey("enable") && GoodKey("output_path") && GoodKey("mode")
  {
    WordIsGood("card_path");
    WordIsGood("connector");
    WordIsGood("plane_id");
    WordIsGood("udp_port");
    WordIsGood("vid_pt");
    WordIsGood("appsink_max_buffers");
    WordIsGood("gst_log");
    WordIsGood("enable");
    WordIsGood("output_path");
    WordIsGood("mode");
  }

  lemma SectionsArePlain()
    ensures IsPlain(Section("video")) && IsPlain(Section("record"))
  {
  }

  lemma DecimalIsWritable(v: int)
    requires IsInt(v)
    ensures IsWritable(Decimal(v), 63)
  {
    DecimalIsPlain(v);
    DecimalIsShort(v);
  }

  lemma NamesAreWritable(b: bool, mode: RecordMode)
    ensures IsWritable(BoolName(b), 63) && IsWritable(ModeName(mode), 63)
  {
    WordIsGood(BoolName(b));
    WordIsGood(ModeName(mode));
  }

  lemma EntryIsPlain(key: string, value: string)
    requires GoodKey(key) && IsWritable(value, if key == "output_path" then 496 else 63)
    ensures IsPlain(Entry(key, value))
  {
  }

  lemma NumbersArePlain(cfg: AppCfg)
    requires Writable(cfg)
    ensures IsPlain(Entry("plane_id", Decimal(cfg.planeId))) && IsPlain(Entry("udp_port", Decimal(cfg.udpPort)))
    ensures IsPlain(Entry("vid_pt", Decimal(cfg.vidPt)))
    ensures IsPlain(Entry("appsink_max_buffers", Decimal(cfg.maxBuffers)))
  {
    NamesAreGood();
    DecimalIsWritable(cfg.planeId);
    DecimalIsWritable(cfg.udpPort);
    DecimalIsWritable(cfg.vidPt);
    DecimalIsWritable(cfg.maxBuffers);
    EntryIsPlain("plane_id", Decimal(cfg.planeId));
    EntryIsPlain("udp_port", Decimal(cfg.udpPort));
    EntryIsPlain("vid_pt", Decimal(cfg.vidPt));
    EntryIsPlain("appsink_max_buffers", Decimal(cfg.maxBuffers));
  }

  lemma TextsArePlain(cfg: AppCfg)
    requires Writable(cfg)
    ensures IsPlain(Entry("card_path", cfg.cardPath)) && IsPlain(Entry("connector", cfg.connectorName))
    ensures IsPlain(Entry("output_path", cfg.record.outputPath))
  {
    NamesAreGood();
    EntryIsPlain("card_path", cfg.cardPath);
    EntryIsPlain("connector", cfg.connectorName);
    EntryIsPlain("output_path", cfg.record.outputPath);
  }

  lemma ChoicesArePlain(cfg: AppCfg)
    ensures IsPlain(Entry("gst_log", BoolName(cfg.gstLog)))
    ensures IsPlain(Entry("enable", BoolName(cfg.record.enable)))
    ensures IsPlain(Entry("mode", ModeName(cfg.record.mode)))
  {
    NamesAreGood();
    NamesAreWritable(cfg.gstLog, cfg.record.mode);
    NamesAreWritable(cfg.record.enable, cfg.record.mode);
    EntryIsPlain("gst_log", BoolName(cfg.gstLog));
    EntryIsPlain("enable", BoolName(cfg.record.enable));
    EntryIsPlain("mode", ModeName(cfg.record.mode));
  }

  lemma StatementsArePlain(cfg: AppCfg)
    requires Writable(cfg)
    ensures forall s <- Statements(cfg) :: IsPlain(s)
  {
    SectionsArePlain();
    NumbersArePlain(cfg);
    TextsArePlain(cfg);
    ChoicesArePlain(cfg);
  }

  /** Writing settings in the documented layout and loading them gives them back. */
  lemma RoundTrip(before: AppCfg, cfg: AppCfg)
    requires Writable(cfg)
    ensures Load(before, Render(cfg)) == cfg.(configPath := before.configPath)
  {
    StatementsArePlain(cfg);
    PlainAllProper(Statements(cfg));
    EveryLayoutLoads(before, cfg, PlainAll(Statements(cfg)));
  }
}
