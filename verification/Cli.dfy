/** The command line: one pass that loads the configuration files, a second that applies the options. */
module Cli {
  import opened Wrappers
  import opened Text
  import opened Config
  import Ini

  datatype Result = Help | Failed | Parsed(cfg: AppCfg)

  /** What cfg_load_file makes of a path; None when the file cannot be opened. */
  type Loader = (string, AppCfg) -> Option<AppCfg>

  function LoadConfig(path: string, cfg: AppCfg, load: Loader): Option<AppCfg> {
    var c := cfg.(configPath := Copied(path, PATH_SIZE));
    if c.configPath == "" then Some(c) else load(c.configPath, c)
  }

  predicate AsksForHelp(arg: string) { arg == "--help" || arg == "-h" }

  predicate Dashed(s: string) { |s| >= 2 && s[0] == '-' && s[1] == '-' }

  function FirstPass(args: seq<string>, i: nat, cfg: AppCfg, load: Loader): Result
    decreases |args| - i
  {
    if i >= |args| then Parsed(cfg)
    else if AsksForHelp(args[i]) then Help
    else if args[i] != "--config" then FirstPass(args, i + 1, cfg, load)
    else if i + 1 >= |args| then Failed
    else
      match LoadConfig(args[i + 1], cfg, load)
      case None => Failed
      case Some(c) => FirstPass(args, i + 2, c, load)
  }

  function SetIntArg(cfg: AppCfg, field: IntField, value: string): Option<AppCfg> {
    if ParseInt(value).Some? then Some(SetInt(cfg, field, value)) else None
  }

  function SetModeArg(cfg: AppCfg, value: string): Option<AppCfg> {
    if ParseMode(value).Some? then Some(SetMode(cfg, value)) else None
  }

  function Enabled(cfg: AppCfg, on: bool): AppCfg { cfg.(record := cfg.record.(enable := on)) }

  /** The options that take a value. */
  predicate TakesValue(arg: string) {
    arg in {"--card", "--connector", "--plane-id", "--udp-port", "--vid-pt", "--appsink-max-buffers", "--record-mode"}
  }

  function WithValue(arg: string, value: string, cfg: AppCfg): Option<AppCfg>
    requires TakesValue(arg)
  {
    if arg == "--card" then Some(cfg.(cardPath := Copied(value, CARD_PATH_SIZE)))
    else if arg == "--connector" then Some(cfg.(connectorName := Copied(value, CONNECTOR_SIZE)))
    else if arg == "--plane-id" then SetIntArg(cfg, PlaneId, value)
    else if arg == "--udp-port" then SetIntArg(cfg, UdpPort, value)
    else if arg == "--vid-pt" then SetIntArg(cfg, VidPt, value)
    else if arg == "--appsink-max-buffers" then SetIntArg(cfg, MaxBuffers, value)
    else SetModeArg(cfg, value)
  }

  function SecondPass(args: seq<string>, i: nat, cfg: AppCfg): Result
    decreases |args| - i
  {
    if i >= |args| then Parsed(cfg) else
      var arg := args[i];
      if arg == "--config" then SecondPass(args, i + 2, cfg)
      else if TakesValue(arg) then
        if i + 1 >= |args| then Failed else
          (match WithValue(arg, args[i + 1], cfg)
           case None => Failed
           case Some(c) => SecondPass(args, i + 2, c))
      else if arg == "--record-video" then
        var on := Enabled(cfg, true);
        if i + 1 < |args| && !Dashed(args[i + 1]) then SecondPass(args, i + 2, SetOutputPath(on, args[i + 1]))
        else SecondPass(args, i + 1, on)
      else if arg == "--no-record-video" then SecondPass(args, i + 1, Enabled(cfg, false))
      else if arg == "--gst-log" then SecondPass(args, i + 1, cfg.(gstLog := true))
      else if arg == "--verbose" then SecondPass(args, i + 1, cfg)
      else Failed
  }

  function Parse(args: seq<string>, load: Loader): Result {
    match FirstPass(args, 1, DEFAULTS, load)
    case Parsed(cfg) => SecondPass(args, 1, cfg)
    case other => other
  }

  // ---------- the loops ----------

  method LoadConfigs(args: seq<string>, load: Loader) returns (r: Result)
    ensures r == FirstPass(args, 1, DEFAULTS, load)
  {
    var cfg := DEFAULTS;
    var i := 1;
    while i < |args|
      invariant 1 <= i && FirstPass(args, i, cfg, load) == FirstPass(args, 1, DEFAULTS, load)
    {
      if AsksForHelp(args[i]) {
        return Help;
      }
      if args[i] == "--config" {
        if i + 1 >= |args| {
          return Failed;
        }
        i := i + 1;
        match LoadConfig(args[i], cfg, load) {
          case None => return Failed;
          case Some(c) => cfg := c;
        }
      }
      i := i + 1;
    }
    return Parsed(cfg);
  }

  /** One round of the second loop: the index of the next argument and the configuration so far. */
  method OneOption(args: seq<string>, i: nat, cfg: AppCfg) returns (ok: bool, next: nat, c: AppCfg)
    requires i < |args|
    ensures SecondPass(args, i, cfg) == if ok then SecondPass(args, next, c) else Failed
    ensures ok ==> next > i
  {
    var arg := args[i];
    ok, next, c := true, i + 1, cfg;
    if arg == "--config" {
      next := i + 2;
    } else if TakesValue(arg) {
      if i + 1 >= |args| {
        return false, i, cfg;
      }
      var taken := WithValue(arg, args[i + 1], cfg);
      if taken.None? {
        return false, i, cfg;
      }
      next, c := i + 2, taken.value;
    } else if arg == "--record-video" {
      c := Enabled(cfg, true);
      if i + 1 < |args| && !Dashed(args[i + 1]) {
        next, c := i + 2, SetOutputPath(c, args[i + 1]);
      }
    } else if arg == "--no-record-video" {
      c := Enabled(cfg, false);
    } else if arg == "--gst-log" {
      c := cfg.(gstLog := true);
    } else if arg != "--verbose" {
      ok := false;
    }
  }

  method ParseCli(args: seq<string>, load: Loader) returns (r: Result)
    ensures r == Parse(args, load)
  {
    r := LoadConfigs(args, load);
    if !r.Parsed? {
      return;
    }
    ghost var loaded := r.cfg;
    var cfg := r.cfg;
    var i: nat := 1;
    while i < |args|
      invariant 1 <= i && SecondPass(args, i, cfg) == SecondPass(args, 1, loaded)
      decreases |args| - i
    {
      var ok, next, c := OneOption(args, i, cfg);
      if !ok {
        return Failed;
      }
      i, cfg := next, c;
    }
    return Parsed(cfg);
  }

  // ---------- a command line as a list of groups ----------

  datatype Group =
    | ConfigFile(path: string)
    | Value(option: string, value: string)
    | RecordVideo | RecordVideoTo(path: string) | NoRecordVideo
    | GstLog | Verbose
    | AskHelp(short: bool)

  /** A group as its author means it; the first pass looks at values too, so an option's value is not to be
      one of the three words that pass reacts to. */
  predicate WellFormed(g: Group) {
    match g
    case Value(option, value) => TakesValue(option) && value != "--config" && !AsksForHelp(value)
    case RecordVideoTo(path) => !Dashed(path) && !AsksForHelp(path)
    case AskHelp(_) => false
    case _ => true
  }

  function Words(g: Group): seq<string> {
    match g
    case ConfigFile(path) => ["--config", path]
    case Value(option, value) => [option, value]
    case RecordVideo => ["--record-video"]
    case RecordVideoTo(path) => ["--record-video", path]
    case NoRecordVideo => ["--no-record-video"]
    case GstLog => ["--gst-log"]
    case Verbose => ["--verbose"]
    case AskHelp(short) => [if short then "-h" else "--help"]
  }

  function AllWords(gs: seq<Group>): seq<string> {
    if gs == [] then [] else Words(gs[0]) + AllWords(gs[1..])
  }

  function CommandLine(program: string, gs: seq<Group>): seq<string> { [program] + AllWords(gs) }

  /** The configuration files, in order. */
  function Files(gs: seq<Group>): seq<string> {
    if gs == [] then []
    else if gs[0].ConfigFile? then [gs[0].path] + Files(gs[1..])
    else Files(gs[1..])
  }

  /** The other groups, in order. */
  function Options(gs: seq<Group>): seq<Group> {
    if gs == [] then []
    else if gs[0].ConfigFile? then Options(gs[1..])
    else [gs[0]] + Options(gs[1..])
  }

  function LoadAll(cfg: AppCfg, files: seq<string>, load: Loader): Option<AppCfg>
    decreases |files|
  {
    if files == [] then Some(cfg) else
      match LoadConfig(files[0], cfg, load)
      case None => None
      case Some(c) => LoadAll(c, files[1..], load)
  }

  function Apply(cfg: AppCfg, g: Group): Option<AppCfg> {
    match g
    case ConfigFile(_) => Some(cfg)
    case Value(option, value) => if TakesValue(option) then WithValue(option, value, cfg) else None
    case RecordVideo => Some(Enabled(cfg, true))
    case RecordVideoTo(path) => Some(SetOutputPath(Enabled(cfg, true), path))
    case NoRecordVideo => Some(Enabled(cfg, false))
    case GstLog => Some(cfg.(gstLog := true))
    case Verbose => Some(cfg)
    case AskHelp(_) => None
  }

  function ApplyAll(cfg: AppCfg, options: seq<Group>): Option<AppCfg>
    decreases |options|
  {
    if options == [] then Some(cfg) else
      match Apply(cfg, options[0])
      case None => None
      case Some(c) => ApplyAll(c, options[1..])
  }

  function FromOption(o: Option<AppCfg>): Result { if o.Some? then Parsed(o.value) else Failed }

  lemma HeadIsDashed(gs: seq<Group>)
    requires gs != [] && WellFormed(gs[0])
    ensures var w := AllWords(gs); w != [] && Dashed(w[0]) && w[0] == Words(gs[0])[0] && !AsksForHelp(w[0])
  {
  }

  lemma WordsAt(args: seq<string>, i: nat, gs: seq<Group>)
    requires i <= |args| && args[i..] == AllWords(gs) && gs != []
    ensures i + |Words(gs[0])| <= |args|
    ensures args[i + |Words(gs[0])|..] == AllWords(gs[1..])
    ensures forall k :: 0 <= k < |Words(gs[0])| ==> args[i + k] == Words(gs[0])[k]
  {
    var n := |Words(gs[0])|;
    assert args[i..] == Words(gs[0]) + AllWords(gs[1..]);
    assert args[i + n..] == args[i..][n..];
    assert forall k :: 0 <= k < n ==> args[i + k] == args[i..][k];
  }

  lemma {:induction false} FirstPassLoadsFiles(args: seq<string>, i: nat, gs: seq<Group>, cfg: AppCfg, load: Loader)
    requires i <= |args| && args[i..] == AllWords(gs)
    requires forall g <- gs :: WellFormed(g)
    ensures FirstPass(args, i, cfg, load) == FromOption(LoadAll(cfg, Files(gs), load))
    decreases |gs|
  {
    if gs != [] {
      var g, rest := gs[0], gs[1..];
      WordsAt(args, i, gs);
      HeadIsDashed(gs);
      assert args[i] == Words(g)[0];
      var next := i + |Words(g)|;
      if g.ConfigFile? {
        assert args[i + 1] == g.path;
        assert Files(gs)[1..] == Files(rest);
        match LoadConfig(g.path, cfg, load)
        case None =>
        case Some(c) => FirstPassLoadsFiles(args, next, rest, c, load);
      } else {
        FirstPassLoadsFiles(args, next, rest, cfg, load);
        FirstPassSkips(args, i, g, cfg, load);
      }
    }
  }

  lemma FirstPassSkips(args: seq<string>, i: nat, g: Group, cfg: AppCfg, load: Loader)
    requires WellFormed(g) && !g.ConfigFile? && i + |Words(g)| <= |args|
    requires forall k :: 0 <= k < |Words(g)| ==> args[i + k] == Words(g)[k]
    ensures FirstPass(args, i, cfg, load) == FirstPass(args, i + |Words(g)|, cfg, load)
  {
    assert args[i] == Words(g)[0];
    if |Words(g)| == 2 {
      assert args[i + 1] == Words(g)[1];
    }
  }

  lemma {:induction false} SecondPassAppliesOptions(args: seq<string>, i: nat, gs: seq<Group>, cfg: AppCfg)
    requires i <= |args| && args[i..] == AllWords(gs)
    requires forall g <- gs :: WellFormed(g)
    ensures SecondPass(args, i, cfg) == FromOption(ApplyAll(cfg, Options(gs)))
    decreases |gs|
  {
    if gs != [] {
      var g, rest := gs[0], gs[1..];
      WordsAt(args, i, gs);
      var next := i + |Words(g)|;
      assert next < |args| ==> args[next] == AllWords(rest)[0];
      if rest != [] {
        HeadIsDashed(rest);
      }
      SecondPassTakes(args, i, g, cfg);
      if g.ConfigFile? {
        SecondPassAppliesOptions(args, next, rest, cfg);
      } else {
        assert Options(gs)[1..] == Options(rest);
        match Apply(cfg, g)
        case None =>
        case Some(c) => SecondPassAppliesOptions(args, next, rest, c);
      }
    }
  }

  lemma SecondPassTakes(args: seq<string>, i: nat, g: Group, cfg: AppCfg)
    requires WellFormed(g) && i + |Words(g)| <= |args|
    requires forall k :: 0 <= k < |Words(g)| ==> args[i + k] == Words(g)[k]
    requires g.RecordVideo? && i + 1 < |args| ==> Dashed(args[i + 1])
    ensures SecondPass(args, i, cfg)
            == match Apply(cfg, g)
               case None => Failed
               case Some(c) => SecondPass(args, i + |Words(g)|, c)
  {
    assert args[i] == Words(g)[0];
    if |Words(g)| == 2 {
      assert args[i + 1] == Words(g)[1];
    }
  }

  /** The two passes over any command line made of well-formed groups: the defaults, then the configuration
      files in order, then the options in order, wherever the --config groups stand. */
  lemma FilesThenOptions(program: string, gs: seq<Group>, load: Loader)
    requires forall g <- gs :: WellFormed(g)
    ensures Parse(CommandLine(program, gs), load)
            == match LoadAll(DEFAULTS, Files(gs), load)
               case None => Failed
               case Some(c) => FromOption(ApplyAll(c, Options(gs)))
  {
    var args := CommandLine(program, gs);
    assert args[1..] == AllWords(gs);
    FirstPassLoadsFiles(args, 1, gs, DEFAULTS, load);
    match LoadAll(DEFAULTS, Files(gs), load)
    case None =>
    case Some(c) => SecondPassAppliesOptions(args, 1, gs, c);
  }

  // ---------- when help is answered ----------

  /** A group as it may be written: only a value that reads --config is excluded, because the first pass takes
      the word after it for a file. */
  predicate Tame(g: Group) {
    match g
    case Value(option, value) => TakesValue(option) && value != "--config"
    case RecordVideoTo(path) => !Dashed(path)
    case _ => true
  }

  /** A help word among the group's words, asked for or taken for it; the word after --config is never read. */
  predicate LooksLikeHelp(g: Group) {
    match g
    case Value(_, value) => AsksForHelp(value)
    case RecordVideoTo(path) => AsksForHelp(path)
    case AskHelp(_) => true
    case _ => false
  }

  predicate HelpReached(gs: seq<Group>, cfg: AppCfg, load: Loader)
    decreases |gs|
  {
    if gs == [] then false
    else if gs[0].ConfigFile? then
      match LoadConfig(gs[0].path, cfg, load)
      case None => false
      case Some(c) => HelpReached(gs[1..], c, load)
    else LooksLikeHelp(gs[0]) || HelpReached(gs[1..], cfg, load)
  }

  lemma {:induction false} FirstPassReachesHelp(args: seq<string>, i: nat, gs: seq<Group>, cfg: AppCfg, load: Loader)
    requires i <= |args| && args[i..] == AllWords(gs)
    requires forall g <- gs :: Tame(g)
    ensures FirstPass(args, i, cfg, load).Help? <==> HelpReached(gs, cfg, load)
    decreases |gs|
  {
    if gs != [] {
      var g, rest := gs[0], gs[1..];
      WordsAt(args, i, gs);
      assert args[i] == Words(g)[0];
      var next := i + |Words(g)|;
      if g.ConfigFile? {
        assert args[i + 1] == g.path;
        match LoadConfig(g.path, cfg, load)
        case None =>
        case Some(c) => FirstPassReachesHelp(args, next, rest, c, load);
      } else {
        FirstPassReachesHelp(args, next, rest, cfg, load);
        FirstPassReads(args, i, g, cfg, load);
      }
    }
  }

  lemma FirstPassReads(args: seq<string>, i: nat, g: Group, cfg: AppCfg, load: Loader)
    requires Tame(g) && !g.ConfigFile? && i + |Words(g)| <= |args|
    requires forall k :: 0 <= k < |Words(g)| ==> args[i + k] == Words(g)[k]
    ensures FirstPass(args, i, cfg, load)
            == if LooksLikeHelp(g) then Help else FirstPass(args, i + |Words(g)|, cfg, load)
  {
    assert args[i] == Words(g)[0];
    if |Words(g)| == 2 {
      assert args[i + 1] == Words(g)[1];
    }
  }

  /** Group k looks like help, and every configuration file before it loads. */
  predicate HelpAt(gs: seq<Group>, k: nat, cfg: AppCfg, load: Loader)
    requires k < |gs|
  {
    LooksLikeHelp(gs[k]) && LoadAll(cfg, Files(gs[..k]), load).Some?
  }

  lemma LoadAfterFirst(gs: seq<Group>, k: nat, cfg: AppCfg, load: Loader)
    requires k < |gs|
    ensures LoadAll(cfg, Files(gs[..k + 1]), load)
            == if !gs[0].ConfigFile? then LoadAll(cfg, Files(gs[1..][..k]), load)
               else match LoadConfig(gs[0].path, cfg, load)
                    case None => None
                    case Some(c) => LoadAll(c, Files(gs[1..][..k]), load)
  {
    assert gs[..k + 1][1..] == gs[1..][..k];
    if gs[0].ConfigFile? {
      assert Files(gs[..k + 1])[1..] == Files(gs[1..][..k]);
    }
  }

  lemma {:induction false} HelpComesFrom(gs: seq<Group>, cfg: AppCfg, load: Loader) returns (k: nat)
    requires HelpReached(gs, cfg, load)
    ensures k < |gs| && HelpAt(gs, k, cfg, load)
    decreases |gs|
  {
    var g := gs[0];
    if LooksLikeHelp(g) {
      k := 0;
      assert gs[..0] == [];
    } else {
      var c := if g.ConfigFile? then LoadConfig(g.path, cfg, load).value else cfg;
      k := HelpComesFrom(gs[1..], c, load);
      LoadAfterFirst(gs, k, cfg, load);
      k := k + 1;
    }
  }

  lemma {:induction false} HelpIsReached(gs: seq<Group>, k: nat, cfg: AppCfg, load: Loader)
    requires k < |gs| && HelpAt(gs, k, cfg, load)
    ensures HelpReached(gs, cfg, load)
    decreases |gs|
  {
    if k > 0 {
      var g := gs[0];
      LoadAfterFirst(gs, k - 1, cfg, load);
      var c := if g.ConfigFile? then LoadConfig(g.path, cfg, load) else Some(cfg);
      HelpIsReached(gs[1..], k - 1, c.value, load);
    }
  }

  lemma SecondPassNeverHelps(args: seq<string>, i: nat, cfg: AppCfg)
    ensures !SecondPass(args, i, cfg).Help?
    decreases |args| - i
  {
  }

  /** Exactly when the help text is the answer: some group asks for help, or has a value that looks as if it
      did, and every configuration file named before it loads. */
  lemma HelpIsAnswered(program: string, gs: seq<Group>, load: Loader)
    requires forall g <- gs :: Tame(g)
    ensures Parse(CommandLine(program, gs), load).Help? <==> exists k: nat :: k < |gs| && HelpAt(gs, k, DEFAULTS, load)
  {
    var args := CommandLine(program, gs);
    assert args[1..] == AllWords(gs);
    FirstPassReachesHelp(args, 1, gs, DEFAULTS, load);
    if FirstPass(args, 1, DEFAULTS, load).Parsed? {
      SecondPassNeverHelps(args, 1, FirstPass(args, 1, DEFAULTS, load).cfg);
    }
    if HelpReached(gs, DEFAULTS, load) {
      var k := HelpComesFrom(gs, DEFAULTS, load);
    }
    if k: nat :| k < |gs| && HelpAt(gs, k, DEFAULTS, load) {
      HelpIsReached(gs, k, DEFAULTS, load);
    }
  }

  /** An instance: a path called --help, which the options themselves would take. */
  lemma ValueMistakenForHelp(program: string, load: Loader)
    ensures Parse(CommandLine(program, [Value("--card", "--help")]), load) == Help
    ensures FromOption(ApplyAll(DEFAULTS, [Value("--card", "--help")])) == Parsed(DEFAULTS.(cardPath := "--help"))
  {
    var gs := [Value("--card", "--help")];
    assert gs[..0] == [] && gs[1..] == [];
    assert HelpAt(gs, 0, DEFAULTS, load);
    HelpIsAnswered(program, gs, load);
  }

  lemma {:induction false} ProjectionsAppend(a: seq<Group>, b: seq<Group>)
    ensures Files(a + b) == Files(a) + Files(b) && Options(a + b) == Options(a) + Options(b)
    decreases |a|
  {
    if a == [] {
      assert a + b == b;
    } else {
      assert (a + b)[1..] == a[1..] + b;
      ProjectionsAppend(a[1..], b);
    }
  }

  /** A --config group may stand anywhere among the options: moving it past one changes nothing. */
  lemma ConfigGroupMoves(program: string, a: seq<Group>, path: string, g: Group, b: seq<Group>, load: Loader)
    requires !g.ConfigFile? && WellFormed(g) && (forall x <- a :: WellFormed(x)) && (forall x <- b :: WellFormed(x))
    ensures Parse(CommandLine(program, a + [ConfigFile(path), g] + b), load)
            == Parse(CommandLine(program, a + [g, ConfigFile(path)] + b), load)
  {
    var c := ConfigFile(path);
    FilesThenOptions(program, a + [c, g] + b, load);
    FilesThenOptions(program, a + [g, c] + b, load);
    ProjectionsAppend(a + [c, g], b);
    ProjectionsAppend(a + [g, c], b);
    ProjectionsAppend(a, [c, g]);
    ProjectionsAppend(a, [g, c]);
    assert [c, g][1..] == [g] && [g, c][1..] == [c];
    assert [g][1..] == [] && [c][1..] == [];
    assert Files([c, g]) == Files([g, c]) && Options([c, g]) == Options([g, c]);
  }

  // ---------- options win ----------

  datatype Field = CardPath | ConnectorName | Number(field: IntField) | Enable | OutputPath | Mode | GstLogging

  predicate Agree(c: AppCfg, d: AppCfg, f: Field) {
    match f
    case CardPath => c.cardPath == d.cardPath
    case ConnectorName => c.connectorName == d.connectorName
    case Number(PlaneId) => c.planeId == d.planeId
    case Number(UdpPort) => c.udpPort == d.udpPort
    case Number(VidPt) => c.vidPt == d.vidPt
    case Number(MaxBuffers) => c.maxBuffers == d.maxBuffers
    case Enable => c.record.enable == d.record.enable
    case OutputPath => c.record.outputPath == d.record.outputPath
    case Mode => c.record.mode == d.record.mode
    case GstLogging => c.gstLog == d.gstLog
  }

  predicate Sets(g: Group, f: Field) {
    match g
    case ConfigFile(_) => false
    case Value(option, _) =>
      || (option == "--card" && f == CardPath)
      || (option == "--connector" && f == ConnectorName)
      || (option == "--plane-id" && f == Number(PlaneId))
      || (option == "--udp-port" && f == Number(UdpPort))
      || (option == "--vid-pt" && f == Number(VidPt))
      || (option == "--appsink-max-buffers" && f == Number(MaxBuffers))
      || (option == "--record-mode" && f == Mode)
    case RecordVideo => f == Enable
    case RecordVideoTo(_) => f == Enable || f == OutputPath
    case NoRecordVideo => f == Enable
    case GstLog => f == GstLogging
    case Verbose => false
    case AskHelp(_) => false
  }

  /** One application to two configurations: both fail or neither; the field the group sets comes out the
      same, and every other field stays. */
  predicate Uniform(c: AppCfg, d: AppCfg, c': Option<AppCfg>, d': Option<AppCfg>, sets: bool, f: Field) {
    && (c'.Some? <==> d'.Some?)
    && (c'.Some? && (sets || Agree(c, d, f)) ==> Agree(c'.value, d'.value, f))
    && (c'.Some? && !sets ==> Agree(c'.value, c, f))
  }

  lemma IntIsUniform(c: AppCfg, d: AppCfg, field: IntField, value: string, f: Field)
    ensures Uniform(c, d, SetIntArg(c, field, value), SetIntArg(d, field, value), f == Number(field), f)
  {
  }

  lemma TextIsUniform(c: AppCfg, d: AppCfg, option: string, value: string, f: Field)
    requires option in {"--card", "--connector", "--record-mode"}
    ensures Uniform(c, d, WithValue(option, value, c), WithValue(option, value, d), Sets(Value(option, value), f), f)
  {
  }

  lemma ValueIsUniform(c: AppCfg, d: AppCfg, option: string, value: string, f: Field)
    requires TakesValue(option)
    ensures Uniform(c, d, WithValue(option, value, c), WithValue(option, value, d), Sets(Value(option, value), f), f)
  {
    if option == "--plane-id" {
      IntIsUniform(c, d, PlaneId, value, f);
    } else if option == "--udp-port" {
      IntIsUniform(c, d, UdpPort, value, f);
    } else if option == "--vid-pt" {
      IntIsUniform(c, d, VidPt, value, f);
    } else if option == "--appsink-max-buffers" {
      IntIsUniform(c, d, MaxBuffers, value, f);
    } else {
      TextIsUniform(c, d, option, value, f);
    }
  }

  lemma SwitchIsUniform(c: AppCfg, d: AppCfg, g: Group, f: Field)
    requires !g.Value?
    ensures Uniform(c, d, Apply(c, g), Apply(d, g), Sets(g, f), f)
  {
  }

  lemma ApplyIsUniform(c: AppCfg, d: AppCfg, g: Group, f: Field)
    ensures Uniform(c, d, Apply(c, g), Apply(d, g), Sets(g, f), f)
  {
    if g.Value? {
      if TakesValue(g.option) {
        ValueIsUniform(c, d, g.option, g.value, f);
      }
    } else {
      SwitchIsUniform(c, d, g, f);
    }
  }

  predicate SetBySome(gs: seq<Group>, f: Field) {
    gs != [] && (Sets(gs[0], f) || SetBySome(gs[1..], f))
  }

  lemma UniformInTurn(c: AppCfg, d: AppCfg, c1: AppCfg, d1: AppCfg, c2: Option<AppCfg>, d2: Option<AppCfg>,
                      first: bool, rest: bool, f: Field)
    requires Uniform(c, d, Some(c1), Some(d1), first, f) && Uniform(c1, d1, c2, d2, rest, f)
    ensures Uniform(c, d, c2, d2, first || rest, f)
  {
  }

  lemma {:induction false} ApplyAllIsUniform(c: AppCfg, d: AppCfg, gs: seq<Group>, f: Field)
    ensures Uniform(c, d, ApplyAll(c, gs), ApplyAll(d, gs), SetBySome(gs, f), f)
    decreases |gs|
  {
    if gs != [] {
      ApplyIsUniform(c, d, gs[0], f);
      if Apply(c, gs[0]).Some? {
        var c1, d1 := Apply(c, gs[0]).value, Apply(d, gs[0]).value;
        ApplyAllIsUniform(c1, d1, gs[1..], f);
        UniformInTurn(c, d, c1, d1, ApplyAll(c1, gs[1..]), ApplyAll(d1, gs[1..]),
                      Sets(gs[0], f), SetBySome(gs[1..], f), f);
      }
    }
  }

  /** Options always win: with the same options, two command lines agree on every field some option sets,
      whatever configuration files they name and whatever is in those; and a field no option sets keeps
      what the files gave it. */
  lemma OptionsWin(program: string, gs: seq<Group>, hs: seq<Group>, load: Loader, other: Loader, f: Field)
    requires (forall g <- gs :: WellFormed(g)) && (forall h <- hs :: WellFormed(h)) && Options(gs) == Options(hs)
    requires Parse(CommandLine(program, gs), load).Parsed? && Parse(CommandLine(program, hs), other).Parsed?
    ensures var p, q, loaded := Parse(CommandLine(program, gs), load), Parse(CommandLine(program, hs), other),
                                LoadAll(DEFAULTS, Files(gs), load);
            if SetBySome(Options(gs), f) then Agree(p.cfg, q.cfg, f)
            else loaded.Some? && Agree(p.cfg, loaded.value, f)
  {
    FilesThenOptions(program, gs, load);
    FilesThenOptions(program, hs, other);
    var c, d := LoadAll(DEFAULTS, Files(gs), load).value, LoadAll(DEFAULTS, Files(hs), other).value;
    ApplyAllIsUniform(c, d, Options(gs), f);
  }

  // ---------- every configuration can be given by options ----------

  function Switches(cfg: AppCfg): seq<Group> {
    (if cfg.record.enable then [] else [NoRecordVideo]) + (if cfg.gstLog then [GstLog] else [])
  }

  function TextValues(cfg: AppCfg): seq<Group> {
    [Value("--card", cfg.cardPath), Value("--connector", cfg.connectorName)]
  }

  function NumberValues(cfg: AppCfg): seq<Group> {
    [Value("--plane-id", Decimal(cfg.planeId)), Value("--udp-port", Decimal(cfg.udpPort)),
     Value("--vid-pt", Decimal(cfg.vidPt)), Value("--appsink-max-buffers", Decimal(cfg.maxBuffers))]
  }

  function RecordValues(cfg: AppCfg): seq<Group> {
    [Value("--record-mode", ModeName(cfg.record.mode)), RecordVideoTo(cfg.record.outputPath)]
  }

  function AsOptions(cfg: AppCfg): seq<Group> {
    TextValues(cfg) + (NumberValues(cfg) + (RecordValues(cfg) + Switches(cfg)))
  }

  lemma ApplyAt(c: AppCfg, gs: seq<Group>, k: nat)
    requires k < |gs| && Apply(c, gs[k]).Some?
    ensures ApplyAll(c, gs[k..]) == ApplyAll(Apply(c, gs[k]).value, gs[k + 1..])
  {
    assert gs[k..][1..] == gs[k + 1..];
  }

  lemma {:induction false} ApplyAllAppend(c: AppCfg, a: seq<Group>, b: seq<Group>)
    requires ApplyAll(c, a).Some?
    ensures ApplyAll(c, a + b) == ApplyAll(ApplyAll(c, a).value, b)
    decreases |a|
  {
    if a == [] {
      assert a + b == b;
    } else {
      assert (a + b)[1..] == a[1..] + b;
      ApplyAllAppend(Apply(c, a[0]).value, a[1..], b);
    }
  }

  lemma ApplyTexts(c: AppCfg, cfg: AppCfg)
    requires Ini.Fits(cfg)
    ensures ApplyAll(c, TextValues(cfg)) == Some(c.(cardPath := cfg.cardPath, connectorName := cfg.connectorName))
  {
    var s := TextValues(cfg);
    assert s[0..] == s;
    ApplyAt(c, s, 0);
    ApplyAt(c.(cardPath := cfg.cardPath), s, 1);
  }

  lemma NumberTaken(c: AppCfg, option: string, field: IntField, v: int)
    requires Ini.IsInt(v)
    requires (option, field) in {("--plane-id", PlaneId), ("--udp-port", UdpPort), ("--vid-pt", VidPt),
                                 ("--appsink-max-buffers", MaxBuffers)}
    ensures Apply(c, Value(option, Decimal(v)))
            == Some(match field
                    case PlaneId => c.(planeId := v)
                    case UdpPort => c.(udpPort := v)
                    case VidPt => c.(vidPt := v)
                    case MaxBuffers => c.(maxBuffers := v))
  {
    DecimalParses(v);
  }

  lemma ApplyNumbers(c: AppCfg, cfg: AppCfg)
    requires Ini.Fits(cfg)
    ensures ApplyAll(c, NumberValues(cfg))
            == Some(c.(planeId := cfg.planeId, udpPort := cfg.udpPort,
                       vidPt := cfg.vidPt, maxBuffers := cfg.maxBuffers))
  {
    var s := NumberValues(cfg);
    var c1 := c.(planeId := cfg.planeId);
    var c2 := c1.(udpPort := cfg.udpPort);
    var c3 := c2.(vidPt := cfg.vidPt);
    NumberTaken(c, "--plane-id", PlaneId, cfg.planeId);
    NumberTaken(c1, "--udp-port", UdpPort, cfg.udpPort);
    NumberTaken(c2, "--vid-pt", VidPt, cfg.vidPt);
    NumberTaken(c3, "--appsink-max-buffers", MaxBuffers, cfg.maxBuffers);
    assert s[0..] == s;
    ApplyAt(c, s, 0);
    ApplyAt(c1, s, 1);
    ApplyAt(c2, s, 2);
    ApplyAt(c3, s, 3);
  }

  lemma ApplyRecord(c: AppCfg, cfg: AppCfg)
    requires Ini.Fits(cfg)
    ensures ApplyAll(c, RecordValues(cfg)) == Some(c.(record := cfg.record.(enable := true)))
  {
    var s := RecordValues(cfg);
    ModeParses(cfg.record.mode);
    assert s[0..] == s;
    ApplyAt(c, s, 0);
    ApplyAt(c.(record := c.record.(mode := cfg.record.mode)), s, 1);
  }

  lemma ApplySwitches(c: AppCfg, cfg: AppCfg)
    requires c.record.enable
    ensures ApplyAll(c, Switches(cfg))
            == Some(c.(gstLog := c.gstLog || cfg.gstLog, record := c.record.(enable := cfg.record.enable)))
  {
    assert [NoRecordVideo][1..] == [] && [GstLog][1..] == [];
    assert [NoRecordVideo] + [GstLog] == [NoRecordVideo, GstLog];
    assert [NoRecordVideo, GstLog][1..] == [GstLog];
  }

  /** Written out as options, settings come back whatever configuration files stand among them; only
      gst_log, which no option clears, may also have been set by a file. */
  lemma OptionsRoundTrip(program: string, gs: seq<Group>, load: Loader, cfg: AppCfg)
    requires Ini.Fits(cfg) && Options(gs) == AsOptions(cfg) && forall g <- gs :: WellFormed(g)
    ensures Parse(CommandLine(program, gs), load)
            == match LoadAll(DEFAULTS, Files(gs), load)
               case None => Failed
               case Some(c) => Parsed(cfg.(configPath := c.configPath, gstLog := c.gstLog || cfg.gstLog))
  {
    FilesThenOptions(program, gs, load);
    match LoadAll(DEFAULTS, Files(gs), load)
    case None =>
    case Some(c) =>
      var c1 := c.(cardPath := cfg.cardPath, connectorName := cfg.connectorName);
      var c2 := cfg.(configPath := c.configPath, gstLog := c.gstLog, record := c.record);
      var c3 := c2.(record := cfg.record.(enable := true));
      ApplyTexts(c, cfg);
      ApplyNumbers(c1, cfg);
      ApplyRecord(c2, cfg);
      ApplySwitches(c3, cfg);
      ApplyAllAppend(c, TextValues(cfg), NumberValues(cfg) + (RecordValues(cfg) + Switches(cfg)));
      ApplyAllAppend(c1, NumberValues(cfg), RecordValues(cfg) + Switches(cfg));
      ApplyAllAppend(c2, RecordValues(cfg), Switches(cfg));
  }

  // ---------- switches, and command lines refused ----------

  /** An empty path loads nothing; one too long for its field is cut before it is opened. */
  lemma PathsAreCut(path: string, cfg: AppCfg, load: Loader)
    ensures path == "" ==> LoadConfig(path, cfg, load) == Some(cfg.(configPath := ""))
    ensures 0 < |path| < 4096 ==> LoadConfig(path, cfg, load) == load(path, cfg.(configPath := path))
    ensures |path| >= 4096 ==> LoadConfig(path, cfg, load) == load(path[..4095], cfg.(configPath := path[..4095]))
  {
  }

  /** Without options the settings are the documented defaults. */
  lemma NoOptionsNoChange(program: string, load: Loader)
    ensures Parse([program], load)
            == Parsed(AppCfg("/dev/dri/card0", "", "", 76, 5600, 97, 4, false, RecordCfg(false, "/media", Sequential)))
  {
  }

  lemma {:induction false} ApplyAllLast(c: AppCfg, gs: seq<Group>, g: Group)
    ensures ApplyAll(c, gs + [g])
            == match ApplyAll(c, gs)
               case None => None
               case Some(d) => Apply(d, g)
    decreases |gs|
  {
    if gs == [] {
      assert gs + [g] == [g];
      assert [g][1..] == [];
    } else {
      assert (gs + [g])[1..] == gs[1..] + [g];
      match Apply(c, gs[0])
      case None =>
      case Some(d) => ApplyAllLast(d, gs[1..], g);
    }
  }

  /** The last switch decides: --record-video, with a path or without, enables recording (a path becomes the
      output path, cut to its field), --no-record-video disables it, --gst-log turns the log on. */
  lemma LastSwitchDecides(program: string, gs: seq<Group>, g: Group, load: Loader)
    requires WellFormed(g) && forall x <- gs :: WellFormed(x)
    requires Parse(CommandLine(program, gs + [g]), load).Parsed?
    ensures var cfg := Parse(CommandLine(program, gs + [g]), load).cfg;
            match g
            case RecordVideo => cfg.record.enable
            case RecordVideoTo(path) =>
              cfg.record.enable && cfg.record.outputPath == (if |path| < 4096 then path else path[..4095])
            case NoRecordVideo => !cfg.record.enable
            case GstLog => cfg.gstLog
            case _ => true
  {
    FilesThenOptions(program, gs + [g], load);
    ProjectionsAppend(gs, [g]);
    if !g.ConfigFile? {
      assert [g][1..] == [];
      assert Files([g]) == [] && Options([g]) == [g];
      var c := LoadAll(DEFAULTS, Files(gs) + [], load);
      assert Files(gs) + [] == Files(gs);
      ApplyAllLast(c.value, Options(gs), g);
    }
  }

  lemma {:induction false} BadGroupFails(c: AppCfg, gs: seq<Group>, k: nat)
    requires k < |gs| && forall d: AppCfg :: Apply(d, gs[k]).None?
    ensures ApplyAll(c, gs).None?
    decreases |gs|
  {
    if k > 0 {
      match Apply(c, gs[0])
      case None =>
      case Some(d) => BadGroupFails(d, gs[1..], k - 1);
    }
  }

  /** An option whose value is no number, or no recording mode, makes the command line fail. */
  lemma BadValueFails(program: string, gs: seq<Group>, option: string, value: string, load: Loader)
    requires (forall x <- gs :: WellFormed(x)) && Value(option, value) in Options(gs)
    requires || (option in {"--plane-id", "--udp-port", "--vid-pt", "--appsink-max-buffers"} && ParseInt(value).None?)
             || (option == "--record-mode" && ParseMode(value).None?)
    ensures Parse(CommandLine(program, gs), load) == Failed
  {
    FilesThenOptions(program, gs, load);
    match LoadAll(DEFAULTS, Files(gs), load)
    case None =>
    case Some(c) =>
      var k :| 0 <= k < |Options(gs)| && Options(gs)[k] == Value(option, value);
      BadGroupFails(c, Options(gs), k);
  }

  /** A word that is no option, or an option left without its value, at the end of an otherwise good command
      line makes it fail. */
  lemma BadEndFails(program: string, gs: seq<Group>, word: string, load: Loader)
    requires forall x <- gs :: WellFormed(x)
    requires word !in {"--record-video", "--no-record-video", "--gst-log", "--verbose", "--help", "-h"}
    requires gs == [] || !gs[|gs| - 1].RecordVideo? || Dashed(word)
    ensures Parse(CommandLine(program, gs) + [word], load) == Failed
  {
    var args := CommandLine(program, gs) + [word];
    assert args[1..] == AllWords(gs) + [word];
    FirstPassToEnd(args, 1, gs, word, DEFAULTS, load);
    match LoadAll(DEFAULTS, Files(gs), load)
    case None =>
    case Some(c) =>
      if word != "--config" {
        SecondPassToEnd(args, 1, gs, word, c);
      }
  }

  lemma WordsBefore(args: seq<string>, i: nat, gs: seq<Group>, word: string)
    requires i <= |args| && args[i..] == AllWords(gs) + [word] && gs != []
    ensures i + |Words(gs[0])| < |args|
    ensures args[i + |Words(gs[0])|..] == AllWords(gs[1..]) + [word]
    ensures forall k :: 0 <= k < |Words(gs[0])| ==> args[i + k] == Words(gs[0])[k]
  {
    var n := |Words(gs[0])|;
    assert args[i..] == Words(gs[0]) + (AllWords(gs[1..]) + [word]);
    assert args[i + n..] == args[i..][n..];
    assert forall k :: 0 <= k < n ==> args[i + k] == args[i..][k];
  }

  lemma {:induction false} FirstPassToEnd(
    args: seq<string>, i: nat, gs: seq<Group>, word: string, cfg: AppCfg, load: Loader)
    requires i <= |args| && args[i..] == AllWords(gs) + [word] && !AsksForHelp(word)
    requires forall g <- gs :: WellFormed(g)
    ensures FirstPass(args, i, cfg, load)
            == match LoadAll(cfg, Files(gs), load)
               case None => Failed
               case Some(c) => if word == "--config" then Failed else Parsed(c)
    decreases |gs|
  {
    if gs == [] {
      assert args[i..] == [word];
      assert args[i] == word && i + 1 == |args|;
    } else {
      var g, rest := gs[0], gs[1..];
      WordsBefore(args, i, gs, word);
      assert args[i] == Words(g)[0];
      var next := i + |Words(g)|;
      if g.ConfigFile? {
        assert args[i + 1] == g.path;
        assert Files(gs)[1..] == Files(rest);
        match LoadConfig(g.path, cfg, load)
        case None =>
        case Some(c) => FirstPassToEnd(args, next, rest, word, c, load);
      } else {
        FirstPassToEnd(args, next, rest, word, cfg, load);
        FirstPassSkips(args, i, g, cfg, load);
      }
    }
  }

  lemma {:induction false} SecondPassToEnd(args: seq<string>, i: nat, gs: seq<Group>, word: string, cfg: AppCfg)
    requires i <= |args| && args[i..] == AllWords(gs) + [word] && word != "--config"
    requires word !in {"--record-video", "--no-record-video", "--gst-log", "--verbose"}
    requires gs == [] || !gs[|gs| - 1].RecordVideo? || Dashed(word)
    requires forall g <- gs :: WellFormed(g)
    ensures SecondPass(args, i, cfg) == Failed
    decreases |gs|
  {
    if gs == [] {
      assert args[i..] == [word];
      assert args[i] == word && i + 1 == |args|;
    } else {
      var g, rest := gs[0], gs[1..];
      WordsBefore(args, i, gs, word);
      var next := i + |Words(g)|;
      assert args[next] == args[next..][0];
      if rest != [] {
        HeadIsDashed(rest);
      }
      SecondPassTakes(args, i, g, cfg);
      match Apply(cfg, g)
      case None =>
      case Some(c) => SecondPassToEnd(args, next, rest, word, c);
    }
  }

  // ---------- with configuration files ----------

  /** cfg_load_file over a file system. */
  function FromFiles(files: map<string, string>): Loader {
    (path: string, cfg: AppCfg) => if path in files then Some(Ini.Load(cfg, files[path])) else None
  }

  /** Settings written in the documented layout come back through --config, under the options given. */
  lemma WrittenSettingsUnderOptions(
    program: string, files: map<string, string>, path: string, cfg: AppCfg, gs: seq<Group>)
    requires path in files && files[path] == Ini.Render(cfg) && Ini.Writable(cfg) && 0 < |path| < PATH_SIZE
    requires forall g <- gs :: WellFormed(g) && !g.ConfigFile?
    ensures Parse(CommandLine(program, [ConfigFile(path)] + gs), FromFiles(files))
            == FromOption(ApplyAll(cfg.(configPath := path), gs))
  {
    var load := FromFiles(files);
    var c := ConfigFile(path);
    FilesThenOptions(program, [c] + gs, load);
    ProjectionsAppend([c], gs);
    assert [c][1..] == [];
    assert Files([c]) == [path] && Options([c]) == [];
    OptionsOnly(gs);
    assert [path] + [] == [path] && [] + gs == gs;
    Ini.RoundTrip(DEFAULTS.(configPath := path), cfg);
    assert [path][1..] == [];
    assert LoadAll(DEFAULTS, [path], load) == LoadAll(cfg.(configPath := path), [], load);
  }

  lemma {:induction false} OptionsOnly(gs: seq<Group>)
    requires forall g <- gs :: !g.ConfigFile?
    ensures Files(gs) == [] && Options(gs) == gs
    decreases |gs|
  {
    if gs != [] {
      OptionsOnly(gs[1..]);
    }
  }
}
