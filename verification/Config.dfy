/** The settings, their defaults, and the keys by which a configuration file sets them. */
module Config {
  import opened Wrappers
  import opened Text

  datatype RecordMode = Standard | Sequential | Fragmented

  datatype RecordCfg = RecordCfg(enable: bool, outputPath: string, mode: RecordMode)

  datatype AppCfg = AppCfg(
    cardPath: string, connectorName: string, configPath: string,
    planeId: int, udpPort: int, vidPt: int, maxBuffers: int, gstLog: bool, record: RecordCfg)

  // Sizes of the character fields, the terminating NUL included.
  const CARD_PATH_SIZE: nat := 64
  const CONNECTOR_SIZE: nat := 32
  const PATH_SIZE: nat := 4096

  const DEFAULTS: AppCfg :=
    AppCfg("/dev/dri/card0", "", "", 76, 5600, 97, 4, false, RecordCfg(false, "/media", Sequential))

  function ParseMode(s: string): Option<RecordMode> {
    if Same(s, "standard") || Same(s, "default") then Some(Standard)
    else if Same(s, "sequential") || Same(s, "append") then Some(Sequential)
    else if Same(s, "fragmented") || Same(s, "fragment") then Some(Fragmented)
    else None
  }

  function ModeName(mode: RecordMode): string {
    match mode
    case Standard => "standard"
    case Sequential => "sequential"
    case Fragmented => "fragmented"
  }

  function ParseBool(s: string): Option<bool> {
    if Same(s, "true") || Same(s, "yes") || s == "1" then Some(true)
    else if Same(s, "false") || Same(s, "no") || s == "0" then Some(false)
    else None
  }

  function BoolName(b: bool): string { if b then "true" else "false" }

  lemma BoolParses(b: bool)
    ensures ParseBool(BoolName(b)) == Some(b)
  {
  }

  /** The printed name of a mode is read back as that mode. */
  lemma ModeParses(mode: RecordMode)
    ensures ParseMode(ModeName(mode)) == Some(mode)
    ensures ModeName(mode) in {"standard", "sequential", "fragmented"}
  {
    NotSame("sequential", "standard", 1);
    NotSame("fragmented", "standard", 0);
    NotSame("fragmented", "sequential", 0);
  }

  // Every setter keeps the settings as they are when the value is malformed.

  function SetInt(cfg: AppCfg, field: IntField, value: string): AppCfg {
    match ParseInt(value)
    case None => cfg
    case Some(v) =>
      match field
      case PlaneId => cfg.(planeId := v)
      case UdpPort => cfg.(udpPort := v)
      case VidPt => cfg.(vidPt := v)
      case MaxBuffers => cfg.(maxBuffers := v)
  }

  datatype IntField = PlaneId | UdpPort | VidPt | MaxBuffers

  function SetGstLog(cfg: AppCfg, value: string): AppCfg {
    match ParseBool(value)
    case None => cfg
    case Some(b) => cfg.(gstLog := b)
  }

  function SetEnable(cfg: AppCfg, value: string): AppCfg {
    match ParseBool(value)
    case None => cfg
    case Some(b) => cfg.(record := cfg.record.(enable := b))
  }

  function SetMode(cfg: AppCfg, value: string): AppCfg {
    match ParseMode(value)
    case None => cfg
    case Some(mode) => cfg.(record := cfg.record.(mode := mode))
  }

  function SetOutputPath(cfg: AppCfg, value: string): AppCfg {
    cfg.(record := cfg.record.(outputPath := Copied(value, PATH_SIZE)))
  }

  const RECORD_PREFIX: string := "record."

  function HandleGlobalKey(key: string, value: string, cfg: AppCfg): AppCfg {
    if Same(key, "card_path") then cfg.(cardPath := Copied(value, CARD_PATH_SIZE))
    else if Same(key, "connector") || Same(key, "connector_name") then
      cfg.(connectorName := Copied(value, CONNECTOR_SIZE))
    else HandleNumberKey(key, value, cfg)
  }

  function HandleNumberKey(key: string, value: string, cfg: AppCfg): AppCfg {
    if Same(key, "plane_id") then SetInt(cfg, PlaneId, value)
    else if Same(key, "udp_port") then SetInt(cfg, UdpPort, value)
    else if Same(key, "vid_pt") || Same(key, "video_payload_type") then SetInt(cfg, VidPt, value)
    else if Same(key, "appsink_max_buffers") then SetInt(cfg, MaxBuffers, value)
    else if Same(key, "gst_log") then SetGstLog(cfg, value)
    else HandleDottedKey(key, value, cfg)
  }

  /** Outside the [record] section its keys go by their full names. */
  function HandleDottedKey(key: string, value: string, cfg: AppCfg): AppCfg {
    if |key| >= 7 && Same(key[..7], RECORD_PREFIX) then
      var sub := key[7..];
      if Same(sub, "enable") then SetEnable(cfg, value)
      else if Same(sub, "output_path") || Same(sub, "path") then SetOutputPath(cfg, value)
      else if Same(sub, "mode") then SetMode(cfg, value)
      else cfg
    else cfg
  }

  function HandleSectionKey(section: string, key: string, value: string, cfg: AppCfg): AppCfg {
    if Same(section, "video") then HandleGlobalKey(key, value, cfg)
    else if Same(section, "record") then
      if Same(key, "enable") then SetEnable(cfg, value)
      else if Same(key, "output_path") || Same(key, "path") then SetOutputPath(cfg, value)
      else if Same(key, "mode") then SetMode(cfg, value)
      else cfg
    else HandleGlobalKey(key, value, cfg)
  }

  /** A key under the section in force; the empty name means none. */
  function HandleKey(section: string, key: string, value: string, cfg: AppCfg): AppCfg {
    if section != "" then HandleSectionKey(section, key, value, cfg) else HandleGlobalKey(key, value, cfg)
  }

  /** A key in the [record] section acts exactly as record.key does in any other section or in none. */
  lemma RecordKeysAgree(section: string, other: string, prefix: string, key: string, value: string, cfg: AppCfg)
    requires Same(section, "record") && !Same(other, "record") && Same(prefix, RECORD_PREFIX)
    ensures HandleKey(section, key, value, cfg) == HandleKey(other, prefix + key, value, cfg)
  {
    var long := prefix + key;
    NotSame(section, "video", 0);
    assert long[..7] == prefix && long[7..] == key && long[0] == prefix[0];
    assert Lower(long[0]) == Lower(RECORD_PREFIX[0]) == 'r';
    forall name: string | name in ["card_path", "connector", "connector_name", "plane_id", "udp_port", "vid_pt",
                                   "video_payload_type", "appsink_max_buffers", "gst_log"]
      ensures !Same(long, name)
    {
      NotSame(long, name, 0);
    }
  }

  /** The words for the recording modes and for truth values; any other word is refused. */
  lemma WordsTaken(s: string)
    ensures ParseMode(s) == Some(Standard) <==> Same(s, "standard") || Same(s, "default")
    ensures ParseMode(s) == Some(Sequential) <==> Same(s, "sequential") || Same(s, "append")
    ensures ParseMode(s) == Some(Fragmented) <==> Same(s, "fragmented") || Same(s, "fragment")
    ensures ParseBool(s) == Some(true) <==> Same(s, "true") || Same(s, "yes") || s == "1"
    ensures ParseBool(s) == Some(false) <==> Same(s, "false") || Same(s, "no") || s == "0"
  {
    if Same(s, "append") {
      NotSame(s, "standard", 0);
      NotSame(s, "default", 0);
    }
    if Same(s, "sequential") {
      NotSame(s, "fragmented", 0);
    }
    if Same(s, "standard") {
      NotSame(s, "fragment", 0);
    }
    if Same(s, "false") {
      NotSame(s, "true", 0);
    }
  }

  /** The second names of keys do what the first do. */
  lemma SecondNames(value: string, cfg: AppCfg)
    ensures HandleGlobalKey("connector_name", value, cfg) == HandleGlobalKey("connector", value, cfg)
    ensures HandleGlobalKey("video_payload_type", value, cfg) == HandleGlobalKey("vid_pt", value, cfg)
    ensures HandleSectionKey("record", "path", value, cfg) == HandleSectionKey("record", "output_path", value, cfg)
  {
    NotSame("connector", "card_path", 1);
  }

  /** Sections other than [record] are like none at all. */
  lemma OtherSectionsAreGlobal(section: string, key: string, value: string, cfg: AppCfg)
    requires !Same(section, "record")
    ensures HandleKey(section, key, value, cfg) == HandleKey("", key, value, cfg)
  {
  }

  const GLOBAL_NAMES: seq<string> :=
    ["card_path", "connector", "connector_name", "plane_id", "udp_port", "vid_pt", "video_payload_type",
     "appsink_max_buffers", "gst_log"]

  /** A key that is none of the names changes nothing; nor does, in [record], any but its own four. */
  lemma UnknownKeysChangeNothing(key: string, value: string, cfg: AppCfg)
    ensures (forall name <- GLOBAL_NAMES :: !Same(key, name)) && (|key| < 7 || !Same(key[..7], "record.")) ==>
              HandleKey("", key, value, cfg) == cfg
    ensures !Same(key, "enable") && !Same(key, "output_path") && !Same(key, "path") && !Same(key, "mode") ==>
              HandleKey("record", key, value, cfg) == cfg
  {
    assert GLOBAL_NAMES[0] == "card_path" && GLOBAL_NAMES[1] == "connector" && GLOBAL_NAMES[2] == "connector_name";
    assert GLOBAL_NAMES[3] == "plane_id" && GLOBAL_NAMES[4] == "udp_port" && GLOBAL_NAMES[5] == "vid_pt";
    assert GLOBAL_NAMES[6] == "video_payload_type" && GLOBAL_NAMES[7] == "appsink_max_buffers";
    assert GLOBAL_NAMES[8] == "gst_log";
  }

  lemma MalformedNumber(key: string, value: string, cfg: AppCfg)
    requires ParseInt(value).None? && key in {"plane_id", "udp_port", "vid_pt", "appsink_max_buffers"}
    ensures HandleGlobalKey(key, value, cfg) == cfg
  {
    if key == "udp_port" {
      NotSame(key, "plane_id", 0);
    }
  }

  lemma MalformedWord(value: string, cfg: AppCfg)
    ensures ParseBool(value).None? ==> HandleGlobalKey("gst_log", value, cfg) == cfg
    ensures ParseBool(value).None? ==> HandleSectionKey("record", "enable", value, cfg) == cfg
    ensures ParseMode(value).None? ==> HandleSectionKey("record", "mode", value, cfg) == cfg
  {
    NotSame("mode", "path", 0);
  }

  /** A malformed number, truth value or mode leaves the settings as they are. */
  lemma MalformedChangesNothing(key: string, value: string, cfg: AppCfg)
    ensures ParseInt(value).None? && key in {"plane_id", "udp_port", "vid_pt", "appsink_max_buffers"} ==>
              HandleKey("", key, value, cfg) == cfg
    ensures ParseBool(value).None? ==>
              HandleKey("record", "enable", value, cfg) == cfg && HandleKey("", "gst_log", value, cfg) == cfg
    ensures ParseMode(value).None? ==> HandleKey("record", "mode", value, cfg) == cfg
  {
    if ParseInt(value).None? && key in {"plane_id", "udp_port", "vid_pt", "appsink_max_buffers"} {
      MalformedNumber(key, value, cfg);
    }
    MalformedWord(value, cfg);
  }

  /** A string too long for its field loses exactly what does not fit. */
  lemma LongStringsAreCut(value: string, cfg: AppCfg)
    ensures |value| >= 64 ==> HandleKey("video", "card_path", value, cfg).cardPath == value[..63]
    ensures |value| >= 32 ==> HandleKey("video", "connector", value, cfg).connectorName == value[..31]
    ensures |value| >= 4096 ==> HandleKey("record", "output_path", value, cfg).record.outputPath == value[..4095]
  {
    NotSame("connector", "card_path", 1);
  }

  /** No name tells a and b apart. */
  ghost predicate Alike(a: string, b: string) {
    |a| == |b| && forall name: string :: Same(a, name) <==> Same(b, name)
  }

  lemma SameIsAlike(a: string, b: string)
    requires Same(a, b)
    ensures Alike(a, b)
  {
    forall name: string ensures Same(a, name) <==> Same(b, name) {
      if |name| == |a| {
        assert forall i :: 0 <= i < |a| ==> Lower(a[i]) == Lower(b[i]);
      }
    }
  }

  lemma PartsAreSame(a: string, b: string, k: nat)
    requires Same(a, b) && k <= |a|
    ensures Same(a[..k], b[..k]) && Same(a[k..], b[k..])
  {
  }

  lemma DottedKeysIgnoreCase(key: string, key': string, value: string, cfg: AppCfg)
    requires Same(key, key')
    ensures HandleDottedKey(key, value, cfg) == HandleDottedKey(key', value, cfg)
  {
    if |key| >= 7 {
      PartsAreSame(key, key', 7);
      SameIsAlike(key[..7], key'[..7]);
      SameIsAlike(key[7..], key'[7..]);
    }
  }

  lemma NumberKeysIgnoreCase(key: string, key': string, value: string, cfg: AppCfg)
    requires Alike(key, key') && HandleDottedKey(key, value, cfg) == HandleDottedKey(key', value, cfg)
    ensures HandleNumberKey(key, value, cfg) == HandleNumberKey(key', value, cfg)
  {
    assert Same(key, "plane_id") <==> Same(key', "plane_id");
    assert Same(key, "udp_port") <==> Same(key', "udp_port");
    assert Same(key, "vid_pt") <==> Same(key', "vid_pt");
    assert Same(key, "video_payload_type") <==> Same(key', "video_payload_type");
    assert Same(key, "appsink_max_buffers") <==> Same(key', "appsink_max_buffers");
    assert Same(key, "gst_log") <==> Same(key', "gst_log");
  }

  lemma GlobalKeysIgnoreCase(key: string, key': string, value: string, cfg: AppCfg)
    requires Alike(key, key') && HandleNumberKey(key, value, cfg) == HandleNumberKey(key', value, cfg)
    ensures HandleGlobalKey(key, value, cfg) == HandleGlobalKey(key', value, cfg)
  {
  }

  /** Section and key names are read without regard to case. */
  lemma NamesIgnoreCase(section: string, section': string, key: string, key': string, value: string, cfg: AppCfg)
    requires Same(section, section') && Same(key, key')
    ensures HandleKey(section, key, value, cfg) == HandleKey(section', key', value, cfg)
  {
    SameIsAlike(section, section');
    SameIsAlike(key, key');
    DottedKeysIgnoreCase(key, key', value, cfg);
    NumberKeysIgnoreCase(key, key', value, cfg);
    GlobalKeysIgnoreCase(key, key', value, cfg);
    SectionKeysIgnoreCase(section, section', key, key', value, cfg);
  }

  lemma SectionKeysIgnoreCase(section: string, section': string, key: string, key': string, value: string, cfg: AppCfg)
    requires Alike(section, section') && Alike(key, key')
    requires HandleGlobalKey(key, value, cfg) == HandleGlobalKey(key', value, cfg)
    ensures HandleKey(section, key, value, cfg) == HandleKey(section', key', value, cfg)
  {
  }
}
