/** The state of mps::Mps that commands and the scan thread share, and what its methods do to it
    (application/src/scanivalve/mps.cpp). */
module Device {
  import opened StringUtils
  import opened Numbers
  import opened Protocol

  datatype PacketType = Undefined | Legacy | Plain(channels: nat) | Raw(channels: nat)

  /** What ConfigureScanLayout freezes for a scan. */
  datatype Layout = Layout(
    useLabview: bool,
    useBinary: bool,
    useRaw: bool,
    zeroPad: bool,
    packetType: PacketType,
    physicalPressure: nat,
    physicalTemperature: nat,
    packetPressure: nat,
    packetTemperature: nat)

  datatype Device = Device(
    cfg: Config,
    status: Status,
    scanning: bool,
    calibrating: bool,
    averages: nat,         // m_nSubFrameAverages
    scanStart: int,        // m_ScanStartTime, in nanoseconds
    layout: Layout,
    erange: bool)          // errno == ERANGE

  function Fresh(cfg: Config): Device {
    Device(cfg, READY, false, false, 1, 0, Layout(false, false, false, true, Legacy, 64, 8, 64, 8), false)
  }

  // ---- Scan control -----------------------------------------------------------------------------

  function Ceiling(x: real): int { -(-x).Floor }

  /** The sub-frames averaged into a frame: 500 Hz divided by the rate, rounded up. */
  function AveragesFor(rate: real, amb: Ambient): nat {
    if rate >= 500.0 then 1
    else if rate > 0.0 && Ceiling(500.0 / rate) < 0x1_0000_0000 then Ceiling(500.0 / rate)
    else amb.undefinedAverages
  }

  function UpdateScanAverages(d: Device, amb: Ambient): Device {
    d.(averages := AveragesFor(d.cfg.rate, amb))
  }

  /** MPS_SIM_SIMULATED_64CH is bit 6. */
  predicate Simulated64(sim: nat) { sim / 64 % 2 == 1 }

  function PhysicalPressure(device: DeviceId, before: nat): nat {
    match device
    case MPS4264 => 64
    case MPS4232 => 32
    case MPS4216 => 16
    case OtherDevice => before
  }

  function PhysicalTemperature(device: DeviceId, before: nat): nat {
    match device
    case MPS4264 => 8
    case MPS4232 => 4
    case MPS4216 => 4
    case OtherDevice => before
  }

  function TypeFor(cfg: Config, raw: bool, pad: bool): PacketType {
    if pad then Legacy
    else if cfg.device.OtherDevice? then Undefined
    else
      var channels := PhysicalPressure(cfg.device, 0);
      if raw then Raw(channels) else Plain(channels)
  }

  /** Packets are built for the binary server, for UDP or for FTP. */
  predicate WantsBinary(cfg: Config) {
    cfg.binary.BINARY? || (cfg.ftpUdp.BINARY? && (cfg.udpEnabled || cfg.ftpEnabled))
  }

  function LayoutFor(p: Protocol, cfg: Config, before: Layout): Layout {
    var binary := WantsBinary(cfg);
    var raw, pad := cfg.units == p.rawUnits, Simulated64(cfg.sim);
    var pressure := PhysicalPressure(cfg.device, before.physicalPressure);
    var temperature := PhysicalTemperature(cfg.device, before.physicalTemperature);
    Layout(cfg.binary.LABVIEW?, binary, raw, pad,
           if binary then TypeFor(cfg, raw, pad) else Undefined,
           pressure, temperature,
           if pad then 64 else pressure, if pad then 8 else temperature)
  }

  function StartScan(p: Protocol, d: Device, amb: Ambient): Device {
    if d.scanning then d
    else
      UpdateScanAverages(d.(layout := LayoutFor(p, d.cfg, d.layout)), amb)
        .(scanStart := amb.now, scanning := true, status := SCAN)
  }

  function StopScan(d: Device): Device {
    if !d.scanning then d else d.(scanning := false, status := READY)
  }

  function CalZ(d: Device): Device {
    d.(calibrating := true, status := CALZ)
  }

  // ---- Data formats -----------------------------------------------------------------------------

  function SetDataFormat(cfg: Config, kind: char, f: char): (r: (Config, bool))
    ensures r.0 == cfg.(telnet := r.0.telnet, ftpUdp := r.0.ftpUdp, binary := r.0.binary)
  {
    var format := FormatFromChar(f);
    if kind == 'T' || kind == 't' then
      if format.Some? && (format.value.ASCII? || format.value.VT100? || format.value.CSV?)
      then (cfg.(telnet := format.value), true) else (cfg, false)
    else if kind == 'F' || kind == 'f' then
      if format.Some? && (format.value.ASCII? || format.value.BINARY? || format.value.CSV?)
      then (cfg.(ftpUdp := format.value), true) else (cfg, false)
    else if kind == 'B' || kind == 'b' then
      if format.Some? && (format.value.BINARY? || format.value.LABVIEW?)
      then (cfg.(binary := format.value), true) else (cfg, false)
    else (cfg, false)
  }

  function FormatText(cfg: Config): string {
    " T " + ([FormatToChar(cfg.telnet)] + "," + (" F " + ([FormatToChar(cfg.ftpUdp)] + "," +
    (" B " + [FormatToChar(cfg.binary)]))))
  }

  /** SET FORMAT takes pairs of tokens; a pair that fails ends the command, but the pairs before
      it stay in force.  None means success. */
  function SetFormats(cfg: Config, tokens: seq<string>, i: nat): (r: (Config, Option<string>))
    ensures r.0 == cfg.(telnet := r.0.telnet, ftpUdp := r.0.ftpUdp, binary := r.0.binary)
    decreases |tokens| - i
  {
    if i >= |tokens| then (cfg, None)
    else if i + 1 >= |tokens| then
      (cfg, Some("Invalid Command: `SET FORMAT` requires argument pairs: e.g. SET FORMAT F <format>\r\n>"))
    else
      var (next, ok) := SetDataFormat(cfg, First(tokens[i]), First(tokens[i + 1]));
      if !ok then (next, Some("Invalid Command: SET FORMAT " + tokens[i] + " " + tokens[i + 1] + "\r\n>"))
      else SetFormats(next, tokens, i + 2)
  }

  // ---- Words of the command language --------------------------------------------------------------

  datatype Verb = VER | STATUS | CALZERO | SCANNING | STOP | SET | GET | LIST | NoVerb

  function VerbOf(token: string): Verb {
    if token == "VER" || token == "ver" || token == "VERSION" || token == "version" then VER
    else if token == "STATUS" || token == "status" then STATUS
    else if token == "CALZ" || token == "calz" then CALZERO
    else if token == "SCAN" || token == "scan" then SCANNING
    else if token == "STOP" || token == "stop" || First(token) == 27 as char then STOP
    else if token == "SET" || token == "set" then SET
    else if token == "GET" || token == "get" then GET
    else if token == "LIST" || token == "list" then LIST
    else NoVerb
  }

  datatype Setting = RATE | FPS | ENUDP | ENFTP | IPUDP | FORMAT | UNITS | SIM | NoSetting

  /** ENFTP is not recognized in lower case. */
  function SettingOf(token: string): Setting {
    if token == "RATE" || token == "rate" then RATE
    else if token == "FPS" || token == "fps" then FPS
    else if token == "ENUDP" || token == "enudp" then ENUDP
    else if token == "ENFTP" then ENFTP
    else if token == "IPUDP" || token == "ipudp" then IPUDP
    else if token == "FORMAT" || token == "format" then FORMAT
    else if token == "UNITS" || token == "units" then UNITS
    else if token == "SIM" || token == "sim" then SIM
    else NoSetting
  }

  datatype Listing = ListScan | ListUdp | ListMisc | NoListing

  function ListingOf(token: string): Listing {
    if token == "S" || token == "s" then ListScan
    else if token == "UDP" || token == "udp" then ListUdp
    else if token == "M" || token == "m" then ListMisc
    else NoListing
  }

  // ---- ParseCommands ------------------------------------------------------------------------------

  function Echo(cmd: string): string { cmd + "\r\n>" }

  function Invalid(cmd: string): string { "Invalid Command: `" + cmd + "`\r\n>" }

  function Needs(what: string): string { "Invalid Command: " + what + "\r\n>" }

  /** A value that sscanf stores through a pointer: kept when nothing matched, undefined when the
      number does not fit the signed type of the conversion; a negative number wraps, because the
      field is unsigned. */
  function Stored(text: string, before: nat, bits: nat, amb: Ambient): (after: nat)
    requires bits > 0
    ensures before < bits ==> after < bits
  {
    match ScanInt(text)
    case None => before
    case Some(v) => 
      if -(bits / 2) <= v < 0 then v + bits else if 0 <= v < bits / 2 then v else amb.undefinedInt % bits
  }

  /** The boolean read through an uninitialized int. */
  function Flag(text: string, amb: Ambient): bool {
    match ScanInt(text)
    case None => amb.undefinedInt != 0
    case Some(v) => if -0x8000_0000 <= v < 0x8000_0000 then v != 0 else amb.undefinedInt != 0
  }

  function SetSim(p: Protocol, d: Device, cmd: string, text: string): (r: (Device, string))
    ensures r.0 == d.(cfg := d.cfg.(sim := r.0.cfg.sim), erange := r.0.erange)
  {
    var s := CString(text);
    var parsed := Strtoul(s, p.ulongMax);
    var e := d.(erange := d.erange || parsed.outOfRange);
    if parsed.used == 0 then (e, Needs("`SET SIM` requires 1 argument: SET SIM <SIM>"))
    else if parsed.used != |s| then (e, "Invalid Command: `SET SIM`" + cmd + "\r\n>")
    else if e.erange || parsed.value > 65535 then
      (e, "Invalid Command: " + cmd + " Value out of range [0-65535]\r\n>")
    else (e.(cfg := e.cfg.(sim := parsed.value)), Echo(cmd))
  }

  function Set(p: Protocol, d: Device, cmd: string, tokens: seq<string>, amb: Ambient): (Device, string)
    requires tokens != []
  {
    if |tokens| < 2 then (d, Needs("`SET` requires arguments"))
    else
      match SettingOf(tokens[1])
      case RATE =>
        if |tokens| < 3 then (d, Needs("`SET RATE` requires at least 1 arguments: SET RATE <rate>"))
        else
          var rate := match p.scanRate(tokens[2]) { case None => d.cfg.rate case Some(r) => r };
          (UpdateScanAverages(d.(cfg := d.cfg.(rate := rate)), amb), Echo(cmd))
      case FPS =>
        if |tokens| < 3 then (d, Needs("`SET FPS` requires 1 argument: SET FPS <fps>"))
        else (d.(cfg := d.cfg.(fps := Stored(tokens[2], d.cfg.fps, 0x1_0000_0000, amb))), Echo(cmd))
      case ENUDP =>
        if |tokens| < 3 then (d, Needs("`SET ENUDP` requires 1 argument: SET ENUDP <0 or 1>"))
        else (d.(cfg := d.cfg.(udpEnabled := Flag(tokens[2], amb))), Echo(cmd))
      case ENFTP =>
        if |tokens| < 3 then (d, Needs("`SET FTP` requires 1 argument: SET ENUDP <0 or 1>"))
        else (d.(cfg := d.cfg.(ftpEnabled := Flag(tokens[2], amb))), Echo(cmd))
      case IPUDP =>
        if |tokens| < 4 then (d, Needs("`SET IPUDP` requires 2 argument: SET IPUDP <ip> <port>"))
        else
          (d.(cfg := d.cfg.(udpTarget := tokens[2], udpPort := Stored(tokens[3], d.cfg.udpPort, 0x1_0000, amb))),
              Echo(cmd))
      case FORMAT =>
        var (cfg, failure) := SetFormats(d.cfg, tokens, 2);
        (d.(cfg := cfg), if failure.Some? then failure.value else "SET FORMAT" + FormatText(cfg) + "\r\n>")
      case UNITS =>
        if |tokens| < 3 then (d, Needs("`SET UNITS` requires 1 argument: SET UNITS <UNIT>"))
        else
          (match p.unitsNamed(CString(tokens[2]))
           case None => (d, "Invalid Command: SET UNITS " + tokens[2] + " (case sensitive)\r\n>")
           case Some(u) => (d.(cfg := d.cfg.(units := u)), Echo(cmd)))
      case SIM =>
        if |tokens| < 3 then (d, Needs("`SET SIM` requires 1 argument: SET SIM <SIM>"))
        else SetSim(p, d, cmd, tokens[2])
      case NoSetting => (d, Invalid(cmd))
  }

  function Get(p: Protocol, d: Device, cmd: string, tokens: seq<string>): string
    requires tokens != []
  {
    if |tokens| < 2 then Needs("`GET` requires arguments")
    else if tokens[1] == "SN" || tokens[1] == "sn" then "SET SN " + Decimal(d.cfg.serial) + "\r\n>"
    else
      match SettingOf(tokens[1])
      case RATE => "SET RATE " + p.rateText(d.cfg.rate) + "\r\n>"
      case UNITS => "SET UNITS " + p.unitsName(d.cfg.units) + " " + p.conversionText(d.cfg.units) + "\r\n>"
      case FPS => "SET FPS " + Decimal(d.cfg.fps) + "\r\n>"
      case _ => Invalid(cmd)
  }

  /** The lines of a listing, without the prompt that ends it. */
  function Lines(p: Protocol, cfg: Config, listing: Listing): seq<string> {
    match listing
    case ListScan =>
      ["SET RATE " + p.rateText(cfg.rate),
       "SET FPS " + Decimal(cfg.fps),
       "SET UNITS " + (p.unitsName(cfg.units) + (" " + p.conversionText(cfg.units))),
       "SET FORMAT" + FormatText(cfg),
       "SET TRIG 0 ",
       "SET ENFTP " + ((if cfg.ftpEnabled then "1" else "0") + " ")]
    case ListUdp =>
      ["SET ENUDP " + (if cfg.udpEnabled then "1" else "0"),
       "SET IPUDP " + (cfg.udpTarget + (" " + Decimal(cfg.udpPort)))]
    case ListMisc =>
      ["SET SIM " + Decimal(cfg.sim), "SET ECHO 1", "SET XITE 2", "SET ETOL 0"]
    case NoListing => []
  }

  /** Every line with its CR LF, then the prompt. */
  function Print(lines: seq<string>): string {
    if lines == [] then ">" else lines[0] + ("\r\n" + Print(lines[1..]))
  }

  function List(p: Protocol, d: Device, cmd: string, tokens: seq<string>): string
    requires tokens != []
  {
    if |tokens| < 2 then Needs("`LIST` requires arguments")
    else
      var listing := ListingOf(tokens[1]);
      if listing.NoListing? then Invalid(cmd) else Print(Lines(p, d.cfg, listing))
  }

  /** ParseCommands: the device after a command line, and the answer. */
  function Parse(p: Protocol, d: Device, cmd: string, amb: Ambient): (Device, string) {
    var tokens := Split(cmd, SEPARATORS);
    match VerbOf(tokens[0])
    case VER => (d, p.versionText)
    case STATUS => (d, "STATUS: " + p.statusName(d.status) + "\r\n>")
    case CALZERO => (CalZ(d), "")
    case SCANNING => (StartScan(p, d, amb), "Scan started ..")
    case STOP => (StopScan(d), "")
    case SET => Set(p, d, cmd, tokens, amb)
    case GET => (d, Get(p, d, cmd, tokens))
    case LIST => (d, List(p, d, cmd, tokens))
    case NoVerb => (d, Invalid(cmd))
  }
}
