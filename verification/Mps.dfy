/** The emulated device as an object (application/src/scanivalve/mps.cpp): its fields are updated
    in place by commands and by the scan thread.  Every method is tied to the function of Device
    that specifies it. */
module Mps {
  import opened StringUtils
  import opened Numbers
  import opened Protocol
  import D = Device

  class Mps {
    const protocol: Protocol
    var cfg: Config
    var status: Status
    var scanning: bool
    var calibrating: bool
    var averages: nat             // m_nSubFrameAverages
    var scanStart: int
    var useLabview: bool
    var useBinary: bool
    var useRaw: bool
    var zeroPad: bool
    var packetType: D.PacketType
    var physicalPressure: nat     // channel counts
    var physicalTemperature: nat
    var packetPressure: nat
    var packetTemperature: nat
    var erange: bool              // errno == ERANGE

    function Layout(): D.Layout
      reads this
    {
      D.Layout(useLabview, useBinary, useRaw, zeroPad, packetType,
               physicalPressure, physicalTemperature, packetPressure, packetTemperature)
    }

    function View(): D.Device
      reads this
    {
      D.Device(cfg, status, scanning, calibrating, averages, scanStart, Layout(), erange)
    }

    constructor (protocol: Protocol, cfg: Config)
      ensures this.protocol == protocol && View() == D.Fresh(cfg)
    {
      this.protocol, this.cfg := protocol, cfg;
      status, scanning, calibrating := READY, false, false;
      averages, scanStart := 1, 0;
      useLabview, useBinary, useRaw, zeroPad := false, false, false, true;
      packetType := D.Legacy;
      physicalPressure, physicalTemperature, packetPressure, packetTemperature := 64, 8, 64, 8;
      erange := false;
    }

    // ---- Scan control -----------------------------------------------------------------------------

    method CalZ()
      modifies this`calibrating, this`status
      ensures View() == D.CalZ(old(View()))
    {
      calibrating := true;
      status := CALZ;
    }

    method UpdateScanAverages(amb: Ambient)
      modifies this`averages
      ensures View() == D.UpdateScanAverages(old(View()), amb)
    {
      if cfg.rate >= 500.0 {
        averages := 1;
      } else {
        averages := D.AveragesFor(cfg.rate, amb);
      }
    }

    method ConfigureScanLayout()
      modifies this`useLabview, this`useBinary, this`useRaw, this`zeroPad, this`packetType
      modifies this`physicalPressure, this`physicalTemperature, this`packetPressure, this`packetTemperature
      ensures Layout() == D.LayoutFor(protocol, cfg, old(Layout()))
    {
      useLabview := cfg.binary.LABVIEW?;
      useBinary := D.WantsBinary(cfg);
      useRaw := cfg.units == protocol.rawUnits;
      zeroPad := D.Simulated64(cfg.sim);
      CountPhysicalChannels();
      CountPacketChannels();
      ChoosePacketType();
    }

    method CountPhysicalChannels()
      modifies this`physicalPressure, this`physicalTemperature
      ensures physicalPressure == D.PhysicalPressure(cfg.device, old(physicalPressure))
      ensures physicalTemperature == D.PhysicalTemperature(cfg.device, old(physicalTemperature))
    {
      match cfg.device {
        case MPS4264 => physicalPressure, physicalTemperature := 64, 8;
        case MPS4232 => physicalPressure, physicalTemperature := 32, 4;
        case MPS4216 => physicalPressure, physicalTemperature := 16, 4;
        case OtherDevice =>
      }
    }

    method CountPacketChannels()
      modifies this`packetPressure, this`packetTemperature
      ensures packetPressure == if zeroPad then 64 else physicalPressure
      ensures packetTemperature == if zeroPad then 8 else physicalTemperature
    {
      packetPressure, packetTemperature := physicalPressure, physicalTemperature;
      if zeroPad {
        packetPressure, packetTemperature := 64, 8;
      }
    }

    method ChoosePacketType()
      modifies this`packetType
      ensures packetType == if useBinary then D.TypeFor(cfg, useRaw, zeroPad) else D.Undefined
    {
      packetType := D.Undefined;
      if useBinary {
        if zeroPad {
          packetType := D.Legacy;
        } else {
          match cfg.device {
            case MPS4264 => packetType := if useRaw then D.Raw(64) else D.Plain(64);
            case MPS4232 => packetType := if useRaw then D.Raw(32) else D.Plain(32);
            case MPS4216 => packetType := if useRaw then D.Raw(16) else D.Plain(16);
            case OtherDevice =>
          }
        }
      }
    }

    method StartScan(amb: Ambient)
      modifies this
      ensures View() == D.StartScan(protocol, old(View()), amb)
    {
      if scanning {
        return;
      }
      ghost var before := View();
      scanStart := amb.now;
      ConfigureScanLayout();
      assert View() == before.(scanStart := amb.now, layout := D.LayoutFor(protocol, cfg, before.layout));
      UpdateScanAverages(amb);
      scanning := true;
      status := SCAN;
    }

    method StopScan()
      modifies this`scanning, this`status
      ensures View() == D.StopScan(old(View()))
    {
      if !scanning {
        return;
      }
      scanning := false;
      if status != READY {
        status := READY;
      }
    }

    // ---- SET ------------------------------------------------------------------------------------------

    method SetDataFormat(kind: char, f: char) returns (ok: bool)
      modifies this`cfg
      ensures (cfg, ok) == D.SetDataFormat(old(cfg), kind, f)
    {
      var format := FormatFromChar(f);
      if kind == 'T' || kind == 't' {
        if !(f in "AaFfCc") {
          return false;
        }
        cfg := cfg.(telnet := format.value);
        return true;
      }
      if kind == 'F' || kind == 'f' {
        if !(f in "AaBbCc") {
          return false;
        }
        cfg := cfg.(ftpUdp := format.value);
        return true;
      }
      if kind == 'B' || kind == 'b' {
        if !(f in "BbLl") {
          return false;
        }
        cfg := cfg.(binary := format.value);
        return true;
      }
      return false;
    }

    /** The loop over the pairs of SET FORMAT. */
    method SetFormats(tokens: seq<string>) returns (failure: Option<string>)
      requires |tokens| >= 2
      modifies this`cfg
      ensures (cfg, failure) == D.SetFormats(old(cfg), tokens, 2)
    {
      var i := 2;
      while i < |tokens|
        invariant 2 <= i
        invariant D.SetFormats(old(cfg), tokens, 2) == D.SetFormats(cfg, tokens, i)
        decreases |tokens| - i
      {
        if i + 1 >= |tokens| {
          return Some("Invalid Command: `SET FORMAT` requires argument pairs: e.g. SET FORMAT F <format>\r\n>");
        }
        var ok := SetDataFormat(First(tokens[i]), First(tokens[i + 1]));
        if !ok {
          return Some("Invalid Command: SET FORMAT " + tokens[i] + " " + tokens[i + 1] + "\r\n>");
        }
        i := i + 2;
      }
      return None;
    }

    method SetSim(cmd: string, text: string) returns (response: string)
      modifies this`cfg, this`erange
      ensures (View(), response) == D.SetSim(protocol, old(View()), cmd, text)
    {
      var s := CString(text);
      var parsed := Strtoul(s, protocol.ulongMax);
      if parsed.outOfRange {
        erange := true;
      }
      if parsed.used == 0 {
        return D.Needs("`SET SIM` requires 1 argument: SET SIM <SIM>");
      }
      if parsed.used != |s| {
        return "Invalid Command: `SET SIM`" + cmd + "\r\n>";
      }
      if erange || parsed.value > 65535 {
        return "Invalid Command: " + cmd + " Value out of range [0-65535]\r\n>";
      }
      cfg := cfg.(sim := parsed.value);
      return D.Echo(cmd);
    }

    method SetRate(cmd: string, tokens: seq<string>, amb: Ambient) returns (response: string)
      requires |tokens| >= 2 && D.SettingOf(tokens[1]).RATE?
      modifies this`cfg, this`averages
      ensures (View(), response) == D.Set(protocol, old(View()), cmd, tokens, amb)
    {
      if |tokens| < 3 {
        return D.Needs("`SET RATE` requires at least 1 arguments: SET RATE <rate>");
      }
      var rate := protocol.scanRate(tokens[2]);
      if rate.Some? {
        cfg := cfg.(rate := rate.value);
      }
      UpdateScanAverages(amb);
      return D.Echo(cmd);
    }

    method SetUnits(cmd: string, tokens: seq<string>, amb: Ambient) returns (response: string)
      requires |tokens| >= 2 && D.SettingOf(tokens[1]).UNITS?
      modifies this`cfg
      ensures (View(), response) == D.Set(protocol, old(View()), cmd, tokens, amb)
    {
      if |tokens| < 3 {
        return D.Needs("`SET UNITS` requires 1 argument: SET UNITS <UNIT>");
      }
      var units := protocol.unitsNamed(CString(tokens[2]));
      if units.None? {
        return "Invalid Command: SET UNITS " + tokens[2] + " (case sensitive)\r\n>";
      }
      cfg := cfg.(units := units.value);
      return D.Echo(cmd);
    }

    method SetNumber(cmd: string, tokens: seq<string>, amb: Ambient) returns (response: string)
      requires |tokens| >= 2 && D.SettingOf(tokens[1]) in {D.FPS, D.ENUDP, D.ENFTP}
      modifies this`cfg
      ensures (View(), response) == D.Set(protocol, old(View()), cmd, tokens, amb)
    {
      var setting := D.SettingOf(tokens[1]);
      if setting.FPS? {
        if |tokens| < 3 {
          return D.Needs("`SET FPS` requires 1 argument: SET FPS <fps>");
        }
        cfg := cfg.(fps := D.Stored(tokens[2], cfg.fps, 0x1_0000_0000, amb));
      } else if setting.ENUDP? {
        if |tokens| < 3 {
          return D.Needs("`SET ENUDP` requires 1 argument: SET ENUDP <0 or 1>");
        }
        cfg := cfg.(udpEnabled := D.Flag(tokens[2], amb));
      } else {
        if |tokens| < 3 {
          return D.Needs("`SET FTP` requires 1 argument: SET ENUDP <0 or 1>");
        }
        cfg := cfg.(ftpEnabled := D.Flag(tokens[2], amb));
      }
      return D.Echo(cmd);
    }

    method SetTarget(cmd: string, tokens: seq<string>, amb: Ambient) returns (response: string)
      requires |tokens| >= 2 && D.SettingOf(tokens[1]).IPUDP?
      modifies this`cfg
      ensures (View(), response) == D.Set(protocol, old(View()), cmd, tokens, amb)
    {
      if |tokens| < 4 {
        return D.Needs("`SET IPUDP` requires 2 argument: SET IPUDP <ip> <port>");
      }
      cfg := cfg.(udpTarget := tokens[2]);
      cfg := cfg.(udpPort := D.Stored(tokens[3], cfg.udpPort, 0x1_0000, amb));
      return D.Echo(cmd);
    }

    method SetFormat(cmd: string, tokens: seq<string>, amb: Ambient) returns (response: string)
      requires |tokens| >= 2 && D.SettingOf(tokens[1]).FORMAT?
      modifies this`cfg
      ensures (View(), response) == D.Set(protocol, old(View()), cmd, tokens, amb)
    {
      var failure := SetFormats(tokens);
      return if failure.Some? then failure.value else "SET FORMAT" + D.FormatText(cfg) + "\r\n>";
    }

    method SetFlags(cmd: string, tokens: seq<string>, amb: Ambient) returns (response: string)
      requires |tokens| >= 2 && D.SettingOf(tokens[1]).SIM?
      modifies this`cfg, this`erange
      ensures (View(), response) == D.Set(protocol, old(View()), cmd, tokens, amb)
    {
      if |tokens| < 3 {
        return D.Needs("`SET SIM` requires 1 argument: SET SIM <SIM>");
      }
      response := SetSim(cmd, tokens[2]);
    }

    method Set(cmd: string, tokens: seq<string>, amb: Ambient) returns (response: string)
      requires tokens != []
      modifies this`cfg, this`averages, this`erange
      ensures (View(), response) == D.Set(protocol, old(View()), cmd, tokens, amb)
    {
      if |tokens| < 2 {
        return D.Needs("`SET` requires arguments");
      }
      match D.SettingOf(tokens[1]) {
        case RATE => response := SetRate(cmd, tokens, amb); return;
        case FPS => response := SetNumber(cmd, tokens, amb); return;
        case ENUDP => response := SetNumber(cmd, tokens, amb); return;
        case ENFTP => response := SetNumber(cmd, tokens, amb); return;
        case IPUDP => response := SetTarget(cmd, tokens, amb); return;
        case FORMAT => response := SetFormat(cmd, tokens, amb); return;
        case UNITS => response := SetUnits(cmd, tokens, amb); return;
        case SIM => response := SetFlags(cmd, tokens, amb); return;
        case NoSetting => return D.Invalid(cmd);
      }
    }

    // ---- LIST -----------------------------------------------------------------------------------------

    method List(cmd: string, tokens: seq<string>) returns (response: string)
      requires tokens != []
      ensures response == D.List(protocol, View(), cmd, tokens)
    {
      if |tokens| < 2 {
        return D.Needs("`LIST` requires arguments");
      }
      match D.ListingOf(tokens[1]) {
        case ListScan => response := ListScan(); return;
        case ListUdp => response := ListUdp(); return;
        case ListMisc => response := ListMisc(); return;
        case NoListing => return D.Invalid(cmd);
      }
    }

    method ListScan() returns (out: string)
      ensures out == D.Print(D.Lines(protocol, cfg, D.ListScan))
    {
      ghost var lines := [];
      out := "";
      out, lines := PutLine(out, lines, "SET RATE " + protocol.rateText(cfg.rate));
      out, lines := PutLine(out, lines, "SET FPS " + Decimal(cfg.fps));
      out, lines := PutLine(out, lines,
          "SET UNITS " + (protocol.unitsName(cfg.units) + (" " + protocol.conversionText(cfg.units))));
      out, lines := PutLine(out, lines, "SET FORMAT" + D.FormatText(cfg));
      out, lines := PutLine(out, lines, "SET TRIG 0 ");
      out, lines := PutLine(out, lines, "SET ENFTP " + ((if cfg.ftpEnabled then "1" else "0") + " "));
      PrintWritten(lines);
      assert lines == D.Lines(protocol, cfg, D.ListScan);
      out := out + ">";
    }

    method ListUdp() returns (out: string)
      ensures out == D.Print(D.Lines(protocol, cfg, D.ListUdp))
    {
      ghost var lines := [];
      out := "";
      out, lines := PutLine(out, lines, "SET ENUDP " + (if cfg.udpEnabled then "1" else "0"));
      out, lines := PutLine(out, lines, "SET IPUDP " + (cfg.udpTarget + (" " + Decimal(cfg.udpPort))));
      PrintWritten(lines);
      assert lines == D.Lines(protocol, cfg, D.ListUdp);
      out := out + ">";
    }

    method ListMisc() returns (out: string)
      ensures out == D.Print(D.Lines(protocol, cfg, D.ListMisc))
    {
      ghost var lines := [];
      out := "";
      out, lines := PutLine(out, lines, "SET SIM " + Decimal(cfg.sim));
      out, lines := PutLine(out, lines, "SET ECHO 1");
      out, lines := PutLine(out, lines, "SET XITE 2");
      out, lines := PutLine(out, lines, "SET ETOL 0");
      PrintWritten(lines);
      assert lines == D.Lines(protocol, cfg, D.ListMisc);
      out := out + ">";
    }

    // ---- ParseCommands ------------------------------------------------------------------------------

    method ParseCommands(cmd: string, amb: Ambient) returns (response: string)
      modifies this
      ensures (View(), response) == D.Parse(protocol, old(View()), cmd, amb)
    {
      var tokens := SplitString(cmd, SEPARATORS);
      match D.VerbOf(tokens[0]) {
        case VER => return protocol.versionText;
        case STATUS => return "STATUS: " + protocol.statusName(status) + "\r\n>";
        case CALZERO => CalZ(); return "";
        case SCANNING => StartScan(amb); return "Scan started ..";
        case STOP => StopScan(); return "";
        case SET => response := Set(cmd, tokens, amb); return;
        case GET => return D.Get(protocol, View(), cmd, tokens);
        case LIST => response := List(cmd, tokens); return;
        case NoVerb => return D.Invalid(cmd);
      }
    }
  }

  // ---- The string stream that a listing is written to -------------------------------------------------

  ghost function Written(lines: seq<string>): string {
    if lines == [] then "" else lines[0] + ("\r\n" + Written(lines[1..]))
  }

  lemma {:induction false} PrintWritten(lines: seq<string>)
    ensures D.Print(lines) == Written(lines) + ">"
  {
    if lines == [] {
    } else {
      PrintWritten(lines[1..]);
      Regroup(lines[0], "\r\n", Written(lines[1..]), ">");
    }
  }

  lemma Regroup(a: string, b: string, c: string, d: string)
    ensures a + (b + (c + d)) == (a + (b + c)) + d
  {
  }

  lemma {:induction false} WrittenPut(lines: seq<string>, line: string)
    ensures Written(lines + [line]) == Written(lines) + (line + "\r\n")
  {
    if lines == [] {
      assert [line][1..] == [] && "\r\n" + "" == "\r\n";
      assert Written([line]) == line + "\r\n";
    } else {
      assert (lines + [line])[1..] == lines[1..] + [line];
      WrittenPut(lines[1..], line);
      Regroup(lines[0], "\r\n", Written(lines[1..]), line + "\r\n");
    }
  }

  method PutLine(out: string, ghost lines: seq<string>, line: string) returns (after: string, ghost all: seq<string>)
    requires out == Written(lines)
    ensures after == out + (line + "\r\n") == Written(all) && all == lines + [line]
  {
    WrittenPut(lines, line);
    return out + (line + "\r\n"), lines + [line];
  }
}
