/** What the command interpreter keeps over any sequence of commands, and how command lines and
    listings are split. */
module CommandProofs {
  import opened StringUtils
  import opened Numbers
  import opened Protocol
  import opened Device
  import LineEditor

  /** What each command of a sequence meets of the clock and of undefined values: its own. */
  type Ambients = nat -> Ambient

  /** What a command does to a device. */
  type Interpreter = (Device, string, Ambient) -> Device

  function Interpret(p: Protocol): Interpreter {
    (d, cmd, amb) => Parse(p, d, cmd, amb).0
  }

  /** Command lines executed one after the other, the first of them as number i. */
  function Execute(step: Interpreter, d: Device, cmds: seq<string>, ambs: Ambients, i: nat): Device
    decreases |cmds|
  {
    if cmds == [] then d else Execute(step, step(d, cmds[0], ambs(i)), cmds[1..], ambs, i + 1)
  }

  function ParseAll(p: Protocol, d: Device, cmds: seq<string>, ambs: Ambients, i: nat): Device {
    Execute(Interpret(p), d, cmds, ambs, i)
  }

  lemma {:induction false} ExecuteConcat(step: Interpreter, d: Device, first: seq<string>, second: seq<string>,
          ambs: Ambients, i: nat)
    ensures Execute(step, d, first + second, ambs, i) ==
            Execute(step, Execute(step, d, first, ambs, i), second, ambs, i + |first|)
    decreases |first|
  {
    if first == [] {
      assert first + second == second;
    } else {
      assert (first + second)[1..] == first[1..] + second;
      ExecuteConcat(step, step(d, first[0], ambs(i)), first[1..], second, ambs, i + 1);
    }
  }

  // ---- The configuration invariant ----------------------------------------------------------------

  /** The formats that each channel supports, a UDP target that can be printed as one token, and
      numbers within their fields. */
  ghost predicate ConfigInv(p: Protocol, cfg: Config) {
    && cfg.telnet in {ASCII, VT100, CSV}
    && cfg.ftpUdp in {ASCII, BINARY, CSV}
    && cfg.binary in {BINARY, LABVIEW}
    && Word(cfg.udpTarget, SEPARATORS)
    && cfg.units in p.unitTable
    && cfg.fps < 0x1_0000_0000 && cfg.udpPort < 0x1_0000 && cfg.sim < 0x1_0000
  }

  /** Even a SET FORMAT that fails half-way leaves supported formats behind. */
  lemma {:induction false} FormatsKept(p: Protocol, cfg: Config, tokens: seq<string>, i: nat)
    requires ConfigInv(p, cfg)
    ensures ConfigInv(p, SetFormats(cfg, tokens, i).0)
    decreases |tokens| - i
  {
    if i + 1 >= |tokens| {
    } else {
      var (next, ok) := SetDataFormat(cfg, First(tokens[i]), First(tokens[i + 1]));
      if ok {
        FormatsKept(p, next, tokens, i + 2);
      }
    }
  }

  lemma SetSimKeepsConfig(p: Protocol, d: Device, cmd: string, text: string)
    requires ConfigInv(p, d.cfg)
    ensures ConfigInv(p, SetSim(p, d, cmd, text).0.cfg)
  {
  }

  lemma SetFieldKeepsConfig(p: Protocol, d: Device, cmd: string, tokens: seq<string>, amb: Ambient)
    requires ConfigInv(p, d.cfg) && |tokens| >= 2
    requires |tokens| >= 4 ==> Word(tokens[2], SEPARATORS)
    requires SettingOf(tokens[1]) in {FPS, ENUDP, ENFTP, IPUDP, NoSetting}
    ensures ConfigInv(p, Set(p, d, cmd, tokens, amb).0.cfg)
  {
  }

  lemma SetFormatKeepsConfig(p: Protocol, d: Device, cmd: string, tokens: seq<string>, amb: Ambient)
    requires ConfigInv(p, d.cfg) && |tokens| >= 2 && SettingOf(tokens[1]).FORMAT?
    ensures ConfigInv(p, Set(p, d, cmd, tokens, amb).0.cfg)
  {
    FormatsKept(p, d.cfg, tokens, 2);
  }

  lemma SetUnitsOrSimKeepsConfig(p: Protocol, d: Device, cmd: string, tokens: seq<string>, amb: Ambient)
    requires p.Valid() && ConfigInv(p, d.cfg) && |tokens| >= 2 && SettingOf(tokens[1]) in {RATE, UNITS, SIM}
    ensures ConfigInv(p, Set(p, d, cmd, tokens, amb).0.cfg)
  {
    if |tokens| >= 3 && SettingOf(tokens[1]).SIM? {
      SetSimKeepsConfig(p, d, cmd, tokens[2]);
    }
  }

  lemma SetKeepsConfig(p: Protocol, d: Device, cmd: string, tokens: seq<string>, amb: Ambient)
    requires p.Valid() && ConfigInv(p, d.cfg) && tokens != []
    requires |tokens| >= 4 ==> Word(tokens[2], SEPARATORS)
    ensures ConfigInv(p, Set(p, d, cmd, tokens, amb).0.cfg)
  {
    if |tokens| < 2 {
      return;
    }
    var setting := SettingOf(tokens[1]);
    if setting.FORMAT? {
      SetFormatKeepsConfig(p, d, cmd, tokens, amb);
      return;
    }
    if setting in {RATE, UNITS, SIM} {
      SetUnitsOrSimKeepsConfig(p, d, cmd, tokens, amb);
      return;
    }
    SetFieldKeepsConfig(p, d, cmd, tokens, amb);
  }

  lemma OneCommandKeepsConfig(p: Protocol, d: Device, cmd: string, amb: Ambient)
    requires p.Valid() && ConfigInv(p, d.cfg)
    ensures ConfigInv(p, Parse(p, d, cmd, amb).0.cfg)
  {
    var tokens := Split(cmd, SEPARATORS);
    SplitShape(cmd, SEPARATORS);
    if VerbOf(tokens[0]).SET? {
      SetKeepsConfig(p, d, cmd, tokens, amb);
    }
  }

  /** Over every sequence of commands the configuration stays valid; in particular the target of
      SET IPUDP is never empty, because it is never the last token. */
  lemma {:induction false} CommandsKeepConfig(p: Protocol, d: Device, cmds: seq<string>, ambs: Ambients, i: nat)
    requires p.Valid() && ConfigInv(p, d.cfg)
    ensures ConfigInv(p, ParseAll(p, d, cmds, ambs, i).cfg)
    decreases |cmds|
  {
    if cmds == [] {
    } else {
      OneCommandKeepsConfig(p, d, cmds[0], ambs(i));
      CommandsKeepConfig(p, Parse(p, d, cmds[0], ambs(i)).0, cmds[1..], ambs, i + 1);
    }
  }

  // ---- A listing is split into its lines ------------------------------------------------------------

  lemma CrLf(rest: string)
    ensures "\r\n" + rest == ['\r'] + (['\n'] + rest)
  {
  }

  lemma SplitLine(line: string, rest: string)
    requires Word(line, CRLF)
    ensures Split(line + ("\r\n" + rest), CRLF) == [line] + Split(rest, CRLF)
  {
    CrLf(rest);
    SplitWord(line, '\r', ['\n'] + rest, CRLF);
    SplitWord("", '\n', rest, CRLF);
    EmptyConcat(['\n'] + rest);
    EmptyConcat(Split(rest, CRLF));
  }

  lemma EmptyConcat<T>(s: seq<T>)
    ensures [] + s == s
  {
  }

  lemma {:induction false} SplitPrinted(lines: seq<string>)
    requires Words(lines, CRLF)
    ensures Split(Print(lines), CRLF) == lines + [">"]
  {
    if lines == [] {
      SplitDelimiterFree(">", CRLF);
    } else {
      assert lines[0] in lines && lines == [lines[0]] + lines[1..];
      SplitPrinted(lines[1..]);
      SplitLine(lines[0], Print(lines[1..]));
    }
  }

  // ---- A line is split into its tokens ----------------------------------------------------------------

  lemma SplitOff(token: string, rest: string)
    requires Word(token, SEPARATORS)
    ensures Split(token + (" " + rest), SEPARATORS) == [token] + Split(rest, SEPARATORS)
  {
    SplitWord(token, ' ', rest, SEPARATORS);
  }

  /** "SET", the name of a setting, and the rest of the line. */
  lemma SplitSetting(name: string, rest: string)
    requires Word(name, SEPARATORS)
    ensures Split("SET " + (name + (" " + rest)), SEPARATORS) == ["SET", name] + Split(rest, SEPARATORS)
  {
    SplitOff("SET", name + (" " + rest));
    SplitOff(name, rest);
    assert "SET " + (name + (" " + rest)) == "SET" + (" " + (name + (" " + rest)));
  }

  lemma VerbIsSet()
    ensures VerbOf("SET") == SET
  {
  }

  lemma ParseSet(p: Protocol, d: Device, cmd: string, tokens: seq<string>, amb: Ambient)
    requires Split(cmd, SEPARATORS) == tokens && VerbOf(tokens[0]).SET?
    ensures Parse(p, d, cmd, amb) == Set(p, d, cmd, tokens, amb)
  {
  }

  /** A line that sets something is handled by Set, with these tokens. */
  lemma SetLine(p: Protocol, d: Device, name: string, rest: string, amb: Ambient)
    requires Word(name, SEPARATORS)
    ensures var cmd := "SET " + (name + (" " + rest));
            Parse(p, d, cmd, amb) == Set(p, d, cmd, ["SET", name] + Split(rest, SEPARATORS), amb)
  {
    SplitSetting(name, rest);
    VerbIsSet();
    ParseSet(p, d, "SET " + (name + (" " + rest)), ["SET", name] + Split(rest, SEPARATORS), amb);
  }

  lemma DecimalIsWord(n: nat)
    ensures Word(Decimal(n), SEPARATORS) && Word(Decimal(n), CRLF) && 0 as char !in Decimal(n)
  {
  }

  /** The escape key, whatever was typed before it, becomes a command that stops the scan. */
  lemma EscapeStops(p: Protocol, d: Device, buffer: string, amb: Ambient)
    ensures LineEditor.Edit(buffer, [LineEditor.ESCAPE]) == ("", LineEditor.Dispatch([LineEditor.ESCAPE]))
    ensures Parse(p, d, [LineEditor.ESCAPE], amb) == (StopScan(d), "")
  {
    LineEditor.SendEscape(buffer);
    SplitDelimiterFree([LineEditor.ESCAPE], SEPARATORS);
  }

  /** Once some strtoul has overflowed, no command sequence sets SIM any more. */
  lemma {:induction false} ErangeSticks(p: Protocol, d: Device, cmds: seq<string>, ambs: Ambients, i: nat)
    requires d.erange
    ensures var t := ParseAll(p, d, cmds, ambs, i); t.erange && t.cfg.sim == d.cfg.sim
    decreases |cmds|
  {
    if cmds == [] {
    } else {
      OneCommandKeepsErange(p, d, cmds[0], ambs(i));
      ErangeSticks(p, Parse(p, d, cmds[0], ambs(i)).0, cmds[1..], ambs, i + 1);
    }
  }

  lemma OneCommandKeepsErange(p: Protocol, d: Device, cmd: string, amb: Ambient)
    requires d.erange
    ensures var t := Parse(p, d, cmd, amb).0; t.erange && t.cfg.sim == d.cfg.sim
  {
    var tokens := Split(cmd, SEPARATORS);
    if VerbOf(tokens[0]).SET? {
      SetKeepsErange(p, d, cmd, tokens, amb);
    }
  }

  lemma SetKeepsErange(p: Protocol, d: Device, cmd: string, tokens: seq<string>, amb: Ambient)
    requires d.erange && tokens != []
    ensures var t := Set(p, d, cmd, tokens, amb).0; t.erange && t.cfg.sim == d.cfg.sim
  {
    if |tokens| < 2 {
      return;
    }
    var setting := SettingOf(tokens[1]);
    if setting.SIM? {
      if |tokens| >= 3 {
        SimKeepsErange(p, d, cmd, tokens[2]);
      }
      return;
    }
    if setting.FORMAT? {
      FormatKeepsErange(p, d, cmd, tokens, amb);
      return;
    }
    if setting in {RATE, UNITS} {
      RateOrUnitsKeepErange(p, d, cmd, tokens, amb);
      return;
    }
    FieldKeepsErange(p, d, cmd, tokens, amb);
  }

  lemma FormatKeepsErange(p: Protocol, d: Device, cmd: string, tokens: seq<string>, amb: Ambient)
    requires d.erange && |tokens| >= 2 && SettingOf(tokens[1]).FORMAT?
    ensures var t := Set(p, d, cmd, tokens, amb).0; t.erange && t.cfg.sim == d.cfg.sim
  {
  }

  lemma RateOrUnitsKeepErange(p: Protocol, d: Device, cmd: string, tokens: seq<string>, amb: Ambient)
    requires d.erange && |tokens| >= 2 && SettingOf(tokens[1]) in {RATE, UNITS}
    ensures var t := Set(p, d, cmd, tokens, amb).0; t.erange && t.cfg.sim == d.cfg.sim
  {
  }

  lemma SimKeepsErange(p: Protocol, d: Device, cmd: string, text: string)
    requires d.erange
    ensures var t := SetSim(p, d, cmd, text).0; t.erange && t.cfg.sim == d.cfg.sim
  {
  }

  lemma FieldKeepsErange(p: Protocol, d: Device, cmd: string, tokens: seq<string>, amb: Ambient)
    requires d.erange && |tokens| >= 2 && SettingOf(tokens[1]) in {FPS, ENUDP, ENFTP, IPUDP, NoSetting}
    ensures var t := Set(p, d, cmd, tokens, amb).0; t.erange && t.cfg.sim == d.cfg.sim
  {
  }
}
