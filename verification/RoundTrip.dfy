/** LIST prints what SET restores: the listings of one device, fed line by line to another,
    give the second the configuration of the first. */
module RoundTrip {
  import opened StringUtils
  import opened Numbers
  import opened Protocol
  import opened Device
  import opened CommandProofs

  lemma SettingNames()
    ensures SettingOf("RATE") == RATE && SettingOf("FPS") == FPS && SettingOf("UNITS") == UNITS
    ensures SettingOf("FORMAT") == FORMAT && SettingOf("ENFTP") == ENFTP && SettingOf("ENUDP") == ENUDP
    ensures SettingOf("IPUDP") == IPUDP && SettingOf("SIM") == SIM
  {
  }

  lemma UnknownNames()
    ensures SettingOf("TRIG") == SettingOf("ECHO") == SettingOf("XITE") == SettingOf("ETOL") == NoSetting
  {
  }

  // ---- One line at a time -------------------------------------------------------------------------

  /** A line with one argument. */
  lemma OneArgument(p: Protocol, d: Device, name: string, argument: string, amb: Ambient)
    requires Word(name, SEPARATORS) && Word(argument, SEPARATORS)
    ensures var cmd := "SET " + (name + (" " + argument));
            Parse(p, d, cmd, amb) == Set(p, d, cmd, ["SET", name, argument], amb)
  {
    SetLine(p, d, name, argument, amb);
    SplitDelimiterFree(argument, SEPARATORS);
    assert ["SET", name] + [argument] == ["SET", name, argument];
  }

  /** A line with two arguments; the second may be empty, as after a trailing blank. */
  lemma TwoArguments(p: Protocol, d: Device, name: string, one: string, two: string, amb: Ambient)
    requires Word(name, SEPARATORS) && Word(one, SEPARATORS) && DelimiterFree(two, SEPARATORS)
    ensures var cmd := "SET " + (name + (" " + (one + (" " + two))));
            Parse(p, d, cmd, amb) == Set(p, d, cmd, ["SET", name, one, two], amb)
  {
    SetLine(p, d, name, one + (" " + two), amb);
    SplitOff(one, two);
    SplitDelimiterFree(two, SEPARATORS);
    assert ["SET", name] + ([one] + [two]) == ["SET", name, one, two];
  }

  lemma RateLine(p: Protocol, d: Device, n: nat, amb: Ambient)
    requires p.Valid() && n < 1000000
    ensures Parse(p, d, "SET RATE " + p.rateText(n as real), amb).0 ==
            UpdateScanAverages(d.(cfg := d.cfg.(rate := n as real)), amb)
  {
    DecimalIsWord(n);
    OneArgument(p, d, "RATE", Decimal(n), amb);
    SettingNames();
    assert "SET " + ("RATE" + (" " + Decimal(n))) == "SET RATE " + Decimal(n);
  }

  /** A printed number as it is read back into a field of `bits` values: the conversion is to the
      signed type, so beyond the signed range the outcome is undefined. */
  function Reread(n: nat, bits: nat, amb: Ambient): nat
    requires bits > 0
  {
    if n < bits / 2 then n else amb.undefinedInt % bits
  }

  lemma StoredDecimal(n: nat, before: nat, bits: nat, amb: Ambient)
    requires bits > 0
    ensures Stored(Decimal(n), before, bits, amb) == Reread(n, bits, amb)
  {
    ScanDecimal(n);
  }

  lemma FpsLine(p: Protocol, d: Device, n: nat, amb: Ambient)
    ensures Parse(p, d, "SET FPS " + Decimal(n), amb).0 == d.(cfg := d.cfg.(fps := Reread(n, 0x1_0000_0000, amb)))
  {
    DecimalIsWord(n);
    OneArgument(p, d, "FPS", Decimal(n), amb);
    SettingNames();
    StoredDecimal(n, d.cfg.fps, 0x1_0000_0000, amb);
    assert "SET " + ("FPS" + (" " + Decimal(n))) == "SET FPS " + Decimal(n);
  }

  lemma UnitsLine(p: Protocol, d: Device, u: Units, amb: Ambient)
    requires p.Valid() && u in p.unitTable
    ensures Parse(p, d, "SET UNITS " + (p.unitsName(u) + (" " + p.conversionText(u))), amb).0 ==
              d.(cfg := d.cfg.(units := u))
  {
    var name, factor := p.unitsName(u), p.conversionText(u);
    var cmd := "SET " + ("UNITS" + (" " + (name + (" " + factor))));
    TwoArguments(p, d, "UNITS", name, factor, amb);
    SettingNames();
    UnitsTokens(p, d, cmd, ["SET", "UNITS", name, factor], u, amb);
    UnitsText(name + (" " + factor));
  }

  lemma UnitsText(text: string)
    ensures "SET " + ("UNITS" + (" " + text)) == "SET UNITS " + text
  {
  }

  lemma UnitsTokens(p: Protocol, d: Device, cmd: string, tokens: seq<string>, u: Units, amb: Ambient)
    requires p.Valid() && u in p.unitTable
    requires |tokens| >= 3 && SettingOf(tokens[1]).UNITS? && tokens[2] == p.unitsName(u)
    ensures Set(p, d, cmd, tokens, amb).0 == d.(cfg := d.cfg.(units := u))
  {
    CStringWithoutNul(tokens[2]);
  }

  lemma PairOff(kind: string, value: string, rest: string)
    requires Word(kind, SEPARATORS) && Word(value, SEPARATORS)
    ensures Split(kind + (" " + (value + (" " + rest))), SEPARATORS) == [kind, value] + Split(rest, SEPARATORS)
  {
    SplitOff(kind, value + (" " + rest));
    SplitOff(value, rest);
    ConcatAssociative([kind], [value], Split(rest, SEPARATORS));
  }

  lemma FormatTail(f: char, b: char)
    requires f !in SEPARATORS && b !in SEPARATORS
    ensures Split("F " + ([f] + "," + (" B " + [b])), SEPARATORS) == ["F", [f] + ",", "B", [b]]
  {
    SplitDelimiterFree([b], SEPARATORS);
    SplitOff("B", [b]);
    PairOff("F", [f] + ",", "B" + (" " + [b]));
    SpacedPair('F', [f] + ",", 'B', [b]);
  }

  lemma SpacedPair(kind: char, value: string, next: char, rest: string)
    ensures [kind, ' '] + (value + ([' ', next, ' '] + rest)) ==
              [kind] + (" " + (value + (" " + ([next] + (" " + rest)))))
    ensures [next] + (" " + rest) == [next, ' '] + rest
  {
  }

  /** The tokens of the FORMAT line keep their commas; only their first character counts. */
  lemma FormatTokens(t: char, f: char, b: char)
    requires t !in SEPARATORS && f !in SEPARATORS && b !in SEPARATORS
    ensures Split("T " + ([t] + "," + (" F " + ([f] + "," + (" B " + [b])))), SEPARATORS) ==
            ["T", [t] + ",", "F", [f] + ",", "B", [b]]
  {
    var tail := [f] + "," + (" B " + [b]);
    FormatTail(f, b);
    PairOff("T", [t] + ",", "F " + tail);
    SpacedPair('T', [t] + ",", 'F', tail);
  }

  lemma SetPair(cfg: Config, tokens: seq<string>, i: nat)
    requires i + 1 < |tokens| && SetDataFormat(cfg, First(tokens[i]), First(tokens[i + 1])).1
    ensures SetFormats(cfg, tokens, i) ==
            SetFormats(SetDataFormat(cfg, First(tokens[i]), First(tokens[i + 1])).0, tokens, i + 2)
  {
  }

  lemma FormatLine(p: Protocol, d: Device, cfg: Config, amb: Ambient)
    requires ConfigInv(p, cfg)
    ensures Parse(p, d, "SET FORMAT" + FormatText(cfg), amb).0 ==
            d.(cfg := d.cfg.(telnet := cfg.telnet, ftpUdp := cfg.ftpUdp, binary := cfg.binary))
  {
    var t, f, b := FormatToChar(cfg.telnet), FormatToChar(cfg.ftpUdp), FormatToChar(cfg.binary);
    FormatCommand(p, d, t, f, b, amb);
    FormatPairs(d.cfg, cfg, ["SET", "FORMAT", "T", [t] + ",", "F", [f] + ",", "B", [b]]);
  }

  lemma FormatCommand(p: Protocol, d: Device, t: char, f: char, b: char, amb: Ambient)
    requires t !in SEPARATORS && f !in SEPARATORS && b !in SEPARATORS
    ensures var cmd := "SET FORMAT" + (" T " + ([t] + "," + (" F " + ([f] + "," + (" B " + [b])))));
            Parse(p, d, cmd, amb).0 ==
            d.(cfg := SetFormats(d.cfg, ["SET", "FORMAT", "T", [t] + ",", "F", [f] + ",", "B", [b]], 2).0)
  {
    var rest := "T " + ([t] + "," + (" F " + ([f] + "," + (" B " + [b]))));
    FormatLineText(t, f, b);
    SetLine(p, d, "FORMAT", rest, amb);
    SettingNames();
    FormatTokens(t, f, b);
    assert ["SET", "FORMAT"] + ["T", [t] + ",", "F", [f] + ",", "B", [b]] ==
        ["SET", "FORMAT", "T", [t] + ",", "F", [f] + ",", "B", [b]];
  }

  lemma FormatLineText(t: char, f: char, b: char)
    ensures var rest := [t] + "," + (" F " + ([f] + "," + (" B " + [b])));
            "SET FORMAT" + (" T " + rest) == "SET " + ("FORMAT" + (" " + ("T " + rest)))
  {
  }

  lemma FormatPairs(before: Config, cfg: Config, tokens: seq<string>)
    requires cfg.telnet in {ASCII, VT100, CSV} && cfg.ftpUdp in {ASCII, BINARY, CSV} && cfg.binary in {BINARY, LABVIEW}
    requires |tokens| == 8 && First(tokens[2]) == 'T' && First(tokens[4]) == 'F' && First(tokens[6]) == 'B'
    requires First(tokens[3]) == FormatToChar(cfg.telnet) && First(tokens[5]) == FormatToChar(cfg.ftpUdp)
    requires First(tokens[7]) == FormatToChar(cfg.binary)
    ensures SetFormats(before, tokens, 2) ==
            (before.(telnet := cfg.telnet, ftpUdp := cfg.ftpUdp, binary := cfg.binary), None)
  {
    var one := before.(telnet := cfg.telnet);
    var two := one.(ftpUdp := cfg.ftpUdp);
    SetPair(before, tokens, 2);
    SetPair(one, tokens, 4);
    SetPair(two, tokens, 6);
  }

  /** A setting that the interpreter does not know changes nothing. */
  lemma UnknownLine(p: Protocol, d: Device, name: string, rest: string, amb: Ambient)
    requires Word(name, SEPARATORS) && SettingOf(name).NoSetting?
    ensures Parse(p, d, "SET " + (name + (" " + rest)), amb).0 == d
  {
    SetLine(p, d, name, rest, amb);
  }

  lemma FlagOf(flag: bool, amb: Ambient)
    ensures Flag(if flag then "1" else "0", amb) == flag
  {
    ScanDecimal(0);
    ScanDecimal(1);
  }

  lemma EnftpText(text: string)
    ensures "SET " + ("ENFTP" + (" " + (text + (" " + "")))) == "SET ENFTP " + (text + " ")
  {
  }

  lemma EnftpLine(p: Protocol, d: Device, flag: bool, amb: Ambient)
    ensures Parse(p, d, "SET ENFTP " + ((if flag then "1" else "0") + " "), amb).0 ==
              d.(cfg := d.cfg.(ftpEnabled := flag))
  {
    var text := if flag then "1" else "0";
    TwoArguments(p, d, "ENFTP", text, "", amb);
    SettingNames();
    FlagOf(flag, amb);
    EnftpText(text);
  }

  lemma EnudpLine(p: Protocol, d: Device, flag: bool, amb: Ambient)
    ensures Parse(p, d, "SET ENUDP " + (if flag then "1" else "0"), amb).0 == d.(cfg := d.cfg.(udpEnabled := flag))
  {
    var text := if flag then "1" else "0";
    OneArgument(p, d, "ENUDP", text, amb);
    SettingNames();
    FlagOf(flag, amb);
    EnudpText(text);
  }

  lemma EnudpText(text: string)
    ensures "SET " + ("ENUDP" + (" " + text)) == "SET ENUDP " + text
  {
  }

  lemma IpudpLine(p: Protocol, d: Device, target: string, port: nat, amb: Ambient)
    requires Word(target, SEPARATORS)
    ensures Parse(p, d, "SET IPUDP " + (target + (" " + Decimal(port))), amb).0 ==
            d.(cfg := d.cfg.(udpTarget := target, udpPort := Reread(port, 0x1_0000, amb)))
  {
    DecimalIsWord(port);
    TwoArguments(p, d, "IPUDP", target, Decimal(port), amb);
    SettingNames();
    StoredDecimal(port, d.cfg.udpPort, 0x1_0000, amb);
    assert "SET " + ("IPUDP" + (" " + (target + (" " + Decimal(port))))) ==
        "SET IPUDP " + (target + (" " + Decimal(port)));
  }

  /** errno is tested and never cleared: once some strtoul has overflowed, SET SIM is refused. */
  lemma SimLine(p: Protocol, d: Device, n: nat, amb: Ambient)
    requires p.Valid() && n < 0x1_0000
    ensures Parse(p, d, "SET SIM " + Decimal(n), amb).0 == if d.erange then d else d.(cfg := d.cfg.(sim := n))
  {
    var cmd := "SET " + ("SIM" + (" " + Decimal(n)));
    DecimalIsWord(n);
    OneArgument(p, d, "SIM", Decimal(n), amb);
    SettingNames();
    SimTokens(p, d, cmd, ["SET", "SIM", Decimal(n)], amb);
    SimSet(p, d, cmd, n);
    SimText(Decimal(n));
  }

  lemma SimText(text: string)
    ensures "SET " + ("SIM" + (" " + text)) == "SET SIM " + text
  {
  }

  lemma SimTokens(p: Protocol, d: Device, cmd: string, tokens: seq<string>, amb: Ambient)
    requires |tokens| >= 3 && SettingOf(tokens[1]).SIM?
    ensures Set(p, d, cmd, tokens, amb) == SetSim(p, d, cmd, tokens[2])
  {
  }

  lemma SimSet(p: Protocol, d: Device, cmd: string, n: nat)
    requires p.Valid() && n < 0x1_0000
    ensures SetSim(p, d, cmd, Decimal(n)).0 == if d.erange then d else d.(cfg := d.cfg.(sim := n))
  {
    DecimalIsWord(n);
    CStringWithoutNul(Decimal(n));
    StrtoulDecimal(n, p.ulongMax);
  }

  lemma PromptLine(p: Protocol, d: Device, amb: Ambient)
    ensures Parse(p, d, ">", amb).0 == d
  {
  }

  // ---- Whole listings -------------------------------------------------------------------------------

  /** One line, whose effect is known, in front of lines whose effect is known. */
  lemma ParseNext(p: Protocol, d: Device, line: string, d1: Device, rest: seq<string>, d2: Device, ambs: Ambients,
          i: nat)
    requires Parse(p, d, line, ambs(i)).0 == d1 && ParseAll(p, d1, rest, ambs, i + 1) == d2
    ensures ParseAll(p, d, [line] + rest, ambs, i) == d2
  {
    ExecuteNext(Interpret(p), d, line, rest, ambs, i);
  }

  lemma ExecuteNext(step: Interpreter, d: Device, line: string, rest: seq<string>, ambs: Ambients, i: nat)
    ensures Execute(step, d, [line] + rest, ambs, i) == Execute(step, step(d, line, ambs(i)), rest, ambs, i + 1)
  {
    assert ([line] + rest)[1..] == rest;
  }

  lemma ParsePrompt(p: Protocol, d: Device, ambs: Ambients, i: nat)
    ensures ParseAll(p, d, [">"], ambs, i) == d
  {
    PromptLine(p, d, ambs(i));
    assert [">"][1..] == [];
  }

  lemma TrigLine(p: Protocol, d: Device, amb: Ambient)
    ensures Parse(p, d, "SET TRIG 0 ", amb).0 == d
  {
    UnknownNames();
    UnknownLine(p, d, "TRIG", "0 ", amb);
    assert "SET " + ("TRIG" + (" " + "0 ")) == "SET TRIG 0 ";
  }

  lemma EchoLine(p: Protocol, d: Device, amb: Ambient)
    ensures Parse(p, d, "SET ECHO 1", amb).0 == d
  {
    UnknownNames();
    UnknownLine(p, d, "ECHO", "1", amb);
    assert "SET " + ("ECHO" + (" " + "1")) == "SET ECHO 1";
  }

  lemma XiteLine(p: Protocol, d: Device, amb: Ambient)
    ensures Parse(p, d, "SET XITE 2", amb).0 == d
  {
    UnknownNames();
    UnknownLine(p, d, "XITE", "2", amb);
    assert "SET " + ("XITE" + (" " + "2")) == "SET XITE 2";
  }

  lemma EtolLine(p: Protocol, d: Device, amb: Ambient)
    ensures Parse(p, d, "SET ETOL 0", amb).0 == d
  {
    UnknownNames();
    UnknownLine(p, d, "ETOL", "0", amb);
    assert "SET " + ("ETOL" + (" " + "0")) == "SET ETOL 0";
  }

  function AfterScanLines(cfg: Config, d: Device, ambs: Ambients, i: nat): Device {
    d.(averages := AveragesFor(cfg.rate, ambs(i)),
       cfg := d.cfg.(rate := cfg.rate, fps := Reread(cfg.fps, 0x1_0000_0000, ambs(i + 1)), units := cfg.units,
                     telnet := cfg.telnet, ftpUdp := cfg.ftpUdp, binary := cfg.binary, ftpEnabled := cfg.ftpEnabled))
  }

  function AfterUdpLines(cfg: Config, d: Device, ambs: Ambients, i: nat): Device {
    d.(cfg := d.cfg.(udpEnabled := cfg.udpEnabled, udpTarget := cfg.udpTarget,
                     udpPort := Reread(cfg.udpPort, 0x1_0000, ambs(i + 1))))
  }

  function AfterMiscLines(cfg: Config, d: Device): Device {
    if d.erange then d else d.(cfg := d.cfg.(sim := cfg.sim))
  }

  /** A listing with its prompt. */
  function Listed(p: Protocol, cfg: Config, listing: Listing): seq<string> {
    Lines(p, cfg, listing) + [">"]
  }

  lemma LastScanLines(p: Protocol, d: Device, enabled: bool, ambs: Ambients, i: nat)
    ensures ParseAll(p, d, LastOfScan(enabled), ambs, i) ==
            d.(cfg := d.cfg.(ftpEnabled := enabled))
  {
    var line := "SET ENFTP " + ((if enabled then "1" else "0") + " ");
    var d1 := d.(cfg := d.cfg.(ftpEnabled := enabled));
    TrigLine(p, d, ambs(i));
    EnftpLine(p, d, enabled, ambs(i + 1));
    ParsePrompt(p, d1, ambs, i + 2);
    ParseNext(p, d, line, d1, [">"], d1, ambs, i + 1);
    ParseNext(p, d, "SET TRIG 0 ", d, [line, ">"], d1, ambs, i);
  }

  /** The lines that LIST S prints behind the rate, executed together with the prompt. */
  lemma ScanLines(p: Protocol, d: Device, cfg: Config, ambs: Ambients, i: nat)
    requires p.Valid() && ConfigInv(p, cfg)
    ensures ParseAll(p, d, Lines(p, cfg, ListScan)[1..] + [">"], ambs, i) ==
            d.(cfg := d.cfg.(fps := Reread(cfg.fps, 0x1_0000_0000, ambs(i)), units := cfg.units, telnet := cfg.telnet,
                             ftpUdp := cfg.ftpUdp, binary := cfg.binary, ftpEnabled := cfg.ftpEnabled))
  {
    var l1, l2, l3 := Lines(p, cfg, ListScan)[1], Lines(p, cfg, ListScan)[2], Lines(p, cfg, ListScan)[3];
    var d1 := d.(cfg := d.cfg.(fps := Reread(cfg.fps, 0x1_0000_0000, ambs(i))));
    var d2 := d1.(cfg := d1.cfg.(units := cfg.units));
    var d3 := d2.(cfg := d2.cfg.(telnet := cfg.telnet, ftpUdp := cfg.ftpUdp, binary := cfg.binary));
    var d4 := d3.(cfg := d3.cfg.(ftpEnabled := cfg.ftpEnabled));
    FpsLine(p, d, cfg.fps, ambs(i));
    UnitsLine(p, d1, cfg.units, ambs(i + 1));
    FormatLine(p, d2, cfg, ambs(i + 2));
    LastScanLines(p, d3, cfg.ftpEnabled, ambs, i + 3);
    var last := LastOfScan(cfg.ftpEnabled);
    ParseThree(p, d, l1, d1, l2, d2, l3, d3, last, d4, ambs, i);
    ScanShape(p, cfg);
  }

  function LastOfScan(enabled: bool): seq<string> {
    ["SET TRIG 0 ", "SET ENFTP " + ((if enabled then "1" else "0") + " "), ">"]
  }

  lemma ScanShape(p: Protocol, cfg: Config)
    ensures var ls := Lines(p, cfg, ListScan);
            ls[1..] + [">"] == [ls[1]] + ([ls[2]] + ([ls[3]] + LastOfScan(cfg.ftpEnabled)))
  {
  }

  lemma ParseThree(p: Protocol, d: Device, l1: string, d1: Device, l2: string, d2: Device, l3: string, d3: Device,
                   rest: seq<string>, d4: Device, ambs: Ambients, i: nat)
    requires Parse(p, d, l1, ambs(i)).0 == d1 && Parse(p, d1, l2, ambs(i + 1)).0 == d2
    requires Parse(p, d2, l3, ambs(i + 2)).0 == d3 && ParseAll(p, d3, rest, ambs, i + 3) == d4
    ensures ParseAll(p, d, [l1] + ([l2] + ([l3] + rest)), ambs, i) == d4
  {
    ParseNext(p, d2, l3, d3, rest, d4, ambs, i + 2);
    ParseNext(p, d1, l2, d2, [l3] + rest, d4, ambs, i + 1);
    ParseNext(p, d, l1, d1, [l2] + ([l3] + rest), d4, ambs, i);
  }

  lemma UdpLines(p: Protocol, d: Device, cfg: Config, ambs: Ambients, i: nat)
    requires ConfigInv(p, cfg)
    ensures ParseAll(p, d, Listed(p, cfg, ListUdp), ambs, i) == AfterUdpLines(cfg, d, ambs, i)
  {
    var ls := Lines(p, cfg, ListUdp);
    var d1 := d.(cfg := d.cfg.(udpEnabled := cfg.udpEnabled));
    var d2 := AfterUdpLines(cfg, d, ambs, i);
    EnudpLine(p, d, cfg.udpEnabled, ambs(i));
    IpudpLine(p, d1, cfg.udpTarget, cfg.udpPort, ambs(i + 1));
    ParsePrompt(p, d2, ambs, i + 2);
    ParseNext(p, d1, ls[1], d2, [">"], d2, ambs, i + 1);
    ParseNext(p, d, ls[0], d1, [ls[1]] + [">"], d2, ambs, i);
    UdpShape(p, cfg);
  }

  lemma UdpShape(p: Protocol, cfg: Config)
    ensures var ls := Lines(p, cfg, ListUdp); Listed(p, cfg, ListUdp) == [ls[0]] + ([ls[1]] + [">"])
  {
  }

  /** The lines of LIST M that change nothing, and the prompt. */
  function LastOfMisc(): seq<string> {
    ["SET ECHO 1"] + (["SET XITE 2"] + (["SET ETOL 0"] + [">"]))
  }

  lemma LastMiscLines(p: Protocol, d: Device, ambs: Ambients, i: nat)
    ensures ParseAll(p, d, LastOfMisc(), ambs, i) == d
  {
    EchoLine(p, d, ambs(i));
    XiteLine(p, d, ambs(i + 1));
    EtolLine(p, d, ambs(i + 2));
    ParsePrompt(p, d, ambs, i + 3);
    ParseThree(p, d, "SET ECHO 1", d, "SET XITE 2", d, "SET ETOL 0", d, [">"], d, ambs, i);
  }

  lemma MiscLines(p: Protocol, d: Device, cfg: Config, ambs: Ambients, i: nat)
    requires p.Valid() && ConfigInv(p, cfg)
    ensures ParseAll(p, d, Listed(p, cfg, ListMisc), ambs, i) == AfterMiscLines(cfg, d)
  {
    var d1 := AfterMiscLines(cfg, d);
    SimLine(p, d, cfg.sim, ambs(i));
    LastMiscLines(p, d1, ambs, i + 1);
    ParseNext(p, d, "SET SIM " + Decimal(cfg.sim), d1, LastOfMisc(), d1, ambs, i);
    MiscShape(p, cfg);
  }

  lemma MiscShape(p: Protocol, cfg: Config)
    ensures Listed(p, cfg, ListMisc) == ["SET SIM " + Decimal(cfg.sim)] + LastOfMisc()
  {
  }

  // ---- The listings as text ---------------------------------------------------------------------------

  lemma FreeConcat(a: string, b: string)
    requires DelimiterFree(a, CRLF) && DelimiterFree(b, CRLF)
    ensures DelimiterFree(a + b, CRLF)
  {
  }

  /** A line of literal text followed by text without line ends is a line. */
  lemma LineWord(prefix: string, text: string)
    requires prefix != "" && DelimiterFree(prefix, CRLF) && DelimiterFree(text, CRLF)
    ensures Word(prefix + text, CRLF)
  {
  }

  lemma ScanLinesAreLines(p: Protocol, cfg: Config, n: nat)
    requires p.Valid() && ConfigInv(p, cfg) && cfg.rate == n as real && n < 1000000
    ensures Words(Lines(p, cfg, ListScan), CRLF)
  {
    NumberLines(p, cfg, n);
    UnitsLineIsLine(p, cfg.units);
    FormatTextFree(cfg);
    LineWord("SET FORMAT", FormatText(cfg));
    LineWord("SET ENFTP ", (if cfg.ftpEnabled then "1" else "0") + " ");
    SixWords("SET RATE " + p.rateText(cfg.rate), "SET FPS " + Decimal(cfg.fps),
             "SET UNITS " + (p.unitsName(cfg.units) + (" " + p.conversionText(cfg.units))),
             "SET FORMAT" + FormatText(cfg), "SET TRIG 0 ",
                 "SET ENFTP " + ((if cfg.ftpEnabled then "1" else "0") + " "));
  }

  lemma NumberLines(p: Protocol, cfg: Config, n: nat)
    requires p.Valid() && cfg.rate == n as real && n < 1000000
    ensures Word("SET RATE " + p.rateText(cfg.rate), CRLF) && Word("SET FPS " + Decimal(cfg.fps), CRLF)
  {
    DecimalIsWord(n);
    DecimalIsWord(cfg.fps);
    LineWord("SET RATE ", Decimal(n));
    LineWord("SET FPS ", Decimal(cfg.fps));
  }

  lemma SixWords(a: string, b: string, c: string, d: string, e: string, f: string)
    requires Word(a, CRLF) && Word(b, CRLF) && Word(c, CRLF) && Word(d, CRLF) && Word(e, CRLF) && Word(f, CRLF)
    ensures Words([a, b, c, d, e, f], CRLF)
  {
  }

  lemma UnitsLineIsLine(p: Protocol, u: Units)
    requires p.Valid() && u in p.unitTable
    ensures Word("SET UNITS " + (p.unitsName(u) + (" " + p.conversionText(u))), CRLF)
  {
  }

  lemma FormatTextFree(cfg: Config)
    ensures DelimiterFree(FormatText(cfg), CRLF)
  {
  }

  lemma OtherLinesAreLines(p: Protocol, cfg: Config)
    requires ConfigInv(p, cfg)
    ensures Words(Lines(p, cfg, ListUdp), CRLF)
    ensures Words(Lines(p, cfg, ListMisc), CRLF)
  {
    UdpLinesAreLines(p, cfg);
    MiscLinesAreLines(p, cfg);
  }

  lemma UdpLinesAreLines(p: Protocol, cfg: Config)
    requires ConfigInv(p, cfg)
    ensures Words(Lines(p, cfg, ListUdp), CRLF)
  {
    DecimalIsWord(cfg.udpPort);
    LineWord("SET ENUDP ", if cfg.udpEnabled then "1" else "0");
    FreeConcat(" ", Decimal(cfg.udpPort));
    FreeConcat(cfg.udpTarget, " " + Decimal(cfg.udpPort));
    LineWord("SET IPUDP ", cfg.udpTarget + (" " + Decimal(cfg.udpPort)));
  }

  lemma MiscLinesAreLines(p: Protocol, cfg: Config)
    ensures Words(Lines(p, cfg, ListMisc), CRLF)
  {
    DecimalIsWord(cfg.sim);
    LineWord("SET SIM ", Decimal(cfg.sim));
  }

  lemma VerbIsList()
    ensures VerbOf("LIST") == LIST
  {
  }

  lemma ListCommand(p: Protocol, d: Device, name: string, amb: Ambient)
    requires Word(name, SEPARATORS) && !ListingOf(name).NoListing?
    ensures Parse(p, d, "LIST " + name, amb).1 == Print(Lines(p, d.cfg, ListingOf(name)))
  {
    SplitOff("LIST", name);
    SplitDelimiterFree(name, SEPARATORS);
    VerbIsList();
    ListText(name);
    ParseList(p, d, "LIST" + (" " + name), ["LIST", name], amb);
  }

  lemma ListText(text: string)
    ensures "LIST" + (" " + text) == "LIST " + text
  {
  }

  lemma ParseList(p: Protocol, d: Device, cmd: string, tokens: seq<string>, amb: Ambient)
    requires Split(cmd, SEPARATORS) == tokens && |tokens| == 2 && VerbOf(tokens[0]).LIST?
    requires !ListingOf(tokens[1]).NoListing?
    ensures Parse(p, d, cmd, amb).1 == Print(Lines(p, d.cfg, ListingOf(tokens[1])))
  {
  }

  lemma ListingNames()
    ensures ListingOf("S") == ListScan && ListingOf("UDP") == ListUdp && ListingOf("M") == ListMisc
  {
  }

  /** The three listings, cut into lines. */
  function Script(p: Protocol, d: Device, ambs: Ambients): seq<string> {
    Split(Parse(p, d, "LIST " + "S", ambs(0)).1, CRLF) +
    (Split(Parse(p, d, "LIST " + "UDP", ambs(1)).1, CRLF) + Split(Parse(p, d, "LIST " + "M", ambs(2)).1, CRLF))
  }

  lemma ScriptLines(p: Protocol, d: Device, n: nat, ambs: Ambients)
    requires p.Valid() && ConfigInv(p, d.cfg) && d.cfg.rate == n as real && n < 1000000
    ensures Script(p, d, ambs) == Listed(p, d.cfg, ListScan) + (Listed(p, d.cfg, ListUdp) + Listed(p, d.cfg, ListMisc))
  {
    ListingNames();
    ListCommand(p, d, "S", ambs(0));
    ListCommand(p, d, "UDP", ambs(1));
    ListCommand(p, d, "M", ambs(2));
    ScanLinesAreLines(p, d.cfg, n);
    OtherLinesAreLines(p, d.cfg);
    SplitPrinted(Lines(p, d.cfg, ListScan));
    SplitPrinted(Lines(p, d.cfg, ListUdp));
    SplitPrinted(Lines(p, d.cfg, ListMisc));
  }

  lemma RateAndScanLines(p: Protocol, d: Device, cfg: Config, n: nat, ambs: Ambients, i: nat)
    requires p.Valid() && ConfigInv(p, cfg) && cfg.rate == n as real && n < 1000000
    ensures ParseAll(p, d, Listed(p, cfg, ListScan), ambs, i) == AfterScanLines(cfg, d, ambs, i)
  {
    var ls := Lines(p, cfg, ListScan);
    var d1 := UpdateScanAverages(d.(cfg := d.cfg.(rate := cfg.rate)), ambs(i));
    RateLine(p, d, n, ambs(i));
    ScanLines(p, d1, cfg, ambs, i + 1);
    ParseNext(p, d, ls[0], d1, ls[1..] + [">"], AfterScanLines(cfg, d, ambs, i), ambs, i);
    assert ls + [">"] == [ls[0]] + (ls[1..] + [">"]);
  }

  /** Three scripts in a row. */
  lemma ExecuteInParts(step: Interpreter, d: Device, one: seq<string>, d1: Device, two: seq<string>, d2: Device,
                       three: seq<string>, d3: Device, ambs: Ambients)
    requires Execute(step, d, one, ambs, 0) == d1 && Execute(step, d1, two, ambs, |one|) == d2
    requires Execute(step, d2, three, ambs, |one| + |two|) == d3
    ensures Execute(step, d, one + (two + three), ambs, 0) == d3
  {
    ExecuteConcat(step, d, one, two + three, ambs, 0);
    ExecuteConcat(step, d1, two, three, ambs, |one|);
  }

  const RATE_LINE := 0
  const FPS_LINE := 1
  const IPUDP_LINE := 8

  /** The device that has executed the listings of a configuration. */
  function Relisted(cfg: Config, prior: Device, ambs: Ambients): Device {
    prior.(averages := AveragesFor(cfg.rate, ambs(RATE_LINE)),
           cfg := cfg.(device := prior.cfg.device, serial := prior.cfg.serial,
                       fps := Reread(cfg.fps, 0x1_0000_0000, ambs(FPS_LINE)),
                       udpPort := Reread(cfg.udpPort, 0x1_0000, ambs(IPUDP_LINE)),
                       sim := if prior.erange then prior.cfg.sim else cfg.sim))
  }

  lemma LinesRestore(p: Protocol, cfg: Config, prior: Device, n: nat, ambs: Ambients)
    requires p.Valid() && ConfigInv(p, cfg) && cfg.rate == n as real && n < 1000000
    ensures ParseAll(p, prior, Listed(p, cfg, ListScan) + (Listed(p, cfg, ListUdp) + Listed(p, cfg, ListMisc)), ambs, 0)
            == Relisted(cfg, prior, ambs)
  {
    var d1 := AfterScanLines(cfg, prior, ambs, 0);
    var d2 := AfterUdpLines(cfg, d1, ambs, 7);
    RateAndScanLines(p, prior, cfg, n, ambs, 0);
    UdpLines(p, d1, cfg, ambs, 7);
    MiscLines(p, d2, cfg, ambs, 10);
    ListingsInRow(p, cfg, prior, d1, d2, AfterMiscLines(cfg, d2), ambs);
  }

  lemma ListingsInRow(p: Protocol, cfg: Config, prior: Device, d1: Device, d2: Device, d3: Device, ambs: Ambients)
    requires ParseAll(p, prior, Listed(p, cfg, ListScan), ambs, 0) == d1
    requires ParseAll(p, d1, Listed(p, cfg, ListUdp), ambs, 7) == d2
    requires ParseAll(p, d2, Listed(p, cfg, ListMisc), ambs, 10) == d3
    ensures ParseAll(p, prior, Listed(p, cfg, ListScan) + (Listed(p, cfg, ListUdp) + Listed(p, cfg, ListMisc)), ambs, 0)
            == d3
  {
    var scan, udp, misc := Listed(p, cfg, ListScan), Listed(p, cfg, ListUdp), Listed(p, cfg, ListMisc);
    ExecuteInParts(Interpret(p), prior, scan, d1, udp, d2, misc, d3, ambs);
  }

  /** Executing the listings of one device on any other restores the configuration, but for the
      device's identity; apart from it only the sub-frame count follows the rate.  FPS and the
      port come back when they are within the signed types they are scanned with, SIM when no
      earlier strtoul has left ERANGE in errno.  The rate is a whole number below 10^6.  Every line
      meets undefined values of its own. */
  lemma ListRestores(p: Protocol, listed: Device, prior: Device, n: nat, listing: Ambients, ambs: Ambients)
    requires p.Valid() && ConfigInv(p, listed.cfg)
    requires listed.cfg.rate == n as real && n < 1000000
    ensures ParseAll(p, prior, Script(p, listed, listing), ambs, 0) == Relisted(listed.cfg, prior, ambs)
  {
    ScriptLines(p, listed, n, listing);
    LinesRestore(p, listed.cfg, prior, n, ambs);
  }

  ghost predicate Restored(p: Protocol, listed: Device, prior: Device, listing: Ambients, ambs: Ambients) {
    ParseAll(p, prior, Script(p, listed, listing), ambs, 0).cfg ==
    listed.cfg.(device := prior.cfg.device, serial := prior.cfg.serial)
  }

  /** LIST undoes to SET in every execution, whatever the language leaves undefined from line to
      line, if and only if FPS and the port fit the signed types and SIM can be set or need not be. */
  lemma ListRestoresIff(p: Protocol, listed: Device, prior: Device, n: nat)
    requires p.Valid() && ConfigInv(p, listed.cfg)
    requires listed.cfg.rate == n as real && n < 1000000
    ensures (forall listing, ambs :: Restored(p, listed, prior, listing, ambs)) <==>
            (listed.cfg.fps < 0x8000_0000 && listed.cfg.udpPort < 0x8000
             && (prior.erange ==> prior.cfg.sim == listed.cfg.sim))
  {
    forall listing, ambs
      ensures Restored(p, listed, prior, listing, ambs) <==> RelistedAlike(listed.cfg, prior, ambs)
    {
      RestoredIff(p, listed, prior, n, listing, ambs);
    }
    var zeros: Ambients := i => Ambient(0, 0, 0);
    assert Restored(p, listed, prior, zeros, zeros) <==> RelistedAlike(listed.cfg, prior, zeros);
  }

  ghost predicate RelistedAlike(cfg: Config, prior: Device, ambs: Ambients) {
    && Reread(cfg.fps, 0x1_0000_0000, ambs(FPS_LINE)) == cfg.fps
    && Reread(cfg.udpPort, 0x1_0000, ambs(IPUDP_LINE)) == cfg.udpPort
    && (prior.erange ==> prior.cfg.sim == cfg.sim)
  }

  lemma RestoredIff(p: Protocol, listed: Device, prior: Device, n: nat, listing: Ambients, ambs: Ambients)
    requires p.Valid() && ConfigInv(p, listed.cfg)
    requires listed.cfg.rate == n as real && n < 1000000
    ensures Restored(p, listed, prior, listing, ambs) <==> RelistedAlike(listed.cfg, prior, ambs)
  {
    ListRestores(p, listed, prior, n, listing, ambs);
  }

  // ---- Commands that lead to a failing round trip ----------------------------------------------------------

  lemma MinusOne(before: nat, bits: nat, amb: Ambient)
    requires bits >= 2
    ensures Stored("-1", before, bits, amb) == bits - 1
  {
    assert SpaceRun("-1") == 0 && "-1"[0..] == "-1" && "-1"[1..] == "1" && Signed("-1") == (true, "1");
    assert DigitRun("1", 10) == 1 && "1"[..1] == "1" && "1"[..0] == "" && Value("1", 10) == 1;
    assert ScanInt("-1") == Some(-1);
  }

  /** A negative FPS is stored in the unsigned field. */
  lemma FpsMinusOne(p: Protocol, d: Device, amb: Ambient)
    ensures Parse(p, d, "SET " + ("FPS" + (" " + "-1")), amb).0 == d.(cfg := d.cfg.(fps := 0xFFFF_FFFF))
  {
    OneArgument(p, d, "FPS", "-1", amb);
    SettingNames();
    MinusOne(d.cfg.fps, 0x1_0000_0000, amb);
  }

  lemma PortMinusOne(p: Protocol, d: Device, target: string, amb: Ambient)
    requires Word(target, SEPARATORS)
    ensures Parse(p, d, "SET " + ("IPUDP" + (" " + (target + (" " + "-1")))), amb).0 ==
            d.(cfg := d.cfg.(udpTarget := target, udpPort := 0xFFFF))
  {
    TwoArguments(p, d, "IPUDP", target, "-1", amb);
    SettingNames();
    MinusOne(d.cfg.udpPort, 0x1_0000, amb);
  }

  /** A value beyond unsigned long is refused, and leaves ERANGE behind. */
  lemma SimOverflows(p: Protocol, d: Device, amb: Ambient)
    ensures Parse(p, d, "SET " + ("SIM" + (" " + Decimal(p.ulongMax + 1))), amb).0 == d.(erange := true)
  {
    var text := Decimal(p.ulongMax + 1);
    DecimalIsWord(p.ulongMax + 1);
    OneArgument(p, d, "SIM", text, amb);
    SettingNames();
    var cmd := "SET " + ("SIM" + (" " + text));
    SimTokens(p, d, cmd, ["SET", "SIM", text], amb);
    CStringWithoutNul(text);
    StrtoulOverflow(p.ulongMax + 1, p.ulongMax);
  }

  /** Each of these commands is enough: afterwards some execution of the listings does not restore
      what was listed. */
  lemma RoundTripCanFail(p: Protocol, d: Device, prior: Device, n: nat, amb: Ambient)
    requires p.Valid() && ConfigInv(p, d.cfg) && d.cfg.rate == n as real && n < 1000000
    ensures var listed := Parse(p, d, "SET " + ("FPS" + (" " + "-1")), amb).0;
            exists listing, ambs :: !Restored(p, listed, prior, listing, ambs)
    ensures var listed := Parse(p, d, "SET " + ("IPUDP" + (" " + (d.cfg.udpTarget + (" " + "-1")))), amb).0;
            exists listing, ambs :: !Restored(p, listed, prior, listing, ambs)
    ensures var other := Parse(p, prior, "SET " + ("SIM" + (" " + Decimal(p.ulongMax + 1))), amb).0;
            prior.cfg.sim != d.cfg.sim ==> exists listing, ambs :: !Restored(p, d, other, listing, ambs)
  {
    FpsMinusOne(p, d, amb);
    PortMinusOne(p, d, d.cfg.udpTarget, amb);
    SimOverflows(p, prior, amb);
    ListRestoresIff(p, d.(cfg := d.cfg.(fps := 0xFFFF_FFFF)), prior, n);
    ListRestoresIff(p, d.(cfg := d.cfg.(udpPort := 0xFFFF)), prior, n);
    ListRestoresIff(p, d, prior.(erange := true), n);
  }

  /** ENFTP is the one setting whose lower case is not recognized. */
  lemma LowerCaseSettings(p: Protocol, d: Device, rest: string, amb: Ambient)
    ensures SettingOf("rate") == RATE && SettingOf("fps") == FPS && SettingOf("enudp") == ENUDP
    ensures SettingOf("ipudp") == IPUDP && SettingOf("format") == FORMAT && SettingOf("units") == UNITS
    ensures SettingOf("sim") == SIM
    ensures Parse(p, d, "SET " + ("enftp" + (" " + rest)), amb).0 == d
  {
    LowerCaseNames();
    UnknownLine(p, d, "enftp", rest, amb);
  }

  lemma LowerCaseNames()
    ensures SettingOf("rate") == RATE && SettingOf("fps") == FPS && SettingOf("enudp") == ENUDP
    ensures SettingOf("ipudp") == IPUDP && SettingOf("format") == FORMAT && SettingOf("units") == UNITS
    ensures SettingOf("sim") == SIM && SettingOf("enftp") == NoSetting
  {
    assert "enftp"[0] == 'e' && "enftp"[2] == 'f' && "enudp"[2] == 'u' && "ENFTP"[0] == 'E' && "ENUDP"[0] == 'E';
    assert "rate"[0] == 'r' && "fps"[0] == 'f' && "fps"[1] == 'p' && "format"[0] == 'f' && "format"[1] == 'o';
    assert "ipudp"[0] == 'i' && "units"[0] == 'u' && "sim"[0] == 's';
  }
}
