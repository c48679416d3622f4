/** What each command does, said of the device's fields and of the answer: the words it may be spelled
    with, its arguments, and what is refused. */
module CommandResults {
  import opened StringUtils
  import opened Numbers
  import opened Protocol
  import opened Device
  import opened CommandProofs
  import opened RoundTrip

  function WordsOf(cmd: string): seq<string> { Split(cmd, SEPARATORS) }

  /** Both spellings of a word. */
  predicate Spells(word: string, upper: string, lower: string) {
    word == upper || word == lower
  }

  // ---- The first word -----------------------------------------------------------------------------------

  lemma QueryVerbs()
    ensures VerbOf("VER") == VerbOf("ver") == VerbOf("VERSION") == VerbOf("version") == VER
    ensures VerbOf("STATUS") == VerbOf("status") == STATUS
    ensures VerbOf("GET") == VerbOf("get") == GET && VerbOf("LIST") == VerbOf("list") == LIST
  {
    assert "GET"[0] == 'G' && "get"[0] == 'g' && "LIST"[0] == 'L' && "list"[0] == 'l';
    assert "VER"[0] == 'V' && "ver"[0] == 'v' && "VERSION"[0] == 'V' && "version"[0] == 'v';
    assert "STATUS"[0] == 'S' && "status"[0] == 's' && "CALZ"[0] == 'C' && "calz"[0] == 'c';
    assert "SCAN"[0] == 'S' && "scan"[0] == 's' && "STOP"[0] == 'S' && "stop"[0] == 's';
    assert "SET"[0] == 'S' && "set"[0] == 's';
  }

  lemma ActionVerbs()
    ensures VerbOf("CALZ") == VerbOf("calz") == CALZERO && VerbOf("SCAN") == VerbOf("scan") == SCANNING
    ensures VerbOf("STOP") == VerbOf("stop") == STOP && VerbOf("SET") == VerbOf("set") == SET
  {
    assert "CALZ"[0] == 'C' && "calz"[0] == 'c' && "SCAN"[0] == 'S' && "scan"[0] == 's';
    assert "STOP"[1] == 'T' && "stop"[1] == 't' && "SCAN"[1] == 'C' && "scan"[1] == 'c';
    assert "SET"[1] == 'E' && "set"[1] == 'e' && "STATUS"[1] == 'T' && "status"[1] == 't';
    assert "VER"[0] == 'V' && "ver"[0] == 'v' && "VERSION"[0] == 'V' && "version"[0] == 'v';
    assert "STOP"[0] == 'S' && "stop"[0] == 's' && "SET"[0] == 'S' && "set"[0] == 's' && "STATUS"[2] == 'A';
    assert "STOP"[2] == 'O' && "stop"[2] == 'o' && "status"[2] == 'a';
  }

  lemma VersionAnswers(p: Protocol, d: Device, cmd: string, amb: Ambient)
    requires Spells(WordsOf(cmd)[0], "VER", "ver") || Spells(WordsOf(cmd)[0], "VERSION", "version")
    ensures Parse(p, d, cmd, amb) == (d, p.versionText)
  {
    QueryVerbs();
  }

  lemma StatusAnswers(p: Protocol, d: Device, cmd: string, amb: Ambient)
    requires Spells(WordsOf(cmd)[0], "STATUS", "status")
    ensures Parse(p, d, cmd, amb) == (d, "STATUS: " + p.statusName(d.status) + "\r\n>")
  {
    QueryVerbs();
  }

  lemma CalZCalibrates(p: Protocol, d: Device, cmd: string, amb: Ambient)
    requires Spells(WordsOf(cmd)[0], "CALZ", "calz")
    ensures Parse(p, d, cmd, amb) == (d.(calibrating := true, status := CALZ), "")
  {
    ActionVerbs();
  }

  /** SCAN starts a scan, now, unless there is one: of the configuration nothing changes, and of the rest
      only what belongs to the scan. */
  lemma ScanScans(p: Protocol, d: Device, cmd: string, amb: Ambient)
    requires Spells(WordsOf(cmd)[0], "SCAN", "scan")
    ensures var (t, answer) := Parse(p, d, cmd, amb);
            && answer == "Scan started .."
            && (d.scanning ==> t == d)
            && (!d.scanning ==>
                  && t.scanning && t.status == SCAN && t.scanStart == amb.now
                  && t.cfg == d.cfg && t.calibrating == d.calibrating && t.erange == d.erange)
  {
    ActionVerbs();
  }

  /** STOP ends a scan and leaves READY; without a scan it does nothing. */
  lemma StopStops(p: Protocol, d: Device, cmd: string, amb: Ambient)
    requires Spells(WordsOf(cmd)[0], "STOP", "stop")
    ensures Parse(p, d, cmd, amb) == (d.(scanning := false, status := if d.scanning then READY else d.status), "")
  {
    ActionVerbs();
  }

  const KNOWN_VERBS := {"VER", "ver", "VERSION", "version", "STATUS", "status", "CALZ", "calz", "SCAN", "scan",
                        "STOP", "stop", "SET", "set", "GET", "get", "LIST", "list"}

  /** Any other first word, unless it begins with the escape character, is refused and named. */
  lemma OthersAreInvalid(p: Protocol, d: Device, cmd: string, amb: Ambient)
    requires WordsOf(cmd)[0] !in KNOWN_VERBS && First(WordsOf(cmd)[0]) != 27 as char
    ensures Parse(p, d, cmd, amb) == (d, "Invalid Command: `" + cmd + "`\r\n>")
  {
  }

  // ---- SET ------------------------------------------------------------------------------------------------

  /** The command is a SET of this setting, in one of its spellings. */
  predicate Sets(cmd: string, upper: string, lower: string) {
    |WordsOf(cmd)| >= 2 && Spells(WordsOf(cmd)[0], "SET", "set") && Spells(WordsOf(cmd)[1], upper, lower)
  }

  lemma SetIsTaken(p: Protocol, d: Device, cmd: string, amb: Ambient)
    requires Spells(WordsOf(cmd)[0], "SET", "set")
    ensures Parse(p, d, cmd, amb) == Set(p, d, cmd, WordsOf(cmd), amb)
  {
    ActionVerbs();
  }

  lemma SetRate(p: Protocol, d: Device, cmd: string, amb: Ambient, rate: real)
    requires Sets(cmd, "RATE", "rate") && |WordsOf(cmd)| >= 3 && p.scanRate(WordsOf(cmd)[2]) == Some(rate)
    ensures Parse(p, d, cmd, amb) ==
            (d.(cfg := d.cfg.(rate := rate), averages := AveragesFor(rate, amb)), cmd + "\r\n>")
  {
    SetIsTaken(p, d, cmd, amb);
    SettingNames();
    LowerCaseNames();
  }

  /** A decimal number within the signed range is stored. */
  lemma SetFps(p: Protocol, d: Device, cmd: string, amb: Ambient, n: nat)
    requires Sets(cmd, "FPS", "fps") && |WordsOf(cmd)| >= 3 && WordsOf(cmd)[2] == Decimal(n) && n < 0x8000_0000
    ensures Parse(p, d, cmd, amb) == (d.(cfg := d.cfg.(fps := n)), cmd + "\r\n>")
  {
    SetIsTaken(p, d, cmd, amb);
    SettingNames();
    LowerCaseNames();
    StoredDecimal(n, d.cfg.fps, 0x1_0000_0000, amb);
  }

  /** Zero switches off, any other number on. */
  lemma SetEnudp(p: Protocol, d: Device, cmd: string, amb: Ambient, n: nat)
    requires Sets(cmd, "ENUDP", "enudp") && |WordsOf(cmd)| >= 3 && WordsOf(cmd)[2] == Decimal(n) && n < 0x8000_0000
    ensures Parse(p, d, cmd, amb) == (d.(cfg := d.cfg.(udpEnabled := n != 0)), cmd + "\r\n>")
  {
    SetIsTaken(p, d, cmd, amb);
    SettingNames();
    LowerCaseNames();
    ScanDecimal(n);
  }

  lemma SetEnftp(p: Protocol, d: Device, cmd: string, amb: Ambient, n: nat)
    requires Sets(cmd, "ENFTP", "ENFTP") && |WordsOf(cmd)| >= 3 && WordsOf(cmd)[2] == Decimal(n) && n < 0x8000_0000
    ensures Parse(p, d, cmd, amb) == (d.(cfg := d.cfg.(ftpEnabled := n != 0)), cmd + "\r\n>")
  {
    SetIsTaken(p, d, cmd, amb);
    SettingNames();
    ScanDecimal(n);
  }

  lemma SetIpudp(p: Protocol, d: Device, cmd: string, amb: Ambient, n: nat)
    requires Sets(cmd, "IPUDP", "ipudp") && |WordsOf(cmd)| >= 4 && WordsOf(cmd)[3] == Decimal(n) && n < 0x8000
    ensures Parse(p, d, cmd, amb) == (d.(cfg := d.cfg.(udpTarget := WordsOf(cmd)[2], udpPort := n)), cmd + "\r\n>")
  {
    SetIsTaken(p, d, cmd, amb);
    SettingNames();
    LowerCaseNames();
    StoredDecimal(n, d.cfg.udpPort, 0x1_0000, amb);
  }

  /** A unit of the table is set by its name; any other name is refused. */
  lemma SetUnits(p: Protocol, d: Device, cmd: string, amb: Ambient)
    requires p.Valid() && Sets(cmd, "UNITS", "units") && |WordsOf(cmd)| >= 3
    ensures forall u :: u in p.unitTable && WordsOf(cmd)[2] == p.unitsName(u) ==>
              Parse(p, d, cmd, amb) == (d.(cfg := d.cfg.(units := u)), cmd + "\r\n>")
    ensures p.unitsNamed(CString(WordsOf(cmd)[2])) == None ==>
              Parse(p, d, cmd, amb) == (d, "Invalid Command: SET UNITS " + WordsOf(cmd)[2] + " (case sensitive)\r\n>")
  {
    SetIsTaken(p, d, cmd, amb);
    SettingNames();
    LowerCaseNames();
    forall u | u in p.unitTable && WordsOf(cmd)[2] == p.unitsName(u)
      ensures CString(WordsOf(cmd)[2]) == WordsOf(cmd)[2]
    {
      CStringWithoutNul(p.unitsName(u));
    }
  }

  /** What cannot be scanned leaves the number as it was. */
  lemma NotANumberKeeps(p: Protocol, d: Device, cmd: string, amb: Ambient)
    requires Sets(cmd, "FPS", "fps") && |WordsOf(cmd)| >= 3 && WordsOf(cmd)[2] != "" && 'A' <= WordsOf(cmd)[2][0]
    ensures Parse(p, d, cmd, amb) == (d, cmd + "\r\n>")
  {
    SetIsTaken(p, d, cmd, amb);
    SettingNames();
    LowerCaseNames();
    LettersAreNoInteger(WordsOf(cmd)[2]);
  }

  lemma LettersAreNoInteger(text: string)
    requires text != "" && 'A' <= text[0]
    ensures ScanInt(text) == None
  {
    assert SpaceRun(text) == 0 && text[0..] == text;
    assert DigitOf(text[0]) >= 10;
  }

  /** A SET that lacks its arguments is refused, and changes nothing. */
  lemma MissingArguments(p: Protocol, d: Device, cmd: string, amb: Ambient)
    requires Spells(WordsOf(cmd)[0], "SET", "set")
    requires |WordsOf(cmd)| < 3 && (|WordsOf(cmd)| == 2 ==> !Spells(WordsOf(cmd)[1], "FORMAT", "format"))
    ensures Refused(d, Parse(p, d, cmd, amb))
  {
    SetIsTaken(p, d, cmd, amb);
    ShortSet(p, d, cmd, WordsOf(cmd), amb);
  }

  predicate Refused(d: Device, result: (Device, string)) {
    result.0 == d && "Invalid Command: " <= result.1
  }

  lemma ShortSet(p: Protocol, d: Device, cmd: string, tokens: seq<string>, amb: Ambient)
    requires 0 < |tokens| < 3 && (|tokens| == 2 ==> !SettingOf(tokens[1]).FORMAT?)
    ensures Refused(d, Set(p, d, cmd, tokens, amb))
  {
    RefusalsForMissing();
    if |tokens| == 1 {
      return;
    }
    var setting := SettingOf(tokens[1]);
    if setting.NoSetting? {
      InvalidIsRefusal(cmd);
      return;
    }
    ShortSetting(p, d, cmd, tokens, amb);
  }

  lemma ShortSetting(p: Protocol, d: Device, cmd: string, tokens: seq<string>, amb: Ambient)
    requires |tokens| == 2 && !SettingOf(tokens[1]).FORMAT? && !SettingOf(tokens[1]).NoSetting?
    requires forall what :: "Invalid Command: " <= Needs(what)
    ensures Refused(d, Set(p, d, cmd, tokens, amb))
  {
    var setting := SettingOf(tokens[1]);
    if setting in {RATE, FPS} {
      return;
    }
    if setting in {ENUDP, ENFTP} {
      return;
    }
    if setting.IPUDP? {
      return;
    }
    if setting in {UNITS, SIM} {
      return;
    }
  }

  lemma InvalidIsRefusal(cmd: string)
    ensures "Invalid Command: " <= Invalid(cmd)
  {
    assert Invalid(cmd) == "Invalid Command: " + ("`" + cmd + "`\r\n>");
  }

  lemma RefusalsForMissing()
    ensures forall what :: "Invalid Command: " <= Needs(what)
  {
    forall what ensures "Invalid Command: " <= Needs(what) {
      assert Needs(what) == "Invalid Command: " + (what + "\r\n>");
    }
  }

  /** SET IPUDP needs a port as well. */
  lemma MissingPort(p: Protocol, d: Device, cmd: string, amb: Ambient)
    requires Sets(cmd, "IPUDP", "ipudp") && |WordsOf(cmd)| == 3
    ensures Refused(d, Parse(p, d, cmd, amb))
  {
    SetIsTaken(p, d, cmd, amb);
    SettingNames();
    LowerCaseNames();
    RefusalsForMissing();
  }

  /** A setting that is not known is refused and named. */
  lemma UnknownSetting(p: Protocol, d: Device, cmd: string, amb: Ambient)
    requires |WordsOf(cmd)| >= 2 && Spells(WordsOf(cmd)[0], "SET", "set")
    requires WordsOf(cmd)[1] !in {"RATE", "rate", "FPS", "fps", "ENUDP", "enudp", "ENFTP", "IPUDP", "ipudp",
                                  "FORMAT", "format", "UNITS", "units", "SIM", "sim"}
    ensures Parse(p, d, cmd, amb) == (d, "Invalid Command: `" + cmd + "`\r\n>")
  {
    SetIsTaken(p, d, cmd, amb);
  }

  // ---- SET FORMAT -------------------------------------------------------------------------------------------

  function Lower(c: char): char { if 'A' <= c <= 'Z' then c - 'A' + 'a' else c }

  /** The formats of each kind, in upper or lower case, and nothing else. */
  lemma FormatsAccepted(cfg: Config, kind: char, f: char)
    ensures var (t, ok) := SetDataFormat(cfg, kind, f);
            && (ok <==>
                  || (kind in "Tt" && f in "AaFfCc")
                  || (kind in "Ff" && f in "AaBbCc")
                  || (kind in "Bb" && f in "BbLl"))
            && (!ok ==> t == cfg)
            && (ok && kind in "Tt" ==> t == cfg.(telnet := t.telnet) && Lower(FormatToChar(t.telnet)) == Lower(f))
            && (ok && kind in "Ff" ==> t == cfg.(ftpUdp := t.ftpUdp) && Lower(FormatToChar(t.ftpUdp)) == Lower(f))
            && (ok && kind in "Bb" ==> t == cfg.(binary := t.binary) && Lower(FormatToChar(t.binary)) == Lower(f))
  {
  }

  /** The pairs before the first one that fails stay in force, and the answer names that one. */
  lemma FirstFailureEnds(cfg: Config, tokens: seq<string>, i: nat)
    requires i + 3 < |tokens|
    requires SetDataFormat(cfg, First(tokens[i]), First(tokens[i + 1])).1
    requires var next := SetDataFormat(cfg, First(tokens[i]), First(tokens[i + 1])).0;
             !SetDataFormat(next, First(tokens[i + 2]), First(tokens[i + 3])).1
    ensures SetFormats(cfg, tokens, i) ==
            (SetDataFormat(cfg, First(tokens[i]), First(tokens[i + 1])).0,
             Some("Invalid Command: SET FORMAT " + tokens[i + 2] + " " + tokens[i + 3] + "\r\n>"))
  {
    var next := SetDataFormat(cfg, First(tokens[i]), First(tokens[i + 1])).0;
    SetPair(cfg, tokens, i);
    FormatsAccepted(next, First(tokens[i + 2]), First(tokens[i + 3]));
  }

  /** A kind without its format ends the command, and changes nothing. */
  lemma OddTokenEnds(cfg: Config, tokens: seq<string>, i: nat)
    requires i + 1 == |tokens|
    ensures SetFormats(cfg, tokens, i) ==
            (cfg, Some("Invalid Command: `SET FORMAT` requires argument pairs: e.g. SET FORMAT F <format>\r\n>"))
  {
  }

  /** A SET FORMAT that succeeds answers the line that LIST S prints. */
  lemma FormatAnswers(p: Protocol, d: Device, cmd: string, amb: Ambient)
    requires Sets(cmd, "FORMAT", "format") && SetFormats(d.cfg, WordsOf(cmd), 2).1 == None
    ensures var (t, answer) := Parse(p, d, cmd, amb);
            && t == d.(cfg := SetFormats(d.cfg, WordsOf(cmd), 2).0)
            && answer == Lines(p, t.cfg, ListScan)[3] + "\r\n>"
  {
    SetIsTaken(p, d, cmd, amb);
    SettingNames();
    LowerCaseNames();
  }

  // ---- SET SIM -----------------------------------------------------------------------------------------------

  lemma SimIsTaken(p: Protocol, d: Device, cmd: string, amb: Ambient)
    requires Sets(cmd, "SIM", "sim") && |WordsOf(cmd)| >= 3
    ensures Parse(p, d, cmd, amb) == SetSim(p, d, cmd, WordsOf(cmd)[2])
  {
    SetIsTaken(p, d, cmd, amb);
    SettingNames();
    LowerCaseNames();
    SimTokens(p, d, cmd, WordsOf(cmd), amb);
  }

  /** strtoul with base 0 reads 0x and hexadecimal digits, and 0 and octal digits. */
  lemma StrtoulHexadecimal(digits: string, max: nat)
    requires digits != "" && AllDigits(digits, 16) && Value(digits, 16) <= max
    ensures Strtoul("0x" + digits, max) == Parsed(Value(digits, 16), |digits| + 2, false)
  {
    var s := "0x" + digits;
    assert s[0] == '0' && s[1] == 'x' && s[2] == digits[0] && DigitOf(s[2]) < 16;
    assert SpaceRun(s) == 0 && s[0..] == s && Signed(s) == (false, s) && s[2..] == digits;
    DigitRunAll(digits, 16);
    assert digits[..|digits|] == digits;
  }

  lemma OctalDigits(digits: string)
    requires AllDigits(digits, 8)
    ensures AllDigits("0" + digits, 8)
  {
    forall i | 0 <= i < |"0" + digits| ensures DigitOf(("0" + digits)[i]) < 8 {
      if i > 0 {
        assert ("0" + digits)[i] == digits[i - 1];
      }
    }
  }

  lemma StrtoulOctal(digits: string, max: nat)
    requires digits != "" && AllDigits(digits, 8) && Value("0" + digits, 8) <= max
    ensures Strtoul("0" + digits, max) == Parsed(Value("0" + digits, 8), |digits| + 1, false)
  {
    OctalDigits(digits);
    StrtoulFromZero("0" + digits, max);
  }

  lemma StrtoulFromZero(s: string, max: nat)
    requires |s| >= 2 && s[0] == '0' && AllDigits(s, 8) && Value(s, 8) <= max
    ensures Strtoul(s, max) == Parsed(Value(s, 8), |s|, false)
  {
    assert DigitOf(s[1]) < 8;
    assert SpaceRun(s) == 0 && s[0..] == s && Signed(s) == (false, s);
    DigitRunAll(s, 8);
    assert s[..|s|] == s;
  }

  lemma SimSixtyFour(p: Protocol, d: Device, cmd: string, amb: Ambient)
    requires p.Valid() && !d.erange && Sets(cmd, "SIM", "sim") && |WordsOf(cmd)| >= 3
    requires WordsOf(cmd)[2] == "0x40" || WordsOf(cmd)[2] == "0100"
    ensures Parse(p, d, cmd, amb) == (d.(cfg := d.cfg.(sim := 64)), cmd + "\r\n>")
  {
    SimIsTaken(p, d, cmd, amb);
    AcceptsSixtyFour(p, d, cmd, WordsOf(cmd)[2]);
  }

  lemma AcceptsSixtyFour(p: Protocol, d: Device, cmd: string, text: string)
    requires p.Valid() && !d.erange && (text == "0x40" || text == "0100")
    ensures SetSim(p, d, cmd, text) == (d.(cfg := d.cfg.(sim := 64)), cmd + "\r\n>")
  {
    if text == "0x40" {
      FortyHex(p.ulongMax);
      SimAccepts(p, d, cmd, "0x40", 64);
    } else {
      HundredOctal(p.ulongMax);
      SimAccepts(p, d, cmd, "0100", 64);
    }
  }

  lemma SimAccepts(p: Protocol, d: Device, cmd: string, text: string, value: nat)
    requires !d.erange && 0 as char !in text && value < 65536 && text != ""
    requires Strtoul(text, p.ulongMax) == Parsed(value, |text|, false)
    ensures SetSim(p, d, cmd, text) == (d.(cfg := d.cfg.(sim := value)), cmd + "\r\n>")
  {
    CStringWithoutNul(text);
  }

  lemma FortyHex(max: nat)
    requires max >= 64
    ensures Strtoul("0x40", max) == Parsed(64, 4, false)
  {
    assert "40"[..1] == "4" && "4"[..0] == "" && Value("4", 16) == 4 && Value("40", 16) == 64;
    assert "0x" + "40" == "0x40";
    StrtoulHexadecimal("40", max);
  }

  lemma HundredOctal(max: nat)
    requires max >= 64
    ensures Strtoul("0100", max) == Parsed(64, 4, false)
  {
    assert "0"[..0] == "" && Value("0", 8) == 0;
    assert "01"[..1] == "0" && Value("01", 8) == 1;
    assert "010"[..2] == "01" && Value("010", 8) == 8;
    assert "0100"[..3] == "010" && Value("0100", 8) == 64;
    assert "0" + "100" == "0100";
    StrtoulOctal("100", max);
  }

  /** Trailing text is refused, and so is a number of more than 16 bits, without any change. */
  lemma SimRefusesText(p: Protocol, d: Device, cmd: string, amb: Ambient)
    requires p.Valid() && Sets(cmd, "SIM", "sim") && |WordsOf(cmd)| >= 3 && WordsOf(cmd)[2] == "64abc"
    ensures Parse(p, d, cmd, amb) == (d, "Invalid Command: `SET SIM`" + cmd + "\r\n>")
  {
    SimIsTaken(p, d, cmd, amb);
    TextRejected(p, d, cmd, WordsOf(cmd)[2]);
  }

  lemma TextRejected(p: Protocol, d: Device, cmd: string, text: string)
    requires p.Valid() && text == "64abc"
    ensures SetSim(p, d, cmd, text) == (d, "Invalid Command: `SET SIM`" + cmd + "\r\n>")
  {
    SixtyFourAndMore(p.ulongMax);
    SimRejects(p, d, cmd, text, 64, 2);
  }

  lemma SimRejects(p: Protocol, d: Device, cmd: string, text: string, value: nat, used: nat)
    requires 0 as char !in text && Strtoul(text, p.ulongMax) == Parsed(value, used, false) && 0 < used < |text|
    ensures SetSim(p, d, cmd, text) == (d, "Invalid Command: `SET SIM`" + cmd + "\r\n>")
  {
    CStringWithoutNul(text);
  }

  lemma SixtyFourAndMore(max: nat)
    requires max >= 64
    ensures Strtoul("64abc", max) == Parsed(64, 2, false)
  {
    var s := "64abc";
    assert SpaceRun(s) == 0 && s[0..] == s && Signed(s) == (false, s);
    assert s[1..] == "4abc" && s[1..][1..] == "abc" && DigitRun("abc", 10) == 0 && DigitRun("4abc", 10) == 1;
    assert DigitRun(s, 10) == 2 && s[..2] == "64" && "64"[..1] == "6" && "6"[..0] == "";
    assert Value("6", 10) == 6 && Value("64", 10) == 64;
  }

  lemma SimRefusesLarge(p: Protocol, d: Device, cmd: string, amb: Ambient, n: nat)
    requires p.Valid() && Sets(cmd, "SIM", "sim") && |WordsOf(cmd)| >= 3
    requires WordsOf(cmd)[2] == Decimal(n) && 65536 <= n <= p.ulongMax
    ensures Parse(p, d, cmd, amb) == (d, "Invalid Command: " + cmd + " Value out of range [0-65535]\r\n>")
  {
    SimIsTaken(p, d, cmd, amb);
    DecimalIsWord(n);
    CStringWithoutNul(Decimal(n));
    StrtoulDecimal(n, p.ulongMax);
  }

  /** A negative number wraps to a large one, and is refused as that. */
  lemma SimRefusesNegative(p: Protocol, d: Device, cmd: string, amb: Ambient, n: nat)
    requires p.Valid() && Sets(cmd, "SIM", "sim") && |WordsOf(cmd)| >= 3
    requires WordsOf(cmd)[2] == "-" + Decimal(n) && 0 < n <= p.ulongMax - 65535
    ensures Parse(p, d, cmd, amb) == (d, "Invalid Command: " + cmd + " Value out of range [0-65535]\r\n>")
  {
    SimIsTaken(p, d, cmd, amb);
    StrtoulNegative(n, WordsOf(cmd)[2], p.ulongMax);
    SimTooLarge(p, d, cmd, WordsOf(cmd)[2], p.ulongMax + 1 - n);
  }

  lemma SimTooLarge(p: Protocol, d: Device, cmd: string, text: string, value: nat)
    requires 0 as char !in text && Strtoul(text, p.ulongMax) == Parsed(value, |text|, false)
    requires text != "" && value > 65535
    ensures SetSim(p, d, cmd, text) == (d, "Invalid Command: " + cmd + " Value out of range [0-65535]\r\n>")
  {
    CStringWithoutNul(text);
  }

  lemma StrtoulNegative(n: nat, text: string, max: nat)
    requires 0 < n <= max && text == "-" + Decimal(n)
    ensures Strtoul(text, max) == Parsed(max + 1 - n, |text|, false)
    ensures text != "" && 0 as char !in text
  {
    DecimalShape(n);
    DecimalIsWord(n);
    StrtoulMinus(text[1..], text, max);
  }

  lemma StrtoulMinus(digits: string, text: string, max: nat)
    requires text == "-" + digits && digits != "" && AllDigits(digits, 10)
    requires '1' <= digits[0] <= '9' && 0 < Value(digits, 10) <= max
    ensures Strtoul(text, max) == Parsed(max + 1 - Value(digits, 10), |text|, false)
  {
    assert SpaceRun(text) == 0 && text[0..] == text && text[1..] == digits && Signed(text) == (true, digits);
    assert digits[0..] == digits;
    DigitRunAll(digits, 10);
    assert digits[..|digits|] == digits;
  }

  // ---- GET and LIST ------------------------------------------------------------------------------------------

  predicate Gets(cmd: string, upper: string, lower: string) {
    |WordsOf(cmd)| >= 2 && Spells(WordsOf(cmd)[0], "GET", "get") && Spells(WordsOf(cmd)[1], upper, lower)
  }

  lemma GetIsTaken(p: Protocol, d: Device, cmd: string, amb: Ambient)
    requires Spells(WordsOf(cmd)[0], "GET", "get")
    ensures Parse(p, d, cmd, amb) == (d, Get(p, d, cmd, WordsOf(cmd)))
  {
    QueryVerbs();
  }

  /** GET answers the line that LIST S prints for the setting; nothing changes. */
  lemma GetAnswersTheListedLine(p: Protocol, d: Device, cmd: string, amb: Ambient)
    ensures Gets(cmd, "RATE", "rate") ==> Parse(p, d, cmd, amb) == (d, Lines(p, d.cfg, ListScan)[0] + "\r\n>")
    ensures Gets(cmd, "FPS", "fps") ==> Parse(p, d, cmd, amb) == (d, Lines(p, d.cfg, ListScan)[1] + "\r\n>")
    ensures Gets(cmd, "UNITS", "units") ==> Parse(p, d, cmd, amb) == (d, Lines(p, d.cfg, ListScan)[2] + "\r\n>")
    ensures Gets(cmd, "SN", "sn") ==> Parse(p, d, cmd, amb) == (d, "SET SN " + Decimal(d.cfg.serial) + "\r\n>")
  {
    if |WordsOf(cmd)| >= 2 && Spells(WordsOf(cmd)[0], "GET", "get") {
      GetIsTaken(p, d, cmd, amb);
      GetLines(p, d, cmd, WordsOf(cmd));
    }
  }

  lemma GetLines(p: Protocol, d: Device, cmd: string, tokens: seq<string>)
    requires |tokens| >= 2
    ensures Spells(tokens[1], "RATE", "rate") ==> Get(p, d, cmd, tokens) == Lines(p, d.cfg, ListScan)[0] + "\r\n>"
    ensures Spells(tokens[1], "FPS", "fps") ==> Get(p, d, cmd, tokens) == Lines(p, d.cfg, ListScan)[1] + "\r\n>"
    ensures Spells(tokens[1], "UNITS", "units") ==> Get(p, d, cmd, tokens) == Lines(p, d.cfg, ListScan)[2] + "\r\n>"
    ensures Spells(tokens[1], "SN", "sn") ==> Get(p, d, cmd, tokens) == "SET SN " + Decimal(d.cfg.serial) + "\r\n>"
  {
    SettingNames();
    LowerCaseNames();
    UnitsListed(p, d.cfg.units);
  }

  lemma UnitsListed(p: Protocol, u: Units)
    ensures "SET UNITS " + p.unitsName(u) + " " + p.conversionText(u) ==
            "SET UNITS " + (p.unitsName(u) + (" " + p.conversionText(u)))
  {
  }

  predicate ListsWith(cmd: string, upper: string, lower: string) {
    |WordsOf(cmd)| >= 2 && Spells(WordsOf(cmd)[0], "LIST", "list") && Spells(WordsOf(cmd)[1], upper, lower)
  }

  lemma ListAnswers(p: Protocol, d: Device, cmd: string, amb: Ambient)
    ensures ListsWith(cmd, "S", "s") ==> Parse(p, d, cmd, amb) == (d, Print(Lines(p, d.cfg, ListScan)))
    ensures ListsWith(cmd, "UDP", "udp") ==> Parse(p, d, cmd, amb) == (d, Print(Lines(p, d.cfg, ListUdp)))
    ensures ListsWith(cmd, "M", "m") ==> Parse(p, d, cmd, amb) == (d, Print(Lines(p, d.cfg, ListMisc)))
  {
    QueryVerbs();
    ListingSpellings();
  }

  lemma ListingSpellings()
    ensures ListingOf("S") == ListingOf("s") == ListScan && ListingOf("UDP") == ListingOf("udp") == ListUdp
    ensures ListingOf("M") == ListingOf("m") == ListMisc
  {
    assert "M"[0] == 'M' && "m"[0] == 'm' && "S"[0] == 'S' && "s"[0] == 's';
  }

  /** GET and LIST without a second word, or with an unknown one, are refused. */
  lemma MissingQueries(p: Protocol, d: Device, cmd: string, amb: Ambient)
    requires Spells(WordsOf(cmd)[0], "GET", "get") || Spells(WordsOf(cmd)[0], "LIST", "list")
    requires |WordsOf(cmd)| < 2
    ensures Refused(d, Parse(p, d, cmd, amb))
  {
    RefusalsForMissing();
    if Spells(WordsOf(cmd)[0], "GET", "get") {
      GetIsTaken(p, d, cmd, amb);
    } else {
      ListIsTaken(p, d, cmd, amb);
    }
  }

  lemma ListIsTaken(p: Protocol, d: Device, cmd: string, amb: Ambient)
    requires Spells(WordsOf(cmd)[0], "LIST", "list")
    ensures Parse(p, d, cmd, amb) == (d, List(p, d, cmd, WordsOf(cmd)))
  {
    QueryVerbs();
  }

  lemma UnknownGet(p: Protocol, d: Device, cmd: string, amb: Ambient)
    requires |WordsOf(cmd)| >= 2 && Spells(WordsOf(cmd)[0], "GET", "get")
    requires WordsOf(cmd)[1] !in {"SN", "sn", "RATE", "rate", "UNITS", "units", "FPS", "fps"}
    ensures Parse(p, d, cmd, amb) == (d, "Invalid Command: `" + cmd + "`\r\n>")
  {
    GetIsTaken(p, d, cmd, amb);
  }

  lemma UnknownList(p: Protocol, d: Device, cmd: string, amb: Ambient)
    requires |WordsOf(cmd)| >= 2 && Spells(WordsOf(cmd)[0], "LIST", "list")
    requires WordsOf(cmd)[1] !in {"S", "s", "UDP", "udp", "M", "m"}
    ensures Parse(p, d, cmd, amb) == (d, "Invalid Command: `" + cmd + "`\r\n>")
  {
    ListIsTaken(p, d, cmd, amb);
  }

  /** The settings that each listing shows, in this order. */
  lemma ListingsShow(p: Protocol, cfg: Config)
    ensures |Lines(p, cfg, ListScan)| == 6 && |Lines(p, cfg, ListUdp)| == 2 && |Lines(p, cfg, ListMisc)| == 4
    ensures "SET RATE " <= Lines(p, cfg, ListScan)[0] && "SET FPS " <= Lines(p, cfg, ListScan)[1]
    ensures "SET UNITS " <= Lines(p, cfg, ListScan)[2] && "SET FORMAT" <= Lines(p, cfg, ListScan)[3]
    ensures "SET TRIG " <= Lines(p, cfg, ListScan)[4] && "SET ENFTP " <= Lines(p, cfg, ListScan)[5]
    ensures "SET ENUDP " <= Lines(p, cfg, ListUdp)[0] && "SET IPUDP " <= Lines(p, cfg, ListUdp)[1]
    ensures "SET SIM " <= Lines(p, cfg, ListMisc)[0] && "SET ECHO " <= Lines(p, cfg, ListMisc)[1]
    ensures "SET XITE " <= Lines(p, cfg, ListMisc)[2] && "SET ETOL " <= Lines(p, cfg, ListMisc)[3]
  {
  }
}
