/** The device configuration and what the commands need to know of the scanner protocol.  The
    protocol header is not part of this model: what it defines enters as a Protocol value. */
module Protocol {
  import opened StringUtils
  import opened Numbers

  const SEPARATORS := " \r\n"

  datatype Status = READY | SCAN | CALZ

  datatype Format = ASCII | VT100 | CSV | BINARY | LABVIEW

  function FormatToChar(f: Format): char {
    match f
    case ASCII => 'A'
    case VT100 => 'F'
    case CSV => 'C'
    case BINARY => 'B'
    case LABVIEW => 'L'
  }

  function FormatFromChar(c: char): Option<Format> {
    if c == 'A' || c == 'a' then Some(ASCII)
    else if c == 'F' || c == 'f' then Some(VT100)
    else if c == 'C' || c == 'c' then Some(CSV)
    else if c == 'B' || c == 'b' then Some(BINARY)
    else if c == 'L' || c == 'l' then Some(LABVIEW)
    else None
  }

  datatype DeviceId = MPS4264 | MPS4232 | MPS4216 | OtherDevice

  /** An index into the protocol's table of pressure units. */
  type Units = nat

  datatype Config = Config(
    device: DeviceId,
    serial: nat,
    telnet: Format,
    ftpUdp: Format,
    binary: Format,
    rate: real,
    fps: nat,
    units: Units,
    udpEnabled: bool,
    udpTarget: string,
    udpPort: nat,
    ftpEnabled: bool,
    sim: nat)

  /** Frames go out by UDP when it is on and its format is binary. */
  predicate Streamed(cfg: Config) { cfg.udpEnabled && cfg.ftpUdp.BINARY? }

  /** The parts of the protocol header and of the C++ library that the emulator relies on. */
  datatype Protocol = Protocol(
    unitTable: set<Units>,                 // the units that the table holds
    unitsName: Units -> string,            // mps_units_to_string
    unitsNamed: string -> Option<Units>,   // mps_units_from_string
    conversion: Units -> real,             // mps_units_conversion_factor
    conversionText: Units -> string,       // the same, as operator<< prints it
    rawUnits: Units,                       // MPS_UNITS_RAW
    rateText: real -> string,              // operator<< on a float
    scanRate: string -> Option<real>,      // sscanf with %f
    statusName: Status -> string,          // mps_status_to_string
    versionText: string,
    minCounts: int,                        // MPS_MIN_SIGNED_ADC_COUNTS
    maxCounts: int,                        // MPS_MAX_SIGNED_ADC_COUNTS
    ulongMax: nat)                         // ULONG_MAX
  {
    /** What is assumed of them: units are read back by name, a 24-bit converter, and for whole
        rates below 10^6 the six significant digits of operator<< are all of them and %f reads
        them back. */
    ghost predicate Valid() {
      && (forall u | u in unitTable ::
            Word(unitsName(u), SEPARATORS) && 0 as char !in unitsName(u) && unitsNamed(unitsName(u)) == Some(u))
      && (forall u | u in unitTable :: Word(conversionText(u), SEPARATORS))
      && (forall s :: unitsNamed(s).Some? ==> unitsNamed(s).value in unitTable)
      && (forall n: nat | n < 1000000 :: rateText(n as real) == Decimal(n) && scanRate(Decimal(n)) == Some(n as real))
      && -0x80_0000 <= minCounts < 0 < maxCounts < 0x80_0000
      && ulongMax >= 0xFFFF_FFFF
    }
  }

  /** What differs from one execution to the next: the clock, and the values that the language
      leaves undefined (a variable that sscanf did not set or that was out of range for its
      conversion, and a float that does not fit the integer it is converted to). */
  datatype Ambient = Ambient(now: int, undefinedInt: nat, undefinedAverages: nat)

  function First(token: string): char {
    if token == "" then 0 as char else token[0]
  }
}
