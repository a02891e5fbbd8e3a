/** The pure constructors of the pool's utilities: the SetupConnection
    messages the pool sends (section 3.2.1 of the Stratum V2 specification,
    with the mining flags of its section 5.3.1) and the vardiff slot key. */
module PoolUtils {
  import opened Base

  /** The number of bytes in the UTF-8 encoding of `c`. */
  function Utf8Width(c: char): (n: nat)
    ensures 1 <= n <= 4
    ensures n == 1 <==> c as int < 0x80
  {
    if c as int < 0x80 then 1
    else if c as int < 0x800 then 2
    else if c as int < 0x1_0000 then 3
    else 4
  }

  /** The number of bytes in the UTF-8 encoding of `s`: at least one and at
      most four per character. */
  function Utf8Length(s: string): (n: nat)
    ensures |s| <= n <= 4 * |s|
    decreases |s|
  {
    if s == [] then 0 else Utf8Width(s[0]) + Utf8Length(s[1..])
  }

  /** An ASCII string's UTF-8 encoding has one byte per character. */
  lemma {:induction false} AsciiUtf8Length(s: string)
    requires forall i :: 0 <= i < |s| ==> s[i] as int < 0x80
    ensures Utf8Length(s) == |s|
    decreases |s|
  {
    if s != [] {
      AsciiUtf8Length(s[1..]);
    }
  }

  /** STR0_255: a string whose UTF-8 encoding has at most 255 bytes. */
  type Str0255 = s: string | Utf8Length(s) <= 255

  datatype PoolError = Str0255TooLong(length: nat)

  /** The fallible conversion of a string's UTF-8 bytes into STR0_255. */
  function ToStr0255(s: string): (r: Result<Str0255, PoolError>)
    ensures r.Ok? <==> Utf8Length(s) <= 255
    ensures r.Ok? ==> r.value == s
    ensures r.Err? ==> r.error == Str0255TooLong(Utf8Length(s))
  {
    if Utf8Length(s) <= 255 then Ok(s) else Err(Str0255TooLong(Utf8Length(s)))
  }

  /** The protocol field of SetupConnection. */
  datatype Protocol = MiningProtocol | JobDeclarationProtocol | TemplateDistributionProtocol

  /** The protocol's code on the wire. */
  function ProtocolCode(p: Protocol): (code: U8)
    ensures code <= 2
  {
    match p
    case MiningProtocol => 0
    case JobDeclarationProtocol => 1
    case TemplateDistributionProtocol => 2
  }

  // SetupConnection flags of the mining protocol
  const REQUIRES_STANDARD_JOBS: bv32 := 0x1
  const REQUIRES_WORK_SELECTION: bv32 := 0x2
  const REQUIRES_VERSION_ROLLING: bv32 := 0x4

  predicate HasFlag(flags: bv32, flag: bv32) {
    flags & flag != 0
  }

  datatype SetupConnection = SetupConnection(
    protocol: Protocol,
    minVersion: U16,
    maxVersion: U16,
    flags: bv32,
    endpointHost: Str0255,
    endpointPort: U16,
    vendor: Str0255,
    hardwareVersion: Str0255,
    firmware: Str0255,
    deviceId: Str0255)

  /** The mining-protocol SetupConnection. Every conversion it performs can
      fail in principle; with these constant strings none does, so the
      builder always succeeds. It asks for work selection and version
      rolling, and does not ask for standard jobs. */
  function GetSetupConnectionMessage(minVersion: U16, maxVersion: U16): (r: Result<SetupConnection, PoolError>)
    ensures r.Ok?
    ensures r.value.protocol == MiningProtocol && ProtocolCode(r.value.protocol) == 0
    ensures r.value.minVersion == minVersion && r.value.maxVersion == maxVersion
    ensures r.value.flags == REQUIRES_WORK_SELECTION | REQUIRES_VERSION_ROLLING
    ensures HasFlag(r.value.flags, REQUIRES_WORK_SELECTION)
    ensures HasFlag(r.value.flags, REQUIRES_VERSION_ROLLING)
    ensures !HasFlag(r.value.flags, REQUIRES_STANDARD_JOBS)
    ensures r.value.endpointHost == "0.0.0.0" && r.value.endpointPort == 50
    ensures r.value.vendor == r.value.hardwareVersion == r.value.firmware == r.value.deviceId == ""
  {
    match ToStr0255("0.0.0.0")
    case Err(e) => Err(e)
    case Ok(endpointHost) =>
      match ToStr0255("")
      case Err(e) => Err(e)
      case Ok(vendor) =>
        match ToStr0255("")
        case Err(e) => Err(e)
        case Ok(hardwareVersion) =>
          match ToStr0255("")
          case Err(e) => Err(e)
          case Ok(firmware) =>
            match ToStr0255("")
            case Err(e) => Err(e)
            case Ok(deviceId) =>
              Ok(SetupConnection(
                MiningProtocol, minVersion, maxVersion, 0x6,
                endpointHost, 50, vendor, hardwareVersion, firmware, deviceId))
  }

  /** The template-distribution SetupConnection to the Template Provider at
      `address`: version 2 only, no flags, the address's IP text and port as
      the endpoint. The source unwraps the STR0_255 conversion of the IP text,
      which therefore must fit (an IP address's text is ASCII of at most 45
      characters). */
  function GetSetupConnectionMessageTp(address: SocketAddr): (m: SetupConnection)
    requires Utf8Length(address.ip) <= 255
    ensures m.protocol == TemplateDistributionProtocol && ProtocolCode(m.protocol) == 2
    ensures m.minVersion == m.maxVersion == 2
    ensures m.flags == 0
    ensures m.endpointHost == address.ip && m.endpointPort == address.port
    ensures m.vendor == m.hardwareVersion == m.firmware == m.deviceId == ""
  {
    var endpointHost := ToStr0255(address.ip).value;
    SetupConnection(
      TemplateDistributionProtocol, 2, 2, 0x0,
      endpointHost, address.port,
      ToStr0255("").value, ToStr0255("").value, ToStr0255("").value, ToStr0255("").value)
  }

  /** Key of a per-channel vardiff slot. */
  datatype VardiffKey = VardiffKey(downstreamId: nat, channelId: U32)

  function VardiffKeyFrom(value: (nat, U32)): (k: VardiffKey)
    ensures (k.downstreamId, k.channelId) == value
  {
    VardiffKey(value.0, value.1)
  }

  /** Two (downstream, channel) pairs share a vardiff slot only if they are
      the same pair. */
  lemma VardiffKeyFromInjective(a: (nat, U32), b: (nat, U32))
    ensures VardiffKeyFrom(a) == VardiffKeyFrom(b) <==> a == b
  {
  }
}
