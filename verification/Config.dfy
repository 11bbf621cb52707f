/** The parts of the configuration that routing decisions read. */
module Config {
  import opened Text

  datatype Protocol = Tcp | Udp | OtherProtocol(text: string)

  function ProtocolOf(text: string): Protocol {
    if text == "tcp" then Tcp else if text == "udp" then Udp else OtherProtocol(text)
  }

  datatype Family = V4 | V6

  datatype Action = Proxy | Zapret | Direct | Reject | NoAction | OtherAction(text: string)

  datatype MatchProtocol = AnyProtocol | OnlyTcp | OnlyUdp | TcpAndUdp | Unsupported(text: string)

  datatype UdpMode = TcpOnly | BlockQuic | OtherUdpMode

  /** nftSetRefs. */
  function SetNames(name: string): seq<string> { [name, "dns_" + name] }

  datatype Section = Section(
    name: string,
    enabled: bool,
    action: Action,
    tproxyPort: int,
    udpMode: UdpMode,
    matchProtocol: MatchProtocol,
    destinationPorts: string,
    priority: int,
    zapretStrategies: seq<string>,
    zapretApplications: Option<seq<string>>,  // None until the section is first compiled
    source4: seq<string>,      // normalised source networks
    source6: seq<string>)
  {
    predicate Scoped() { action.Proxy? || action.Zapret? }

    predicate MatchesProtocol(protocol: Protocol) {
      Scoped() ==>
        match matchProtocol
        case AnyProtocol => true
        case OnlyTcp => protocol.Tcp?
        case OnlyUdp => protocol.Udp?
        case TcpAndUdp => protocol.Tcp? || protocol.Udp?
        case Unsupported(text) => protocol == OtherProtocol(text)
    }

    function NFTSet(f: Family): string {
      var suffix := if f.V4? then "4" else "6";
      match action
      case Direct => "direct" + suffix
      case Reject => "reject" + suffix
      case _ => "proxy_" + name + suffix
    }

    /** The fixed set and the one dnsmasq fills. */
    function SetRefs(f: Family): seq<string> { SetNames(NFTSet(f)) }

    function Sources(f: Family): seq<string> { if f.V4? then source4 else source6 }
  }

  datatype ZapretProfile = ZapretProfile(name: string, enabled: bool, interfaces: seq<string>, fwMark: string)

  datatype ZapretStrategy = ZapretStrategy(
    name: string,
    enabled: bool,
    profile: string,
    candidate: string,
    selectorMark: nat,
    protocols: seq<string>,
    tcpPorts: string,
    udpPorts: string,
    tcpPktOut: int,
    udpPktOut: int)
  {
    /** The list that goes with a protocol; anything but udp reads the TCP list. */
    function PortsFor(proto: Protocol): string {
      if proto.Udp? then udpPorts else tcpPorts
    }
  }

  datatype Device = Device(mac: string, section: string, enabled: bool, exclude: bool)

  datatype IPv6Mode = On | Off | Auto

  datatype Config = Config(
    sections: seq<Section>,
    zapretProfiles: seq<ZapretProfile>,
    zapretStrategies: seq<ZapretStrategy>,
    devices: seq<Device>,
    bypassSource4: seq<string>,
    bypassSource6: seq<string>,
    ipv6Mode: IPv6Mode,
    ipv6: bool,
    lowResource: bool,
    ipv6RejectWhenOff: bool,
    blockDoT: bool,
    blockDoQ: bool,
    blockDoH3: bool,
    doH3Block4: seq<string>,
    doH3Block6: seq<string>)
  {
    predicate IPv6Routed() {
      match ipv6Mode
      case On => true
      case Off => false
      case Auto => ipv6 && !lowResource
    }

    /** The address families the generated rules speak. */
    predicate Routes(f: Family) { f.V4? || IPv6Routed() }

    function ZapretStrategyByName(name: string): Option<ZapretStrategy> {
      StrategyFrom(zapretStrategies, name, 0)
    }

    function ZapretProfileByName(name: string): Option<ZapretProfile> {
      ProfileFrom(zapretProfiles, name)
    }
  }

  /** The selector field of strategy number index, when none was assigned. */
  function DefaultSelector(index: nat): nat { (index + 1) * 0x1_0000 % 0x1_0000_0000 }

  function NormalizeStrategyAt(s: ZapretStrategy, index: nat): ZapretStrategy {
    s.(profile := if s.profile == "" then "wan" else s.profile,
       selectorMark := if s.selectorMark == 0 then DefaultSelector(index) else s.selectorMark,
       protocols := if s.protocols == [] then ["tcp"] else s.protocols,
       tcpPktOut := if s.tcpPktOut == 0 then 15 else s.tcpPktOut,
       udpPktOut := if s.udpPktOut == 0 then 9 else s.udpPktOut)
  }

  /** The first enabled strategy of that name, normalised at its position. */
  function StrategyFrom(ss: seq<ZapretStrategy>, name: string, index: nat): Option<ZapretStrategy> {
    if ss == [] then None
    else if ss[0].name == name && ss[0].enabled then Some(NormalizeStrategyAt(ss[0], index))
    else StrategyFrom(ss[1..], name, index + 1)
  }

  /** Each comma-separated piece once, trimmed, blanks dropped. */
  function AppendInterfaces(out: seq<string>, pieces: seq<string>): seq<string>
    decreases |pieces|
  {
    if pieces == [] then out
    else
      var part := TrimSpace(pieces[0]);
      AppendInterfaces(if part == "" || part in out then out else out + [part], pieces[1..])
  }

  function NormalizeInterfaces(out: seq<string>, raw: seq<string>): seq<string>
    decreases |raw|
  {
    if raw == [] then out
    else NormalizeInterfaces(AppendInterfaces(out, Split(raw[0], ',')), raw[1..])
  }

  function NormalizeProfile(p: ZapretProfile): ZapretProfile {
    p.(fwMark := if p.fwMark == "" then "0x40000000" else p.fwMark,
       interfaces := NormalizeInterfaces([], p.interfaces))
  }

  /** The first enabled, named profile, normalised. */
  function ProfileFrom(ps: seq<ZapretProfile>, name: string): Option<ZapretProfile> {
    if ps == [] then None
    else if ps[0].enabled && ps[0].name != "" && ps[0].name == name then Some(NormalizeProfile(ps[0]))
    else ProfileFrom(ps[1..], name)
  }
}
