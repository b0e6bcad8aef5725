/** The part of config.yaml the LAN router and the resolver read, and when it is valid
    (core/vibedpn/config.py). */
module Configuration {
  import opened Options
  import opened Names
  import opened Sequences

  datatype Upstream = Vps | Dpn | Tor

  datatype Via = ViaVps | ViaDpn | ViaWg | ViaTor | ViaDirect

  datatype Policy = PolicyVps | PolicyDpn | PolicyTor | PolicyBypass | PolicyBlock

  datatype Mode = Off | Full | Smart

  /** Where the names of a site, of a list or a network go. */
  datatype Channel = Channel(via: Via, country: Option<string>, uplink: Option<string>)

  datatype DomainRule = DomainRule(channel: Channel, domain: Name, learn: bool, also: seq<Name>)
  {
    function Names(): seq<Name> { [domain] + also }
  }

  datatype DomainList = DomainList(channel: Channel, url: string)

  datatype NetworkRule = NetworkRule(channel: Channel, network: string)

  /** A routing key: `vps`, `dpn`, `tor`, `dpn-<cc>` or `wg-<name>`. */
  datatype Key = Fixed(upstream: Upstream) | Country(code: string) | Exit(name: string)

  datatype Routing = Routing(
    mode: Mode,
    defaultUpstream: Key,
    failopen: bool,
    domains: seq<DomainRule>,
    lists: seq<DomainList>,
    networks: seq<NetworkRule>)
  {
    /** Every channel the rules, the lists and the networks name. */
    function Channels(): seq<Channel> {
      seq(|domains|, i requires 0 <= i < |domains| => domains[i].channel)
      + seq(|lists|, i requires 0 <= i < |lists| => lists[i].channel)
      + seq(|networks|, i requires 0 <= i < |networks| => networks[i].channel)
    }
  }

  /** A LAN device with its own policy: matched by its MAC, or by its address when it has no MAC. */
  datatype Device = Device(mac: Option<string>, ip: Option<int>, policy: Policy)

  /** `wg` maps the name of an exit to whether it is enabled. */
  datatype Upstreams = Upstreams(vps: bool, dpn: bool, tor: bool, wg: map<string, bool>)

  /** The LAN settings of a box that routes one; gateway mode has a WAN interface too. */
  datatype Network = Network(lanInterface: string, lanSubnet: string, wanInterface: Option<string>)

  datatype Config = Config(
    network: Option<Network>,
    routing: Option<Routing>,
    devices: seq<Device>,
    upstreams: Upstreams,
    dnsEnabled: bool)
  {
    function Channels(): seq<Channel> {
      if routing.Some? then routing.value.Channels() else []
    }
  }

  const MAX_RULE_COUNTRIES := 8

  predicate IsEnabled(upstreams: Upstreams, upstream: Upstream) {
    match upstream
    case Vps => upstreams.vps
    case Dpn => upstreams.dpn
    case Tor => upstreams.tor
  }

  predicate IsKeyEnabled(upstreams: Upstreams, key: Key) {
    match key
    case Fixed(upstream) => IsEnabled(upstreams, upstream)
    case Country(_) => upstreams.dpn
    case Exit(name) => name in upstreams.wg && upstreams.wg[name]
  }

  /** WG_UPLINK_NAME: 1 to 24 lowercase letters, digits and '-', the first no '-'. */
  predicate IsExitName(name: string) {
    && 1 <= |name| <= 24 && name[0] != '-'
    && forall i :: 0 <= i < |name| ==> 'a' <= name[i] <= 'z' || '0' <= name[i] <= '9' || name[i] == '-'
  }

  /** COUNTRY_PATTERN after `normalize_country`. */
  predicate IsCountry(code: string) {
    |code| == 2 && 'A' <= code[0] <= 'Z' && 'A' <= code[1] <= 'Z'
  }

  /** What the validators of a channel accept: a country only for dpn, an exit exactly for wg. */
  predicate ValidChannel(channel: Channel) {
    && (channel.country.Some? ==> channel.via == ViaDpn && IsCountry(channel.country.value))
    && (channel.uplink.Some? <==> channel.via == ViaWg)
    && (channel.uplink.Some? ==> IsExitName(channel.uplink.value))
  }

  function RuleUpstream(via: Via): Option<Upstream> {
    match via
    case ViaVps => Some(Vps)
    case ViaDpn => Some(Dpn)
    case ViaTor => Some(Tor)
    case _ => None
  }

  function PolicyUpstream(policy: Policy): Option<Upstream> {
    match policy
    case PolicyVps => Some(Vps)
    case PolicyDpn => Some(Dpn)
    case PolicyTor => Some(Tor)
    case _ => None
  }

  /** The exit countries the rules ask for. */
  function RuleCountries(config: Config): set<string> {
    set c | c in config.Channels() && c.via == ViaDpn && c.country.Some? :: c.country.value
  }

  /** `_domain_errors` is empty: every channel goes through an enabled uplink, few enough countries. */
  predicate ValidChannels(config: Config) {
    && (forall c :: c in config.Channels() ==> ValidChannel(c))
    && (forall c :: c in config.Channels() && RuleUpstream(c.via).Some? ==>
          IsEnabled(config.upstreams, RuleUpstream(c.via).value))
    && (forall c :: c in config.Channels() && c.via == ViaWg && c.uplink.Some? ==>
          IsKeyEnabled(config.upstreams, Exit(c.uplink.value)))
    && |RuleCountries(config)| <= MAX_RULE_COUNTRIES
  }

  /** `_device_errors` is empty; `check_identity` gives every device a MAC or an address. */
  predicate ValidDevices(config: Config) {
    && (forall d :: d in config.devices ==> d.mac.Some? || d.ip.Some?)
    && (forall d :: d in config.devices && PolicyUpstream(d.policy).Some? ==>
          IsEnabled(config.upstreams, PolicyUpstream(d.policy).value))
    && (forall i, j :: 0 <= i < j < |config.devices| ==>
          && (config.devices[i].mac.Some? ==> config.devices[j].mac != config.devices[i].mac)
          && (config.devices[i].ip.Some? ==> config.devices[j].ip != config.devices[i].ip))
  }

  /** `check_domain`, `check_also` and `check_unique_names`: normal names, none under two rules, no URL twice. */
  predicate UniqueNames(routing: Routing) {
    && (forall name :: name in AllNames(routing.domains) ==> IsDomain(name))
    && NoDuplicates(AllNames(routing.domains))
    && (forall i, j :: 0 <= i < j < |routing.lists| ==> routing.lists[i].url != routing.lists[j].url)
  }

  function AllNames(domains: seq<DomainRule>): seq<Name> {
    if domains == [] then [] else domains[0].Names() + AllNames(domains[1..])
  }

  /** A box config a LAN router runs with: what `load_config` accepts for roles home and client. */
  predicate Valid(config: Config) {
    && config.routing.Some?
    && (config.routing.value.mode != Off ==> IsKeyEnabled(config.upstreams, config.routing.value.defaultUpstream))
    && !config.routing.value.defaultUpstream.Country?
    && (forall name :: name in config.upstreams.wg ==> IsExitName(name))
    && UniqueNames(config.routing.value)
    && ValidChannels(config)
    && ValidDevices(config)
  }
}
