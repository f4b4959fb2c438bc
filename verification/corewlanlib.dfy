/** Record builders: turn the channel, network and interface records that CoreWLAN hands
    out into flat field mappings. The records are plain values here; their fields stand for
    the CoreWLAN accessors of the same name. */
module CoreWlanLib {
  import opened Values
  import opened CwTypes
  import Serialization

  /** A `CWChannel`. */
  datatype Channel = Channel(channelNumber: int, channelBand: ChannelBand, channelWidth: ChannelWidth)

  /** A `CWNetwork`. `wlanChannel` is an implicitly unwrapped optional in the framework. */
  datatype Network = Network(
    ssid: Option<string>,
    ssidData: Option<seq<bv8>>,
    bssid: Option<string>,
    wlanChannel: Option<Channel>,
    rssiValue: int,
    noiseMeasurement: int,
    informationElementData: Option<seq<bv8>>,
    countryCode: Option<string>,
    beaconInterval: int,
    ibss: bool)

  /** A `CWInterface`, one field per accessor method the builder reads, plus the raw SSID
      bytes it leaves out. `transmitRate` is a floating-point number, carried by its text. */
  datatype Interface = Interface(
    powerOn: bool,
    wlanChannel: Option<Channel>,
    activePHYMode: PhyMode,
    ssid: Option<string>,
    ssidData: Option<seq<bv8>>,
    bssid: Option<string>,
    rssiValue: int,
    noiseMeasurement: int,
    security: Security,
    transmitRate: DoubleText,
    countryCode: Option<string>,
    interfaceMode: InterfaceMode,
    transmitPower: int,
    hardwareAddress: Option<string>,
    serviceActive: bool)

  const ChannelKeys: set<string> := {"ChannelNumber", "ChannelBand", "ChannelWidth"}

  const NetworkKeys: set<string> :=
    {"SSID", "BSSID", "RSSI", "Noise", "Country", "BeaconInterval", "IBSS"}

  const InterfaceKeys: set<string> :=
    {"PowerOn", "ActivePHYMode", "SSID", "BSSID", "RSSI", "Noise", "Security", "TransmitRate",
     "Country", "InterfaceMode", "TransmitPower", "HardwareAddress", "ServiceActive"}

  /** An optional string field boxed as an optional value: absent stays absent. */
  function OptionalText(s: Option<string>): (v: Option<Value>)
    ensures v.None? <==> s.None?
    ensures s.Some? ==> v == Some(VStr(s.value))
  {
    match s
    case None => None
    case Some(t) => Some(VStr(t))
  }

  /** `merging(other) { _, new in new }`: every key of either side, and on a key both sides
      hold, the value of the right-hand side. */
  function Merge(base: Record, overlay: Record): (r: Record)
    ensures r.Keys == base.Keys + overlay.Keys
    ensures forall k :: k in overlay ==> r[k] == overlay[k]
    ensures forall k :: k in base && k !in overlay ==> r[k] == base[k]
  {
    base + overlay
  }

  function ChannelDictionary(channel: Channel): (r: Record)
    ensures r.Keys == ChannelKeys
    ensures r["ChannelNumber"] == Some(VInt(channel.channelNumber))
    ensures r["ChannelBand"] == Some(VStr(ChannelBandLabel(channel.channelBand)))
    ensures r["ChannelWidth"] == Some(VStr(ChannelWidthLabel(channel.channelWidth)))
  {
    map[
      "ChannelNumber" := Some(VInt(channel.channelNumber)),
      "ChannelBand" := Some(VStr(ChannelBandLabel(channel.channelBand))),
      "ChannelWidth" := Some(VStr(ChannelWidthLabel(channel.channelWidth)))
    ]
  }

  /** A channel's mapping loses nothing: two channels with the same mapping are the same
      channel, because the band and width tables are injective. */
  lemma ChannelDictionaryInjective(a: Channel, b: Channel)
    requires ChannelDictionary(a) == ChannelDictionary(b)
    ensures a == b
  {
    ChannelBandLabelsTotal();
    ChannelWidthLabelsTotal();
    var ra, rb := ChannelDictionary(a), ChannelDictionary(b);
    assert ra["ChannelNumber"] == rb["ChannelNumber"];
    assert ra["ChannelBand"] == rb["ChannelBand"];
    assert ra["ChannelWidth"] == rb["ChannelWidth"];
  }

  function OptionalChannelDictionary(channel: Option<Channel>): (r: Option<Record>)
    ensures r.None? <==> channel.None?
    ensures channel.Some? ==> r == Some(ChannelDictionary(channel.value))
  {
    match channel
    case Some(c) => Some(ChannelDictionary(c))
    case None => None
  }

  /** Two optional channels with the same optional mapping are the same: a missing channel
      is told apart from every present one, and present channels by their mappings. */
  lemma OptionalChannelDictionaryInjective(a: Option<Channel>, b: Option<Channel>)
    requires OptionalChannelDictionary(a) == OptionalChannelDictionary(b)
    ensures a == b
  {
    if a.Some? && b.Some? {
      ChannelDictionaryInjective(a.value, b.value);
    }
  }

  /** Facts about the key sets themselves: which are disjoint and how many keys each has. */
  lemma NetworkKeySets()
    ensures NetworkKeys !! ChannelKeys
    ensures |NetworkKeys + ChannelKeys| == 10
    ensures "SSIDData" !in NetworkKeys + ChannelKeys
    ensures "InformationElement" !in NetworkKeys + ChannelKeys
  {
  }

  lemma InterfaceKeyCount()
    ensures |InterfaceKeys| == 13
  {
  }

  lemma InterfaceKeysDisjoint()
    ensures InterfaceKeys !! ChannelKeys
  {
  }

  /** The size of a union of disjoint sets is the sum of their sizes. */
  lemma DisjointUnionSize<T>(a: set<T>, b: set<T>)
    requires a !! b
    ensures |a + b| == |a| + |b|
  {
    assert a * b == {};
  }

  lemma InterfaceKeySets()
    ensures InterfaceKeys !! ChannelKeys
    ensures |InterfaceKeys| == 13
    ensures |InterfaceKeys + ChannelKeys| == 16
  {
    InterfaceKeyCount();
    InterfaceKeysDisjoint();
    assert |ChannelKeys| == 3;
    DisjointUnionSize(InterfaceKeys, ChannelKeys);
  }

  /** The network's own fields, before the channel is merged in: the seven network keys.
      The raw SSID bytes and the information element bytes are left out. */
  function NetworkFields(network: Network): (r: Record)
    ensures r.Keys == NetworkKeys
  {
    map[
      "SSID" := OptionalText(network.ssid),
      "BSSID" := OptionalText(network.bssid),
      "RSSI" := Some(VInt(network.rssiValue)),
      "Noise" := Some(VInt(network.noiseMeasurement)),
      "Country" := OptionalText(network.countryCode),
      "BeaconInterval" := Some(VInt(network.beaconInterval)),
      "IBSS" := Some(VBool(network.ibss))
    ]
  }

  /** The network's own fields hold the boxed accessor values; optional ones stay absent. */
  lemma NetworkFieldsValues(network: Network)
    ensures NetworkFields(network)["SSID"] == OptionalText(network.ssid)
    ensures NetworkFields(network)["BSSID"] == OptionalText(network.bssid)
    ensures NetworkFields(network)["Country"] == OptionalText(network.countryCode)
    ensures NetworkFields(network)["RSSI"] == Some(VInt(network.rssiValue))
    ensures NetworkFields(network)["Noise"] == Some(VInt(network.noiseMeasurement))
    ensures NetworkFields(network)["BeaconInterval"] == Some(VInt(network.beaconInterval))
    ensures NetworkFields(network)["IBSS"] == Some(VBool(network.ibss))
  {
  }

  /** `networkDictionary`. The channel is force-unwrapped, so a network without one is
      outside the contract. The mapping has exactly the seven network keys and the three
      channel keys (raw SSID bytes and information element excluded); the channel's values
      sit on the channel keys, optional fields stay absent, and integer and boolean fields
      are boxed as they are. */
  function NetworkDictionary(network: Network): (r: Record)
    requires network.wlanChannel.Some?
    ensures r.Keys == NetworkKeys + ChannelKeys
    ensures |r| == 10
    ensures "SSIDData" !in r && "InformationElement" !in r
    ensures forall k :: k in ChannelKeys ==> r[k] == ChannelDictionary(network.wlanChannel.value)[k]
    ensures r["SSID"] == OptionalText(network.ssid)
    ensures r["BSSID"] == OptionalText(network.bssid)
    ensures r["Country"] == OptionalText(network.countryCode)
    ensures r["RSSI"] == Some(VInt(network.rssiValue))
    ensures r["Noise"] == Some(VInt(network.noiseMeasurement))
    ensures r["BeaconInterval"] == Some(VInt(network.beaconInterval))
    ensures r["IBSS"] == Some(VBool(network.ibss))
  {
    NetworkKeySets();
    NetworkFieldsValues(network);
    Merge(NetworkFields(network), ChannelDictionary(network.wlanChannel.value))
  }

  /** The interface's own fields, before its channel (if any) is merged in: the thirteen
      interface keys. */
  function InterfaceFields(interface: Interface): (r: Record)
    ensures r.Keys == InterfaceKeys
  {
    map[
      "PowerOn" := Some(VBool(interface.powerOn)),
      "ActivePHYMode" := Some(VStr(PHYModeLabel(interface.activePHYMode))),
      "SSID" := OptionalText(interface.ssid),
      "BSSID" := OptionalText(interface.bssid),
      "RSSI" := Some(VInt(interface.rssiValue)),
      "Noise" := Some(VInt(interface.noiseMeasurement)),
      "Security" := Some(VStr(SecurityLabel(interface.security))),
      "TransmitRate" := Some(VDouble(interface.transmitRate)),
      "Country" := OptionalText(interface.countryCode),
      "InterfaceMode" := Some(VStr(InterfaceModeLabel(interface.interfaceMode))),
      "TransmitPower" := Some(VInt(interface.transmitPower)),
      "HardwareAddress" := OptionalText(interface.hardwareAddress),
      "ServiceActive" := Some(VBool(interface.serviceActive))
    ]
  }

  /** The enumerated interface fields hold the label-table strings of their codes, and the
      optional text fields stay absent (no placeholder is put in at build time). */
  lemma InterfaceFieldsValues(interface: Interface)
    ensures InterfaceFields(interface)["ActivePHYMode"]
      == Some(VStr(PHYModeLabel(interface.activePHYMode)))
    ensures InterfaceFields(interface)["Security"] == Some(VStr(SecurityLabel(interface.security)))
    ensures InterfaceFields(interface)["InterfaceMode"]
      == Some(VStr(InterfaceModeLabel(interface.interfaceMode)))
    ensures InterfaceFields(interface)["SSID"] == OptionalText(interface.ssid)
    ensures InterfaceFields(interface)["BSSID"] == OptionalText(interface.bssid)
    ensures InterfaceFields(interface)["Country"] == OptionalText(interface.countryCode)
    ensures InterfaceFields(interface)["HardwareAddress"]
      == OptionalText(interface.hardwareAddress)
  {
  }

  /** The mapping merged over the interface's fields: the channel's, or an empty one when
      there is no channel (`?? [:]`). */
  function ChannelOverlay(channel: Option<Channel>): (r: Record)
    ensures channel.None? ==> r == map[]
    ensures channel.Some? ==> r == ChannelDictionary(channel.value)
  {
    match OptionalChannelDictionary(channel)
    case Some(fields) => fields
    case None => map[]
  }

  /** Merging no channel over a mapping with the interface keys leaves it as it is. */
  lemma InterfaceMergeWithoutChannel(fields: Record)
    requires fields.Keys == InterfaceKeys
    ensures Merge(fields, ChannelOverlay(None)) == fields
    ensures |Merge(fields, ChannelOverlay(None))| == 13
  {
    assert fields + map[] == fields;
    InterfaceKeyCount();
    assert |fields| == |fields.Keys|;
  }

  /** Merging a channel over a mapping with the interface keys gives the 16 keys, and the
      mapping's own value on every interface key. */
  lemma InterfaceMergeWithChannel(fields: Record, channel: Channel)
    requires fields.Keys == InterfaceKeys
    ensures Merge(fields, ChannelOverlay(Some(channel))).Keys == InterfaceKeys + ChannelKeys
    ensures |Merge(fields, ChannelOverlay(Some(channel)))| == 16
    ensures forall k :: k in InterfaceKeys ==>
      Merge(fields, ChannelOverlay(Some(channel)))[k] == fields[k]
  {
    var r := Merge(fields, ChannelOverlay(Some(channel)));
    InterfaceKeySets();
    assert |r| == |r.Keys|;
  }

  /** `interfaceDictionary`. Without a channel the mapping is exactly the interface's own
      13 fields; with one, those and the 3 channel keys, the channel's values on the
      channel keys. Either way every interface key keeps the interface's own value: the
      enumerated fields hold the table labels of their codes and the optional text fields
      stay absent. */
  function InterfaceDictionary(interface: Interface): (r: Record)
    ensures interface.wlanChannel.None? ==> r == InterfaceFields(interface) && |r| == 13
    ensures interface.wlanChannel.Some? ==> r.Keys == InterfaceKeys + ChannelKeys && |r| == 16
    ensures interface.wlanChannel.Some? ==>
      forall k :: k in ChannelKeys ==> r[k] == ChannelDictionary(interface.wlanChannel.value)[k]
    ensures forall k :: k in InterfaceKeys ==> k in r && r[k] == InterfaceFields(interface)[k]
    ensures r["ActivePHYMode"] == Some(VStr(PHYModeLabel(interface.activePHYMode)))
    ensures r["Security"] == Some(VStr(SecurityLabel(interface.security)))
    ensures r["InterfaceMode"] == Some(VStr(InterfaceModeLabel(interface.interfaceMode)))
    ensures r["SSID"] == OptionalText(interface.ssid)
    ensures r["BSSID"] == OptionalText(interface.bssid)
    ensures r["Country"] == OptionalText(interface.countryCode)
    ensures r["HardwareAddress"] == OptionalText(interface.hardwareAddress)
  {
    var fields := InterfaceFields(interface);
    InterfaceFieldsValues(interface);
    match interface.wlanChannel
    case Some(channel) =>
      InterfaceMergeWithChannel(fields, channel);
      Merge(fields, ChannelOverlay(interface.wlanChannel))
    case None =>
      InterfaceMergeWithoutChannel(fields);
      Merge(fields, ChannelOverlay(interface.wlanChannel))
  }

  /** The mappings of scanned networks, one per network, in the order the scan result is
      iterated; every one has the same ten keys. */
  function NetworkDictionaries(networks: seq<Network>): (records: seq<Record>)
    requires forall i :: 0 <= i < |networks| ==> networks[i].wlanChannel.Some?
    ensures |records| == |networks|
    ensures forall i :: 0 <= i < |networks| ==> records[i] == NetworkDictionary(networks[i])
    ensures forall i :: 0 <= i < |records| ==> records[i].Keys == NetworkKeys + ChannelKeys
  {
    seq(|networks|, i requires 0 <= i < |networks| && networks[i].wlanChannel.Some? =>
      NetworkDictionary(networks[i]))
  }

  /** A table of scanned networks infers exactly the seven network columns and the three
      channel columns, as soon as there is one network. */
  lemma ScanTableColumns(networks: seq<Network>, columns: seq<string>)
    requires |networks| > 0
    requires forall n :: 0 <= n < |networks| ==> networks[n].wlanChannel.Some?
    requires Serialization.IsEnumeration(columns, Serialization.KeyUnion(NetworkDictionaries(networks)))
    ensures Serialization.KeyUnion(NetworkDictionaries(networks)) == NetworkKeys + ChannelKeys
    ensures |columns| == 10
  {
    Serialization.KeyUnionOfSameKeys(NetworkDictionaries(networks), NetworkKeys + ChannelKeys);
    NetworkKeySets();
    Serialization.EnumerationSize(columns, NetworkKeys + ChannelKeys);
  }

  /** A network without an SSID keeps the field absent, and the table shows the placeholder
      in its SSID cell. */
  lemma ScanMissingSsidCell(network: Network, columns: seq<string>, j: nat)
    requires network.wlanChannel.Some? && network.ssid.None?
    requires j < |columns| && columns[j] == "SSID"
    ensures Serialization.Cells(NetworkDictionary(network), columns)[j] == Serialization.NilPlaceholder
  {
  }
}
