/** Label tables: constant mappings from the closed CoreWLAN enumerations to the display
    strings the tool prints. Each table is a dictionary literal; the lemmas say that every
    case has an entry (so the force-unwrapped lookups in the record builders cannot fail)
    and that distinct cases get distinct labels. */
module CwTypes {

  /** Distinct keys map to distinct labels. */
  ghost predicate Injective<K, V>(m: map<K, V>)
  {
    forall x, y :: x in m && y in m && m[x] == m[y] ==> x == y
  }

  // ---------------------------------------------------------------- channel band

  datatype ChannelBand = BandUnknown | Band2GHz | Band5GHz

  const ChannelBandLabels: map<ChannelBand, string> := map[
    BandUnknown := "Unknown",
    Band2GHz := "2GHz",
    Band5GHz := "5GHz"
  ]

  lemma ChannelBandLabelsTotal()
    ensures forall b: ChannelBand :: b in ChannelBandLabels && ChannelBandLabels[b] != ""
    ensures Injective(ChannelBandLabels)
  {
    forall b: ChannelBand ensures b in ChannelBandLabels && ChannelBandLabels[b] != "" {
      match b
      case BandUnknown =>
      case Band2GHz =>
      case Band5GHz =>
    }
  }

  /** Force-unwrapped lookup `ChannelBandLabels[band]!`; it cannot fail. */
  function ChannelBandLabel(band: ChannelBand): (text: string)
    ensures band in ChannelBandLabels && text == ChannelBandLabels[band]
  {
    ChannelBandLabelsTotal();
    ChannelBandLabels[band]
  }

  // ---------------------------------------------------------------- channel width

  datatype ChannelWidth = WidthUnknown | Width20MHz | Width40MHz | Width80MHz | Width160MHz

  const ChannelWidthLabels: map<ChannelWidth, string> := map[
    WidthUnknown := "Unknown",
    Width20MHz := "20MHz",
    Width40MHz := "40MHz",
    Width80MHz := "80MHz",
    Width160MHz := "160MHz"
  ]

  lemma ChannelWidthLabelsTotal()
    ensures forall w: ChannelWidth :: w in ChannelWidthLabels && ChannelWidthLabels[w] != ""
    ensures Injective(ChannelWidthLabels)
  {
    forall w: ChannelWidth ensures w in ChannelWidthLabels && ChannelWidthLabels[w] != "" {
      match w
      case WidthUnknown =>
      case Width20MHz =>
      case Width40MHz =>
      case Width80MHz =>
      case Width160MHz =>
    }
  }

  function ChannelWidthLabel(width: ChannelWidth): (text: string)
    ensures width in ChannelWidthLabels && text == ChannelWidthLabels[width]
  {
    ChannelWidthLabelsTotal();
    ChannelWidthLabels[width]
  }

  // ---------------------------------------------------------------- PHY mode

  /** IEEE 802.11 physical-layer modes. */
  datatype PhyMode = ModeNone | Mode11a | Mode11b | Mode11g | Mode11n | Mode11ac

  const PHYModeLabels: map<PhyMode, string> := map[
    ModeNone := "",
    Mode11a := "802.11a",
    Mode11b := "802.11b",
    Mode11g := "802.11g",
    Mode11n := "802.11n",
    Mode11ac := "802.11ac"
  ]

  /** The standard's name with its amendment suffix, as every real mode is labelled. */
  const Ieee80211: string := "802.11"

  /** Only `modeNone` has the empty label; every other mode is labelled "802.11" followed
      by a non-empty amendment suffix. */
  lemma PHYModeLabelsTotal()
    ensures forall m: PhyMode :: m in PHYModeLabels
    ensures forall m: PhyMode :: PHYModeLabels[m] == "" <==> m == ModeNone
    ensures forall m: PhyMode :: m != ModeNone ==>
      |PHYModeLabels[m]| > |Ieee80211| && PHYModeLabels[m][..|Ieee80211|] == Ieee80211
    ensures Injective(PHYModeLabels)
  {
    forall m: PhyMode
      ensures m in PHYModeLabels
      ensures PHYModeLabels[m] == "" <==> m == ModeNone
      ensures m != ModeNone ==>
        |PHYModeLabels[m]| > |Ieee80211| && PHYModeLabels[m][..|Ieee80211|] == Ieee80211
    {
      match m
      case ModeNone =>
      case Mode11a =>
      case Mode11b =>
      case Mode11g =>
      case Mode11n =>
      case Mode11ac =>
    }
  }

  function PHYModeLabel(mode: PhyMode): (text: string)
    ensures mode in PHYModeLabels && text == PHYModeLabels[mode]
  {
    PHYModeLabelsTotal();
    PHYModeLabels[mode]
  }

  // ---------------------------------------------------------------- interface mode

  datatype InterfaceMode = InterfaceNone | Station | IBSS | HostAP

  const InterfaceModeLabels: map<InterfaceMode, string> := map[
    InterfaceNone := "None",
    Station := "Station",
    IBSS := "IBSS",
    HostAP := "HostAP"
  ]

  lemma InterfaceModeLabelsTotal()
    ensures forall m: InterfaceMode :: m in InterfaceModeLabels && InterfaceModeLabels[m] != ""
    ensures Injective(InterfaceModeLabels)
  {
    forall m: InterfaceMode ensures m in InterfaceModeLabels && InterfaceModeLabels[m] != "" {
      match m
      case InterfaceNone =>
      case Station =>
      case IBSS =>
      case HostAP =>
    }
  }

  function InterfaceModeLabel(mode: InterfaceMode): (text: string)
    ensures mode in InterfaceModeLabels && text == InterfaceModeLabels[mode]
  {
    InterfaceModeLabelsTotal();
    InterfaceModeLabels[mode]
  }

  // ---------------------------------------------------------------- security type

  /** Security types, including the out-of-range `unknown` sentinel. */
  datatype Security =
    | SecurityNone | WEP | WPAPersonal | WPAPersonalMixed | WPA2Personal | Personal
    | DynamicWEP | WPAEnterprise | WPAEnterpriseMixed | WPA2Enterprise | Enterprise
    | WPA3Personal | WPA3Enterprise | WPA3Transition | SecurityUnknown

  const SecurityLabels: map<Security, string> := map[
    SecurityNone := "None",
    WEP := "WEP",
    WPAPersonal := "WPAPersonal",
    WPAPersonalMixed := "WPAPersonalMixed",
    WPA2Personal := "WPA2Personal",
    Personal := "Personal",
    DynamicWEP := "DynamicWEP",
    WPAEnterprise := "WPAEnterprise",
    WPAEnterpriseMixed := "WPAEnterpriseMixed",
    WPA2Enterprise := "WPA2Enterprise",
    Enterprise := "Enterprise",
    WPA3Personal := "WPA3Personal",
    WPA3Enterprise := "WPA3Enterprise",
    WPA3Transition := "WPA3Transition",
    SecurityUnknown := "Unknown"
  ]

  lemma SecurityLabelsTotal()
    ensures forall s: Security :: s in SecurityLabels && SecurityLabels[s] != ""
    ensures SecurityLabels[SecurityUnknown] == "Unknown"
    ensures Injective(SecurityLabels)
  {
    forall s: Security ensures s in SecurityLabels && SecurityLabels[s] != "" {
      match s
      case SecurityNone =>
      case WEP =>
      case WPAPersonal =>
      case WPAPersonalMixed =>
      case WPA2Personal =>
      case Personal =>
      case DynamicWEP =>
      case WPAEnterprise =>
      case WPAEnterpriseMixed =>
      case WPA2Enterprise =>
      case Enterprise =>
      case WPA3Personal =>
      case WPA3Enterprise =>
      case WPA3Transition =>
      case SecurityUnknown =>
    }
  }

  function SecurityLabel(security: Security): (text: string)
    ensures security in SecurityLabels && text == SecurityLabels[security]
  {
    SecurityLabelsTotal();
    SecurityLabels[security]
  }
}
