# macos-wifi: record builders and output formatting

This project models the data side of `macos-wifi`, a command-line tool that reads the state
of a macOS Wi-Fi interface and prints it. It does not model how the tool talks to CoreWLAN.
It models three things:

- **Label tables** (`cwtypes.dfy`, module `CwTypes`): the constant mappings from the
  CoreWLAN enumerations to display strings. These are channel band, channel width, PHY
  mode, interface mode and security type.
  - `corewlanlib.swift` refers to these tables by lower-case names, for example
    `channelBandLabels`. `cwtypes.swift` declares them with capitalised names, for example
    `ChannelBandLabels`. Both names stand for one table, and the model has one constant for
    each.
  - Every lookup in the builders is force-unwrapped. The totality lemmas show that such a
    lookup cannot fail for the listed cases. A raw value outside a table's cases is not
    modelled (see "Left out").
- **Record builders** (`corewlanlib.dfy`, module `CoreWlanLib`): they turn a channel, a
  network or an interface into a flat field mapping `map<string, Option<Value>>`.
  - The network builder and the interface builder merge the channel's fields into their
    own. The merge is right-biased: the channel's value wins on a shared key.
  - Optional fields that are absent stay absent (`None`) in the mapping. No placeholder is
    put in at build time.
  - The network builder force-unwraps the channel, so its contract requires one. The
    interface builder merges an empty mapping when the channel is missing.
- **Output** (`serialization.dfy`, module `Serialization`, on top of `values.dfy` and
  `text.dfy`): this covers the following.
  - `formatValue` puts the placeholder `"N/A"` in for an absent value.
  - `inferColumns` computes the union of the records' keys.
  - `formatTable` writes a tab-separated header and one row per record, with the lines
    joined by newlines.
  - `formatKVTable` writes keys padded to the longest key, then `": "`, then the value.
  - `serialize` works in one of two modes:
    - JSON mode writes each element as its own document followed by a newline.
    - Terminal mode picks the listing, the table, one line per string, or the value's
      description, trying the casts in the order the code does.

Swift sets and dictionaries iterate in an unspecified order.
- The method `Serialization.Enumerate` produces the elements in any order.
- The pure rendering functions `Table` and `KVTable` take that order as an argument.
- `InferColumns` returns its columns in an order it leaves open. `FormatTable` and
  `FormatKVTable` return only text, as the Swift functions do, and also return the order
  they used as a ghost result.
- Properties that must not depend on the order are stated over sets, for example the
  column set and the key width.

The output stream is the class `Serialization.OutputHandle`, whose field `written` is
everything written so far. The JSON encoder and `AnyObject.description` are outside this
model, so they are parameters of `Serialize`: `encode` and `describe`.

In these places the model follows the code:
- A table cell for a column the record lacks shows the placeholder `"N/A"`, not an empty
  string. A missing key and a key whose value is absent both reach `formatValue` as `nil`.
- Inferred columns come out in set iteration order. They are not sorted.
- In JSON mode the documents before the first element that cannot be encoded have already
  been written when the call fails.
- In terminal mode an empty array passes the array-of-dictionaries cast first. It is
  printed as a table with no columns and no rows, which is a single empty line
  (`Serialization.EmptyArrayPrintsEmptyLine`).

## Model

| member | source | states |
|---|---|---|
| Values.IntToString | serialization.swift:13 | An integer is described by digits that read back as the integer, with a leading minus sign exactly when it is negative. |
| Values.NatToStringRoundTrip | serialization.swift:13 | The decimal numeral printed for a natural number is all digits and reads back as the same number. |
| Values.DescribeFirstChar | serialization.swift:13 | The description of an integer starts with a digit or a minus sign. The description of a boolean starts with `t` or `f`. |
| Text.PadRight | serialization.swift:41 | Padding to a width gives exactly that width. A shorter key is kept as a prefix and followed only by spaces. A longer key is cut to the width. |
| Text.SplitJoin | serialization.swift:35 | Splitting a text joined by a separator gives back the parts, provided no part contains the separator. |
| CwTypes.ChannelBandLabelsTotal | cwtypes.swift:15-19 | Every channel band has a non-empty label, and distinct bands have distinct labels. |
| CwTypes.ChannelBandLabel | corewlanlib.swift:14 | The force-unwrapped band lookup always finds its entry. |
| CwTypes.ChannelWidthLabelsTotal | cwtypes.swift:24-30 | Every channel width has a non-empty label, and distinct widths have distinct labels. |
| CwTypes.ChannelWidthLabel | corewlanlib.swift:15 | The force-unwrapped width lookup always finds its entry. |
| CwTypes.PHYModeLabelsTotal | cwtypes.swift:35-42 | Every PHY mode has a label, and the label is empty exactly for `modeNone`. Every other label is "802.11" followed by a non-empty suffix. Distinct modes have distinct labels. |
| CwTypes.PHYModeLabel | corewlanlib.swift:81 | The force-unwrapped PHY-mode lookup always finds its entry. |
| CwTypes.InterfaceModeLabelsTotal | cwtypes.swift:47-56 | Every interface mode has a non-empty label, and distinct modes have distinct labels. |
| CwTypes.InterfaceModeLabel | corewlanlib.swift:90 | The force-unwrapped interface-mode lookup always finds its entry. |
| CwTypes.SecurityLabelsTotal | cwtypes.swift:61-90 | Every security type has a non-empty label, the `unknown` sentinel is labelled "Unknown", and distinct types have distinct labels. |
| CwTypes.SecurityLabel | corewlanlib.swift:87 | The force-unwrapped security lookup always finds its entry. |
| CoreWlanLib.Merge | corewlanlib.swift:52 | The merged mapping has the keys of both sides. On a key in the right-hand mapping the right-hand value wins. Every other key keeps the left-hand value. |
| CoreWlanLib.ChannelDictionary | corewlanlib.swift:11-17 | A channel mapping has exactly the keys ChannelNumber, ChannelBand and ChannelWidth. They hold the number and the band and width labels. |
| CoreWlanLib.ChannelDictionaryInjective | corewlanlib.swift:11-17 | Two channels with the same mapping are the same channel. |
| CoreWlanLib.OptionalChannelDictionaryInjective | corewlanlib.swift:19-25 | Two optional channels with the same optional mapping are equal. A missing channel gives nil, and no present channel does. |
| CoreWlanLib.NetworkKeySets | corewlanlib.swift:42-52 | The network keys and the channel keys are disjoint and number 10 together. The commented-out SSIDData and InformationElement keys are not among them. |
| CoreWlanLib.NetworkFields | corewlanlib.swift:42-51 | The network's own fields are exactly the seven network keys. |
| CoreWlanLib.NetworkDictionary | corewlanlib.swift:41-53 | A network mapping has exactly the 7 network keys and the 3 channel keys, 10 in all, and neither raw-bytes key. The channel keys hold the channel's values. SSID, BSSID and Country stay absent when the accessor returns nil. RSSI, Noise, BeaconInterval and IBSS hold the accessor values. |
| CoreWlanLib.InterfaceKeySets | corewlanlib.swift:78-95 | The 13 interface keys and the 3 channel keys are disjoint, 16 keys in all. |
| CoreWlanLib.InterfaceFields | corewlanlib.swift:78-94 | The interface's own fields are exactly the thirteen interface keys. |
| CoreWlanLib.InterfaceMergeWithoutChannel | corewlanlib.swift:95 | Merging the empty mapping that stands in for a missing channel leaves the 13 interface fields as they are. |
| CoreWlanLib.InterfaceMergeWithChannel | corewlanlib.swift:95 | Merging a channel gives the 13 interface keys and the 3 channel keys, and keeps the interface's own value on every interface key. |
| CoreWlanLib.InterfaceDictionary | corewlanlib.swift:77-95 | Without a channel, the mapping is exactly the interface's 13 fields. With one, it has those keys and the 3 channel keys, and the channel keys hold the channel's values. Every interface key keeps the interface's own value. ActivePHYMode, Security and InterfaceMode hold the table labels of their codes. SSID, BSSID, Country and HardwareAddress stay absent when the accessor returns nil. |
| CoreWlanLib.NetworkDictionaries | main.swift:53 | A scan gives one mapping per network, in the order the scan result is iterated, and every mapping has the same ten keys. |
| CoreWlanLib.ScanTableColumns | serialization.swift:18-23 | With at least one scanned network, the inferred columns are exactly the 7 network keys and the 3 channel keys, 10 columns. |
| CoreWlanLib.ScanMissingSsidCell | serialization.swift:31 | A network without an SSID shows "N/A" in its SSID cell. |
| Serialization.PlaceholderExactlyWhenAbsent | serialization.swift:11-16 | With the default placeholder the text is "N/A" exactly when the value is absent or is a text reading "N/A". An integer, a boolean or a number never renders as the placeholder. |
| Serialization.EnumerationSize | serialization.swift:22 | An iteration order lists as many elements as the set holds. |
| Serialization.Enumerate | serialization.swift:22 | Iterating a set gives every element exactly once and nothing else. |
| Serialization.KeyUnionMembers | serialization.swift:19-21 | A key is in the union exactly when some record has it. |
| Serialization.KeyUnionOfSameKeys | serialization.swift:19-21 | Records that all share one key set have that set as their union. |
| Serialization.InferColumns | serialization.swift:18-23 | The inferred columns are distinct, and a key is a column exactly when some record has that key. |
| Serialization.Cells | serialization.swift:31 | There is one cell per column. A cell is the description of the record's value when the key is present with a value, and "N/A" otherwise. |
| Serialization.MissingAndAbsentRenderAlike | serialization.swift:31 | A missing key and a key with an absent value both render as "N/A". |
| Serialization.TableLinesShape | serialization.swift:28-34 | The table has the header first, then one row per record in input order: records + 1 lines. |
| Serialization.TableLineCount | serialization.swift:28-35 | When no column name and no value contains a newline, the table text splits back into exactly its lines: the header, then one row per record in order. |
| Serialization.RowCellCount | serialization.swift:28-32 | When no column name and no value contains a tab, a row splits into exactly its cells, one per column, and the header splits into the column names. |
| Serialization.FormatTable | serialization.swift:25-36 | With `keys` given, the columns are exactly those keys in that order. Without them, the columns enumerate the union of the records' keys. The text is the table over those columns. |
| Serialization.TableExampleRows | serialization.swift:28-32 | In the two-record example, the header is "SSID\tBSSID", the first row is "A\tx" and the second row is "B\tN/A". |
| Serialization.TableExample | serialization.swift:25-36 | The two-record table renders as "SSID\tBSSID\nA\tx\nB\tN/A". |
| Serialization.MaxLength | serialization.swift:39 | The width bounds every key's length and is reached by some key. It is 0 when there are no keys. |
| Serialization.KVWidth | serialization.swift:39 | The width is the length of the longest key in the dictionary, or 0 for an empty dictionary. |
| Serialization.KVWidthOrderIndependent | serialization.swift:39 | Any two iteration orders of the same dictionary give the same width. |
| Serialization.KVLineLayout | serialization.swift:41 | Each line is the key, then spaces up to the width, then ": " at the same offset on every line, then the rendered value. |
| Serialization.KVLinePerEntry | serialization.swift:40-43 | Every entry of the dictionary has exactly one line. An empty dictionary gives the empty text. |
| Serialization.KVLineCount | serialization.swift:40-43 | When no key or value contains a newline, the listing of a non-empty dictionary splits back into exactly one line per entry. |
| Serialization.FormatKVTable | serialization.swift:38-44 | The text is the listing of the dictionary in one of its iteration orders. |
| Serialization.ShapeOf | serialization.swift:80-90 | A dictionary takes the listing. An array of dictionaries, including the empty array, takes the table. A non-empty array of strings takes one line per string. Everything else takes the description. |
| Serialization.EmptyArrayPrintsEmptyLine | serialization.swift:82-83 | An empty array takes the table branch and prints a single newline. |
| Serialization.FirstFailure | serialization.swift:72-74 | Every element before the index encodes. The element at the index, if there is one, does not. |
| Serialization.DocumentsAt | serialization.swift:72-75 | The documents are the encoded elements in order, one per element. |
| Serialization.FramedSnoc | serialization.swift:75-77 | Writing one more document appends it followed by a newline. |
| Serialization.DocumentsSnoc | serialization.swift:72-75 | One more encoded element adds its document at the end. |
| Serialization.NonArrayIsOneDocument | serialization.swift:71 | A value that is not an array is sent as exactly one document. |
| Serialization.FramedIsOnePerLine | serialization.swift:75-77 | The framed output is the documents joined by newlines plus a final newline. When no document contains a newline, it splits back into exactly the documents. |
| Serialization.OutputHandle.Write | serialization.swift:75 | Writing appends the text to the stream. |
| Serialization.WriteDocuments | serialization.swift:70-78 | JSON mode writes the documents of the elements before the first one that fails to encode, each followed by a newline. It succeeds exactly when every element encodes. |
| Serialization.WriteLines | serialization.swift:84-87 | An array of strings is written one string per line, in order. |
| Serialization.WriteTerminal | serialization.swift:79-90 | Terminal mode writes the listing, the table over an enumeration of the records' keys, the strings one per line, or the description, by shape, each followed by a newline. |
| Serialization.Serialize | serialization.swift:68-92 | This is the mode dispatch. JSON mode behaves as WriteDocuments on the array's elements, or on the value alone when it is not an array. Terminal mode behaves as WriteTerminal and always succeeds. |

## Left out

- CoreWLAN itself is not modelled. This covers the client, scanning, association and the interface accessors. Channels, networks and interfaces are plain records whose fields stand for the accessors' results.
- Of the command-line driver in `main.swift`, only the scan action's mapping of networks to their mappings is modelled (`NetworkDictionaries`). Argument parsing, the other actions, and the `Timestamp` field added to the current interface's mapping are not modelled.
- JSON encoding is not modelled. `JSONSerialization`, its sorted-keys option and its macOS version switch are left out, and the encoder is the `encode` parameter of `Serialize`, with `None` meaning it throws.
- `AnyObject.description` of an arbitrary value is the `describe` parameter.
- `String(describing:)` of a floating-point number is not computed. The transmit rate carries its text (`VDouble` over `Values.DoubleText`). The model only assumes that this text is non-empty, is not "N/A", and holds no tab or line break, as every `Double` description is.
- The source of `printLine` is not part of this model. `PrintLine` writes the text and then a newline, as its uses require.
- Serialization.OutputHandle holds text, not bytes. UTF-8 encoding is not modelled.
- Keys are sequences of characters. `String.count` counts grapheme clusters, and that is not modelled.
- Integers are unbounded. The 64-bit width of `NSInteger` plays no part in the formatting.
- Codes outside the closed enumerations are not modelled. The datatypes make every lookup total, so the crash a force-unwrap would cause on an unlisted raw value is not represented.
- CoreWlanLib.NetworkDictionary: requires a channel. The crash of the force-unwrap on a network without one is not modelled as an error value.
- Serialization.Serialize: the order of keys and columns is existentially quantified. Which order Swift actually produces is not determined.
