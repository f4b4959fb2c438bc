/** The output layer: placeholder substitution for absent values, the tab-separated table
    with a header row, the padded key/value listing, and `serialize`, which frames JSON
    documents one per line or dispatches terminal output on the shape of the value.

    Swift sets and dictionaries iterate in an unspecified order. The model keeps that
    freedom: `Enumerate` may produce the keys in any order, and the rendering functions take
    that order as an argument. */
module Serialization {
  import opened Values
  import opened Text

  /** The default `nilValue` of `formatValue`. */
  const NilPlaceholder: string := "N/A"

  // ================================================================ formatValue

  function FormatValue(value: Option<Value>, nilValue: string): (r: string)
    ensures value.None? ==> r == nilValue
    ensures value.Some? ==> r == Describe(value.value)
  {
    match value
    case Some(v) => Describe(v)
    case None => nilValue
  }

  /** With the default placeholder the rendered text is "N/A" exactly when the value is
      absent or is itself a text that reads "N/A"; an integer, a boolean or a number never
      renders as the placeholder. */
  lemma PlaceholderExactlyWhenAbsent(value: Option<Value>)
    ensures FormatValue(value, NilPlaceholder) == NilPlaceholder
      <==> value.None? || value == Some(VStr(NilPlaceholder))
  {
    if value.Some? && (value.value.VInt? || value.value.VBool?) {
      DescribeFirstChar(value.value);
      assert NilPlaceholder[0] == 'N';
    }
  }

  // ================================================================ iteration order

  predicate Distinct(xs: seq<string>)
  {
    forall i, j :: 0 <= i < j < |xs| ==> xs[i] != xs[j]
  }

  /** `order` lists every element of `s` exactly once: one possible iteration order. */
  ghost predicate IsEnumeration(order: seq<string>, s: set<string>)
  {
    Distinct(order) && forall x :: x in order <==> x in s
  }

  lemma {:induction false} EnumerationSize(order: seq<string>, s: set<string>)
    requires IsEnumeration(order, s)
    ensures |order| == |s|
  {
    if |order| == 0 {
      assert s == {};
    } else {
      var rest := order[1..];
      var s' := s - {order[0]};
      forall x ensures x in rest <==> x in s' {
        if x in rest {
          var j :| 0 <= j < |rest| && rest[j] == x;
          assert order[j + 1] == x;
        }
        if x in s' {
          var j :| 0 <= j < |order| && order[j] == x;
          assert j != 0;
          assert rest[j - 1] == x;
        }
      }
      EnumerationSize(rest, s');
    }
  }

  /** The iteration of a Swift set or dictionary: every key once, in an order the model
      leaves open. */
  method Enumerate(s: set<string>) returns (order: seq<string>)
    ensures IsEnumeration(order, s)
    ensures |order| == |s|
  {
    order := [];
    var rest := s;
    while rest != {}
      invariant Distinct(order)
      invariant forall x :: x in s <==> x in order || x in rest
      invariant forall x :: x in order ==> x !in rest
      decreases |rest|
    {
      var x :| x in rest;
      order := order + [x];
      rest := rest - {x};
    }
    EnumerationSize(order, s);
  }

  // ================================================================ inferColumns

  /** The `reduce` of `inferColumns`: the union of the key sets, record by record. */
  function KeyUnion(records: seq<Record>): set<string>
  {
    if |records| == 0 then {} else KeyUnion(records[..|records| - 1]) + records[|records| - 1].Keys
  }

  lemma {:induction false} KeyUnionMembers(records: seq<Record>)
    ensures forall k :: k in KeyUnion(records) <==> exists i :: 0 <= i < |records| && k in records[i]
  {
    if |records| > 0 {
      var init := records[..|records| - 1];
      KeyUnionMembers(init);
      forall k ensures k in KeyUnion(records) <==> exists i :: 0 <= i < |records| && k in records[i] {
        if k in KeyUnion(init) {
          var i :| 0 <= i < |init| && k in init[i];
          assert k in records[i];
        }
        if exists i :: 0 <= i < |records| && k in records[i] {
          var i :| 0 <= i < |records| && k in records[i];
          if i < |records| - 1 {
            assert k in init[i];
          }
        }
      }
    }
  }

  /** Records that all have the same keys have those keys as their union. */
  lemma KeyUnionOfSameKeys(records: seq<Record>, keys: set<string>)
    requires |records| > 0
    requires forall i :: 0 <= i < |records| ==> records[i].Keys == keys
    ensures KeyUnion(records) == keys
  {
    KeyUnionMembers(records);
    forall k ensures k in KeyUnion(records) <==> k in keys {
      if k in keys {
        assert k in records[0];
      }
    }
  }

  /** Every key of some record, each exactly once, and nothing else. */
  method InferColumns(records: seq<Record>) returns (columns: seq<string>)
    ensures IsEnumeration(columns, KeyUnion(records))
    ensures Distinct(columns)
    ensures forall k :: k in columns <==> exists i :: 0 <= i < |records| && k in records[i]
  {
    KeyUnionMembers(records);
    columns := Enumerate(KeyUnion(records));
  }

  // ================================================================ formatTable

  /** One cell per column: the record's value described, or the placeholder when the key
      is missing or its value is absent. */
  function Cells(record: Record, columns: seq<string>): (cells: seq<string>)
    ensures |cells| == |columns|
    ensures forall j :: 0 <= j < |columns| ==>
      cells[j] == if columns[j] in record && record[columns[j]].Some?
                  then Describe(record[columns[j]].value) else NilPlaceholder
  {
    seq(|columns|, j requires 0 <= j < |columns| => FormatValue(Lookup(record, columns[j]), NilPlaceholder))
  }

  function Header(columns: seq<string>): string
  {
    Join(columns, '\t')
  }

  function Row(record: Record, columns: seq<string>): string
  {
    Join(Cells(record, columns), '\t')
  }

  /** The `reduce([header])` of `formatTable`: the header, then one row per record. */
  function TableLines(records: seq<Record>, columns: seq<string>): seq<string>
  {
    if |records| == 0 then [Header(columns)]
    else TableLines(records[..|records| - 1], columns) + [Row(records[|records| - 1], columns)]
  }

  /** The table text for a given column list. */
  function Table(records: seq<Record>, columns: seq<string>): string
  {
    Join(TableLines(records, columns), '\n')
  }

  /** The header comes first, then the rows in input order: `records.count + 1` lines. */
  lemma {:induction false} TableLinesShape(records: seq<Record>, columns: seq<string>)
    ensures |TableLines(records, columns)| == |records| + 1
    ensures TableLines(records, columns)[0] == Header(columns)
    ensures forall i :: 0 <= i < |records| ==>
      TableLines(records, columns)[i + 1] == Row(records[i], columns)
  {
    if |records| > 0 {
      TableLinesShape(records[..|records| - 1], columns);
    }
  }

  /** No present value of the record describes itself with the character `c`. */
  predicate RecordAvoids(record: Record, c: char)
  {
    forall k :: k in record && record[k].Some? ==> c !in Describe(record[k].value)
  }

  predicate RecordsAvoid(records: seq<Record>, c: char)
  {
    forall i :: 0 <= i < |records| ==> RecordAvoids(records[i], c)
  }

  lemma CellsAvoid(record: Record, columns: seq<string>, c: char)
    requires RecordAvoids(record, c)
    requires c !in NilPlaceholder
    ensures Avoids(Cells(record, columns), c)
  {
  }

  /** When no column name and no value contains a line break, the table text splits into
      exactly its lines: the header, then one row per record. */
  lemma TableLineCount(records: seq<Record>, columns: seq<string>)
    requires Avoids(columns, '\n')
    requires RecordsAvoid(records, '\n')
    ensures Split(Table(records, columns), '\n') == TableLines(records, columns)
    ensures |Split(Table(records, columns), '\n')| == |records| + 1
    ensures Split(Table(records, columns), '\n')[0] == Header(columns)
    ensures forall i :: 0 <= i < |records| ==>
      Split(Table(records, columns), '\n')[i + 1] == Row(records[i], columns)
  {
    var lines := TableLines(records, columns);
    TableLinesShape(records, columns);
    JoinAvoids(columns, '\t', '\n');
    forall i | 0 <= i < |records|
      ensures '\n' !in Row(records[i], columns)
    {
      CellsAvoid(records[i], columns, '\n');
      JoinAvoids(Cells(records[i], columns), '\t', '\n');
    }
    assert Avoids(lines, '\n') by {
      forall l | 0 <= l < |lines| ensures '\n' !in lines[l] {
        if l > 0 {
          assert lines[l] == Row(records[l - 1], columns);
        }
      }
    }
    SplitJoin(lines, '\n');
  }

  /** When no value contains a tab, a row splits into exactly one cell per column, and so
      does the header into the column names. */
  lemma RowCellCount(record: Record, columns: seq<string>)
    requires |columns| > 0
    requires Avoids(columns, '\t')
    requires RecordAvoids(record, '\t')
    ensures Split(Row(record, columns), '\t') == Cells(record, columns)
    ensures |Split(Row(record, columns), '\t')| == |columns|
    ensures Split(Header(columns), '\t') == columns
  {
    CellsAvoid(record, columns, '\t');
    SplitJoin(Cells(record, columns), '\t');
    SplitJoin(columns, '\t');
  }

  /** A missing key and a present key with an absent value render alike, as "N/A". */
  lemma MissingAndAbsentRenderAlike(record: Record, key: string, columns: seq<string>, j: nat)
    requires j < |columns| && columns[j] == key
    ensures Cells(record - {key}, columns)[j] == NilPlaceholder
    ensures Cells(record[key := None], columns)[j] == NilPlaceholder
  {
  }

  /** `formatTable`: with `keys` the columns are those keys, verbatim and in order; without,
      they are the union of the records' keys in set iteration order. */
  method FormatTable(records: seq<Record>, keys: Option<seq<string>>)
    returns (text: string, ghost columns: seq<string>)
    ensures keys.Some? ==> columns == keys.value
    ensures keys.None? ==> IsEnumeration(columns, KeyUnion(records))
    ensures text == Table(records, columns)
  {
    var cols: seq<string>;
    match keys {
      case Some(given) =>
        cols := given;
      case None =>
        cols := InferColumns(records);
    }
    columns := cols;
    text := Table(records, cols);
  }

  /** The rows of the two-record example: present values described, a missing column
      rendered as "N/A". */
  lemma TableExampleRows()
    ensures Header(["SSID", "BSSID"]) == "SSID\tBSSID"
    ensures Row(map["SSID" := Some(VStr("A")), "BSSID" := Some(VStr("x"))], ["SSID", "BSSID"])
      == "A\tx"
    ensures Row(map["SSID" := Some(VStr("B"))], ["SSID", "BSSID"]) == "B\tN/A"
  {
    var r0: Record := map["SSID" := Some(VStr("A")), "BSSID" := Some(VStr("x"))];
    var r1: Record := map["SSID" := Some(VStr("B"))];
    var columns := ["SSID", "BSSID"];
    assert Cells(r0, columns) == ["A", "x"];
    assert Cells(r1, columns) == ["B", "N/A"];
  }

  /** The two-record table with given columns: the second record's missing column is "N/A". */
  lemma TableExample()
    ensures Table([map["SSID" := Some(VStr("A")), "BSSID" := Some(VStr("x"))],
                   map["SSID" := Some(VStr("B"))]], ["SSID", "BSSID"])
      == "SSID\tBSSID\nA\tx\nB\tN/A"
  {
    var r0: Record := map["SSID" := Some(VStr("A")), "BSSID" := Some(VStr("x"))];
    var r1: Record := map["SSID" := Some(VStr("B"))];
    var columns := ["SSID", "BSSID"];
    TableExampleRows();
    assert [r0, r1][..1] == [r0];
    assert [r0][..0] == [];
    assert TableLines([r0], columns) == ["SSID\tBSSID", "A\tx"];
    assert TableLines([r0, r1], columns) == ["SSID\tBSSID", "A\tx", "B\tN/A"];
  }

  // ================================================================ formatKVTable

  /** `dictionary.keys.map { $0.count }.max() ?? 0` over the keys in iteration order. */
  function MaxLength(keys: seq<string>): (width: nat)
    ensures forall i :: 0 <= i < |keys| ==> |keys[i]| <= width
    ensures |keys| == 0 ==> width == 0
    ensures |keys| > 0 ==> exists i :: 0 <= i < |keys| && |keys[i]| == width
  {
    if |keys| == 0 then 0
    else
      var rest := MaxLength(keys[1..]);
      if |keys[0]| >= rest then |keys[0]| else rest
  }

  /** One listing line: the key padded to the width, a colon and a space, the value. */
  function KVLine(key: string, value: Option<Value>, width: nat): string
  {
    PadRight(key, width) + ": " + FormatValue(value, NilPlaceholder)
  }

  function KVLines(d: Record, order: seq<string>): (lines: seq<string>)
    requires forall i :: 0 <= i < |order| ==> order[i] in d
    ensures |lines| == |order|
    ensures forall i :: 0 <= i < |order| ==> lines[i] == KVLine(order[i], d[order[i]], MaxLength(order))
  {
    seq(|order|, i requires 0 <= i < |order| => KVLine(order[i], d[order[i]], MaxLength(order)))
  }

  /** The listing text for the dictionary iterated in `order`. */
  function KVTable(d: Record, order: seq<string>): string
    requires IsEnumeration(order, d.Keys)
  {
    Join(KVLines(d, order), '\n')
  }

  /** The width is the longest key, whatever the iteration order. */
  lemma KVWidth(d: Record, order: seq<string>)
    requires IsEnumeration(order, d.Keys)
    ensures forall k :: k in d ==> |k| <= MaxLength(order)
    ensures |d| == 0 ==> MaxLength(order) == 0
    ensures |d| > 0 ==> exists k :: k in d && |k| == MaxLength(order)
  {
    EnumerationSize(order, d.Keys);
    forall k | k in d ensures |k| <= MaxLength(order) {
      assert k in order;
    }
    if |d| > 0 {
      var i :| 0 <= i < |order| && |order[i]| == MaxLength(order);
      assert order[i] in d;
    }
  }

  /** Two iteration orders of the same dictionary give the same width. */
  lemma KVWidthOrderIndependent(d: Record, order1: seq<string>, order2: seq<string>)
    requires IsEnumeration(order1, d.Keys) && IsEnumeration(order2, d.Keys)
    ensures MaxLength(order1) == MaxLength(order2)
  {
    KVWidth(d, order1);
    KVWidth(d, order2);
    if |d| > 0 {
      var k1 :| k1 in d && |k1| == MaxLength(order1);
      var k2 :| k2 in d && |k2| == MaxLength(order2);
    }
  }

  /** Every line is the key, spaces up to the width, ": " at the same offset on every line,
      then the value as `formatValue` renders it. */
  lemma KVLineLayout(d: Record, order: seq<string>, i: nat)
    requires IsEnumeration(order, d.Keys)
    requires i < |order|
    ensures |KVLines(d, order)[i]| == MaxLength(order) + 2 + |FormatValue(d[order[i]], NilPlaceholder)|
    ensures KVLines(d, order)[i][..|order[i]|] == order[i]
    ensures forall p :: |order[i]| <= p < MaxLength(order) ==> KVLines(d, order)[i][p] == ' '
    ensures KVLines(d, order)[i][MaxLength(order)..MaxLength(order) + 2] == ": "
    ensures KVLines(d, order)[i][MaxLength(order) + 2..] == FormatValue(d[order[i]], NilPlaceholder)
  {
    var w := MaxLength(order);
    var line := KVLines(d, order)[i];
    var padded := PadRight(order[i], w);
    assert line == padded + ": " + FormatValue(d[order[i]], NilPlaceholder);
    assert line[..|order[i]|] == padded[..|order[i]|];
  }

  /** One line per dictionary entry, and an empty dictionary gives the empty text. */
  lemma KVLinePerEntry(d: Record, order: seq<string>)
    requires IsEnumeration(order, d.Keys)
    ensures |KVLines(d, order)| == |d|
    ensures forall k :: k in d ==> exists i ::
      0 <= i < |order| && order[i] == k && KVLines(d, order)[i] == KVLine(k, d[k], MaxLength(order))
    ensures |d| == 0 ==> KVTable(d, order) == ""
  {
    EnumerationSize(order, d.Keys);
    forall k | k in d
      ensures exists i ::
        0 <= i < |order| && order[i] == k && KVLines(d, order)[i] == KVLine(k, d[k], MaxLength(order))
    {
      var i :| 0 <= i < |order| && order[i] == k;
    }
  }

  lemma PaddedKeyAvoids(key: string, width: nat, c: char)
    requires |key| <= width
    requires c !in key && c != ' '
    ensures c !in PadRight(key, width)
  {
    var padded := PadRight(key, width);
    forall p | 0 <= p < |padded| ensures padded[p] != c {
      if p < |key| {
        assert padded[p] == padded[..|key|][p];
      }
    }
  }

  lemma KVLineAvoids(key: string, value: Option<Value>, width: nat, c: char)
    requires |key| <= width
    requires c !in key && c != ' ' && c != ':' && c !in NilPlaceholder
    requires value.Some? ==> c !in Describe(value.value)
    ensures c !in KVLine(key, value, width)
  {
    PaddedKeyAvoids(key, width, c);
    var padded, rendered := PadRight(key, width), FormatValue(value, NilPlaceholder);
    assert c !in rendered;
    assert KVLine(key, value, width) == padded + ": " + rendered;
  }

  lemma KVLinesAvoid(d: Record, order: seq<string>)
    requires IsEnumeration(order, d.Keys)
    requires RecordAvoids(d, '\n')
    requires forall k :: k in d ==> '\n' !in k
    ensures Avoids(KVLines(d, order), '\n')
  {
    var lines := KVLines(d, order);
    var w := MaxLength(order);
    forall l | 0 <= l < |lines| ensures '\n' !in lines[l] {
      var key := order[l];
      KVLineAvoids(key, d[key], w, '\n');
    }
  }

  /** With no line break in any key or value, the listing of a non-empty dictionary splits
      into exactly its lines, one per entry. */
  lemma KVLineCount(d: Record, order: seq<string>)
    requires IsEnumeration(order, d.Keys)
    requires |d| > 0
    requires RecordAvoids(d, '\n')
    requires forall k :: k in d ==> '\n' !in k
    ensures Split(KVTable(d, order), '\n') == KVLines(d, order)
    ensures |Split(KVTable(d, order), '\n')| == |d|
  {
    EnumerationSize(order, d.Keys);
    KVLinesAvoid(d, order);
    SplitJoin(KVLines(d, order), '\n');
  }

  /** `formatKVTable`: the listing of the dictionary in its iteration order. */
  method FormatKVTable(d: Record) returns (text: string, ghost order: seq<string>)
    ensures IsEnumeration(order, d.Keys)
    ensures text == KVTable(d, order)
  {
    var keys := Enumerate(d.Keys);
    order := keys;
    text := KVTable(d, keys);
  }

  // ================================================================ serialize

  datatype Format = Json | Tty

  /** The dynamically typed value handed to `serialize`: a field mapping, an array, or a
      scalar. */
  datatype AnyValue =
    | ADict(fields: Record)
    | AArray(items: seq<AnyValue>)
    | AScalar(value: Value)

  predicate AllDicts(items: seq<AnyValue>)
  {
    forall i :: 0 <= i < |items| ==> items[i].ADict?
  }

  predicate AllStrings(items: seq<AnyValue>)
  {
    forall i :: 0 <= i < |items| ==> items[i].AScalar? && items[i].value.VStr?
  }

  function Dicts(items: seq<AnyValue>): seq<Record>
    requires AllDicts(items)
  {
    seq(|items|, i requires 0 <= i < |items| => items[i].fields)
  }

  function Strings(items: seq<AnyValue>): seq<string>
    requires AllStrings(items)
  {
    seq(|items|, i requires 0 <= i < |items| => items[i].value.s)
  }

  /** Which branch of the terminal output a value takes. */
  datatype TtyShape = KeyValue | Tabular | PlainLines | Described

  /** The casts tried in order: a dictionary, an array of dictionaries, an array of strings,
      anything else. */
  function ShapeOf(value: AnyValue): (shape: TtyShape)
    ensures shape == KeyValue <==> value.ADict?
    ensures shape == Tabular <==> value.AArray? && AllDicts(value.items)
    ensures shape == PlainLines <==> value.AArray? && AllStrings(value.items) && |value.items| > 0
    ensures shape == Described <==>
      value.AScalar? || (value.AArray? && !AllDicts(value.items) && !AllStrings(value.items))
  {
    if value.ADict? then KeyValue
    else if value.AArray? && AllDicts(value.items) then
      assert |value.items| > 0 ==> value.items[0].ADict?;
      Tabular
    else if value.AArray? && AllStrings(value.items) then PlainLines
    else Described
  }

  /** An empty array passes the array-of-dictionaries cast first, so it is printed as a
      table with no columns and no rows: a single empty line. */
  lemma EmptyArrayPrintsEmptyLine(columns: seq<string>)
    requires IsEnumeration(columns, KeyUnion([]))
    ensures ShapeOf(AArray([])) == Tabular
    ensures Dicts([]) == []
    ensures Table([], columns) + "\n" == "\n"
  {
    EnumerationSize(columns, KeyUnion([]));
  }

  /** `value as? [Any] ?? [value]`: an array's elements, or the value alone. */
  function JsonElements(value: AnyValue): (items: seq<AnyValue>)
  {
    if value.AArray? then value.items else [value]
  }

  /** Each document followed by one newline. */
  function Framed(docs: seq<string>): string
  {
    if |docs| == 0 then "" else Framed(docs[..|docs| - 1]) + docs[|docs| - 1] + "\n"
  }

  function Encodings(items: seq<AnyValue>, encode: AnyValue -> Option<string>): (opts: seq<Option<string>>)
    ensures |opts| == |items|
    ensures forall j :: 0 <= j < |items| ==> opts[j] == encode(items[j])
  {
    seq(|items|, j requires 0 <= j < |items| => encode(items[j]))
  }

  /** Index of the first element the encoder rejects, or the length when it accepts all. */
  function FirstFailure(opts: seq<Option<string>>): (n: nat)
    ensures n <= |opts|
    ensures forall j :: 0 <= j < n ==> opts[j].Some?
    ensures n < |opts| ==> opts[n].None?
  {
    if |opts| == 0 || opts[0].None? then 0 else 1 + FirstFailure(opts[1..])
  }

  function Documents(opts: seq<Option<string>>): (docs: seq<string>)
    requires forall j :: 0 <= j < |opts| ==> opts[j].Some?
  {
    if |opts| == 0 then [] else Documents(opts[..|opts| - 1]) + [opts[|opts| - 1].value]
  }

  lemma {:induction false} DocumentsAt(opts: seq<Option<string>>)
    requires forall j :: 0 <= j < |opts| ==> opts[j].Some?
    ensures |Documents(opts)| == |opts|
    ensures forall j :: 0 <= j < |opts| ==> Documents(opts)[j] == opts[j].value
  {
    if |opts| > 0 {
      DocumentsAt(opts[..|opts| - 1]);
    }
  }

  /** Framing one more document appends it and its newline. */
  lemma FramedSnoc(docs: seq<string>, doc: string)
    ensures Framed(docs + [doc]) == Framed(docs) + doc + "\n"
  {
    assert (docs + [doc])[..|docs|] == docs;
  }

  /** The documents of one more accepted element are the earlier documents and its own. */
  lemma DocumentsSnoc(opts: seq<Option<string>>, i: nat)
    requires i < |opts|
    requires forall j :: 0 <= j <= i ==> opts[j].Some?
    ensures Documents(opts[..i + 1]) == Documents(opts[..i]) + [opts[i].value]
  {
    assert opts[..i + 1][..i] == opts[..i];
  }

  /** A non-array value is sent as a list of one: exactly one document. */
  lemma NonArrayIsOneDocument(value: AnyValue, encode: AnyValue -> Option<string>)
    requires !value.AArray?
    requires encode(value).Some?
    ensures FirstFailure(Encodings(JsonElements(value), encode)) == 1
    ensures Documents(Encodings(JsonElements(value), encode)) == [encode(value).value]
  {
    var opts := Encodings(JsonElements(value), encode);
    assert opts == [encode(value)];
    assert opts[..0] == [];
  }

  /** Framing appends a newline after every document; when no document contains one, the
      output is the documents joined by newlines plus a final newline, and it splits back
      into exactly the documents: one per line. */
  lemma {:induction false} FramedIsOnePerLine(docs: seq<string>)
    requires |docs| > 0
    requires Avoids(docs, '\n')
    ensures Framed(docs) == Join(docs, '\n') + "\n"
    ensures Split(Join(docs, '\n'), '\n') == docs
  {
    var init := docs[..|docs| - 1];
    if |init| == 0 {
      assert Framed(init) == "";
    } else {
      FramedIsOnePerLine(init);
      JoinSnoc(init, docs[|docs| - 1], '\n');
      assert init + [docs[|docs| - 1]] == docs;
    }
    SplitJoin(docs, '\n');
  }

  /** The output stream: everything written to it so far. */
  class OutputHandle {
    var written: string

    constructor ()
      ensures written == ""
    {
      written := "";
    }

    method Write(text: string)
      modifies this
      ensures written == old(written) + text
    {
      written := written + text;
    }
  }

  /** The text followed by a newline. */
  method PrintLine(text: string, handle: OutputHandle)
    modifies handle
    ensures handle.written == old(handle.written) + text + "\n"
  {
    handle.Write(text);
    handle.Write("\n");
  }

  /** The JSON branch of `serialize`: each element is encoded and written followed by a
      newline; the first element the encoder rejects stops the output, after the documents
      before it were written, and the call fails. */
  method WriteDocuments(items: seq<AnyValue>, handle: OutputHandle, encode: AnyValue -> Option<string>)
    returns (ok: bool)
    modifies handle
    ensures var opts := Encodings(items, encode);
      && ok == (FirstFailure(opts) == |opts|)
      && handle.written == old(handle.written) + Framed(Documents(opts[..FirstFailure(opts)]))
  {
    ghost var opts := Encodings(items, encode);
    var i := 0;
    while i < |items|
      invariant 0 <= i <= |items|
      invariant forall j :: 0 <= j < i ==> opts[j].Some?
      invariant handle.written == old(handle.written) + Framed(Documents(opts[..i]))
    {
      var data := encode(items[i]);
      if data.None? {
        assert FirstFailure(opts) == i;
        return false;
      }
      DocumentsSnoc(opts, i);
      FramedSnoc(Documents(opts[..i]), data.value);
      PrintLine(data.value, handle);
      i := i + 1;
    }
    assert opts[..i] == opts;
    ok := true;
  }

  /** One line per string, in order. */
  method WriteLines(lines: seq<string>, handle: OutputHandle)
    modifies handle
    ensures handle.written == old(handle.written) + Framed(lines)
  {
    var k := 0;
    while k < |lines|
      invariant 0 <= k <= |lines|
      invariant handle.written == old(handle.written) + Framed(lines[..k])
    {
      assert lines[..k + 1] == lines[..k] + [lines[k]];
      FramedSnoc(lines[..k], lines[k]);
      PrintLine(lines[k], handle);
      k := k + 1;
    }
    assert lines[..k] == lines;
  }

  /** The terminal branch of `serialize`: the value's shape picks the listing, the table,
      one line per string, or the value's description. */
  method WriteTerminal(value: AnyValue, handle: OutputHandle, describe: AnyValue -> string)
    modifies handle
    ensures ShapeOf(value) == KeyValue ==>
      exists order :: IsEnumeration(order, value.fields.Keys)
        && handle.written == old(handle.written) + KVTable(value.fields, order) + "\n"
    ensures ShapeOf(value) == Tabular ==>
      exists columns :: IsEnumeration(columns, KeyUnion(Dicts(value.items)))
        && handle.written == old(handle.written) + Table(Dicts(value.items), columns) + "\n"
    ensures ShapeOf(value) == PlainLines ==>
      handle.written == old(handle.written) + Framed(Strings(value.items))
    ensures ShapeOf(value) == Described ==>
      handle.written == old(handle.written) + describe(value) + "\n"
  {
    var shape := ShapeOf(value);
    if shape == KeyValue {
      var text, order := FormatKVTable(value.fields);
      PrintLine(text, handle);
    } else if shape == Tabular {
      var text, columns := FormatTable(Dicts(value.items), None);
      PrintLine(text, handle);
    } else if shape == PlainLines {
      WriteLines(Strings(value.items), handle);
    } else {
      PrintLine(describe(value), handle);
    }
  }

  /** `serialize`: JSON documents one per line, or the terminal rendering of the value's
      shape. Only the JSON branch can fail. */
  method Serialize(value: AnyValue, format: Format, handle: OutputHandle,
                   encode: AnyValue -> Option<string>, describe: AnyValue -> string)
    returns (ok: bool)
    modifies handle
    ensures format == Json ==>
      var opts := Encodings(JsonElements(value), encode);
      && ok == (FirstFailure(opts) == |opts|)
      && handle.written == old(handle.written) + Framed(Documents(opts[..FirstFailure(opts)]))
    ensures format == Tty ==> ok
    ensures format == Tty && ShapeOf(value) == KeyValue ==>
      exists order :: IsEnumeration(order, value.fields.Keys)
        && handle.written == old(handle.written) + KVTable(value.fields, order) + "\n"
    ensures format == Tty && ShapeOf(value) == Tabular ==>
      exists columns :: IsEnumeration(columns, KeyUnion(Dicts(value.items)))
        && handle.written == old(handle.written) + Table(Dicts(value.items), columns) + "\n"
    ensures format == Tty && ShapeOf(value) == PlainLines ==>
      handle.written == old(handle.written) + Framed(Strings(value.items))
    ensures format == Tty && ShapeOf(value) == Described ==>
      handle.written == old(handle.written) + describe(value) + "\n"
  {
    match format {
      case Json =>
        ok := WriteDocuments(JsonElements(value), handle, encode);
      case Tty =>
        WriteTerminal(value, handle, describe);
        ok := true;
    }
  }
}
