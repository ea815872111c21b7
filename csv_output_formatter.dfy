/**
 * CsvOutputFormatter: renders a DocumentDTO as two comma-joined lines, the
 * dotted or indexed property paths and then the values. Reflection is replaced
 * by the fixed property lists of Objects.PropertiesOf.
 */
module CsvOutputFormatter {
  import opened Wrappers
  import opened Entities
  import opened Decimal
  import opened Objects

  /** The parallel header and value lists BuildCsv fills. */
  datatype Flattened = Flattened(headers: seq<string>, values: seq<string>)

  function Append(a: Flattened, b: Flattened): Flattened {
    Flattened(a.headers + b.headers, a.values + b.values)
  }

  /**
   * Primitive, enum, string, DateTime or decimal; of the types here, int and
   * string. A simple type is written as one column: it is never taken for a
   * list (string is IEnumerable, but excluded) and is never walked into.
   */
  predicate IsSimple(t: ClrType)
    ensures t == Int32Type || t == StringType ==> IsSimple(t)
    ensures IsSimple(t) ==> !IsEnumerable(t) && PropertiesOf(t) == []
  {
    t == Int32Type || t == StringType
  }

  /** Assignable to IEnumerable and not string. */
  predicate IsEnumerable(t: ClrType) {
    t == StringListType || t == DocumentDTOListType
  }

  /** A top-level name has no prefix; a nested one is `parent.child`. */
  function PropertyPath(parentName: string, name: string): string {
    if parentName == "" then name else parentName + "." + name
  }

  /** The path of the item at `index` of the list at `name`. */
  function ItemPath(name: string, index: nat): string {
    name + "[" + NatToString(index) + "]"
  }

  function IndexedPaths(name: string, n: nat): seq<string> {
    seq(n, i requires 0 <= i < n => ItemPath(name, i))
  }

  /** `item?.ToString() ?? string.Empty` for a list item. */
  function ItemText(item: Option<string>): string {
    if item.Some? then item.value else ""
  }

  function ItemTexts(items: seq<Option<string>>): seq<string> {
    seq(|items|, i requires 0 <= i < |items| => ItemText(items[i]))
  }

  /**
   * The items of `value as IEnumerable`; None when that is null, where the
   * foreach throws a NullReferenceException.
   */
  function Items(v: Value): Option<seq<Value>> {
    match v
    case TextList(items) => Some(seq(|items|, i requires 0 <= i < |items| => StringValue(items[i])))
    case DocumentList(ds) => Some(seq(|ds|, i requires 0 <= i < |ds| => DocumentObject(ds[i])))
    case _ => None
  }

  /** `item?.ToString() ?? string.Empty` for each item. */
  function Texts(items: seq<Value>): seq<string> {
    seq(|items|, i requires 0 <= i < |items| => ToText(items[i]))
  }

  /** AddEmptyProperties: every property of the declared type, each with an empty value. */
  function EmptyProperties(t: ClrType, parentName: string): Flattened {
    var props := PropertiesOf(t);
    Flattened(seq(|props|, i requires 0 <= i < |props| => PropertyPath(parentName, props[i].Name)),
              seq(|props|, _ => ""))
  }

  /** BuildCsv on obj: the columns it appends, or None when it throws. */
  function Flatten(obj: Value, parentName: string): Option<Flattened>
    decreases Rank(obj), 2
  {
    if obj.Null? then Some(Flattened([], []))
    else FlattenProperties(obj, PropertiesOf(TypeOf(obj)), parentName)
  }

  /** The columns of the properties `props` of obj, in order. */
  function FlattenProperties(obj: Value, props: seq<Property>, parentName: string): Option<Flattened>
    decreases Rank(obj), 1, |props|
  {
    if props == [] then Some(Flattened([], []))
    else
      match FlattenProperties(obj, props[..|props| - 1], parentName)
      case None => None
      case Some(init) =>
        match FlattenProperty(obj, props[|props| - 1], parentName)
        case None => None
        case Some(last) => Some(Append(init, last))
  }

  /** The columns of one property: the three branches of BuildCsv's loop body. */
  function FlattenProperty(obj: Value, p: Property, parentName: string): Option<Flattened>
    decreases Rank(obj), 0
  {
    var name := PropertyPath(parentName, p.Name);
    var v := GetValue(obj, p);
    if IsSimple(p.PropertyType) then Some(Flattened([name], [ToText(v)]))
    else if IsEnumerable(p.PropertyType) then
      match Items(v)
      case None => None
      case Some(items) => Some(Flattened(IndexedPaths(name, |items|), Texts(items)))
    else if !v.Null? then Flatten(v, name)
    else Some(EmptyProperties(p.PropertyType, name))
  }

  /** Every column has a header and a value: the two lists stay the same length. */
  lemma {:induction false} FlattenAligned(obj: Value, parentName: string)
    requires Flatten(obj, parentName).Some?
    ensures |Flatten(obj, parentName).value.headers| == |Flatten(obj, parentName).value.values|
    decreases Rank(obj), 2
  {
    if !obj.Null? {
      FlattenPropertiesAligned(obj, PropertiesOf(TypeOf(obj)), parentName);
    }
  }

  lemma {:induction false} FlattenPropertiesAligned(obj: Value, props: seq<Property>, parentName: string)
    requires FlattenProperties(obj, props, parentName).Some?
    ensures var f := FlattenProperties(obj, props, parentName).value; |f.headers| == |f.values|
    decreases Rank(obj), 1, |props|
  {
    if props != [] {
      FlattenPropertiesAligned(obj, props[..|props| - 1], parentName);
      FlattenPropertyAligned(obj, props[|props| - 1], parentName);
    }
  }

  lemma {:induction false} FlattenPropertyAligned(obj: Value, p: Property, parentName: string)
    requires FlattenProperty(obj, p, parentName).Some?
    ensures var f := FlattenProperty(obj, p, parentName).value; |f.headers| == |f.values|
    decreases Rank(obj), 0
  {
    var v := GetValue(obj, p);
    if !IsSimple(p.PropertyType) && !IsEnumerable(p.PropertyType) && !v.Null? {
      FlattenAligned(v, PropertyPath(parentName, p.Name));
    }
  }

  // ---------------------------------------------------------------------------
  // The layout of a DocumentDTO, stated independently of the walk.

  const DataPaths: seq<string> := ["Data.DocumentData", "Data.MimeType", "Data.FileName", "Data.Extension"]

  /** The four Data values; a null Data gives four empty values. */
  function DataTexts(data: Option<DataDTO>): seq<string> {
    match data
    case None => ["", "", "", ""]
    case Some(d) => [ItemText(d.DocumentData), ItemText(d.MimeType), ItemText(d.FileName), ItemText(d.Extension)]
  }

  /** Id, Tags[0] .. Tags[n-1], then the four Data paths. */
  function DocumentHeaders(tagCount: nat): (r: seq<string>)
    ensures |r| == tagCount + 5
  {
    ["Id"] + IndexedPaths("Tags", tagCount) + DataPaths
  }

  function DocumentValues(id: int, tags: seq<Option<string>>, data: Option<DataDTO>): (r: seq<string>)
    ensures |r| == |tags| + 5
  {
    [IntToString(id)] + ItemTexts(tags) + DataTexts(data)
  }

  /** One more property appends its columns, or throws. */
  lemma FlattenPropertiesStep(obj: Value, props: seq<Property>, parentName: string, i: nat)
    requires i < |props|
    ensures FlattenProperties(obj, props[..i + 1], parentName) ==
      match FlattenProperties(obj, props[..i], parentName)
      case None => None
      case Some(init) =>
        match FlattenProperty(obj, props[i], parentName)
        case None => None
        case Some(last) => Some(Append(init, last))
  {
    assert props[..i + 1][..i] == props[..i];
  }

  lemma AppendAssociative(a: Flattened, b: Flattened, c: Flattened)
    ensures Append(Append(a, b), c) == Append(a, Append(b, c))
  {
    assert (a.headers + b.headers) + c.headers == a.headers + (b.headers + c.headers);
    assert (a.values + b.values) + c.values == a.values + (b.values + c.values);
  }

  /** A property that yields columns extends the loop's columns by them. */
  lemma PropertyColumnsAppend(obj: Value, props: seq<Property>, parentName: string, i: nat,
                              acc: Flattened, column: Flattened)
    requires i < |props|
    requires FlattenProperties(obj, props[..i], parentName) == Some(acc)
    requires FlattenProperty(obj, props[i], parentName) == Some(column)
    ensures FlattenProperties(obj, props[..i + 1], parentName) == Some(Append(acc, column))
  {
    FlattenPropertiesStep(obj, props, parentName, i);
  }

  /** A property that throws makes the whole loop throw. */
  lemma PropertyFailureFails(obj: Value, props: seq<Property>, parentName: string, i: nat)
    requires i < |props|
    requires FlattenProperties(obj, props[..i], parentName).Some?
    requires FlattenProperty(obj, props[i], parentName).None?
    ensures FlattenProperties(obj, props, parentName).None?
  {
    FlattenPropertiesStep(obj, props, parentName, i);
    FailedPrefixFails(obj, props, parentName, i + 1);
  }

  /** Once a prefix of the property loop throws, the whole loop throws. */
  lemma {:induction false} FailedPrefixFails(obj: Value, props: seq<Property>, parentName: string, i: nat)
    requires i <= |props|
    requires FlattenProperties(obj, props[..i], parentName).None?
    ensures FlattenProperties(obj, props, parentName).None?
    decreases |props| - i
  {
    if i == |props| {
      assert props[..i] == props;
    } else {
      var init := props[..|props| - 1];
      assert init[..i] == props[..i];
      FailedPrefixFails(obj, init, parentName, i);
    }
  }

  /** The k-th property of a DataDTO gives its path under Data and its value. */
  lemma DataPropertyColumn(d: DataDTO, k: nat)
    requires k < 4
    ensures FlattenProperty(DataObject(d), PropertiesOf(DataDTOType)[k], "Data") ==
      Some(Flattened([DataPaths[k]], [DataTexts(Some(d))[k]]))
  {
    DataPathsSpelled();
    if k == 0 {
      StringPropertyColumn(d, DocumentDataProperty, d.DocumentData);
    } else if k == 1 {
      StringPropertyColumn(d, MimeTypeProperty, d.MimeType);
    } else if k == 2 {
      StringPropertyColumn(d, FileNameProperty, d.FileName);
    } else {
      StringPropertyColumn(d, ExtensionProperty, d.Extension);
    }
  }

  /** The four Data paths are the DataDTO property names under "Data". */
  lemma DataPathsSpelled()
    ensures forall k :: 0 <= k < 4 ==> PropertyPath("Data", PropertiesOf(DataDTOType)[k].Name) == DataPaths[k]
  {
    assert PropertyPath("Data", DocumentDataProperty.Name) == DataPaths[0];
    assert PropertyPath("Data", MimeTypeProperty.Name) == DataPaths[1];
    assert PropertyPath("Data", FileNameProperty.Name) == DataPaths[2];
    assert PropertyPath("Data", ExtensionProperty.Name) == DataPaths[3];
  }

  /** A string property of a DataDTO under Data: one column, its text or "" for null. */
  lemma StringPropertyColumn(d: DataDTO, p: Property, field: Option<string>)
    requires p.PropertyType == StringType
    requires GetValue(DataObject(d), p) == StringValue(field)
    ensures FlattenProperty(DataObject(d), p, "Data") ==
      Some(Flattened([PropertyPath("Data", p.Name)], [ItemText(field)]))
  {
    assert ToText(StringValue(field)) == ItemText(field);
  }

  lemma DataColumns(d: DataDTO)
    ensures Flatten(DataObject(d), "Data") == Some(Flattened(DataPaths, DataTexts(Some(d))))
  {
    var obj := DataObject(d);
    var props := PropertiesOf(DataDTOType);
    var texts := DataTexts(Some(d));
    assert props[..0] == [];
    for i := 0 to 4
      invariant FlattenProperties(obj, props[..i], "Data") == Some(Flattened(DataPaths[..i], texts[..i]))
    {
      FlattenPropertiesStep(obj, props, "Data", i);
      DataPropertyColumn(d, i);
      assert DataPaths[..i + 1] == DataPaths[..i] + [DataPaths[i]];
      assert texts[..i + 1] == texts[..i] + [texts[i]];
    }
    assert props[..4] == props && DataPaths[..4] == DataPaths && texts[..4] == texts;
    assert TypeOf(obj) == DataDTOType;
  }

  lemma DataEmptyColumns()
    ensures EmptyProperties(DataDTOType, "Data") == Flattened(DataPaths, DataTexts(None))
  {
    var e := EmptyProperties(DataDTOType, "Data");
    assert PropertyPath("Data", "DocumentData") == DataPaths[0];
    assert PropertyPath("Data", "MimeType") == DataPaths[1];
    assert PropertyPath("Data", "FileName") == DataPaths[2];
    assert PropertyPath("Data", "Extension") == DataPaths[3];
    assert e.headers == DataPaths;
    assert e.values == DataTexts(None);
  }

  /**
   * The columns of a DocumentDTO: Id, one column per tag, and the four Data
   * columns whether or not Data is null; a null Tags list throws.
   */
  lemma DocumentLayout(dto: DocumentDTO)
    ensures dto.Tags.None? ==> Flatten(DocumentObject(dto), "") == None
    ensures dto.Tags.Some? ==>
      Flatten(DocumentObject(dto), "") ==
        Some(Flattened(DocumentHeaders(|dto.Tags.value|), DocumentValues(dto.Id, dto.Tags.value, dto.Data)))
  {
    var obj := DocumentObject(dto);
    var props := PropertiesOf(DocumentDTOType);
    assert TypeOf(obj) == DocumentDTOType;
    assert props[..0] == [] && props[..3] == props;
    var id := Flattened(["Id"], [IntToString(dto.Id)]);
    IdColumn(dto);
    PropertyColumnsAppend(obj, props, "", 0, Flattened([], []), id);
    assert Append(Flattened([], []), id) == id;
    if dto.Tags.Some? {
      var tags := dto.Tags.value;
      var listed := Flattened(IndexedPaths("Tags", |tags|), ItemTexts(tags));
      var data := Flattened(DataPaths, DataTexts(dto.Data));
      TagsColumns(dto);
      PropertyColumnsAppend(obj, props, "", 1, id, listed);
      DataObjectColumns(dto);
      PropertyColumnsAppend(obj, props, "", 2, Append(id, listed), data);
    } else {
      assert FlattenProperty(obj, props[1], "") == None;
      PropertyFailureFails(obj, props, "", 1);
    }
  }

  /** The Id property: one column "Id" with the decimal id. */
  lemma IdColumn(dto: DocumentDTO)
    ensures FlattenProperty(DocumentObject(dto), IdProperty, "") == Some(Flattened(["Id"], [IntToString(dto.Id)]))
  {
  }

  /** A non-null Tags list: one column Tags[i] per tag, its text or "" for null. */
  lemma TagsColumns(dto: DocumentDTO)
    requires dto.Tags.Some?
    ensures FlattenProperty(DocumentObject(dto), TagsProperty, "") ==
      Some(Flattened(IndexedPaths("Tags", |dto.Tags.value|), ItemTexts(dto.Tags.value)))
  {
    var items := Items(TextList(dto.Tags.value)).value;
    assert Texts(items) == ItemTexts(dto.Tags.value);
  }

  /** The Data property: the four Data columns, empty when Data is null. */
  lemma DataObjectColumns(dto: DocumentDTO)
    ensures FlattenProperty(DocumentObject(dto), DataProperty, "") ==
      Some(Flattened(DataPaths, DataTexts(dto.Data)))
  {
    if dto.Data.Some? { DataColumns(dto.Data.value); } else { DataEmptyColumns(); }
  }

  // ---------------------------------------------------------------------------
  // Joining the lists into text.

  /** Environment.NewLine, which AppendLine adds. */
  const NewLine := "\n"

  const NotSupportedMessage :=
    "Not supported object type for CSV output. Use application/JSON or text/JSON content type instead."

  /** string.Join: the parts separated by `sep`, nothing quoted or escaped. */
  function Join(parts: seq<string>, sep: char): string {
    if |parts| == 0 then ""
    else if |parts| == 1 then parts[0]
    else parts[0] + [sep] + Join(parts[1..], sep)
  }

  /** Cuts a line at every `sep`, the reading a CSV consumer applies. */
  function Split(line: string, sep: char): (r: seq<string>)
    ensures |r| >= 1
  {
    if line == [] then [""]
    else
      var rest := Split(line[1..], sep);
      if line[0] == sep then [""] + rest else [[line[0]] + rest[0]] + rest[1..]
  }

  lemma {:induction false} SplitWithoutSeparator(part: string, sep: char)
    requires sep !in part
    ensures Split(part, sep) == [part]
  {
    if part != [] {
      SplitWithoutSeparator(part[1..], sep);
      assert [part[0]] + part[1..] == part;
    }
  }

  lemma {:induction false} SplitFirstPart(part: string, rest: string, sep: char)
    requires sep !in part
    ensures Split(part + [sep] + rest, sep) == [part] + Split(rest, sep)
  {
    var line := part + [sep] + rest;
    if part == [] {
      assert line == [sep] + rest && line[1..] == rest;
    } else {
      assert line[1..] == part[1..] + [sep] + rest;
      SplitFirstPart(part[1..], rest, sep);
      assert [part[0]] + part[1..] == part;
    }
  }

  /** Without separators inside the parts, splitting the joined line gives the parts back. */
  lemma {:induction false} JoinSplit(parts: seq<string>, sep: char)
    requires |parts| >= 1
    requires forall i :: 0 <= i < |parts| ==> sep !in parts[i]
    ensures Split(Join(parts, sep), sep) == parts
  {
    if |parts| == 1 {
      SplitWithoutSeparator(parts[0], sep);
    } else {
      SplitFirstPart(parts[0], Join(parts[1..], sep), sep);
      JoinSplit(parts[1..], sep);
    }
  }

  // ---------------------------------------------------------------------------
  // The formatter's methods.

  /**
   * BuildCsv: appends the columns of obj under parentName to the two lists.
   * `ok` is false when the walk throws (a null list property).
   */
  method BuildCsv(obj: Value, headers: seq<string>, values: seq<string>, parentName: string)
    returns (ok: bool, hs: seq<string>, vs: seq<string>)
    ensures ok <==> Flatten(obj, parentName).Some?
    ensures ok ==> hs == headers + Flatten(obj, parentName).value.headers
    ensures ok ==> vs == values + Flatten(obj, parentName).value.values
    decreases Rank(obj), 2
  {
    if obj.Null? {
      return true, headers, values;
    }
    ok, hs, vs := BuildProperties(obj, PropertiesOf(TypeOf(obj)), headers, values, parentName);
  }

  /** BuildCsv's foreach over the properties of a non-null obj. */
  method BuildProperties(obj: Value, props: seq<Property>, headers: seq<string>, values: seq<string>, parentName: string)
    returns (ok: bool, hs: seq<string>, vs: seq<string>)
    requires !obj.Null?
    ensures ok <==> FlattenProperties(obj, props, parentName).Some?
    ensures ok ==> hs == headers + FlattenProperties(obj, props, parentName).value.headers
    ensures ok ==> vs == values + FlattenProperties(obj, props, parentName).value.values
    decreases Rank(obj), 1
  {
    ok, hs, vs := true, headers, values;
    var i := 0;
    ghost var acc := Flattened([], []);
    assert props[..0] == [];
    while i < |props|
      invariant 0 <= i <= |props|
      invariant FlattenProperties(obj, props[..i], parentName) == Some(acc)
      invariant Flattened(hs, vs) == Append(Flattened(headers, values), acc)
    {
      ghost var column := FlattenProperty(obj, props[i], parentName);
      ghost var before := Flattened(hs, vs);
      ok, hs, vs := BuildProperty(obj, props[i], hs, vs, parentName);
      if !ok {
        PropertyFailureFails(obj, props, parentName, i);
        return;
      }
      assert Flattened(hs, vs) == Append(before, column.value);
      PropertyColumnsAppend(obj, props, parentName, i, acc, column.value);
      AppendAssociative(Flattened(headers, values), acc, column.value);
      acc := Append(acc, column.value);
      i := i + 1;
    }
    assert props[..i] == props;
  }

  /** One pass of BuildCsv's loop: the columns of one property of obj. */
  method BuildProperty(obj: Value, property: Property, headers: seq<string>, values: seq<string>, parentName: string)
    returns (ok: bool, hs: seq<string>, vs: seq<string>)
    requires !obj.Null?
    ensures ok <==> FlattenProperty(obj, property, parentName).Some?
    ensures ok ==> hs == headers + FlattenProperty(obj, property, parentName).value.headers
    ensures ok ==> vs == values + FlattenProperty(obj, property, parentName).value.values
    decreases Rank(obj), 0
  {
    ok, hs, vs := true, headers, values;
    var propertyName := PropertyPath(parentName, property.Name);
    if IsSimple(property.PropertyType) {
      hs := hs + [propertyName];
      vs := vs + [ToText(GetValue(obj, property))];
    } else if IsEnumerable(property.PropertyType) {
      var enumerable := Items(GetValue(obj, property));
      if enumerable.None? {
        ok := false;
      } else {
        hs, vs := AddItems(propertyName, enumerable.value, hs, vs);
      }
    } else {
      var propertyValue := GetValue(obj, property);
      if !propertyValue.Null? {
        ok, hs, vs := BuildCsv(propertyValue, hs, vs, propertyName);
      } else {
        hs, vs := AddEmptyProperties(property.PropertyType, hs, vs, propertyName);
      }
    }
  }

  /** The foreach over a list property: one column `name[index]` per item. */
  method AddItems(name: string, items: seq<Value>, headers: seq<string>, values: seq<string>)
    returns (hs: seq<string>, vs: seq<string>)
    ensures hs == headers + IndexedPaths(name, |items|)
    ensures vs == values + Texts(items)
  {
    hs, vs := headers, values;
    var index := 0;
    while index < |items|
      invariant 0 <= index <= |items|
      invariant hs == headers + IndexedPaths(name, index)
      invariant vs == values + Texts(items[..index])
    {
      hs := hs + [ItemPath(name, index)];
      vs := vs + [ToText(items[index])];
      assert IndexedPaths(name, index + 1) == IndexedPaths(name, index) + [ItemPath(name, index)];
      assert Texts(items[..index + 1]) == Texts(items[..index]) + [ToText(items[index])];
      index := index + 1;
    }
    assert items[..index] == items;
  }

  /** AddEmptyProperties: appends every property of the declared type with an empty value. */
  method AddEmptyProperties(t: ClrType, headers: seq<string>, values: seq<string>, parentName: string)
    returns (hs: seq<string>, vs: seq<string>)
    ensures hs == headers + EmptyProperties(t, parentName).headers
    ensures vs == values + EmptyProperties(t, parentName).values
  {
    hs, vs := headers, values;
    var props := PropertiesOf(t);
    ghost var empty := EmptyProperties(t, parentName);
    for i := 0 to |props|
      invariant hs == headers + empty.headers[..i]
      invariant vs == values + empty.values[..i]
    {
      hs := hs + [PropertyPath(parentName, props[i].Name)];
      vs := vs + [""];
      assert empty.headers[..i + 1] == empty.headers[..i] + [empty.headers[i]];
      assert empty.values[..i + 1] == empty.values[..i] + [empty.values[i]];
    }
    assert empty.headers[..|props|] == empty.headers;
    assert empty.values[..|props|] == empty.values;
  }

  /** The two CSV lines of a DocumentDTO with a non-null tag list. */
  function DocumentCsv(id: int, tags: seq<Option<string>>, data: Option<DataDTO>): string {
    Join(DocumentHeaders(|tags|), ',') + NewLine + Join(DocumentValues(id, tags, data), ',') + NewLine
  }

  /**
   * ObjectToCsv: the header line and the value line, each ended by a newline;
   * `ok` is false when building the columns throws.
   */
  method ObjectToCsv(dto: DocumentDTO) returns (ok: bool, csv: string)
    ensures ok <==> dto.Tags.Some?
    ensures ok ==> csv == DocumentCsv(dto.Id, dto.Tags.value, dto.Data)
  {
    var headers, values;
    ok, headers, values := BuildCsv(DocumentObject(dto), [], [], "");
    DocumentLayout(dto);
    if ok {
      assert headers == DocumentHeaders(|dto.Tags.value|);
      assert values == DocumentValues(dto.Id, dto.Tags.value, dto.Data);
      csv := Join(headers, ',') + NewLine + Join(values, ',') + NewLine;
    } else {
      csv := "";
    }
  }

  /** What WriteResponseBodyAsync writes to the response, or the exception it raises. */
  datatype Output = Written(body: string) | Threw(error: Exception)

  /**
   * WriteResponseBodyAsync: anything that is not exactly a DocumentDTO (null, a
   * list of DTOs, ...) gives the one explanatory line; a DocumentDTO its two CSV
   * lines; a DocumentDTO whose Tags is null throws.
   */
  method WriteResponseBody(obj: Value) returns (r: Output)
    ensures !obj.DocumentObject? ==> r == Written(NotSupportedMessage + NewLine)
    ensures obj.DocumentObject? && obj.document.Tags.Some? ==>
      r == Written(DocumentCsv(obj.document.Id, obj.document.Tags.value, obj.document.Data))
    ensures obj.DocumentObject? && obj.document.Tags.None? ==>
      r == Threw(NullReferenceException(NullReferenceMessage))
  {
    if obj.Null? || TypeOf(obj) != DocumentDTOType {
      r := Written(NotSupportedMessage + NewLine);
    } else {
      var ok, csv := ObjectToCsv(obj.document);
      if ok {
        r := Written(csv);
      } else {
        r := Threw(NullReferenceException(NullReferenceMessage));
      }
    }
  }

  // ---------------------------------------------------------------------------
  // Reading the two lines back.

  lemma HeadersHaveNoSeparator(tagCount: nat)
    ensures forall i :: 0 <= i < |DocumentHeaders(tagCount)| ==> ',' !in DocumentHeaders(tagCount)[i]
  {
    var hs := DocumentHeaders(tagCount);
    forall i | 0 <= i < |hs| ensures ',' !in hs[i] {
      if 1 <= i < tagCount + 1 {
        var digits := NatToString(i - 1);
        assert AllDigits(digits);
        assert hs[i] == "Tags[" + digits + "]";
      }
    }
  }

  /**
   * When no tag and no Data field contains a comma, a consumer that cuts both
   * lines at commas gets one value per header, n + 5 of each for n tags.
   */
  lemma CsvLinesAligned(id: int, tags: seq<Option<string>>, data: Option<DataDTO>)
    requires forall i :: 0 <= i < |tags| ==> ',' !in ItemText(tags[i])
    requires forall i :: 0 <= i < 4 ==> ',' !in DataTexts(data)[i]
    ensures Split(Join(DocumentHeaders(|tags|), ','), ',') == DocumentHeaders(|tags|)
    ensures Split(Join(DocumentValues(id, tags, data), ','), ',') == DocumentValues(id, tags, data)
    ensures |DocumentHeaders(|tags|)| == |DocumentValues(id, tags, data)| == |tags| + 5
  {
    HeadersHaveNoSeparator(|tags|);
    JoinSplit(DocumentHeaders(|tags|), ',');
    var vs := DocumentValues(id, tags, data);
    forall i | 0 <= i < |vs| ensures ',' !in vs[i] {
      if i == 0 {
        IntToStringHasNoSeparator(id, ',');
      } else if i <= |tags| {
        assert vs[i] == ItemText(tags[i - 1]);
      } else {
        assert vs[i] == DataTexts(data)[i - |tags| - 1];
      }
    }
    JoinSplit(vs, ',');
  }

  /** How many times `sep` occurs in `s`. */
  function Occurrences(s: string, sep: char): nat {
    if s == [] then 0 else (if s[0] == sep then 1 else 0) + Occurrences(s[1..], sep)
  }

  /** The separators inside the parts, summed. */
  function PartOccurrences(parts: seq<string>, sep: char): nat {
    if parts == [] then 0 else Occurrences(parts[0], sep) + PartOccurrences(parts[1..], sep)
  }

  lemma {:induction false} OccurrencesAppend(a: string, b: string, sep: char)
    ensures Occurrences(a + b, sep) == Occurrences(a, sep) + Occurrences(b, sep)
  {
    if a == [] {
      assert a + b == b;
    } else {
      assert (a + b)[1..] == a[1..] + b;
      OccurrencesAppend(a[1..], b, sep);
    }
  }

  lemma {:induction false} OccurrencesOfMember(s: string, sep: char)
    requires sep in s
    ensures Occurrences(s, sep) >= 1
  {
    if s[0] != sep {
      OccurrencesOfMember(s[1..], sep);
    }
  }

  /** Splitting yields one field more than there are separators in the line. */
  lemma {:induction false} SplitCount(line: string, sep: char)
    ensures |Split(line, sep)| == Occurrences(line, sep) + 1
  {
    if line != [] {
      SplitCount(line[1..], sep);
    }
  }

  /** The joined line holds the parts' own separators plus one between each pair of parts. */
  lemma {:induction false} JoinOccurrences(parts: seq<string>, sep: char)
    requires |parts| >= 1
    ensures Occurrences(Join(parts, sep), sep) == PartOccurrences(parts, sep) + |parts| - 1
  {
    if |parts| == 1 {
      assert parts[1..] == [];
    } else {
      JoinOccurrences(parts[1..], sep);
      OccurrencesAppend(parts[0] + [sep], Join(parts[1..], sep), sep);
      OccurrencesAppend(parts[0], [sep], sep);
      assert Occurrences([sep], sep) == 1 by { assert [sep][1..] == []; }
    }
  }

  /** A part holding the separator contributes at least one to the sum. */
  lemma {:induction false} PartOccurrencesOfMember(parts: seq<string>, sep: char, i: nat)
    requires i < |parts| && sep in parts[i]
    ensures PartOccurrences(parts, sep) >= 1
  {
    if i == 0 {
      OccurrencesOfMember(parts[0], sep);
    } else {
      assert parts[1..][i - 1] == parts[i];
      PartOccurrencesOfMember(parts[1..], sep, i - 1);
    }
  }

  /**
   * Values are not quoted: a tag holding a comma makes the value line read
   * back as more fields than the header line has, so later values land under
   * the wrong headers.
   */
  lemma CommaInTagShiftsColumns(id: int, tags: seq<Option<string>>, data: Option<DataDTO>, i: nat)
    requires i < |tags| && ',' in ItemText(tags[i])
    ensures |Split(Join(DocumentValues(id, tags, data), ','), ',')| > |DocumentHeaders(|tags|)|
  {
    var vs := DocumentValues(id, tags, data);
    assert vs[i + 1] == ItemText(tags[i]);
    PartOccurrencesOfMember(vs, ',', i + 1);
    JoinOccurrences(vs, ',');
    SplitCount(Join(vs, ','), ',');
  }
}
