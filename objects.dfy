/**
 * The runtime objects the CSV formatter and the tag validator receive as
 * `object`, and the reflection facts they rely on (runtime type, public
 * instance properties in declaration order, property values), fixed for the
 * types of this service.
 */
module Objects {
  import opened Wrappers
  import opened Entities
  import opened Decimal

  /** The types a value or a declared property can have here. */
  datatype ClrType =
    | Int32Type
    | StringType
    | StringListType       // List<string>
    | DataDTOType
    | DocumentDTOType
    | DocumentDTOListType  // List<DocumentDTO>, what the list endpoint returns

  /** A reference as a handler hands it over; `Null` is the null reference. */
  datatype Value =
    | Null
    | Int32(n: int)
    | Text(s: string)
    | TextList(items: seq<Option<string>>)
    | DataObject(data: DataDTO)
    | DocumentObject(document: DocumentDTO)
    | DocumentList(documents: seq<DocumentDTO>)

  /** GetType() of a non-null reference. */
  function TypeOf(v: Value): ClrType
    requires !v.Null?
  {
    match v
    case Int32(_) => Int32Type
    case Text(_) => StringType
    case TextList(_) => StringListType
    case DataObject(_) => DataDTOType
    case DocumentObject(_) => DocumentDTOType
    case DocumentList(_) => DocumentDTOListType
  }

  /** The full type names object.ToString() falls back to. */
  function FullName(t: ClrType): string {
    match t
    case Int32Type => "System.Int32"
    case StringType => "System.String"
    case StringListType => "System.Collections.Generic.List`1[System.String]"
    case DataDTOType => "DotnetHomework.Models.DataDTO"
    case DocumentDTOType => "DotnetHomework.Models.DocumentDTO"
    case DocumentDTOListType => "System.Collections.Generic.List`1[DotnetHomework.Models.DocumentDTO]"
  }

  /** A public instance property: its name and its declared type. */
  datatype Property = Property(Name: string, PropertyType: ClrType)

  const IdProperty := Property("Id", Int32Type)
  const TagsProperty := Property("Tags", StringListType)
  const DataProperty := Property("Data", DataDTOType)
  const DocumentDataProperty := Property("DocumentData", StringType)
  const MimeTypeProperty := Property("MimeType", StringType)
  const FileNameProperty := Property("FileName", StringType)
  const ExtensionProperty := Property("Extension", StringType)

  /**
   * GetProperties() of the two DTO types, in declaration order. Properties of
   * the other types (string.Length, List.Count, ...) are never walked, because
   * those values are rendered before any walk reaches them.
   */
  function PropertiesOf(t: ClrType): seq<Property> {
    match t
    case DocumentDTOType => [IdProperty, TagsProperty, DataProperty]
    case DataDTOType => [DocumentDataProperty, MimeTypeProperty, FileNameProperty, ExtensionProperty]
    case _ => []
  }

  /** How deep a value's object graph is: the bound of the formatter's recursion. */
  function Rank(v: Value): nat {
    match v
    case DocumentObject(_) => 2
    case DataObject(_) => 1
    case _ => 0
  }

  function StringValue(s: Option<string>): Value {
    match s
    case None => Null
    case Some(x) => Text(x)
  }

  /** property.GetValue(obj): the value of one of obj's own properties, or null. */
  function GetValue(obj: Value, p: Property): (r: Value)
    ensures !r.Null? ==> TypeOf(r) == p.PropertyType && Rank(r) < Rank(obj)
  {
    match obj
    case DocumentObject(d) =>
      if p == IdProperty then Int32(d.Id)
      else if p == TagsProperty then (if d.Tags.Some? then TextList(d.Tags.value) else Null)
      else if p == DataProperty then (if d.Data.Some? then DataObject(d.Data.value) else Null)
      else Null
    case DataObject(d) =>
      if p == DocumentDataProperty then StringValue(d.DocumentData)
      else if p == MimeTypeProperty then StringValue(d.MimeType)
      else if p == FileNameProperty then StringValue(d.FileName)
      else if p == ExtensionProperty then StringValue(d.Extension)
      else Null
    case _ => Null
  }

  /** `value?.ToString() ?? string.Empty`. */
  function ToText(v: Value): string {
    match v
    case Null => ""
    case Int32(n) => IntToString(n)
    case Text(s) => s
    case _ => FullName(TypeOf(v))
  }
}
