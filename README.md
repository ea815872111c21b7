# DotnetHomework document service, modelled in Dafny

DotnetHomework is an ASP.NET CRUD service for "documents". A document has a
file payload, its metadata (file name, MIME type, extension) and a list of
free-form tags. This project models the parts of the service that carry
behaviour, and proves what each part promises:

- **Entities and DTOs** (`entities.dfy`). `Document`, `DocumentData`, `Tag`,
  `DocumentTag`, `DocumentDTO` and `DataDTO` are datatypes. C# members that may
  be null are `Option`s. The exceptions the repository raises and the handlers
  catch form one datatype, `Exception`. `DbUpdateConcurrencyException` counts
  as a `DbUpdateException`, as the C# class hierarchy makes it.
- **Schema** (`schema.dfy`). `DataContext.OnModelCreating` becomes validity
  predicates over the store's rows:
  - documents are keyed by `Id`;
  - `DocumentData` shares its document's key;
  - `DocumentTag` rows have the composite key (DocumentId, TagId);
  - every link references an existing document and tag;
  - the required columns and 255-character limits hold.
- **Document store** (`repository.dfy`). The class `SqlDocumentRepository` holds
  four fields: the Documents table (each row with its data and links loaded),
  the Tags table, and the next generated Tag and Document keys. Both `Id` keys
  are single `int` keys, so the store generates one for a new row whose `Id`
  is 0 (what a POST body without an Id carries). Any other Id is stored as
  given, and the generator moves past it. `GetById`, `GetAll`, `Add`,
  `Update` and `Delete` are methods over this state. Whether `SaveChangesAsync`
  succeeds is a parameter `save`: `None` means the store accepts the write,
  `Some(e)` means it throws `e`. Every write creates fresh `Tag` rows for the
  document's tag names, as the code does; no name is de-duplicated. Every
  operation keeps the schema's key invariants.
- **Reflection** (`objects.dfy`). The formatter walks DTOs through reflection.
  Here a small model of runtime values and property tables replaces that walk:
  - `DocumentDTO` has the properties Id, Tags, Data;
  - `DataDTO` has DocumentData, MimeType, FileName, Extension;
  - both lists are in declaration order.
- **CSV formatter** (`csv_output_formatter.dfy`):
  - **Spec functions.** `Flatten`, `FlattenProperties` and `FlattenProperty`
    give the (headers, values) pair that the recursive walk produces.
    `IsSimple` is the simple-type test.
  - **Methods.** `BuildCsv` and `BuildProperty` are the walk and the three
    branches of its loop body. `BuildProperties`, `AddItems` and
    `AddEmptyProperties` hold the loops. Each method is proved to append
    exactly what the spec function gives. `ObjectToCsv` and
    `WriteResponseBody` produce the output text, including the type guard.
  - **Layout.** For a `DocumentDTO` with n tags the columns are exactly `Id`,
    `Tags[0..n-1]`, `Data.DocumentData`, `Data.MimeType`, `Data.FileName`,
    `Data.Extension`.
  - **Alignment.** The header list and the value list always have the same
    length.
  - **Read-back.** The lines split back into their fields while no value holds
    a comma. Any tag holding a comma makes the value line read back as more
    fields than the header line.
- **Controller** (`documents_controller.dfy`):
  - the entity→DTO and DTO→entity mappings, with the `FileData` ↔
    `DocumentData` rename and their round trips;
  - the catch clauses of each handler, as functions from the thrown exception
    to the response;
  - the five handlers as methods of `DocumentsController` over the store.
- **Tag-length validator** (`max_tag_length_attribute.dfy`):
  - `MaxTagLengthAttribute.IsValid` is a search loop, proved against the
    first-offender function `CheckItems`;
  - `CheckItems` succeeds exactly when no item is null or longer than
    `MaxLength`. Length is .NET's `String.Length`, counted in UTF-16 code
    units (`Entities.Utf16Length`): a character outside the Basic Multilingual
    Plane counts two. The schema's 255-character limits use the same count;
  - `FormatErrorMessage` gives the failure text.
- **Number rendering** (`decimal.dfy`). Numbers are rendered as plain decimal
  text, which the formatter, the paths and the error messages use.

The order of the Data columns comes from the code. `DataDTO.cs` (lines 11-26)
declares DocumentData, MimeType, FileName, Extension, and the walk visits
properties in declaration order. The Data columns therefore come in that
order.

## Model

| member | source | states |
|---|---|---|
| Schema.LinkKeyIdentifiesRow | DotnetHomework.Api/Models/DataContext.cs:67-78 | In a valid store, two links with the same (DocumentId, TagId) are the same row of the same document. |
| Schema.LoadedTagNamesValid | DotnetHomework.Api/Models/DataContext.cs:60-64 | In a valid store every loaded tag name is present and at most 255 UTF-16 code units. |
| Repository.FreshTags | DotnetHomework.Api/Repository/SqlDocumentRepository.cs:67-71 | The Tag rows a write inserts: exactly the keys firstTagId to firstTagId+n-1, the k-th carrying the k-th link's name. |
| Repository.SaveKeepsKeys | DotnetHomework.Api/Models/DataContext.cs:44-87 | Writing a document with freshly generated tag keys keeps every key and relationship of the schema. All tag keys stay below the next generated key. |
| Repository.SaveKeepsColumns | DotnetHomework.Api/Models/DataContext.cs:63-85 | Writing an entity whose columns are valid keeps every required/255-character column constraint. |
| Repository.NextRow | DotnetHomework.Api/Repository/SqlDocumentRepository.cs:54-58 | The row the query yields next is one still unread. The store chooses which. |
| Schema.KeysValid | DotnetHomework.Api/Models/DataContext.cs:49-83 | The keys and relationships: Document and Tag rows carry their keys, DocumentData shares its document's key, links reference existing rows and no (DocumentId, TagId) repeats. The empty store has them, and with them every data row carries its document's Id. |
| Schema.ColumnsValid | DotnetHomework.Api/Models/DataContext.cs:60-86 | The required and 255-unit columns (Tag.Name, FileData, FileName). The empty store has them, and with them every tag name and file name is present and at most 255 characters. |
| Schema.Valid | DotnetHomework.Api/Models/DataContext.cs:44-87 | Everything OnModelCreating configures. The empty store has it, and with it every link's DocumentId and TagId are stored rows. |
| Repository.DocumentKey | DotnetHomework.Api/Models/DataContext.cs:51 | The key a new document is stored under is never 0: a nonzero Id is kept, an Id of 0 is replaced by the generated key. |
| Repository.NextDocumentId | DotnetHomework.Api/Models/DataContext.cs:51 | After a document is stored under a key, the Document key generator is above that key and has not gone back. It stays put when the key was already below it. |
| Repository.SqlDocumentRepository.constructor | DotnetHomework.Api/Repository/SqlDocumentRepository.cs:12-28 | An empty store satisfies the schema. |
| Repository.SqlDocumentRepository.GetById | DotnetHomework.Api/Repository/SqlDocumentRepository.cs:35-46 | Returns a document iff the id is stored, and then the stored document with that Id. A missing id is not an error. |
| Repository.SqlDocumentRepository.GetAll | DotnetHomework.Api/Repository/SqlDocumentRepository.cs:52-60 | Returns every stored document exactly once: same count, each stored id present, no id twice. No order is promised. |
| Repository.SqlDocumentRepository.Add | DotnetHomework.Api/Repository/SqlDocumentRepository.cs:67-71 | A rejected save rethrows and changes nothing. Otherwise the document is stored under a key not stored before: its own Id, or the generated key when the Id is 0. Its keys are fixed up, fresh Tag rows are added, both key generators advance, and all other documents are unchanged. The schema stays valid. |
| Repository.SqlDocumentRepository.Update | DotnetHomework.Api/Repository/SqlDocumentRepository.cs:78-90 | An absent id throws KeyNotFoundException "Entity not found DotnetHomework.Models.Document {id}" and changes nothing. A present id is replaced, all other documents are unchanged, the Document key generator stays, and the schema stays valid. |
| Repository.SqlDocumentRepository.Delete | DotnetHomework.Api/Repository/SqlDocumentRepository.cs:97-110 | An absent id throws KeyNotFoundException "Entity key not found {id} " and changes nothing. A present id is removed with its data and links. All other documents, every Tag row and both key generators remain. |
| Repository.SqlDocumentRepository.Write | DotnetHomework.Api/Repository/SqlDocumentRepository.cs:85-89 | The accepted write shared by Add and Update, of an entity carrying a nonzero key: the new documents, tags and both key generators, with the schema preserved. |
| Objects.GetValue | DotnetHomework.Api/Formatters/CsvOutputFormatter.cs:84-100 | A property's non-null value has the property's declared type and is strictly smaller than its owner, so the walk terminates. |
| CsvOutputFormatter.IsSimple | DotnetHomework.Api/Formatters/CsvOutputFormatter.cs:118-121 | Int32 and String are simple. A simple type is never taken for a list (string is excluded from the IEnumerable branch) and has no properties to walk. |
| CsvOutputFormatter.FlattenAligned | DotnetHomework.Api/Formatters/CsvOutputFormatter.cs:66-111 | The walk of any object yields as many headers as values. |
| CsvOutputFormatter.FlattenPropertiesAligned | DotnetHomework.Api/Formatters/CsvOutputFormatter.cs:73-110 | Any prefix of the property loop yields as many headers as values. |
| CsvOutputFormatter.FlattenPropertyAligned | DotnetHomework.Api/Formatters/CsvOutputFormatter.cs:81-109 | Each of the three branches adds one value per header: simple, list and nested-or-null. |
| CsvOutputFormatter.FlattenPropertiesStep | DotnetHomework.Api/Formatters/CsvOutputFormatter.cs:73-110 | The property loop after i+1 properties is the loop after i followed by property i's columns, in order. |
| CsvOutputFormatter.DataPropertyColumn | DotnetHomework.Api/Formatters/CsvOutputFormatter.cs:79-85 | Each DataDTO property under Data gives the single column `Data.<name>`, with its text or "" for null. |
| CsvOutputFormatter.DataColumns | DotnetHomework.Api/Formatters/CsvOutputFormatter.cs:98-104 | A non-null Data gives the columns Data.DocumentData, Data.MimeType, Data.FileName, Data.Extension with their texts. |
| CsvOutputFormatter.DataEmptyColumns | DotnetHomework.Api/Formatters/CsvOutputFormatter.cs:105-108 | A null Data gives the same four Data.* headers, each with an empty value. |
| CsvOutputFormatter.DocumentLayout | DotnetHomework.Api/Formatters/CsvOutputFormatter.cs:73-109 | A DocumentDTO with n tags flattens to exactly the headers Id, Tags[0]..Tags[n-1], Data.DocumentData, Data.MimeType, Data.FileName, Data.Extension and their values. An empty tag list adds no column. A null tag list throws. |
| CsvOutputFormatter.DocumentHeaders | DotnetHomework.Api/Formatters/CsvOutputFormatter.cs:79-95 | The header list of a DocumentDTO with n tags has n+5 entries. |
| CsvOutputFormatter.DocumentValues | DotnetHomework.Api/Formatters/CsvOutputFormatter.cs:84-94 | The value list of a DocumentDTO with n tags has n+5 entries. |
| CsvOutputFormatter.AddItems | DotnetHomework.Api/Formatters/CsvOutputFormatter.cs:86-97 | Appends one header `name[i]` per element, i from 0, and the element's text ("" for null). |
| CsvOutputFormatter.BuildProperty | DotnetHomework.Api/Formatters/CsvOutputFormatter.cs:79-109 | Appends exactly the property's columns from the spec walk, or reports the null-list exception. |
| CsvOutputFormatter.BuildProperties | DotnetHomework.Api/Formatters/CsvOutputFormatter.cs:73-110 | The foreach over a non-null object's properties. Succeeds iff the walk over those properties does, and then appends exactly their columns, in property order. |
| CsvOutputFormatter.BuildCsv | DotnetHomework.Api/Formatters/CsvOutputFormatter.cs:66-111 | Succeeds iff the walk does, and then appends exactly the walk's headers and values to the two lists. |
| CsvOutputFormatter.AddEmptyProperties | DotnetHomework.Api/Formatters/CsvOutputFormatter.cs:131-142 | Appends one header per property of the declared type (prefixed by the parent name) and one empty value each. |
| CsvOutputFormatter.ObjectToCsv | DotnetHomework.Api/Formatters/CsvOutputFormatter.cs:45-57 | Succeeds iff Tags is non-null. The text is then the comma-joined header line and the comma-joined value line, each ended by a newline, in the proved layout. |
| CsvOutputFormatter.WriteResponseBody | DotnetHomework.Api/Formatters/CsvOutputFormatter.cs:20-37 | Anything that is not exactly a DocumentDTO (null, a list of DTOs, a DataDTO) gives only the not-supported line. A DocumentDTO gives its CSV. |
| CsvOutputFormatter.JoinSplit | DotnetHomework.Api/Formatters/CsvOutputFormatter.cs:53-54 | Splitting a joined line at the separator gives back its fields when no field contains the separator. |
| CsvOutputFormatter.HeadersHaveNoSeparator | DotnetHomework.Api/Formatters/CsvOutputFormatter.cs:79-92 | No header of a DocumentDTO contains a comma. |
| CsvOutputFormatter.CsvLinesAligned | DotnetHomework.Api/Formatters/CsvOutputFormatter.cs:53-54 | With no comma in any value, both lines read back to n+5 fields, header k above value k. |
| CsvOutputFormatter.SplitCount | DotnetHomework.Api/Formatters/CsvOutputFormatter.cs:53-54 | A line reads back as one field more than the separators it contains. |
| CsvOutputFormatter.JoinOccurrences | DotnetHomework.Api/Formatters/CsvOutputFormatter.cs:53-54 | A joined line holds the separators inside its parts plus one between each pair of parts. |
| CsvOutputFormatter.CommaInTagShiftsColumns | DotnetHomework.Api/Formatters/CsvOutputFormatter.cs:53-54 | Values are joined without quoting. For any DocumentDTO, a tag whose text holds a comma makes the value line read back as more fields than the header line. |
| Decimal.NatToStringRoundTrip | DotnetHomework.Api/Formatters/CsvOutputFormatter.cs:92 | The decimal text of a list index reads back as that index. |
| Decimal.IntToStringInjective | DotnetHomework.Api/Repository/SqlDocumentRepository.cs:82 | Distinct ids render as distinct texts, in messages and in the Id column. |
| Decimal.IntToStringHasNoSeparator | DotnetHomework.Api/Formatters/CsvOutputFormatter.cs:84 | A rendered integer contains no comma and no line break. |
| Controllers.TagNames | DotnetHomework.Api/Controllers/DocumentsController.cs:40 | One name per link, in link order. |
| Controllers.NewLinks | DotnetHomework.Api/Controllers/DocumentsController.cs:106 | One fresh link per tag name, with default keys and a new Tag carrying the name, in order. |
| Controllers.ToDto | DotnetHomework.Api/Controllers/DocumentsController.cs:72-83 | Copies Id, MimeType, FileName and Extension. Maps FileData to DocumentData. Tags are the link names in link order. |
| Controllers.ToEntity | DotnetHomework.Api/Controllers/DocumentsController.cs:103-115 | A null Tags list throws ArgumentNullException, and a null Data throws NullReferenceException. Otherwise the entity keeps the Id and one link per tag. Data.DocumentId is set only for Put. |
| Controllers.DtoRoundTrip | DotnetHomework.Api/Controllers/DocumentsController.cs:156-167 | A DTO with non-null Tags and Data maps to an entity and back to the same DTO. |
| Controllers.EntityRoundTrip | DotnetHomework.Api/Controllers/DocumentsController.cs:72-83 | An entity mapped to a DTO and back keeps its id, data columns and tag names. Only generated keys are reset. |
| Controllers.PersistedDto | DotnetHomework.Api/Controllers/DocumentsController.cs:72-83 | The keys the store assigns on a write do not change the DTO. |
| Controllers.StoredDtoRoundTrip | DotnetHomework.Api/Controllers/DocumentsController.cs:103-115 | The DTO read back for a document written from a DTO under some key is that DTO with the key as its Id. Under the DTO's own Id it is that DTO. |
| Controllers.PutResponse | DotnetHomework.Api/Controllers/DocumentsController.cs:116-140 | Success gives NoContent and KeyNotFound gives NotFound. A concurrency conflict gives BadRequest with no body. Anything else gives 500 with the exception message. Each holds both ways. |
| Controllers.PostResponse | DotnetHomework.Api/Controllers/DocumentsController.cs:168-189 | Success gives CreatedAtAction("PostDocument", id, dto). NullReference gives 500. A DbUpdate (or concurrency) exception gives BadRequest(inner message), or an unhandled NullReferenceException when there is no inner exception. Anything else gives 500. |
| Controllers.DeleteResponse | DotnetHomework.Api/Controllers/DocumentsController.cs:202-212 | Success gives NoContent and KeyNotFound gives NotFound. Every other exception escapes. |
| Controllers.ToDtoList | DotnetHomework.Api/Controllers/DocumentsController.cs:35-49 | One DTO per record, in record order. |
| Controllers.DocumentsController.constructor | DotnetHomework.Api/Controllers/DocumentsController.cs:16-20 | The controller uses the given repository. |
| Controllers.DocumentsController.GetDocumentsList | DotnetHomework.Api/Controllers/DocumentsController.cs:29-53 | As many DTOs as stored documents. Each is the DTO of a stored document, and every stored document's DTO appears. |
| Controllers.DocumentsController.GetDocument | DotnetHomework.Api/Controllers/DocumentsController.cs:62-87 | NotFound iff the id is not stored. Otherwise the stored document's DTO, whose Id is the requested id. |
| Controllers.DocumentsController.PutDocument | DotnetHomework.Api/Controllers/DocumentsController.cs:97-141 | A mapping failure, a missing id or a failed save changes nothing and gives the catch clause's response. Success replaces the document, adds one fresh Tag row per tag, advances the tag key by the tag count, leaves the Document key generator, and gives NoContent. |
| Controllers.DocumentsController.PostDocument | DotnetHomework.Api/Controllers/DocumentsController.cs:150-190 | A mapping failure or a failed save changes nothing and gives the catch clause's response. Success stores the document under its Id, or under a generated key when the Id is 0, adds one fresh Tag row per tag, advances both key generators, and echoes the posted DTO (Id 0 included) in CreatedAtAction. |
| Controllers.DocumentsController.DeleteDocument | DotnetHomework.Api/Controllers/DocumentsController.cs:199-213 | A missing id gives NotFound and changes nothing. A failed save on a present id changes nothing and escapes unless it is KeyNotFound. NoContent means the document is gone while every Tag row and the tag key stay. |
| Controllers.PostThenGet | DotnetHomework.Api/Controllers/DocumentsController.cs:150-190 | After a successful POST of a new nonzero id, GET of that id returns the posted DTO. After a POST with Id 0, GET 0 gives NotFound, and the document reads back under the generated key with that key as its Id. |
| Entities.Utf16Length | DotnetHomework.Api/Validators/MaxTagLengthAttribute.cs:26 | String.Length in UTF-16 code units. It lies between the character count and twice it, and equals the character count when every character is in the Basic Multilingual Plane. |
| Validators.CheckItemsSuccess | DotnetHomework.Api/Validators/MaxTagLengthAttribute.cs:22-32 | A list is valid iff every item is non-null and at most MaxLength UTF-16 code units long. Length equal to MaxLength passes. The empty list passes. |
| Validators.CheckItemsFailure | DotnetHomework.Api/Validators/MaxTagLengthAttribute.cs:24-30 | A list fails iff some item is longer than MaxLength (in UTF-16 code units) and no null item precedes it. The failure carries the formatted message. |
| Validators.SurrogatePairExceedsOne | DotnetHomework.Api/Validators/MaxTagLengthAttribute.cs:26-29 | One emoji (a surrogate pair) has length 2, so a list holding it fails a limit of 1. |
| Validators.MaxTagLengthAttribute.constructor | DotnetHomework.Api/Validators/MaxTagLengthAttribute.cs:10-13 | MaxLength is the constructor's argument, fixed from then on. |
| Validators.MaxTagLengthAttribute.FormatErrorMessage | DotnetHomework.Api/Validators/MaxTagLengthAttribute.cs:38-41 | "Items in {displayName} cannot exceed {MaxLength} characters." |
| Validators.MaxTagLengthAttribute.IsValid | DotnetHomework.Api/Validators/MaxTagLengthAttribute.cs:15-36 | Null is valid, and a string list gives CheckItems' outcome. Any other value fails with "The field must be a list of strings.". |

## Left out

- Async execution, `Task`, and concurrent requests. Every operation is a sequential method.
- Logging calls in the controller.
- HTTP response writing, media types, encodings and the JSON/XML formatters. `WriteResponseBody` returns the text it would write.
- Program.cs host wiring and the database-provider switch.
- `IDocumentRepository<T>` is not a separate type. The interface has a single implementation, and the model's only repository is the class `SqlDocumentRepository`.
- EF Core change tracking, `Include` translation and cascade conventions. The state is the loaded rows.
- How EF detects `DbUpdateException` and `DbUpdateConcurrencyException`. A write's failure is the `save` parameter.
- The tracking conflict that `FindAsync` followed by `Update` can raise inside EF.
- Repository.SqlDocumentRepository.Add: a store that already holds a nonzero Id must be given a failing `save`. Which key a provider generates for Id 0 is the provider's choice; the model takes the next value of a counter kept above every stored key. SQL Server's refusal of an explicit Id into an identity column is one more failing `save`.
- Whether the provider enforces `HasMaxLength`. The schema's column constraints are a predicate that writes of valid entities preserve, not a runtime rejection.
- Real reflection (`GetProperties`, `GetIndexParameters`). This walk is replaced by the fixed property tables of the two DTOs, which have no indexers. `IsSimple` is the test on those property types (Int32, String).
- .NET culture-dependent `ToString`. Integers render as plain decimal text.
- 32-bit integer width: ids are unbounded integers.
- `Environment.NewLine` behind `AppendLine` is modelled as "\n".
- BuildCsv, BuildProperties, BuildProperty, AddItems and AddEmptyProperties: receive the two lists and return them extended, rather than mutating shared `List<string>` objects. Aliasing between the lists is not captured.
- Automatic model validation by `[ApiController]`, and the validation attributes on the DTOs. The handlers are modelled for any DTO they might receive, including null Tags or Data.
- Validators.MaxTagLengthAttribute.IsValid: the `ValidationContext` is reduced to its display name.
