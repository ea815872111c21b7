/**
 * The persisted entities (Document, DocumentData, Tag, DocumentTag) and the
 * wire-level DTOs (DocumentDTO, DataDTO). C# reference-typed members that may
 * be null are `Option`s; navigation properties that the repository always
 * loads (Document.Data, DocumentTag.Tag) are plain values.
 */
module Entities {
  import opened Wrappers

  datatype Tag = Tag(Id: int, Name: Option<string>)

  /** One row of the Document/Tag association, with its Tag navigation loaded. */
  datatype DocumentTag = DocumentTag(DocumentId: int, TagId: int, Tag: Tag)

  datatype DocumentData = DocumentData(
    DocumentId: int,
    FileData: Option<string>,
    Extension: Option<string>,
    FileName: Option<string>,
    MimeType: Option<string>)

  /** A document with its Data and DocumentTags (each with its Tag) loaded. */
  datatype Document = Document(Id: int, Data: DocumentData, DocumentTags: seq<DocumentTag>)

  /** Fields in declaration order: DocumentData, MimeType, FileName, Extension. */
  datatype DataDTO = DataDTO(
    DocumentData: Option<string>,
    MimeType: Option<string>,
    FileName: Option<string>,
    Extension: Option<string>)

  /** Fields in declaration order: Id, Tags, Data. */
  datatype DocumentDTO = DocumentDTO(Id: int, Tags: Option<seq<Option<string>>>, Data: Option<DataDTO>)

  /** The exceptions the repository and the handlers raise or catch. */
  datatype Exception =
    | KeyNotFoundException(message: string)
      /** A write the store rejected; `inner` is the message of the InnerException, if any. */
    | DbUpdateException(message: string, inner: Option<string>)
      /** A subclass of DbUpdateException: a lost optimistic-concurrency race. */
    | DbUpdateConcurrencyException(message: string, inner: Option<string>)
    | NullReferenceException(message: string)
    | OtherException(message: string)
  {
    /** `catch (DbUpdateException)` also catches the concurrency subclass. */
    predicate IsDbUpdate() { DbUpdateException? || DbUpdateConcurrencyException? }
  }

  /**
   * String.Length: .NET strings are UTF-16, so a character outside the Basic
   * Multilingual Plane (a surrogate pair) counts as two.
   */
  function Utf16Length(s: string): (n: nat)
    ensures |s| <= n <= 2 * |s|
    ensures (forall i :: 0 <= i < |s| ==> s[i] as int < 0x1_0000) ==> n == |s|
  {
    if s == [] then 0
    else Utf16Length(s[..|s| - 1]) + (if s[|s| - 1] as int >= 0x1_0000 then 2 else 1)
  }

  /** The message .NET gives a NullReferenceException. */
  const NullReferenceMessage := "Object reference not set to an instance of an object."
}
