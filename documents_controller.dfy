/**
 * DocumentsController: the mappings between stored documents and DocumentDTOs,
 * and how each handler turns the repository's outcome into a response.
 */
module Controllers {
  import opened Wrappers
  import opened Entities
  import Repository

  /** The action results the handlers return. */
  datatype Response =
    | Found(value: DocumentDTO)                                  // 200 with the DTO
    | NotFound
    | BadRequest(body: Option<string>)
    | Status(code: int, message: string)
    | NoContent
    | CreatedAtAction(actionName: string, routeId: int, value: DocumentDTO)
      /** An exception no catch clause handles; the host turns it into its own error response. */
    | Unhandled(error: Exception)

  /** The message of the ArgumentNullException that Select raises on a null source. */
  const NullSourceMessage := "Value cannot be null. (Parameter 'source')"

  /** The tag names of a document's links, in link order. */
  function TagNames(links: seq<DocumentTag>): (r: seq<Option<string>>)
    ensures |r| == |links|
    ensures forall k :: 0 <= k < |links| ==> r[k] == links[k].Tag.Name
  {
    seq(|links|, k requires 0 <= k < |links| => links[k].Tag.Name)
  }

  /** A fresh link per tag name: default keys, a new Tag carrying the name. */
  function NewLinks(names: seq<Option<string>>): (r: seq<DocumentTag>)
    ensures |r| == |names|
    ensures forall k :: 0 <= k < |names| ==> r[k] == DocumentTag(0, 0, Tag(0, names[k]))
  {
    seq(|names|, k requires 0 <= k < |names| => DocumentTag(0, 0, Tag(0, names[k])))
  }

  /** The entity-to-DTO mapping of GetDocumentsList and GetDocument. */
  function ToDto(d: Document): (r: DocumentDTO)
    ensures r.Id == d.Id
    ensures r.Tags == Some(TagNames(d.DocumentTags))
    ensures r.Data.Some?
    ensures r.Data.value.DocumentData == d.Data.FileData
    ensures r.Data.value.MimeType == d.Data.MimeType
    ensures r.Data.value.FileName == d.Data.FileName
    ensures r.Data.value.Extension == d.Data.Extension
  {
    DocumentDTO(d.Id, Some(TagNames(d.DocumentTags)),
                Some(DataDTO(d.Data.FileData, d.Data.MimeType, d.Data.FileName, d.Data.Extension)))
  }

  /**
   * The DTO-to-entity mapping of PutDocument (setDataKey) and PostDocument.
   * The initialiser reads Tags before Data: a null Tags list makes Select throw
   * ArgumentNullException, a null Data throws NullReferenceException.
   */
  function ToEntity(dto: DocumentDTO, setDataKey: bool): (r: Result<Document, Exception>)
    ensures r.Ok? <==> dto.Tags.Some? && dto.Data.Some?
    ensures dto.Tags.None? ==> r == Err(OtherException(NullSourceMessage))
    ensures dto.Tags.Some? && dto.Data.None? ==> r == Err(NullReferenceException(NullReferenceMessage))
    ensures r.Ok? ==>
      && r.value.Id == dto.Id
      && |r.value.DocumentTags| == |dto.Tags.value|
      && r.value.Data.FileData == dto.Data.value.DocumentData
      && r.value.Data.DocumentId == (if setDataKey then dto.Id else 0)
  {
    if dto.Tags.None? then Err(OtherException(NullSourceMessage))
    else if dto.Data.None? then Err(NullReferenceException(NullReferenceMessage))
    else
      var data := dto.Data.value;
      Ok(Document(dto.Id,
                  DocumentData(if setDataKey then dto.Id else 0,
                               data.DocumentData, data.Extension, data.FileName, data.MimeType),
                  NewLinks(dto.Tags.value)))
  }

  /** Mapping a complete DTO to an entity and back gives the DTO again. */
  lemma DtoRoundTrip(dto: DocumentDTO, setDataKey: bool)
    requires dto.Tags.Some? && dto.Data.Some?
    ensures ToEntity(dto, setDataKey).Ok?
    ensures ToDto(ToEntity(dto, setDataKey).value) == dto
  {
    var e := ToEntity(dto, setDataKey).value;
    assert TagNames(e.DocumentTags) == dto.Tags.value;
  }

  /**
   * Mapping an entity to a DTO and back keeps its id, data columns and tag
   * names; only the keys the store generates are reset.
   */
  lemma EntityRoundTrip(d: Document)
    ensures ToEntity(ToDto(d), true).Ok?
    ensures var e := ToEntity(ToDto(d), true).value;
      && e.Id == d.Id
      && e.Data == d.Data.(DocumentId := d.Id)
      && TagNames(e.DocumentTags) == TagNames(d.DocumentTags)
  {
    var e := ToEntity(ToDto(d), true).value;
    assert TagNames(e.DocumentTags) == TagNames(d.DocumentTags);
  }

  /** The tag and data keys the store assigns on a write do not show in the DTO. */
  lemma PersistedDto(e: Document, firstTagId: int)
    ensures ToDto(Repository.Persisted(e, firstTagId)) == ToDto(e)
  {
    var p := Repository.Persisted(e, firstTagId);
    assert TagNames(p.DocumentTags) == TagNames(e.DocumentTags);
  }

  /**
   * What GetDocument returns for a document written from `dto` under `key` is
   * `dto` with that key as its Id; under the DTO's own Id, `dto` itself.
   */
  lemma StoredDtoRoundTrip(dto: DocumentDTO, setDataKey: bool, key: int, firstTagId: int)
    requires dto.Tags.Some? && dto.Data.Some?
    ensures ToEntity(dto, setDataKey).Ok?
    ensures ToDto(Repository.Persisted(ToEntity(dto, setDataKey).value.(Id := key), firstTagId)) == dto.(Id := key)
    ensures ToDto(Repository.Persisted(ToEntity(dto, setDataKey).value, firstTagId)) == dto
  {
    DtoRoundTrip(dto, setDataKey);
    var e := ToEntity(dto, setDataKey).value;
    PersistedDto(e, firstTagId);
    PersistedDto(e.(Id := key), firstTagId);
    assert TagNames(e.(Id := key).DocumentTags) == TagNames(e.DocumentTags);
  }

  /** PutDocument's catch clauses, in order, applied to what the try block threw. */
  function PutResponse(thrown: Option<Exception>): (r: Response)
    ensures r.NoContent? <==> thrown.None?
    ensures r.NotFound? <==> thrown.Some? && thrown.value.KeyNotFoundException?
    ensures r == BadRequest(None) <==> thrown.Some? && thrown.value.DbUpdateConcurrencyException?
    ensures r.Status? <==>
      thrown.Some? && !thrown.value.KeyNotFoundException? && !thrown.value.DbUpdateConcurrencyException?
    ensures r.Status? ==> r.code == 500 && r.message == thrown.value.message
  {
    match thrown
    case None => NoContent
    case Some(e) =>
      match e
      case KeyNotFoundException(_) => NotFound
      case DbUpdateConcurrencyException(_, _) => BadRequest(None)
      case NullReferenceException(m) => Status(500, m)
      case _ => Status(500, e.message)
  }

  /**
   * PostDocument's catch clauses, in order. The DbUpdateException clause reads
   * InnerException.Message: with no inner exception that read throws itself.
   */
  function PostResponse(dto: DocumentDTO, thrown: Option<Exception>): (r: Response)
    ensures r.CreatedAtAction? <==> thrown.None?
    ensures r.CreatedAtAction? ==> r == CreatedAtAction("PostDocument", dto.Id, dto)
    ensures r.BadRequest? <==> thrown.Some? && thrown.value.IsDbUpdate() && thrown.value.inner.Some?
    ensures r.BadRequest? ==> r.body == thrown.value.inner
    ensures r.Unhandled? <==> thrown.Some? && thrown.value.IsDbUpdate() && thrown.value.inner.None?
    ensures r.Unhandled? ==> r.error == NullReferenceException(NullReferenceMessage)
    ensures r.Status? <==> thrown.Some? && !thrown.value.IsDbUpdate()
    ensures r.Status? ==> r.code == 500 && r.message == thrown.value.message
  {
    match thrown
    case None => CreatedAtAction("PostDocument", dto.Id, dto)
    case Some(e) =>
      if e.NullReferenceException? then Status(500, e.message)
      else if e.IsDbUpdate() then
        (if e.inner.Some? then BadRequest(Some(e.inner.value))
         else Unhandled(NullReferenceException(NullReferenceMessage)))
      else Status(500, e.message)
  }

  /** DeleteDocument catches only KeyNotFoundException. */
  function DeleteResponse(thrown: Option<Exception>): (r: Response)
    ensures r.NoContent? <==> thrown.None?
    ensures r.NotFound? <==> thrown.Some? && thrown.value.KeyNotFoundException?
    ensures r.Unhandled? <==> thrown.Some? && !thrown.value.KeyNotFoundException?
    ensures r.Unhandled? ==> r.error == thrown.value
  {
    match thrown
    case None => NoContent
    case Some(e) => if e.KeyNotFoundException? then NotFound else Unhandled(e)
  }

  /** The DTO of each record, in record order. */
  method ToDtoList(records: seq<Document>) returns (r: seq<DocumentDTO>)
    ensures |r| == |records|
    ensures forall k :: 0 <= k < |records| ==> r[k] == ToDto(records[k])
  {
    r := [];
    for i := 0 to |records|
      invariant |r| == i
      invariant forall k :: 0 <= k < i ==> r[k] == ToDto(records[k])
    {
      r := r + [ToDto(records[i])];
    }
  }

  class DocumentsController {
    const repo: Repository.SqlDocumentRepository

    constructor (repo: Repository.SqlDocumentRepository)
      ensures this.repo == repo
    {
      this.repo := repo;
    }

    /** GET list: one DTO per stored document, and every stored document appears. */
    method GetDocumentsList() returns (r: seq<DocumentDTO>)
      requires repo.Valid()
      ensures |r| == |repo.documents|
      ensures forall k :: 0 <= k < |r| ==> r[k].Id in repo.documents && r[k] == ToDto(repo.documents[r[k].Id])
      ensures forall id :: id in repo.documents ==> exists k :: 0 <= k < |r| && r[k] == ToDto(repo.documents[id])
    {
      var records := repo.GetAll();
      r := ToDtoList(records);
      forall id | id in repo.documents
        ensures exists k :: 0 <= k < |r| && r[k] == ToDto(repo.documents[id])
      {
        var k :| 0 <= k < |records| && records[k].Id == id;
        assert r[k] == ToDto(repo.documents[id]);
      }
    }

    /** GET by id: NotFound when the store has no such document, else its DTO. */
    method GetDocument(id: int) returns (r: Response)
      requires repo.Valid()
      ensures r.NotFound? <==> id !in repo.documents
      ensures id in repo.documents ==> r == Found(ToDto(repo.documents[id])) && r.value.Id == id
    {
      var document := repo.GetById(id);
      if document.None? {
        return NotFound;
      }
      r := Found(ToDto(document.value));
    }

    /**
     * PUT: maps the DTO (setting Data's key) and updates the store; what the
     * try block threw decides the response.
     */
    method PutDocument(dto: DocumentDTO, save: Option<Exception>) returns (r: Response)
      requires repo.Valid()
      modifies repo
      ensures repo.Valid()
      ensures ToEntity(dto, true).Err? ==> r == PutResponse(Some(ToEntity(dto, true).error)) && unchanged(repo)
      ensures ToEntity(dto, true).Ok? && dto.Id !in old(repo.documents) ==> r == NotFound && unchanged(repo)
      ensures ToEntity(dto, true).Ok? && dto.Id in old(repo.documents) ==>
        && r == PutResponse(save)
        && (save.Some? ==> unchanged(repo))
        && (save.None? ==>
              var entity := ToEntity(dto, true).value;
              && repo.documents == old(repo.documents)[dto.Id := Repository.Persisted(entity, old(repo.nextTagId))]
              && repo.tags == old(repo.tags) + Repository.FreshTags(entity.DocumentTags, old(repo.nextTagId))
              && repo.nextTagId == old(repo.nextTagId) + |dto.Tags.value|
              && repo.nextDocumentId == old(repo.nextDocumentId))
    {
      var doc := ToEntity(dto, true);
      var thrown: Option<Exception>;
      if doc.Err? {
        thrown := Some(doc.error);
      } else {
        thrown := repo.Update(doc.value, save);
      }
      r := PutResponse(thrown);
    }

    /**
     * POST: maps the DTO and adds it; a store that already holds the id always
     * rejects the write. An Id of 0 is stored under a generated key, while the
     * response still echoes the posted DTO.
     */
    method PostDocument(dto: DocumentDTO, save: Option<Exception>) returns (r: Response)
      requires repo.Valid()
      requires dto.Id in repo.documents ==> save.Some?
      modifies repo
      ensures repo.Valid()
      ensures ToEntity(dto, false).Err? ==> r == PostResponse(dto, Some(ToEntity(dto, false).error)) && unchanged(repo)
      ensures ToEntity(dto, false).Ok? ==>
        && r == PostResponse(dto, save)
        && (save.Some? ==> unchanged(repo))
        && (save.None? ==>
              var entity := ToEntity(dto, false).value;
              var key := Repository.DocumentKey(dto.Id, old(repo.nextDocumentId));
              && key !in old(repo.documents)
              && repo.documents == old(repo.documents)[key := Repository.Persisted(entity.(Id := key), old(repo.nextTagId))]
              && repo.tags == old(repo.tags) + Repository.FreshTags(entity.DocumentTags, old(repo.nextTagId))
              && repo.nextTagId == old(repo.nextTagId) + |dto.Tags.value|
              && repo.nextDocumentId == Repository.NextDocumentId(key, old(repo.nextDocumentId)))
    {
      var doc := ToEntity(dto, false);
      var thrown: Option<Exception>;
      if doc.Err? {
        thrown := Some(doc.error);
      } else {
        thrown := repo.Add(doc.value, save);
      }
      r := PostResponse(dto, thrown);
    }

    /** DELETE: NoContent on success, NotFound for a missing id; nothing else is caught. */
    method DeleteDocument(id: int, save: Option<Exception>) returns (r: Response)
      requires repo.Valid()
      modifies repo
      ensures repo.Valid()
      ensures id !in old(repo.documents) ==> r == NotFound && unchanged(repo)
      ensures id in old(repo.documents) ==> r == DeleteResponse(save)
      ensures id in old(repo.documents) && save.Some? ==> unchanged(repo)
      ensures r.NoContent? ==>
        && repo.documents == old(repo.documents) - {id}
        && repo.tags == old(repo.tags)
        && repo.nextTagId == old(repo.nextTagId)
        && repo.nextDocumentId == old(repo.nextDocumentId)
    {
      var thrown := repo.Delete(id, save);
      r := DeleteResponse(thrown);
    }
  }

  /**
   * A successful POST followed by GET of the posted Id (`got`) and of the key
   * the store gave the document (`stored`). A nonzero Id is the key, and GET
   * returns the posted DTO. An Id of 0 has a generated key: GET 0 finds
   * nothing, and the document reads back under the generated key.
   */
  method PostThenGet(repo: Repository.SqlDocumentRepository, dto: DocumentDTO)
    returns (posted: Response, got: Response, stored: Response)
    requires repo.Valid()
    requires dto.Id !in repo.documents && dto.Tags.Some? && dto.Data.Some?
    modifies repo
    ensures posted == CreatedAtAction("PostDocument", dto.Id, dto)
    ensures dto.Id != 0 ==> got == Found(dto) && stored == got
    ensures dto.Id == 0 ==> got == NotFound
    ensures dto.Id == 0 ==>
      var key := old(repo.nextDocumentId);
      && key != 0 && key !in old(repo.documents)
      && stored == Found(dto.(Id := key))
  {
    var key := Repository.DocumentKey(dto.Id, repo.nextDocumentId);
    var controller := new DocumentsController(repo);
    posted := controller.PostDocument(dto, None);
    StoredDtoRoundTrip(dto, false, key, old(repo.nextTagId));
    got := controller.GetDocument(dto.Id);
    stored := controller.GetDocument(key);
  }
}
