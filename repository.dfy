/**
 * SqlDocumentRepository: the document store behind IDocumentRepository<Document>.
 * The store's tables are fields of the class; SaveChangesAsync's own failure (a
 * rejected write, a lost concurrency race) is a parameter `save` of each writing
 * operation: None when the store accepts the write, Some(e) when it throws e.
 */
module Repository {
  import opened Wrappers
  import opened Entities
  import opened Decimal
  import Schema

  /** Document's FullName, which UpdateAsync puts in its not-found message. */
  const DocumentTypeName := "DotnetHomework.Models.Document"

  function UpdateNotFoundMessage(id: int): string {
    "Entity not found " + DocumentTypeName + " " + IntToString(id)
  }

  function DeleteNotFoundMessage(id: int): string {
    "Entity key not found " + IntToString(id) + " "
  }

  /**
   * The association rows written for a document's links: each link takes the
   * document's key and a freshly inserted Tag carrying the link's tag name,
   * with generated Tag ids firstTagId, firstTagId + 1, ... in link order.
   */
  function LinkFreshTags(documentId: int, links: seq<DocumentTag>, firstTagId: int): seq<DocumentTag> {
    seq(|links|, k requires 0 <= k < |links| =>
      DocumentTag(documentId, firstTagId + k, Tag(firstTagId + k, links[k].Tag.Name)))
  }

  /**
   * The key a new document is stored under. Document.Id is a single int key, so
   * the store generates one when the entity's Id is 0 (the value of an omitted
   * Id); any other Id is inserted as given.
   */
  function DocumentKey(id: int, nextDocumentId: int): (key: int)
    requires nextDocumentId > 0
    ensures key != 0
    ensures id != 0 ==> key == id
  {
    if id == 0 then nextDocumentId else id
  }

  /** The key generator after a document is stored under `key`: it stays above every stored key. */
  function NextDocumentId(key: int, nextDocumentId: int): (next: int)
    ensures next > key && next >= nextDocumentId
    ensures key < nextDocumentId ==> next == nextDocumentId
  {
    if key < nextDocumentId then nextDocumentId else key + 1
  }

  /** The Tag rows inserted for a document's links (no reuse of existing names). */
  function FreshTags(links: seq<DocumentTag>, firstTagId: int): (r: map<int, Tag>)
    ensures forall id :: id in r <==> firstTagId <= id < firstTagId + |links|
    ensures forall k :: 0 <= k < |links| ==> r[firstTagId + k] == Tag(firstTagId + k, links[k].Tag.Name)
  {
    if links == [] then map[]
    else
      var last := firstTagId + |links| - 1;
      FreshTags(links[..|links| - 1], firstTagId)[last := Tag(last, links[|links| - 1].Tag.Name)]
  }

  /** The document as it reads back after SaveChanges fixed up its keys. */
  function Persisted(entity: Document, firstTagId: int): Document {
    Document(entity.Id, entity.Data.(DocumentId := entity.Id),
             LinkFreshTags(entity.Id, entity.DocumentTags, firstTagId))
  }

  /** The column constraints of the schema, on an entity about to be written. */
  predicate EntityColumnsValid(entity: Document) {
    && Schema.DataColumnsValid(entity.Data)
    && forall k :: 0 <= k < |entity.DocumentTags| ==> Schema.RequiredBounded(entity.DocumentTags[k].Tag.Name)
  }

  /** Writing a document with fresh tag keys keeps every key and relationship of the schema. */
  lemma SaveKeepsKeys(documents: map<int, Document>, tags: map<int, Tag>, next: int, entity: Document)
    requires Schema.KeysValid(documents, tags)
    requires forall id :: id in tags ==> id < next
    ensures Schema.KeysValid(documents[entity.Id := Persisted(entity, next)],
                             tags + FreshTags(entity.DocumentTags, next))
    ensures forall id :: id in tags + FreshTags(entity.DocumentTags, next) ==> id < next + |entity.DocumentTags|
  {
    var docs' := documents[entity.Id := Persisted(entity, next)];
    var added := FreshTags(entity.DocumentTags, next);
    var tags' := tags + added;
    forall id | id in tags'
      ensures tags'[id].Id == id
    {
      if id in added {
        assert added[next + (id - next)] == Tag(id, entity.DocumentTags[id - next].Tag.Name);
      }
    }
    forall id, k | id in docs' && 0 <= k < |docs'[id].DocumentTags|
      ensures var link := docs'[id].DocumentTags[k];
              link.DocumentId == id && link.TagId in tags' && tags'[link.TagId] == link.Tag
    {
      if id == entity.Id {
        var t := next + k;
        assert t in added && added[t] == Tag(t, entity.DocumentTags[k].Tag.Name);
      } else {
        var link := documents[id].DocumentTags[k];
        assert link.TagId in tags && link.TagId < next;
        assert link.TagId !in added;
      }
    }
  }

  /** Writing a document whose columns are valid keeps every column constraint of the schema. */
  lemma SaveKeepsColumns(documents: map<int, Document>, tags: map<int, Tag>, next: int, entity: Document)
    requires Schema.ColumnsValid(documents, tags)
    requires EntityColumnsValid(entity)
    ensures Schema.ColumnsValid(documents[entity.Id := Persisted(entity, next)],
                                tags + FreshTags(entity.DocumentTags, next))
  {
    var added := FreshTags(entity.DocumentTags, next);
    forall id | id in tags + added
      ensures Schema.RequiredBounded((tags + added)[id].Name)
    {
      if id in added {
        assert added[id].Name == entity.DocumentTags[id - next].Tag.Name;
      }
    }
  }

  /** The key of the row the store yields next; the store chooses the order. */
  method NextRow(keys: set<int>) returns (id: int)
    ensures keys != {} ==> id in keys
  {
    if exists k :: k in keys {
      id :| id in keys;
    } else {
      assert keys == {};
      id := 0;
    }
  }

  class SqlDocumentRepository {
    /** The Documents table, each row with its DocumentData and DocumentTag rows. */
    var documents: map<int, Document>
    /** The Tags table; rows outlive the documents that created them. */
    var tags: map<int, Tag>
    /** The next key the store generates for a Tag row. */
    var nextTagId: int
    /** The next key the store generates for a Document row whose Id is 0. */
    var nextDocumentId: int

    ghost predicate Valid()
      reads this
    {
      && Schema.KeysValid(documents, tags)
      && (forall id :: id in tags ==> id < nextTagId)
      && nextDocumentId > 0
      && 0 !in documents
      && (forall id :: id in documents ==> id < nextDocumentId)
    }

    constructor ()
      ensures Valid()
      ensures documents == map[] && tags == map[]
    {
      documents, tags, nextTagId, nextDocumentId := map[], map[], 1, 1;
    }

    /** GetByIdAsync: the stored document with that id, or null; a missing id is not an error. */
    method GetById(id: int) returns (r: Option<Document>)
      requires Valid()
      ensures r.Some? <==> id in documents
      ensures r.Some? ==> r.value == documents[id] && r.value.Id == id
    {
      if id in documents {
        r := Some(documents[id]);
      } else {
        r := None;
      }
    }

    /** GetAllAsync: every stored document once, in an order the store chooses. */
    method GetAll() returns (r: seq<Document>)
      requires Valid()
      ensures |r| == |documents|
      ensures forall k :: 0 <= k < |r| ==> r[k].Id in documents && documents[r[k].Id] == r[k]
      ensures forall id :: id in documents ==> exists k :: 0 <= k < |r| && r[k].Id == id
      ensures forall j, k :: 0 <= j < k < |r| ==> r[j].Id != r[k].Id
    {
      r := [];
      var remaining := documents.Keys;
      while remaining != {}
        invariant remaining <= documents.Keys
        invariant |r| + |remaining| == |documents|
        invariant forall k :: 0 <= k < |r| ==>
          r[k].Id in documents && r[k].Id !in remaining && documents[r[k].Id] == r[k]
        invariant forall id :: id in documents && id !in remaining ==>
          exists k :: 0 <= k < |r| && r[k].Id == id
        invariant forall j, k :: 0 <= j < k < |r| ==> r[j].Id != r[k].Id
        decreases |remaining|
      {
        var id := NextRow(remaining);
        ghost var before := r;
        r := r + [documents[id]];
        remaining := remaining - {id};
        forall x | x in documents && x !in remaining
          ensures exists k :: 0 <= k < |r| && r[k].Id == x
        {
          if x == id {
            assert r[|r| - 1].Id == x;
          } else {
            var k :| 0 <= k < |before| && before[k].Id == x;
            assert r[k] == before[k];
          }
        }
      }
    }

    /**
     * AddAsync: inserts the document under its key (a generated one when its Id
     * is 0), its DocumentData and a fresh Tag row per link. A store that already
     * holds the key always rejects the write.
     */
    method Add(entity: Document, save: Option<Exception>) returns (thrown: Option<Exception>)
      requires Valid()
      requires entity.Id in documents ==> save.Some?
      modifies this
      ensures Valid()
      ensures thrown == save
      ensures thrown.Some? ==> unchanged(this)
      ensures thrown.None? ==>
        var key := DocumentKey(entity.Id, old(nextDocumentId));
        && key !in old(documents)
        && documents == old(documents)[key := Persisted(entity.(Id := key), old(nextTagId))]
        && tags == old(tags) + FreshTags(entity.DocumentTags, old(nextTagId))
        && nextTagId == old(nextTagId) + |entity.DocumentTags|
        && nextDocumentId == NextDocumentId(key, old(nextDocumentId))
      ensures Schema.ColumnsValid(old(documents), old(tags)) && EntityColumnsValid(entity) ==>
        Schema.ColumnsValid(documents, tags)
    {
      thrown := save;
      if save.None? {
        var key := DocumentKey(entity.Id, nextDocumentId);
        Write(entity.(Id := key));
      }
    }

    /**
     * UpdateAsync: a missing id throws KeyNotFoundException and changes nothing;
     * otherwise the stored document is replaced by the entity.
     */
    method Update(entity: Document, save: Option<Exception>) returns (thrown: Option<Exception>)
      requires Valid()
      modifies this
      ensures Valid()
      ensures entity.Id !in old(documents) ==>
        thrown == Some(KeyNotFoundException(UpdateNotFoundMessage(entity.Id)))
      ensures entity.Id in old(documents) ==> thrown == save
      ensures thrown.Some? ==> unchanged(this)
      ensures thrown.None? ==>
        && documents == old(documents)[entity.Id := Persisted(entity, old(nextTagId))]
        && tags == old(tags) + FreshTags(entity.DocumentTags, old(nextTagId))
        && nextTagId == old(nextTagId) + |entity.DocumentTags|
        && nextDocumentId == old(nextDocumentId)
      ensures Schema.ColumnsValid(old(documents), old(tags)) && EntityColumnsValid(entity) ==>
        Schema.ColumnsValid(documents, tags)
    {
      if entity.Id !in documents {
        thrown := Some(KeyNotFoundException(UpdateNotFoundMessage(entity.Id)));
      } else {
        thrown := save;
        if save.None? {
          Write(entity);
        }
      }
    }

    /**
     * DeleteAsync: a missing id throws KeyNotFoundException and changes nothing;
     * otherwise exactly that document (with its data and links) is removed.
     * Tag rows stay.
     */
    method Delete(id: int, save: Option<Exception>) returns (thrown: Option<Exception>)
      requires Valid()
      modifies this
      ensures Valid()
      ensures id !in old(documents) ==> thrown == Some(KeyNotFoundException(DeleteNotFoundMessage(id)))
      ensures id in old(documents) ==> thrown == save
      ensures thrown.Some? ==> unchanged(this)
      ensures thrown.None? ==>
        && documents == old(documents) - {id}
        && tags == old(tags)
        && nextTagId == old(nextTagId)
        && nextDocumentId == old(nextDocumentId)
      ensures Schema.ColumnsValid(old(documents), old(tags)) ==> Schema.ColumnsValid(documents, tags)
    {
      var entity := GetById(id);
      if entity.Some? {
        thrown := save;
        if save.None? {
          documents := documents - {id};
        }
      } else {
        thrown := Some(KeyNotFoundException(DeleteNotFoundMessage(id)));
      }
    }

    /** The accepted write shared by Add and Update, of an entity that carries its key. */
    method Write(entity: Document)
      requires Valid()
      requires entity.Id != 0
      modifies this
      ensures Valid()
      ensures documents == old(documents)[entity.Id := Persisted(entity, old(nextTagId))]
      ensures tags == old(tags) + FreshTags(entity.DocumentTags, old(nextTagId))
      ensures nextTagId == old(nextTagId) + |entity.DocumentTags|
      ensures nextDocumentId == NextDocumentId(entity.Id, old(nextDocumentId))
      ensures Schema.ColumnsValid(old(documents), old(tags)) && EntityColumnsValid(entity) ==>
        Schema.ColumnsValid(documents, tags)
    {
      SaveKeepsKeys(documents, tags, nextTagId, entity);
      if Schema.ColumnsValid(documents, tags) && EntityColumnsValid(entity) {
        SaveKeepsColumns(documents, tags, nextTagId, entity);
      }
      documents := documents[entity.Id := Persisted(entity, nextTagId)];
      tags := tags + FreshTags(entity.DocumentTags, nextTagId);
      nextTagId := nextTagId + |entity.DocumentTags|;
      nextDocumentId := NextDocumentId(entity.Id, nextDocumentId);
    }
  }
}
