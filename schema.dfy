/**
 * The key, relationship and column configuration of DataContext.OnModelCreating,
 * stated as predicates over the store's rows: the Documents table (each row with
 * its DocumentData and DocumentTag rows) and the Tags table.
 */
module Schema {
  import opened Wrappers
  import opened Entities

  const MaxNameLength := 255

  /** HasKey(Id) on Document: the row stored under a key carries that key. */
  ghost predicate DocumentKeyed(documents: map<int, Document>) {
    forall id :: id in documents ==> documents[id].Id == id
  }

  /** HasKey(Id) on Tag. */
  ghost predicate TagKeyed(tags: map<int, Tag>) {
    forall id :: id in tags ==> tags[id].Id == id
  }

  /**
   * One-to-one Document/DocumentData: DocumentData is keyed by DocumentId, which
   * is also its foreign key, so it shares the id of its document.
   */
  ghost predicate DataSharesDocumentKey(documents: map<int, Document>) {
    forall id :: id in documents ==> documents[id].Data.DocumentId == id
  }

  /**
   * DocumentTag rows reference an existing Document (the one they belong to) and
   * an existing Tag, and the loaded Tag is that row.
   */
  ghost predicate LinksReferenceRows(documents: map<int, Document>, tags: map<int, Tag>) {
    forall id, k :: id in documents && 0 <= k < |documents[id].DocumentTags| ==>
      var link := documents[id].DocumentTags[k];
      link.DocumentId == id && link.TagId in tags && tags[link.TagId] == link.Tag
  }

  /** The composite key (DocumentId, TagId): within a document no TagId repeats. */
  ghost predicate LinkKeysDistinct(documents: map<int, Document>) {
    forall id, j, k :: id in documents && 0 <= j < k < |documents[id].DocumentTags| ==>
      documents[id].DocumentTags[j].TagId != documents[id].DocumentTags[k].TagId
  }

  /**
   * Keys and relationships. The empty store has them; in a store that has them,
   * each document's data row carries the document's own key.
   */
  ghost predicate KeysValid(documents: map<int, Document>, tags: map<int, Tag>)
    ensures documents == map[] && tags == map[] ==> KeysValid(documents, tags)
    ensures KeysValid(documents, tags) ==>
      forall id :: id in documents ==> documents[id].Data.DocumentId == documents[id].Id
  {
    && DocumentKeyed(documents)
    && TagKeyed(tags)
    && DataSharesDocumentKey(documents)
    && LinksReferenceRows(documents, tags)
    && LinkKeysDistinct(documents)
  }

  /** IsRequired().HasMaxLength(255). */
  predicate RequiredBounded(s: Option<string>) {
    s.Some? && Utf16Length(s.value) <= MaxNameLength
  }

  /** Tag.Name is required and at most 255 characters. */
  ghost predicate TagColumnsValid(tags: map<int, Tag>) {
    forall id :: id in tags ==> RequiredBounded(tags[id].Name)
  }

  /** DocumentData.FileData is required; FileName is required and at most 255 characters. */
  predicate DataColumnsValid(data: DocumentData) {
    data.FileData.Some? && RequiredBounded(data.FileName)
  }

  /**
   * The column constraints. The empty store has them; in a store that has them,
   * every tag name and file name is present and, counted in characters as in
   * UTF-16 code units, at most 255 long.
   */
  ghost predicate ColumnsValid(documents: map<int, Document>, tags: map<int, Tag>)
    ensures documents == map[] && tags == map[] ==> ColumnsValid(documents, tags)
    ensures ColumnsValid(documents, tags) ==>
      && (forall id :: id in tags ==> tags[id].Name.Some? && |tags[id].Name.value| <= MaxNameLength)
      && (forall id :: id in documents ==>
            documents[id].Data.FileData.Some? && documents[id].Data.FileName.Some?
            && |documents[id].Data.FileName.value| <= MaxNameLength)
  {
    && TagColumnsValid(tags)
    && (forall id :: id in documents ==> DataColumnsValid(documents[id].Data))
  }

  /**
   * Everything OnModelCreating configures. The empty store has it; in a store
   * that has it, every link's document and tag are rows of the store.
   */
  ghost predicate Valid(documents: map<int, Document>, tags: map<int, Tag>)
    ensures documents == map[] && tags == map[] ==> Valid(documents, tags)
    ensures Valid(documents, tags) ==>
      forall id, k :: id in documents && 0 <= k < |documents[id].DocumentTags| ==>
        documents[id].DocumentTags[k].DocumentId in documents && documents[id].DocumentTags[k].TagId in tags
  {
    KeysValid(documents, tags) && ColumnsValid(documents, tags)
  }

  /**
   * The composite key identifies one association row in the whole table: two
   * rows with the same (DocumentId, TagId) are the same row of the same document.
   */
  lemma LinkKeyIdentifiesRow(documents: map<int, Document>, tags: map<int, Tag>,
                             a: int, j: nat, b: int, k: nat)
    requires KeysValid(documents, tags)
    requires a in documents && j < |documents[a].DocumentTags|
    requires b in documents && k < |documents[b].DocumentTags|
    requires documents[a].DocumentTags[j].DocumentId == documents[b].DocumentTags[k].DocumentId
    requires documents[a].DocumentTags[j].TagId == documents[b].DocumentTags[k].TagId
    ensures a == b && j == k
  {
    assert documents[a].DocumentTags[j].DocumentId == a;
    assert documents[b].DocumentTags[k].DocumentId == b;
  }

  /** Every loaded tag name satisfies the Tag column constraints. */
  lemma LoadedTagNamesValid(documents: map<int, Document>, tags: map<int, Tag>, id: int, k: nat)
    requires Valid(documents, tags)
    requires id in documents && k < |documents[id].DocumentTags|
    ensures RequiredBounded(documents[id].DocumentTags[k].Tag.Name)
  {
    var link := documents[id].DocumentTags[k];
    assert link.TagId in tags && tags[link.TagId] == link.Tag;
  }
}
