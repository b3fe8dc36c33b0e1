/**
 * The cloud model service: paged listing, lookup by id, and the four
 * writes (create, update, delete, enable/disable) over the cloud model
 * table. Read-side storage errors are not modelled; every write takes the
 * storage engine's verdict `fail`.
 */
module CloudLLMModelService {
  import opened Wrappers
  import opened Seqs
  import opened Models
  import opened Database

  /** One page of models together with the size of the whole table. */
  datatype PageResult = PageResult(total: int, items: seq<CloudLLMModel>)

  /** The default page size used when the caller's size is below 1. */
  const DEFAULT_PAGE_SIZE := 10

  /** The page number actually queried. */
  function ClampPage(page: int64): (r: int64)
    ensures r >= 1
    ensures page >= 1 ==> r == page
    ensures page < 1 ==> r == 1
  {
    if page < 1 then 1 else page
  }

  /** The page size actually queried: a size below 1 becomes the default. */
  function ClampSize(size: int64): (r: int64)
    ensures r >= 1
    ensures size >= 1 ==> r == size
    ensures size < 1 ==> r == DEFAULT_PAGE_SIZE
  {
    if size < 1 then DEFAULT_PAGE_SIZE else size
  }

  /**
   * A page of the table in storage order, and the total row count. The page
   * is measured against the clamped page number and size; the OFFSET is the
   * 64-bit product GORM receives.
   */
  function GetList(rows: seq<CloudLLMModel>, page: int64, size: int64): (r: PageResult)
    ensures r.total == |rows|
    ensures |r.items| <= ClampSize(size)
    ensures var start := PageStart(ClampPage(page), ClampSize(size));
            start <= INT64_MAX ==>
              |r.items| == if start >= |rows| then 0 else Min(ClampSize(size), |rows| - start)
    ensures forall k :: 0 <= k < |r.items| ==> r.items[k] in rows
  {
    PageResult(|rows|, Page(rows, ClampPage(page), ClampSize(size)))
  }

  /** The first page holds the first rows of the table, at most `size` (or 10) of them. */
  lemma FirstPageIsPrefix(rows: seq<CloudLLMModel>, page: int64, size: int64)
    requires page <= 1
    ensures GetList(rows, page, size).items == Take(rows, ClampSize(size))
  {
    var items := GetList(rows, page, size).items;
    assert PageStart(1, ClampSize(size)) == 0;
    assert |items| == |Take(rows, ClampSize(size))|;
  }

  /**
   * Item `k` of the page queried for any `page` and `size` is model number
   * `(p - 1) * n + k`, where `p` and `n` are the clamped page and size (see
   * `RowPosition` for the converse).
   */
  lemma GetListItemAt(rows: seq<CloudLLMModel>, page: int64, size: int64, k: int)
    requires 0 <= k < ClampSize(size)
    requires PageStart(ClampPage(page), ClampSize(size)) <= INT64_MAX
    requires PageStart(ClampPage(page), ClampSize(size)) + k < |rows|
    ensures k < |GetList(rows, page, size).items|
    ensures GetList(rows, page, size).items[k] == rows[PageStart(ClampPage(page), ClampSize(size)) + k]
  {
    PageAt(rows, ClampPage(page), ClampSize(size), k);
  }

  /** Lookup by primary key: the model with that id, or RecordNotFound. */
  function GetByID(rows: seq<CloudLLMModel>, id: nat): (r: Result<CloudLLMModel, Error>)
    ensures r.Success? <==> exists i :: 0 <= i < |rows| && rows[i].id == id
    ensures r.Success? ==> r.value in rows && r.value.id == id
    ensures r.Failure? ==> r.error == RecordNotFound
  {
    match FindByKey(rows, ModelId, id)
    case None => assert forall i :: 0 <= i < |rows| ==> rows[i].id != id; Failure(RecordNotFound)
    case Some(m) => Success(m)
  }

  /** A model lacking a name, a provider or an API key is rejected before storage. */
  predicate HasRequiredFields(m: CloudLLMModel) {
    m.name != "" && m.provider != "" && m.apiKey != ""
  }

  /**
   * Create: validate the three required fields, then INSERT. On success the
   * caller's model comes back with the id and timestamps storage gave it.
   */
  method Create(db: Db, m: CloudLLMModel, now: Time, fail: bool) returns (r: Result<CloudLLMModel, Error>)
    requires db.Valid()
    modifies db
    ensures db.Valid()
    ensures db.conversations == old(db.conversations) && db.messages == old(db.messages)
    ensures db.settings == old(db.settings)
    ensures !HasRequiredFields(m) ==> r == Failure(MissingModelFields) && db.models == old(db.models)
    ensures HasRequiredFields(m) && fail ==> r == Failure(WriteFailed) && db.models == old(db.models)
    ensures HasRequiredFields(m) && !fail ==>
      && r == Success(m.(id := old(db.models.nextId),
                         createdAt := StampIfZero(m.createdAt, now),
                         updatedAt := StampIfZero(m.updatedAt, now)))
      && db.models == Inserted(old(db.models), r.value)
      && GetByID(db.models.rows, r.value.id) == r
  {
    if !HasRequiredFields(m) {
      return Failure(MissingModelFields);
    }
    ghost var before := db.models;
    r := db.CreateModel(m, now, fail);
    if r.Success? {
      FindAfterInsert(before, ModelId, r.value, r.value.id);
    }
  }

  /**
   * Update: a zero id is rejected, then an id no row has, then every column
   * of the stored row is overwritten (Save) and UpdatedAt refreshed.
   */
  method Update(db: Db, m: CloudLLMModel, now: Time, fail: bool) returns (err: Option<Error>)
    requires db.Valid()
    modifies db
    ensures db.Valid()
    ensures db.conversations == old(db.conversations) && db.messages == old(db.messages)
    ensures db.settings == old(db.settings)
    ensures m.id == 0 ==> err == Some(MissingModelId) && db.models == old(db.models)
    ensures m.id != 0 && GetByID(old(db.models.rows), m.id).Failure? ==>
      err == Some(ModelAbsent) && db.models == old(db.models)
    ensures m.id != 0 && GetByID(old(db.models.rows), m.id).Success? && fail ==>
      err == Some(WriteFailed) && db.models == old(db.models)
    ensures m.id != 0 && GetByID(old(db.models.rows), m.id).Success? && !fail ==>
      && err == None
      && db.models == Table(Replaced(old(db.models.rows), ModelId, m.(updatedAt := now)), old(db.models.nextId))
  {
    if m.id == 0 {
      return Some(MissingModelId);
    }
    if FindByKey(db.models.rows, ModelId, m.id).None? {
      return Some(ModelAbsent);
    }
    err := db.SaveModel(m, now, fail);
  }

  /** After a successful update the model reads back as written, and no other model changes. */
  lemma GetByIDAfterUpdate(rows: seq<CloudLLMModel>, m: CloudLLMModel, now: Time, id: nat)
    requires Increasing(rows, ModelId)
    requires GetByID(rows, m.id).Success?
    ensures GetByID(Replaced(rows, ModelId, m.(updatedAt := now)), id) ==
      if id == m.id then Success(m.(updatedAt := now)) else GetByID(rows, id)
  {
    FindAfterReplace(rows, ModelId, m.(updatedAt := now), id);
  }

  /** Delete: a zero id is rejected; otherwise the row with that id (if any) is removed. */
  method Delete(db: Db, id: nat, fail: bool) returns (err: Option<Error>)
    requires db.Valid()
    modifies db
    ensures db.Valid()
    ensures db.conversations == old(db.conversations) && db.messages == old(db.messages)
    ensures db.settings == old(db.settings)
    ensures id == 0 ==> err == Some(MissingModelId) && db.models == old(db.models)
    ensures id != 0 && fail ==> err == Some(WriteFailed) && db.models == old(db.models)
    ensures id != 0 && !fail ==> err == None && db.models == Removed(old(db.models), ModelId, id)
  {
    if id == 0 {
      return Some(MissingModelId);
    }
    err := db.DeleteModel(id, fail);
  }

  /** After a delete the id is not found, and every other model is as before. */
  lemma GetByIDAfterDelete(t: Table<CloudLLMModel>, id: nat, id': nat)
    requires WellFormed(t, ModelId)
    ensures GetByID(Removed(t, ModelId, id).rows, id') ==
      if id' == id then Failure(RecordNotFound) else GetByID(t.rows, id')
  {
    FindAfterRemove(t, ModelId, id, id');
  }

  /** ToggleEnabled: a zero id is rejected; otherwise the flag of that row (if any) is set. */
  method ToggleEnabled(db: Db, id: nat, enabled: bool, now: Time, fail: bool) returns (err: Option<Error>)
    requires db.Valid()
    modifies db
    ensures db.Valid()
    ensures db.conversations == old(db.conversations) && db.messages == old(db.messages)
    ensures db.settings == old(db.settings)
    ensures id == 0 ==> err == Some(MissingModelId) && db.models == old(db.models)
    ensures id != 0 && fail ==> err == Some(WriteFailed) && db.models == old(db.models)
    ensures id != 0 && !fail ==>
      err == None && db.models == Table(EnabledSet(old(db.models.rows), id, enabled, now), old(db.models.nextId))
  {
    if id == 0 {
      return Some(MissingModelId);
    }
    err := db.UpdateModelEnabled(id, enabled, now, fail);
  }

  /** After a toggle the model reads back with the new flag; every other model is as before. */
  lemma GetByIDAfterToggle(rows: seq<CloudLLMModel>, id: nat, enabled: bool, now: Time, id': nat)
    requires Increasing(rows, ModelId)
    ensures GetByID(EnabledSet(rows, id, enabled, now), id') ==
      match GetByID(rows, id')
      case Failure(e) => Failure(e)
      case Success(m) => Success(if id' == id then m.(enabled := enabled, updatedAt := now) else m)
  {
    FindAfterEnabledSet(rows, id, enabled, now, id');
  }
}
