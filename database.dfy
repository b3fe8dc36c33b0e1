/**
 * The storage collaborator: one object holding the four tables the services
 * use. Each table keeps its rows in insertion order together with the id the
 * next INSERT receives, so ids are fresh and increase along the rows
 * (SQLite's autoincrement primary key). Every write takes `fail`, the
 * storage engine's verdict on that statement: a failed statement changes
 * nothing.
 */
module Database {
  import opened Wrappers
  import opened Seqs
  import opened Models

  /** A table: its rows in insertion order and the primary key of the next insert. */
  datatype Table<T> = Table(rows: seq<T>, nextId: nat)

  /** Primary keys increase along the rows and are all below the next id. */
  ghost predicate WellFormed<T>(t: Table<T>, key: T -> int) {
    && Increasing(t.rows, key)
    && (forall i :: 0 <= i < |t.rows| ==> key(t.rows[i]) < t.nextId)
  }

  /** `t` after an INSERT of `row`, which received `t.nextId`. */
  function Inserted<T>(t: Table<T>, row: T): (r: Table<T>)
    ensures |r.rows| == |t.rows| + 1 && r.rows[..|t.rows|] == t.rows && r.rows[|t.rows|] == row
    ensures r.nextId == t.nextId + 1
  {
    Table(t.rows + [row], t.nextId + 1)
  }

  lemma InsertedWellFormed<T>(t: Table<T>, key: T -> int, row: T)
    requires WellFormed(t, key) && key(row) == t.nextId
    ensures WellFormed(Inserted(t, row), key)
  {
  }

  /** The predicate of a `WHERE id = ?` clause. */
  function KeyIs<T>(key: T -> int, id: int): T -> bool {
    r => key(r) == id
  }

  /** The predicate that a `DELETE ... WHERE id = ?` spares. */
  function KeyIsNot<T>(key: T -> int, id: int): T -> bool {
    r => key(r) != id
  }

  /** `SELECT ... WHERE id = ? LIMIT 1`: the row with primary key `id`, if any. */
  function FindByKey<T>(rows: seq<T>, key: T -> int, id: int): (r: Option<T>)
    ensures r.Some? ==> r.value in rows && key(r.value) == id
    ensures r.None? <==> forall i :: 0 <= i < |rows| ==> key(rows[i]) != id
  {
    FindFirst(rows, KeyIs(key, id))
  }

  /** With increasing keys, the row at index `i` is the one found under its own key. */
  lemma FindByKeyAt<T>(rows: seq<T>, key: T -> int, i: int)
    requires Increasing(rows, key) && 0 <= i < |rows|
    ensures FindByKey(rows, key, key(rows[i])) == Some(rows[i])
  {
    FindFirstAt(rows, KeyIs(key, key(rows[i])), i);
  }

  /** With increasing keys, a row is the one found under its own key. */
  lemma FindByKeyUnique<T>(rows: seq<T>, key: T -> int, x: T)
    requires Increasing(rows, key) && x in rows
    ensures FindByKey(rows, key, key(x)) == Some(x)
  {
    var i :| 0 <= i < |rows| && rows[i] == x;
    FindByKeyAt(rows, key, i);
  }

  /** After an INSERT the new row is found under its fresh key, and every other lookup is unchanged. */
  lemma FindAfterInsert<T>(t: Table<T>, key: T -> int, row: T, id: int)
    requires WellFormed(t, key) && key(row) == t.nextId
    ensures FindByKey(Inserted(t, row).rows, key, id) ==
      if id == key(row) then Some(row) else FindByKey(t.rows, key, id)
  {
    var rows' := Inserted(t, row).rows;
    InsertedWellFormed(t, key, row);
    assert rows'[|t.rows|] == row;
    if id == key(row) {
      FindByKeyUnique(rows', key, row);
    } else {
      match FindByKey(t.rows, key, id)
      case None =>
      case Some(x) =>
        FindByKeyUnique(t.rows, key, x);
        FindByKeyUnique(rows', key, x);
    }
  }

  /** The rows after an UPDATE that overwrites the row whose key is `key(row)` with `row`. */
  function Replaced<T>(rows: seq<T>, key: T -> int, row: T): (r: seq<T>)
    ensures |r| == |rows|
    ensures forall i :: 0 <= i < |rows| ==>
      r[i] == if key(rows[i]) == key(row) then row else rows[i]
  {
    seq(|rows|, i requires 0 <= i < |rows| => if key(rows[i]) == key(row) then row else rows[i])
  }

  lemma ReplacedWellFormed<T>(t: Table<T>, key: T -> int, row: T)
    requires WellFormed(t, key)
    ensures WellFormed(Table(Replaced(t.rows, key, row), t.nextId), key)
  {
    var r := Replaced(t.rows, key, row);
    assert forall i :: 0 <= i < |r| ==> key(r[i]) == key(t.rows[i]);
  }

  /** After an UPDATE of one row that exists, that row reads back as written and every other lookup is unchanged. */
  lemma FindAfterReplace<T>(rows: seq<T>, key: T -> int, row: T, id: int)
    requires Increasing(rows, key)
    requires FindByKey(rows, key, key(row)).Some?
    ensures FindByKey(Replaced(rows, key, row), key, id) ==
      if id == key(row) then Some(row) else FindByKey(rows, key, id)
  {
    var r := Replaced(rows, key, row);
    assert forall i :: 0 <= i < |r| ==> key(r[i]) == key(rows[i]);
    assert Increasing(r, key);
    if id == key(row) {
      var i :| 0 <= i < |rows| && rows[i] == FindByKey(rows, key, key(row)).value;
      assert r[i] == row;
      FindByKeyAt(r, key, i);
    } else {
      match FindByKey(rows, key, id)
      case None =>
      case Some(x) =>
        var i :| 0 <= i < |rows| && rows[i] == x;
        assert r[i] == x;
        FindByKeyAt(r, key, i);
        FindByKeyAt(rows, key, i);
    }
  }

  /** Overwriting a row with itself changes nothing. */
  lemma ReplacedByItself<T>(rows: seq<T>, key: T -> int, row: T)
    requires Increasing(rows, key) && row in rows
    ensures Replaced(rows, key, row) == rows
  {
    var r := Replaced(rows, key, row);
    forall i | 0 <= i < |rows| ensures r[i] == rows[i] {
      if key(rows[i]) == key(row) {
        var j :| 0 <= j < |rows| && rows[j] == row;
        assert i == j;
      }
    }
  }

  /** `t` after `DELETE ... WHERE id = ?`. */
  function Removed<T>(t: Table<T>, key: T -> int, id: int): (r: Table<T>)
    ensures r.nextId == t.nextId && |r.rows| <= |t.rows|
    ensures forall k :: 0 <= k < |r.rows| ==> r.rows[k] in t.rows && key(r.rows[k]) != id
    ensures forall i :: 0 <= i < |t.rows| && key(t.rows[i]) != id ==> t.rows[i] in r.rows
  {
    Table(Filter(t.rows, KeyIsNot(key, id)), t.nextId)
  }

  lemma RemovedWellFormed<T>(t: Table<T>, key: T -> int, id: int)
    requires WellFormed(t, key)
    ensures WellFormed(Removed(t, key, id), key)
  {
    var f := Filter(t.rows, KeyIsNot(key, id));
    FilterIncreasing(t.rows, KeyIsNot(key, id), key);
    forall k | 0 <= k < |f| ensures key(f[k]) < t.nextId {
      var i :| 0 <= i < |t.rows| && t.rows[i] == f[k];
    }
  }

  /** After a DELETE the id finds nothing, and every other lookup is unchanged. */
  lemma FindAfterRemove<T>(t: Table<T>, key: T -> int, id: int, id': int)
    requires WellFormed(t, key)
    ensures FindByKey(Removed(t, key, id).rows, key, id') ==
      if id' == id then None else FindByKey(t.rows, key, id')
  {
    var f := Removed(t, key, id).rows;
    FilterIncreasing(t.rows, KeyIsNot(key, id), key);
    if id' != id {
      match FindByKey(t.rows, key, id')
      case None =>
        forall k | 0 <= k < |f| ensures key(f[k]) != id' {
          var i :| 0 <= i < |t.rows| && t.rows[i] == f[k];
        }
      case Some(x) =>
        assert x in f;
        FindByKeyUnique(t.rows, key, x);
        FindByKeyUnique(f, key, x);
    }
  }

  /** The model rows after `UPDATE ... SET enabled = ?, updated_at = ? WHERE id = ?`. */
  function EnabledSet(rows: seq<CloudLLMModel>, id: int, enabled: bool, now: Time): (r: seq<CloudLLMModel>)
    ensures |r| == |rows|
    ensures forall i :: 0 <= i < |rows| ==>
      r[i] == if rows[i].id == id then rows[i].(enabled := enabled, updatedAt := now) else rows[i]
  {
    seq(|rows|, i requires 0 <= i < |rows| =>
      if rows[i].id == id then rows[i].(enabled := enabled, updatedAt := now) else rows[i])
  }

  /** After toggling, the row with that id reads back with the new flag and timestamp; other lookups are unchanged. */
  lemma FindAfterEnabledSet(rows: seq<CloudLLMModel>, id: int, enabled: bool, now: Time, id': int)
    requires Increasing(rows, ModelId)
    ensures FindByKey(EnabledSet(rows, id, enabled, now), ModelId, id') ==
      match FindByKey(rows, ModelId, id')
      case None => None
      case Some(m) => Some(if id' == id then m.(enabled := enabled, updatedAt := now) else m)
  {
    var r := EnabledSet(rows, id, enabled, now);
    assert forall i :: 0 <= i < |r| ==> r[i].id == rows[i].id;
    assert Increasing(r, ModelId);
    match FindByKey(rows, ModelId, id')
    case None =>
    case Some(m) =>
      var i :| 0 <= i < |rows| && rows[i] == m;
      FindByKeyAt(r, ModelId, i);
      FindByKeyAt(rows, ModelId, i);
  }

  /** GORM's `Offset(n)`: a non-positive offset adds no OFFSET clause. */
  function GormOffset(offset: int64): (r: nat)
    ensures offset > 0 ==> r == offset
    ensures offset <= 0 ==> r == 0
  {
    if offset > 0 then offset else 0
  }

  /** The first row of page `page` (counted from 1) of `size` rows, in unbounded arithmetic. */
  function PageStart(page: int, size: int): int {
    (page - 1) * size
  }

  lemma PageStartNonNegative(page: int, size: int)
    requires page >= 1 && size >= 1
    ensures PageStart(page, size) >= 0
  {
    assert (page - 1) * size >= 0 * size;
  }

  /** The OFFSET GORM sends for page `page` of `size` rows: the 64-bit product, dropped when not positive. */
  function PageOffset(page: int64, size: int64): (r: nat)
    requires page >= 1 && size >= 1
    ensures PageStart(page, size) <= INT64_MAX ==> r == PageStart(page, size)
  {
    PageStartNonNegative(page, size);
    GormOffset(Wrap64(PageStart(page, size)))
  }

  /**
   * A query with OFFSET and LIMIT for page `page` of `size` rows: at most `size` rows, the
   * ones from the OFFSET on (which is `PageStart(page, size)` unless the
   * 64-bit product overflows).
   */
  function Page<T>(rows: seq<T>, page: int64, size: int64): (r: seq<T>)
    requires page >= 1 && size >= 1
    ensures |r| <= size
    ensures |r| == if PageOffset(page, size) >= |rows| then 0 else Min(size, |rows| - PageOffset(page, size))
    ensures forall k :: 0 <= k < |r| ==> r[k] == rows[PageOffset(page, size) + k]
  {
    Window(rows, PageOffset(page, size), size)
  }

  /** Item `k` of a page that does not overflow is row `PageStart(page, size) + k`. */
  lemma PageAt<T>(rows: seq<T>, page: int64, size: int64, k: int)
    requires page >= 1 && size >= 1 && 0 <= k < size
    requires PageStart(page, size) <= INT64_MAX && PageStart(page, size) + k < |rows|
    ensures k < |Page(rows, page, size)|
    ensures Page(rows, page, size)[k] == rows[PageStart(page, size) + k]
  {
  }

  lemma {:induction false} MulAtLeast(q: nat, size: int)
    requires size >= 1
    ensures q * size >= q
  {
    if q > 0 {
      MulAtLeast(q - 1, size);
      assert q * size == (q - 1) * size + size;
    }
  }

  /** Row `i` sits at position `i % size` of page `i / size + 1`, and that page does not overflow. */
  lemma RowPosition(size: int64, i: int)
    requires size >= 1 && 0 <= i < INT64_MAX
    ensures i / size + 1 <= INT64_MAX
    ensures PageStart(i / size + 1, size) + i % size == i
    ensures PageStart(i / size + 1, size) <= INT64_MAX
  {
    var q := i / size;
    var m := i % size;
    assert i == q * size + m && 0 <= m;
    assert q >= 0;
    MulAtLeast(q, size);
    assert PageStart(q + 1, size) == q * size;
  }

  /** No two settings share a key (the unique index on `key`). */
  ghost predicate UniqueKeys(rows: seq<Setting>) {
    forall i, j :: 0 <= i < j < |rows| ==> rows[i].key != rows[j].key
  }

  /** GORM fills a zero timestamp with the current time on INSERT. */
  function StampIfZero(t: Time, now: Time): Time {
    if t == 0 then now else t
  }

  class Db {
    var models: Table<CloudLLMModel>
    var conversations: Table<Conversation>
    var messages: Table<Message>
    var settings: Table<Setting>

    ghost predicate Valid()
      reads this
    {
      && WellFormed(models, ModelId)
      && WellFormed(conversations, ConversationId)
      && WellFormed(messages, MessageId)
      && WellFormed(settings, SettingId)
      && UniqueKeys(settings.rows)
    }

    /** An empty database whose autoincrement counters start at 1. */
    constructor ()
      ensures Valid()
      ensures models.rows == [] && conversations.rows == [] && messages.rows == [] && settings.rows == []
      ensures models.nextId == 1 && conversations.nextId == 1 && messages.nextId == 1 && settings.nextId == 1
    {
      models := Table([], 1);
      conversations := Table([], 1);
      messages := Table([], 1);
      settings := Table([], 1);
    }

    /** `INSERT` of a cloud model; the row receives the next id and zero timestamps are filled. */
    method CreateModel(m: CloudLLMModel, now: Time, fail: bool) returns (r: Result<CloudLLMModel, Error>)
      requires Valid()
      modifies this
      ensures Valid()
      ensures conversations == old(conversations) && messages == old(messages) && settings == old(settings)
      ensures fail ==> r == Failure(WriteFailed) && models == old(models)
      ensures !fail ==> && r.Success?
                        && r.value == m.(id := old(models.nextId),
                                         createdAt := StampIfZero(m.createdAt, now),
                                         updatedAt := StampIfZero(m.updatedAt, now))
                        && models == Inserted(old(models), r.value)
    {
      if fail {
        return Failure(WriteFailed);
      }
      var row := m.(id := models.nextId,
                    createdAt := StampIfZero(m.createdAt, now),
                    updatedAt := StampIfZero(m.updatedAt, now));
      InsertedWellFormed(models, ModelId, row);
      models := Inserted(models, row);
      r := Success(row);
    }

    /** `Save` of an existing cloud model: every column is overwritten and UpdatedAt is refreshed. */
    method SaveModel(m: CloudLLMModel, now: Time, fail: bool) returns (err: Option<Error>)
      requires Valid()
      requires FindByKey(models.rows, ModelId, m.id).Some?
      modifies this
      ensures Valid()
      ensures conversations == old(conversations) && messages == old(messages) && settings == old(settings)
      ensures fail ==> err == Some(WriteFailed) && models == old(models)
      ensures !fail ==> && err == None
                        && models == Table(Replaced(old(models.rows), ModelId, m.(updatedAt := now)), old(models.nextId))
    {
      if fail {
        return Some(WriteFailed);
      }
      ReplacedWellFormed(models, ModelId, m.(updatedAt := now));
      models := Table(Replaced(models.rows, ModelId, m.(updatedAt := now)), models.nextId);
      err := None;
    }

    /** `DELETE FROM cloud_llm_models WHERE id = ?` (a hard delete: the base model has no DeletedAt). */
    method DeleteModel(id: nat, fail: bool) returns (err: Option<Error>)
      requires Valid()
      modifies this
      ensures Valid()
      ensures conversations == old(conversations) && messages == old(messages) && settings == old(settings)
      ensures fail ==> err == Some(WriteFailed) && models == old(models)
      ensures !fail ==> err == None && models == Removed(old(models), ModelId, id)
    {
      if fail {
        return Some(WriteFailed);
      }
      RemovedWellFormed(models, ModelId, id);
      models := Removed(models, ModelId, id);
      err := None;
    }

    /** `UPDATE cloud_llm_models SET enabled = ? WHERE id = ?`; GORM refreshes UpdatedAt as well. */
    method UpdateModelEnabled(id: nat, enabled: bool, now: Time, fail: bool) returns (err: Option<Error>)
      requires Valid()
      modifies this
      ensures Valid()
      ensures conversations == old(conversations) && messages == old(messages) && settings == old(settings)
      ensures fail ==> err == Some(WriteFailed) && models == old(models)
      ensures !fail ==> err == None && models == Table(EnabledSet(old(models.rows), id, enabled, now), old(models.nextId))
    {
      if fail {
        return Some(WriteFailed);
      }
      var rows := EnabledSet(models.rows, id, enabled, now);
      assert forall i :: 0 <= i < |rows| ==> rows[i].id == models.rows[i].id;
      models := Table(rows, models.nextId);
      err := None;
    }

    /** `INSERT` of an empty conversation. */
    method CreateConversation(now: Time, fail: bool) returns (r: Result<Conversation, Error>)
      requires Valid()
      modifies this
      ensures Valid()
      ensures models == old(models) && messages == old(messages) && settings == old(settings)
      ensures fail ==> r == Failure(WriteFailed) && conversations == old(conversations)
      ensures !fail ==> && r == Success(Conversation(old(conversations.nextId), now, now, ""))
                        && conversations == Inserted(old(conversations), r.value)
    {
      if fail {
        return Failure(WriteFailed);
      }
      var row := Conversation(conversations.nextId, now, now, "");
      InsertedWellFormed(conversations, ConversationId, row);
      conversations := Inserted(conversations, row);
      r := Success(row);
    }

    /** `INSERT` of one message. */
    method CreateMessage(conversationId: nat, role: string, content: string, now: Time, fail: bool)
      returns (r: Result<Message, Error>)
      requires Valid()
      modifies this
      ensures Valid()
      ensures models == old(models) && conversations == old(conversations) && settings == old(settings)
      ensures fail ==> r == Failure(WriteFailed) && messages == old(messages)
      ensures !fail ==> && r == Success(Message(old(messages.nextId), now, now, conversationId, role, content))
                        && messages == Inserted(old(messages), r.value)
    {
      if fail {
        return Failure(WriteFailed);
      }
      var row := Message(messages.nextId, now, now, conversationId, role, content);
      InsertedWellFormed(messages, MessageId, row);
      messages := Inserted(messages, row);
      r := Success(row);
    }

    /** `INSERT` of a setting; the unique index on `key` rejects a key that is already stored. */
    method CreateSetting(key: string, value: string, now: Time, fail: bool) returns (r: Result<Setting, Error>)
      requires Valid()
      modifies this
      ensures Valid()
      ensures models == old(models) && conversations == old(conversations) && messages == old(messages)
      ensures (fail || exists i :: 0 <= i < |old(settings.rows)| && old(settings.rows)[i].key == key) ==>
                r == Failure(WriteFailed) && settings == old(settings)
      ensures (!fail && forall i :: 0 <= i < |old(settings.rows)| ==> old(settings.rows)[i].key != key) ==> r.Success?
      ensures r.Success? ==> && r.value == Setting(old(settings.nextId), now, now, key, value)
                             && settings == Inserted(old(settings), r.value)
    {
      if fail || exists i :: 0 <= i < |settings.rows| && settings.rows[i].key == key {
        return Failure(WriteFailed);
      }
      var row := Setting(settings.nextId, now, now, key, value);
      InsertedWellFormed(settings, SettingId, row);
      settings := Inserted(settings, row);
      r := Success(row);
    }

    /** `Save` of an existing setting under its own key: every column is overwritten and UpdatedAt is refreshed. */
    method SaveSetting(s: Setting, now: Time, fail: bool) returns (err: Option<Error>)
      requires Valid()
      requires exists i :: 0 <= i < |settings.rows| && settings.rows[i].id == s.id && settings.rows[i].key == s.key
      modifies this
      ensures Valid()
      ensures models == old(models) && conversations == old(conversations) && messages == old(messages)
      ensures fail ==> err == Some(WriteFailed) && settings == old(settings)
      ensures !fail ==> && err == None
                        && settings == Table(Replaced(old(settings.rows), SettingId, s.(updatedAt := now)), old(settings.nextId))
    {
      if fail {
        return Some(WriteFailed);
      }
      var row := s.(updatedAt := now);
      ReplacedWellFormed(settings, SettingId, row);
      var rows := Replaced(settings.rows, SettingId, row);
      forall i, j | 0 <= i < j < |rows| ensures rows[i].key != rows[j].key {
        var k :| 0 <= k < |settings.rows| && settings.rows[k].id == s.id && settings.rows[k].key == s.key;
        assert rows[i].key == settings.rows[i].key;
        assert rows[j].key == settings.rows[j].key;
      }
      settings := Table(rows, settings.nextId);
      err := None;
    }
  }
}
