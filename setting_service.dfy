/**
 * The settings service: a key/value store over the settings table, whose
 * unique index on `key` makes each key name at most one row.
 */
module SettingService {
  import opened Wrappers
  import opened Seqs
  import opened Models
  import opened Database

  function HasKey(key: string): Setting -> bool {
    (s: Setting) => s.key == key
  }

  /** Lookup by key: the first setting stored under `key`. */
  function FindSetting(rows: seq<Setting>, key: string): (r: Option<Setting>)
    ensures r.Some? ==> r.value in rows && r.value.key == key
    ensures r.None? <==> forall i :: 0 <= i < |rows| ==> rows[i].key != key
  {
    FindFirst(rows, HasKey(key))
  }

  /** Under the unique index, the setting at index `i` is the one found under its key. */
  lemma FindSettingAt(rows: seq<Setting>, i: int)
    requires UniqueKeys(rows) && 0 <= i < |rows|
    ensures FindSetting(rows, rows[i].key) == Some(rows[i])
  {
    FindFirstAt(rows, HasKey(rows[i].key), i);
  }

  /** GetSetting: the value stored under `key`, or RecordNotFound. */
  function GetSetting(rows: seq<Setting>, key: string): (r: Result<string, Error>)
    ensures r.Success? <==> exists i :: 0 <= i < |rows| && rows[i].key == key
    ensures r.Success? ==> exists i :: 0 <= i < |rows| && rows[i].key == key && rows[i].value == r.value
    ensures r.Failure? ==> r.error == RecordNotFound
  {
    match FindSetting(rows, key)
    case None => Failure(RecordNotFound)
    case Some(s) =>
      var i :| 0 <= i < |rows| && rows[i] == s;
      Success(s.value)
  }

  /** Under the unique index, GetSetting returns the value of the one row with that key. */
  lemma GetSettingUnique(rows: seq<Setting>, i: int)
    requires UniqueKeys(rows) && 0 <= i < |rows|
    ensures GetSetting(rows, rows[i].key) == Success(rows[i].value)
  {
    FindSettingAt(rows, i);
  }

  /**
   * The settings table after SetSetting succeeds: an existing row under
   * `key` gets the new value (and a fresh UpdatedAt); otherwise a new row
   * is inserted under the next id.
   */
  function Upsert(t: Table<Setting>, key: string, value: string, now: Time): (r: Table<Setting>)
    ensures |r.rows| == |t.rows| + (if GetSetting(t.rows, key).Success? then 0 else 1)
    ensures exists i :: 0 <= i < |r.rows| && r.rows[i].key == key && r.rows[i].value == value
  {
    match FindSetting(t.rows, key)
    case Some(s) =>
      var row := s.(value := value, updatedAt := now);
      var i :| 0 <= i < |t.rows| && t.rows[i] == s;
      assert Replaced(t.rows, SettingId, row)[i] == row;
      Table(Replaced(t.rows, SettingId, row), t.nextId)
    case None =>
      var r := Inserted(t, Setting(t.nextId, now, now, key, value));
      assert r.rows[|t.rows|].key == key;
      r
  }

  /** An update of `s` in place keeps every key where it was. */
  lemma ReplacedKeys(t: Table<Setting>, s: Setting, row: Setting)
    requires WellFormed(t, SettingId) && s in t.rows && row.id == s.id && row.key == s.key
    ensures forall i :: 0 <= i < |t.rows| ==> Replaced(t.rows, SettingId, row)[i].key == t.rows[i].key
  {
  }

  /** SetSetting keeps the table well formed and the keys unique. */
  lemma UpsertValid(t: Table<Setting>, key: string, value: string, now: Time)
    requires WellFormed(t, SettingId) && UniqueKeys(t.rows)
    ensures WellFormed(Upsert(t, key, value, now), SettingId)
    ensures UniqueKeys(Upsert(t, key, value, now).rows)
  {
    match FindSetting(t.rows, key)
    case Some(s) =>
      var row := s.(value := value, updatedAt := now);
      ReplacedWellFormed(t, SettingId, row);
      ReplacedKeys(t, s, row);
    case None =>
      InsertedWellFormed(t, SettingId, Setting(t.nextId, now, now, key, value));
  }

  /** The row SetSetting leaves under `key`: the old row with the new value, or a fresh row. */
  function StoredRow(t: Table<Setting>, key: string, value: string, now: Time): Setting {
    match FindSetting(t.rows, key)
    case Some(s) => s.(value := value, updatedAt := now)
    case None => Setting(t.nextId, now, now, key, value)
  }

  /** After SetSetting(key, value) the lookup of `key` finds the stored row. */
  lemma FindAfterSet(t: Table<Setting>, key: string, value: string, now: Time)
    requires WellFormed(t, SettingId) && UniqueKeys(t.rows)
    ensures FindSetting(Upsert(t, key, value, now).rows, key) == Some(StoredRow(t, key, value, now))
  {
    var rows' := Upsert(t, key, value, now).rows;
    UpsertValid(t, key, value, now);
    match FindSetting(t.rows, key)
    case Some(s) =>
      var i :| 0 <= i < |t.rows| && t.rows[i] == s;
      var row := s.(value := value, updatedAt := now);
      ReplacedKeys(t, s, row);
      assert rows'[i] == row;
      FindSettingAt(rows', i);
    case None =>
      assert rows'[|t.rows|].key == key;
      FindSettingAt(rows', |t.rows|);
  }

  /** After SetSetting(key, value), GetSetting(key) returns value. */
  lemma GetAfterSet(t: Table<Setting>, key: string, value: string, now: Time)
    requires WellFormed(t, SettingId) && UniqueKeys(t.rows)
    ensures GetSetting(Upsert(t, key, value, now).rows, key) == Success(value)
  {
    FindAfterSet(t, key, value, now);
  }

  /** Two tables that agree on every row under `key` give the same lookup of `key`. */
  lemma {:induction false} FindSettingPointwise(rows: seq<Setting>, rows': seq<Setting>, key: string)
    requires |rows'| == |rows|
    requires forall i :: 0 <= i < |rows| ==> (rows'[i].key == key <==> rows[i].key == key)
    requires forall i :: 0 <= i < |rows| && rows[i].key == key ==> rows'[i] == rows[i]
    ensures FindSetting(rows', key) == FindSetting(rows, key)
  {
    if rows != [] && rows[0].key != key {
      FindSettingPointwise(rows[1..], rows'[1..], key);
    }
  }

  /** Appending a row under another key does not change a lookup. */
  lemma {:induction false} FindSettingAppend(rows: seq<Setting>, x: Setting, key: string)
    requires x.key != key
    ensures FindSetting(rows + [x], key) == FindSetting(rows, key)
  {
    if rows != [] && rows[0].key != key {
      assert (rows + [x])[1..] == rows[1..] + [x];
      FindSettingAppend(rows[1..], x, key);
    }
  }

  /** SetSetting(key, value) changes no other key's value. */
  lemma OtherKeysUnchanged(t: Table<Setting>, key: string, value: string, now: Time, key': string)
    requires WellFormed(t, SettingId) && UniqueKeys(t.rows) && key' != key
    ensures GetSetting(Upsert(t, key, value, now).rows, key') == GetSetting(t.rows, key')
  {
    match FindSetting(t.rows, key)
    case Some(s) =>
      var row := s.(value := value, updatedAt := now);
      ReplacedKeys(t, s, row);
      FindSettingPointwise(t.rows, Replaced(t.rows, SettingId, row), key');
    case None =>
      FindSettingAppend(t.rows, Setting(t.nextId, now, now, key, value), key');
  }

  /** Setting the same value twice at one instant is the same as setting it once. */
  lemma UpsertIdempotent(t: Table<Setting>, key: string, value: string, now: Time)
    requires WellFormed(t, SettingId) && UniqueKeys(t.rows)
    ensures Upsert(Upsert(t, key, value, now), key, value, now) == Upsert(t, key, value, now)
  {
    var t1 := Upsert(t, key, value, now);
    var s1 := StoredRow(t, key, value, now);
    UpsertValid(t, key, value, now);
    FindAfterSet(t, key, value, now);
    assert s1.(value := value, updatedAt := now) == s1;
    ReplacedByItself(t1.rows, SettingId, s1);
  }

  /**
   * SetSetting: look the key up; an existing row is saved with the new
   * value, otherwise a new row is created.
   */
  method SetSetting(db: Db, key: string, value: string, now: Time, fail: bool) returns (err: Option<Error>)
    requires db.Valid()
    modifies db
    ensures db.Valid()
    ensures db.models == old(db.models) && db.conversations == old(db.conversations)
    ensures db.messages == old(db.messages)
    ensures fail ==> err == Some(WriteFailed) && db.settings == old(db.settings)
    ensures !fail ==> err == None && db.settings == Upsert(old(db.settings), key, value, now)
  {
    var found := FindSetting(db.settings.rows, key);
    if found.Some? {
      var s := found.value;
      err := db.SaveSetting(s.(value := value), now, fail);
      assert s.(value := value).(updatedAt := now) == s.(value := value, updatedAt := now);
    } else {
      var r := db.CreateSetting(key, value, now, fail);
      err := if r.Failure? then Some(r.error) else None;
    }
  }
}
