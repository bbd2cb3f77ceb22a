/**
 * A SQLite table whose rows are keyed by a `UNIQUE NOT NULL` text column, as
 * used by both tables of the Flask backend (`admin_users.username`,
 * `site_content.section`). Rows are kept in insertion order; the autoincrement
 * `id` column is not observable through the queries the backend runs.
 */
module Table {
  import opened Wrappers

  datatype Row<V> = Row(key: string, value: V)

  /** The UNIQUE constraint on the key column. */
  predicate UniqueKeys<V>(rows: seq<Row<V>>) {
    forall i, j :: 0 <= i < j < |rows| ==> rows[i].key != rows[j].key
  }

  type Table<V> = rows: seq<Row<V>> | UniqueKeys(rows) witness []

  /** The keys present in the table. */
  function Keys<V>(rows: seq<Row<V>>): set<string> {
    set i | 0 <= i < |rows| :: rows[i].key
  }

  /** Position of the first row holding `key`, scanning from `from`. */
  function IndexFrom<V>(rows: seq<Row<V>>, key: string, from: nat): (r: Option<nat>)
    requires from <= |rows|
    ensures r.Some? ==> from <= r.value < |rows| && rows[r.value].key == key
    ensures r.Some? ==> forall i :: from <= i < r.value ==> rows[i].key != key
    ensures r.None? ==> forall i :: from <= i < |rows| ==> rows[i].key != key
    decreases |rows| - from
  {
    if from == |rows| then None
    else if rows[from].key == key then Some(from)
    else IndexFrom(rows, key, from + 1)
  }

  /** `SELECT ... WHERE key = ?` followed by `fetchone()`. */
  function IndexOf<V>(rows: seq<Row<V>>, key: string): (r: Option<nat>)
    ensures r.Some? ==> r.value < |rows| && rows[r.value].key == key
    ensures r.None? <==> key !in Keys(rows)
  {
    IndexFrom(rows, key, 0)
  }

  /** The value stored under `key`, or `None` when no row matches. */
  function Select<V>(rows: seq<Row<V>>, key: string): (r: Option<V>)
    requires UniqueKeys(rows)
    ensures r.None? <==> key !in Keys(rows)
    ensures forall i :: 0 <= i < |rows| && rows[i].key == key ==> r == Some(rows[i].value)
  {
    match IndexOf(rows, key)
    case Some(i) => Some(rows[i].value)
    case None => None
  }

  /** `INSERT ... ON CONFLICT(key) DO UPDATE SET value = excluded.value`:
      an existing row is rewritten in place, a new key is appended. */
  function Upsert<V>(t: Table<V>, key: string, value: V): (r: Table<V>)
    ensures Select(r, key) == Some(value)
    ensures forall k :: k != key ==> Select(r, k) == Select(t, k)
    ensures Keys(r) == Keys(t) + {key}
    ensures key in Keys(t) ==> |r| == |t|
    ensures key !in Keys(t) ==> |r| == |t| + 1
  {
    match IndexOf(t, key)
    case Some(i) =>
      var r := t[i := Row(key, value)];
      assert Keys(r) == Keys(t) by {
        assert forall j :: 0 <= j < |t| ==> r[j].key == t[j].key;
      }
      r
    case None =>
      var r := t + [Row(key, value)];
      assert Keys(r) == Keys(t) + {key} by {
        assert r[|t|].key == key;
        assert forall j :: 0 <= j < |t| ==> r[j] == t[j];
      }
      r
  }

  /** `INSERT OR IGNORE`: a key that already exists keeps its row untouched. */
  function InsertOrIgnore<V>(t: Table<V>, key: string, value: V): (r: Table<V>)
    ensures key in Keys(t) ==> r == t
    ensures key !in Keys(t) ==> Select(r, key) == Some(value)
    ensures forall k :: k != key ==> Select(r, k) == Select(t, k)
    ensures Keys(r) == Keys(t) + {key}
  {
    if key in Keys(t) then t else Upsert(t, key, value)
  }

  /** `UPDATE ... SET value = ? WHERE key = ?`, returning the new table and
      `cursor.rowcount`. */
  function Update<V>(t: Table<V>, key: string, value: V): (r: (Table<V>, nat))
    ensures r.1 == (if key in Keys(t) then 1 else 0)
    ensures key !in Keys(t) ==> r.0 == t
    ensures key in Keys(t) ==> Select(r.0, key) == Some(value)
    ensures forall k :: k != key ==> Select(r.0, k) == Select(t, k)
    ensures Keys(r.0) == Keys(t)
  {
    if key in Keys(t) then (Upsert(t, key, value), 1) else (t, 0)
  }

  /** `{row.key: row.value for row in rows}`: the whole table as a dictionary. */
  function ToMap<V>(rows: seq<Row<V>>): (m: map<string, V>)
    requires UniqueKeys(rows)
    ensures m.Keys == Keys(rows)
    ensures forall k :: k in m ==> Select(rows, k) == Some(m[k])
  {
    if |rows| == 0 then map[]
    else
      var init := rows[..|rows| - 1];
      var last := rows[|rows| - 1];
      KeysSnoc(rows);
      SelectInit(rows);
      ToMap(init)[last.key := last.value]
  }

  lemma KeysSnoc<V>(rows: seq<Row<V>>)
    requires rows != []
    ensures Keys(rows) == Keys(rows[..|rows| - 1]) + {rows[|rows| - 1].key}
  {
    var init := rows[..|rows| - 1];
    assert forall j :: 0 <= j < |init| ==> init[j] == rows[j];
  }

  /** Dropping the last row keeps every other key's value. */
  lemma SelectInit<V>(rows: seq<Row<V>>)
    requires rows != [] && UniqueKeys(rows)
    ensures forall k :: k in Keys(rows[..|rows| - 1]) ==> Select(rows[..|rows| - 1], k) == Select(rows, k)
  {
    var init := rows[..|rows| - 1];
    forall k | k in Keys(init)
      ensures Select(init, k) == Select(rows, k)
    {
      var j :| 0 <= j < |init| && init[j].key == k;
      assert rows[j] == init[j];
    }
  }

  /** Upserting changes the dictionary view by exactly one binding. */
  lemma ToMapUpsert<V>(t: Table<V>, key: string, value: V)
    ensures ToMap(Upsert(t, key, value)) == ToMap(t)[key := value]
  {
    var u := Upsert(t, key, value);
    var l := ToMap(u);
    var rr := ToMap(t)[key := value];
    assert l.Keys == rr.Keys by {
      assert l.Keys == Keys(t) + {key};
      assert ToMap(t).Keys == Keys(t);
    }
    forall k | k in l
      ensures l[k] == rr[k]
    {
      ToMapAt(u, k);
      if k != key {
        ToMapAt(t, k);
      }
    }
  }

  lemma ToMapAt<V>(t: Table<V>, k: string)
    requires k in Keys(t)
    ensures k in ToMap(t) && Select(t, k) == Some(ToMap(t)[k])
  {
  }

  /** Rewriting a key with the value it already holds leaves the table, rows and
      order included, exactly as it was. */
  lemma UpsertSameValue<V>(t: Table<V>, key: string, value: V)
    requires Select(t, key) == Some(value)
    ensures Upsert(t, key, value) == t
  {
    var i := IndexOf(t, key).value;
    assert t[i] == Row(key, value);
  }
}
