/** The content-managed settings pages of `store/models.py` (HeroSection,
    AboutSection, ReturnsPageSettings, ContactPageSettings). All four override
    `save` the same way: a new row takes over the key of the first existing
    row, so saving overwrites that row instead of adding one. The record's
    fields are kept abstract as `T`. */
module SiteContent {
  import opened Base
  import opened Db

  /** The smallest key: `Model.objects.first()` on a model without ordering. */
  ghost function MinKey(keys: set<nat>): (m: nat)
    requires keys != {}
    ensures m in keys && forall k :: k in keys ==> m <= k
  {
    var x :| x in keys;
    if keys == {x} then x
    else
      var rest := MinKey(keys - {x});
      assert forall k :: k in keys ==> k == x || k in keys - {x};
      if rest < x then rest else x
  }

  /** Finds the first row's key by scanning the keys. */
  method FirstKey(keys: set<nat>) returns (m: nat)
    requires keys != {}
    ensures m == MinKey(keys)
  {
    m :| m in keys;
    var todo := keys - {m};
    while todo != {}
      invariant todo <= keys && m in keys
      invariant forall k :: k in keys && k !in todo ==> m <= k
      decreases todo
    {
      var k :| k in todo;
      if k < m {
        m := k;
      }
      todo := todo - {k};
    }
    assert forall k :: k in keys ==> m <= k;
  }

  /** The state of a table after one singleton save, and the key the record ends with. */
  datatype Saved<T> = Saved(rows: map<nat, T>, nextPk: nat, pk: nat)

  ghost function SingletonSave<T>(rows: map<nat, T>, nextPk: nat, pk: Option<nat>, v: T): Saved<T>
  {
    var target := if !HasPk(pk) && rows != map[] then Some(MinKey(rows.Keys)) else pk;
    if target.Some? then Saved(rows[target.value := v], Max(nextPk, target.value + 1), target.value)
    else Saved(rows[nextPk := v], nextPk + 1, nextPk)
  }

  /** A record that has no key yet overwrites the first row when there is one;
      into an empty table it is inserted under a fresh key. */
  lemma NewRecordOverwritesFirstRow<T>(rows: map<nat, T>, nextPk: nat, v: T)
    requires forall k :: k in rows ==> k < nextPk
    ensures rows != map[] ==>
      SingletonSave(rows, nextPk, None, v) == Saved(rows[MinKey(rows.Keys) := v], nextPk, MinKey(rows.Keys))
    ensures rows == map[] ==>
      SingletonSave(rows, nextPk, None, v) == Saved(map[nextPk := v], nextPk + 1, nextPk)
  {
    if rows != map[] {
      var m := MinKey(rows.Keys);
      assert m < nextPk;
      assert Max(nextPk, m + 1) == nextPk;
    }
  }

  /** From a table with at most one row, saving a new record or the existing
      one leaves at most one row. */
  lemma SingletonSaveKeepsOneRow<T>(rows: map<nat, T>, nextPk: nat, pk: Option<nat>, v: T)
    requires |rows| <= 1
    requires !HasPk(pk) || pk.value in rows
    ensures |SingletonSave(rows, nextPk, pk, v).rows| <= 1
    ensures rows != map[] ==> SingletonSave(rows, nextPk, pk, v).rows.Keys == rows.Keys
  {
    var target := if !HasPk(pk) && rows != map[] then Some(MinKey(rows.Keys)) else pk;
    if target.Some? {
      if rows == map[] {
        assert rows[target.value := v].Keys == {target.value};
      } else {
        assert target.value in rows;
        assert rows[target.value := v].Keys == rows.Keys;
      }
    } else {
      assert rows == map[];
      assert rows[nextPk := v].Keys == {nextPk};
    }
  }

  /** The guarantee is only for new records: a record carrying a key that is
      not in the table is written beside the existing rows, so the table grows. */
  lemma ForeignKeyAddsRow<T>(rows: map<nat, T>, nextPk: nat, k: nat, w: T)
    requires k != 0 && k !in rows
    ensures SingletonSave(rows, nextPk, Some(k), w).rows == rows[k := w]
    ensures |SingletonSave(rows, nextPk, Some(k), w).rows| == |rows| + 1
  {
    var r := rows[k := w];
    assert r.Keys == rows.Keys + {k};
    assert |r.Keys| == |rows.Keys| + 1;
  }

  /** One instance of a settings model. */
  class SettingsRecord<T> {
    var pk: Option<nat>
    var content: T

    constructor (content: T)
      ensures pk == None && this.content == content
    {
      pk := None;
      this.content := content;
    }

    /** The overridden `save`, followed by Django's own save. */
    method Save(table: Table<T>)
      requires table.Valid()
      modifies this, table
      ensures table.Valid() && content == old(content)
      ensures var s := SingletonSave(old(table.rows), old(table.nextPk), old(pk), content);
        table.rows == s.rows && table.nextPk == s.nextPk && pk == Some(s.pk)
    {
      if !HasPk(pk) && table.rows != map[] {
        var first := FirstKey(table.rows.Keys);
        pk := Some(first);
      }
      if pk.Some? {
        table.Put(pk.value, content);
      } else {
        var key := table.Insert(content);
        pk := Some(key);
      }
    }
  }
}
