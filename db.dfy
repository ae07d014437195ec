/** An in-memory stand-in for one SQLite table behind a Django model: rows by
    primary key, and the AUTOINCREMENT counter that hands out new keys. */
module Db {
  import opened Base

  class Table<T> {
    var rows: map<nat, T>
    /** The key the next INSERT without an explicit key receives. */
    var nextPk: nat

    ghost predicate Valid()
      reads this
    {
      1 <= nextPk && forall k :: k in rows ==> k < nextPk
    }

    constructor ()
      ensures Valid() && rows == map[] && nextPk == 1
    {
      rows := map[];
      nextPk := 1;
    }

    /** INSERT without a key: the row gets a key never used before. */
    method Insert(v: T) returns (pk: nat)
      requires Valid()
      modifies this
      ensures Valid()
      ensures pk == old(nextPk) && pk !in old(rows)
      ensures rows == old(rows)[pk := v] && nextPk == pk + 1
    {
      pk := nextPk;
      rows := rows[pk := v];
      nextPk := nextPk + 1;
    }

    /** Saving under an explicit key: UPDATE the row, or INSERT it with that key. */
    method Put(pk: nat, v: T)
      requires Valid()
      modifies this
      ensures Valid()
      ensures rows == old(rows)[pk := v] && nextPk == Max(old(nextPk), pk + 1)
    {
      rows := rows[pk := v];
      nextPk := Max(nextPk, pk + 1);
    }
  }
}
