/** `get_constraints` of django_snowflake_cs (introspection.py:58-110): the
    constraints of a table from the rows of `SHOW IMPORTED KEYS`, `SHOW
    PRIMARY KEYS` and `SHOW UNIQUE KEYS`, with the columns of multi-column
    unique constraints put in key-sequence order. */
module CsConstraints {
  import opened Common
  import opened CsIntrospection

  /** The cells of a `SHOW PRIMARY KEYS` row that are read: `column_name`
      (cell 4) and `constraint_name` (cell 6). */
  datatype PrimaryKeyRow = PrimaryKeyRow(column: string, name: string)

  /** The cells of a `SHOW UNIQUE KEYS` row that are read: `column_name`
      (cell 4), `key_sequence` (cell 5) and `constraint_name` (cell 6). */
  datatype UniqueKeyRow = UniqueKeyRow(column: string, keySequence: int, name: string)

  /** One entry of the returned dictionary. */
  datatype Constraint = Constraint(
    columns: seq<string>, primaryKey: bool, unique: bool,
    foreignKey: Option<(string, string)>, check: bool, index: bool)

  /** A `(row[5], column_name)` pair of `unique_column_orders`. */
  type Order = (int, string)

  // ------------------------------------------------- sorting the orders

  /** Python's `<` on strings: lexicographic by code point. */
  predicate StrLt(a: string, b: string)
    decreases |a|
  {
    if a == [] then b != []
    else if b == [] then false
    else if a[0] != b[0] then a[0] < b[0]
    else StrLt(a[1..], b[1..])
  }

  lemma {:induction false} StrLtIrreflexive(a: string)
    ensures !StrLt(a, a)
    decreases |a|
  {
    if a != [] {
      StrLtIrreflexive(a[1..]);
    }
  }

  lemma {:induction false} StrLtTransitive(a: string, b: string, c: string)
    requires StrLt(a, b) && StrLt(b, c)
    ensures StrLt(a, c)
    decreases |a|
  {
    if a != [] && b != [] && c != [] && a[0] == b[0] && b[0] == c[0] {
      StrLtTransitive(a[1..], b[1..], c[1..]);
    }
  }

  lemma {:induction false} StrLtTotal(a: string, b: string)
    ensures a == b || StrLt(a, b) || StrLt(b, a)
    decreases |a|
  {
    if a != [] && b != [] && a[0] == b[0] {
      StrLtTotal(a[1..], b[1..]);
      if a[1..] == b[1..] {
        assert a == [a[0]] + a[1..] && b == [b[0]] + b[1..];
      }
    }
  }

  /** Python's `<=` on `(int, str)` tuples. */
  predicate OrderLe(x: Order, y: Order)
  {
    x.0 < y.0 || (x.0 == y.0 && !StrLt(y.1, x.1))
  }

  lemma OrderLeTotal(x: Order, y: Order)
    ensures OrderLe(x, y) || OrderLe(y, x)
  {
    if x.0 == y.0 && StrLt(y.1, x.1) && StrLt(x.1, y.1) {
      StrLtTransitive(x.1, y.1, x.1);
      StrLtIrreflexive(x.1);
    }
  }

  lemma OrderLeTransitive(x: Order, y: Order, z: Order)
    requires OrderLe(x, y) && OrderLe(y, z)
    ensures OrderLe(x, z)
  {
    if x.0 == y.0 && y.0 == z.0 && StrLt(z.1, x.1) {
      StrLtTotal(x.1, y.1);
      StrLtTotal(y.1, z.1);
      if x.1 != y.1 && y.1 != z.1 {
        StrLtTransitive(x.1, y.1, z.1);
        StrLtTransitive(z.1, x.1, z.1);
        StrLtIrreflexive(z.1);
      } else if x.1 == y.1 && y.1 != z.1 {
        StrLtTransitive(z.1, y.1, z.1);
        StrLtIrreflexive(z.1);
      } else if x.1 != y.1 {
        StrLtTransitive(x.1, y.1, x.1);
        StrLtIrreflexive(x.1);
      } else {
        StrLtIrreflexive(x.1);
      }
    }
  }

  predicate Sorted(s: seq<Order>)
  {
    forall i, j :: 0 <= i < j < |s| ==> OrderLe(s[i], s[j])
  }

  function Insert(x: Order, s: seq<Order>): seq<Order>
    decreases |s|
  {
    if s == [] then [x]
    else if OrderLe(x, s[0]) then [x] + s
    else [s[0]] + Insert(x, s[1..])
  }

  /** Python's `sorted` on a list of orders (an insertion sort). */
  function Sort(s: seq<Order>): seq<Order>
    decreases |s|
  {
    if s == [] then [] else Insert(s[0], Sort(s[1..]))
  }

  lemma {:induction false} InsertPermutation(x: Order, s: seq<Order>)
    ensures multiset(Insert(x, s)) == multiset(s) + multiset{x}
    decreases |s|
  {
    if s != [] && !OrderLe(x, s[0]) {
      InsertPermutation(x, s[1..]);
      assert s == [s[0]] + s[1..];
    }
  }

  lemma {:induction false} InsertSorted(x: Order, s: seq<Order>)
    requires Sorted(s)
    ensures Sorted(Insert(x, s))
    decreases |s|
  {
    if s != [] {
      if OrderLe(x, s[0]) {
        forall j | 0 < j < |s| ensures OrderLe(x, s[j]) {
          OrderLeTransitive(x, s[0], s[j]);
        }
      } else {
        OrderLeTotal(x, s[0]);
        InsertSorted(x, s[1..]);
        InsertPermutation(x, s[1..]);
        var r := Insert(x, s[1..]);
        forall j | 0 <= j < |r| ensures OrderLe(s[0], r[j]) {
          assert r[j] in multiset(r);
          if r[j] != x {
            assert r[j] in multiset(s[1..]);
            var k :| 0 <= k < |s[1..]| && s[1..][k] == r[j];
            assert s[k + 1] == r[j];
          }
        }
      }
    }
  }

  /** `sorted` returns its input in ascending order and loses nothing. */
  lemma {:induction false} SortSpec(s: seq<Order>)
    ensures Sorted(Sort(s))
    ensures multiset(Sort(s)) == multiset(s)
    decreases |s|
  {
    if s != [] {
      SortSpec(s[1..]);
      InsertSorted(s[0], Sort(s[1..]));
      InsertPermutation(s[0], Sort(s[1..]));
      assert s == [s[0]] + s[1..];
    }
  }

  /** `[col for _, col in orders]`. */
  function Columns(orders: seq<Order>): (r: seq<string>)
    ensures |r| == |orders|
    ensures forall i :: 0 <= i < |orders| ==> r[i] == orders[i].1
  {
    seq(|orders|, i requires 0 <= i < |orders| => orders[i].1)
  }

  // ---------------------------------------------------------- the entries

  function ForeignKeyEntry(r: ImportedKeyRow): Constraint
  {
    Constraint([IdentifierConverter(r.fkColumn)], false, false,
               Some((IdentifierConverter(r.pkTable), IdentifierConverter(r.pkColumn))), false, false)
  }

  function PrimaryKeyEntry(r: PrimaryKeyRow): Constraint
  {
    Constraint([IdentifierConverter(r.column)], true, false, None, false, false)
  }

  function UniqueEntry(column: string): Constraint
  {
    Constraint([column], false, true, None, false, false)
  }

  /** The foreign-key loop (introspection.py:63-71) from `m`. */
  function AddForeignKeys(m: map<string, Constraint>, rows: seq<ImportedKeyRow>): map<string, Constraint>
    decreases |rows|
  {
    if rows == [] then m
    else
      var r := rows[|rows| - 1];
      AddForeignKeys(m, rows[..|rows| - 1])[IdentifierConverter(r.fkName) := ForeignKeyEntry(r)]
  }

  /** The primary-key loop (introspection.py:74-82) from `m`. */
  function AddPrimaryKeys(m: map<string, Constraint>, rows: seq<PrimaryKeyRow>): map<string, Constraint>
    decreases |rows|
  {
    if rows == [] then m
    else
      var r := rows[|rows| - 1];
      AddPrimaryKeys(m, rows[..|rows| - 1])[IdentifierConverter(r.name) := PrimaryKeyEntry(r)]
  }

  /** The dictionary after the foreign and primary keys. */
  function KeyConstraints(fks: seq<ImportedKeyRow>, pks: seq<PrimaryKeyRow>): map<string, Constraint>
  {
    AddPrimaryKeys(AddForeignKeys(map[], fks), pks)
  }

  datatype UniqueState = UniqueState(constraints: map<string, Constraint>, orders: map<string, seq<Order>>)

  /** One row of the unique-key loop (introspection.py:90-106). A name that
      is already a foreign or primary key is in `constraints` but not in
      `orders`: its `unique_column_orders` lookup raises KeyError. */
  function UniqueStep(st: UniqueState, r: UniqueKeyRow): Result<UniqueState>
  {
    var column := IdentifierConverter(r.column);
    var name := IdentifierConverter(r.name);
    if name in st.constraints then
      if name in st.orders then
        var c := st.constraints[name];
        Ok(UniqueState(st.constraints[name := c.(columns := c.columns + [column])],
                       st.orders[name := st.orders[name] + [(r.keySequence, column)]]))
      else Err("KeyError: '" + name + "'")
    else
      Ok(UniqueState(st.constraints[name := UniqueEntry(column)], st.orders[name := [(r.keySequence, column)]]))
  }

  /** The unique-key loop from `st`. */
  function AddUniqueKeys(st: UniqueState, rows: seq<UniqueKeyRow>): Result<UniqueState>
    decreases |rows|
  {
    if rows == [] then Ok(st)
    else
      match AddUniqueKeys(st, rows[..|rows| - 1])
      case Err(m) => Err(m)
      case Ok(s) => UniqueStep(s, rows[|rows| - 1])
  }

  /** The ordering loop (introspection.py:108-109). */
  function SortUnique(m: map<string, Constraint>, orders: map<string, seq<Order>>): map<string, Constraint>
  {
    map name | name in m :: if name in orders then m[name].(columns := Columns(Sort(orders[name]))) else m[name]
  }

  /** The value `get_constraints` returns (or the KeyError it raises). */
  function Constraints(fks: seq<ImportedKeyRow>, pks: seq<PrimaryKeyRow>, uks: seq<UniqueKeyRow>)
    : Result<map<string, Constraint>>
  {
    match AddUniqueKeys(UniqueState(KeyConstraints(fks, pks), map[]), uks)
    case Err(m) => Err(m)
    case Ok(st) => Ok(SortUnique(st.constraints, st.orders))
  }

  // ---------------------------------------------------------- the method

  /** The foreign-key loop (introspection.py:63-71). */
  method AddForeignKeyRows(m: map<string, Constraint>, fks: seq<ImportedKeyRow>)
    returns (constraints: map<string, Constraint>)
    ensures constraints == AddForeignKeys(m, fks)
  {
    constraints := m;
    var i := 0;
    while i < |fks|
      invariant 0 <= i <= |fks|
      invariant constraints == AddForeignKeys(m, fks[..i])
    {
      assert fks[..i + 1][..i] == fks[..i];
      constraints := constraints[IdentifierConverter(fks[i].fkName) := ForeignKeyEntry(fks[i])];
      i := i + 1;
    }
    assert fks[..|fks|] == fks;
  }

  /** The primary-key loop (introspection.py:74-82). */
  method AddPrimaryKeyRows(m: map<string, Constraint>, pks: seq<PrimaryKeyRow>)
    returns (constraints: map<string, Constraint>)
    ensures constraints == AddPrimaryKeys(m, pks)
  {
    constraints := m;
    var i := 0;
    while i < |pks|
      invariant 0 <= i <= |pks|
      invariant constraints == AddPrimaryKeys(m, pks[..i])
    {
      assert pks[..i + 1][..i] == pks[..i];
      constraints := constraints[IdentifierConverter(pks[i].name) := PrimaryKeyEntry(pks[i])];
      i := i + 1;
    }
    assert pks[..|pks|] == pks;
  }

  /** The unique-key loop (introspection.py:85-106): the KeyError of a name
      that is a foreign or primary key leaves the function. */
  method AddUniqueKeyRows(m: map<string, Constraint>, uks: seq<UniqueKeyRow>)
    returns (result: Result<UniqueState>)
    ensures result == AddUniqueKeys(UniqueState(m, map[]), uks)
  {
    var constraints := m;
    var uniqueColumnOrders: map<string, seq<Order>> := map[];
    var i := 0;
    while i < |uks|
      invariant 0 <= i <= |uks|
      invariant AddUniqueKeys(UniqueState(m, map[]), uks[..i]) == Ok(UniqueState(constraints, uniqueColumnOrders))
    {
      UniqueKeysPrefix(UniqueState(m, map[]), uks, i);
      ghost var before := UniqueState(constraints, uniqueColumnOrders);
      var columnName := IdentifierConverter(uks[i].column);
      var constraintName := IdentifierConverter(uks[i].name);
      if constraintName in constraints {
        var c := constraints[constraintName];
        constraints := constraints[constraintName := c.(columns := c.columns + [columnName])];
        if constraintName !in uniqueColumnOrders {
          assert UniqueStep(before, uks[i]) == Err("KeyError: '" + constraintName + "'");
          UniqueKeysErrPersists(UniqueState(m, map[]), uks, i + 1);
          return Err("KeyError: '" + constraintName + "'");
        }
        uniqueColumnOrders := uniqueColumnOrders[constraintName := uniqueColumnOrders[constraintName] + [(uks[i].keySequence, columnName)]];
      } else {
        constraints := constraints[constraintName := UniqueEntry(columnName)];
        uniqueColumnOrders := uniqueColumnOrders[constraintName := [(uks[i].keySequence, columnName)]];
      }
      assert UniqueStep(before, uks[i]) == Ok(UniqueState(constraints, uniqueColumnOrders));
      i := i + 1;
    }
    assert uks[..|uks|] == uks;
    result := Ok(UniqueState(constraints, uniqueColumnOrders));
  }

  /** The ordering loop (introspection.py:108-109) over the names with
      orders, in whatever order the dictionary yields them. */
  method OrderUniqueColumns(m: map<string, Constraint>, uniqueColumnOrders: map<string, seq<Order>>)
    returns (constraints: map<string, Constraint>)
    requires uniqueColumnOrders.Keys <= m.Keys
    ensures constraints == SortUnique(m, uniqueColumnOrders)
  {
    constraints := m;
    var pending := uniqueColumnOrders.Keys;
    while pending != {}
      invariant pending <= uniqueColumnOrders.Keys
      invariant constraints.Keys == m.Keys
      invariant forall name :: name in m ==> (constraints[name] ==
        if name in uniqueColumnOrders && name !in pending
        then m[name].(columns := Columns(Sort(uniqueColumnOrders[name]))) else m[name])
      decreases |pending|
    {
      var constraintName :| constraintName in pending;
      var orders := uniqueColumnOrders[constraintName];
      constraints := constraints[constraintName := constraints[constraintName].(columns := Columns(Sort(orders)))];
      pending := pending - {constraintName};
    }
  }

  /** `get_constraints` (introspection.py:58-110) over the fetched rows, one
      method per loop. */
  method GetConstraints(fks: seq<ImportedKeyRow>, pks: seq<PrimaryKeyRow>, uks: seq<UniqueKeyRow>)
    returns (result: Result<map<string, Constraint>>)
    ensures result == Constraints(fks, pks, uks)
  {
    var constraints := AddForeignKeyRows(map[], fks);
    constraints := AddPrimaryKeyRows(constraints, pks);
    var unique := AddUniqueKeyRows(constraints, uks);
    if unique.Err? {
      return Err(unique.message);
    }
    UniqueOrdersWithin(UniqueState(constraints, map[]), uks);
    var sorted := OrderUniqueColumns(unique.value.constraints, unique.value.orders);
    result := Ok(sorted);
  }

  // ------------------------------------------------ what the fold promises

  /** The rows of `uks` for constraint `name`, as `(row[5], column)` pairs in
      row order. */
  function UniqueOrders(uks: seq<UniqueKeyRow>, name: string): seq<Order>
    decreases |uks|
  {
    if uks == [] then []
    else
      var r := uks[|uks| - 1];
      UniqueOrders(uks[..|uks| - 1], name) + (if IdentifierConverter(r.name) == name then [(r.keySequence, IdentifierConverter(r.column))] else [])
  }

  /** `uks` names `name` in some row. */
  ghost predicate NamesUnique(uks: seq<UniqueKeyRow>, name: string)
  {
    exists j :: 0 <= j < |uks| && IdentifierConverter(uks[j].name) == name
  }

  /** `rows` names, in some row, a constraint already in `base`. */
  ghost predicate Clashes(rows: seq<UniqueKeyRow>, base: map<string, Constraint>)
  {
    exists j :: 0 <= j < |rows| && IdentifierConverter(rows[j].name) in base
  }

  lemma UniqueKeysPrefix(st: UniqueState, rows: seq<UniqueKeyRow>, i: nat)
    requires i < |rows|
    ensures AddUniqueKeys(st, rows[..i]).Ok? ==>
      AddUniqueKeys(st, rows[..i + 1]) == UniqueStep(AddUniqueKeys(st, rows[..i]).value, rows[i])
  {
    assert rows[..i + 1][..i] == rows[..i];
  }

  /** A KeyError ends the loop: the rows after it change nothing. */
  lemma {:induction false} UniqueKeysErrPersists(st: UniqueState, rows: seq<UniqueKeyRow>, i: nat)
    requires i <= |rows| && AddUniqueKeys(st, rows[..i]).Err?
    ensures AddUniqueKeys(st, rows) == AddUniqueKeys(st, rows[..i])
    decreases |rows|
  {
    if i < |rows| {
      var init := rows[..|rows| - 1];
      assert init[..i] == rows[..i];
      UniqueKeysErrPersists(st, init, i);
    } else {
      assert rows[..i] == rows;
    }
  }

  /** Every name with orders has an entry. */
  lemma {:induction false} UniqueOrdersWithin(st: UniqueState, rows: seq<UniqueKeyRow>)
    requires st.orders.Keys <= st.constraints.Keys
    ensures AddUniqueKeys(st, rows).Ok? ==> AddUniqueKeys(st, rows).value.orders.Keys <= AddUniqueKeys(st, rows).value.constraints.Keys
    decreases |rows|
  {
    if rows != [] {
      UniqueOrdersWithin(st, rows[..|rows| - 1]);
    }
  }

  lemma NamesUniqueSnoc(init: seq<UniqueKeyRow>, r: UniqueKeyRow, n: string)
    ensures NamesUnique(init + [r], n) <==> NamesUnique(init, n) || IdentifierConverter(r.name) == n
  {
    var rows := init + [r];
    if NamesUnique(rows, n) && IdentifierConverter(r.name) != n {
      var j :| 0 <= j < |rows| && IdentifierConverter(rows[j].name) == n;
      assert rows[j] == init[j];
    }
    if IdentifierConverter(r.name) == n {
      assert rows[|init|] == r;
    }
    if NamesUnique(init, n) {
      var j :| 0 <= j < |init| && IdentifierConverter(init[j].name) == n;
      assert rows[j] == init[j];
    }
  }

  lemma ClashesSnoc(init: seq<UniqueKeyRow>, r: UniqueKeyRow, base: map<string, Constraint>)
    ensures Clashes(init + [r], base) <==> Clashes(init, base) || IdentifierConverter(r.name) in base
  {
    var rows := init + [r];
    if Clashes(rows, base) && IdentifierConverter(r.name) !in base {
      var j :| 0 <= j < |rows| && IdentifierConverter(rows[j].name) in base;
      assert rows[j] == init[j];
    }
    if IdentifierConverter(r.name) in base {
      assert rows[|init|] == r;
    }
    if Clashes(init, base) {
      var j :| 0 <= j < |init| && IdentifierConverter(init[j].name) in base;
      assert rows[j] == init[j];
    }
  }

  /** A name no row carries has no orders. */
  lemma {:induction false} UniqueOrdersEmpty(rows: seq<UniqueKeyRow>, n: string)
    requires !NamesUnique(rows, n)
    ensures UniqueOrders(rows, n) == []
    decreases |rows|
  {
    if rows != [] {
      var init := rows[..|rows| - 1];
      var r := rows[|rows| - 1];
      assert rows == init + [r];
      NamesUniqueSnoc(init, r, n);
      UniqueOrdersEmpty(init, n);
    }
  }

  /** The unique-key loop from the foreign and primary key entries `base`. */
  function UniqueRun(base: map<string, Constraint>, rows: seq<UniqueKeyRow>): Result<UniqueState>
  {
    AddUniqueKeys(UniqueState(base, map[]), rows)
  }

  /** The loop raises exactly when a row names an entry of `base`; otherwise
      the names with orders are the names of the rows, disjoint from `base`,
      and together with `base` they are the names of the dictionary. */
  lemma {:induction false} UniqueRunKeys(base: map<string, Constraint>, rows: seq<UniqueKeyRow>)
    ensures UniqueRun(base, rows).Err? <==> Clashes(rows, base)
    ensures UniqueRun(base, rows).Ok? ==>
      var st := UniqueRun(base, rows).value;
      st.constraints.Keys == base.Keys + st.orders.Keys &&
      (forall n :: n in st.orders ==> n !in base) &&
      (forall n :: n in st.orders <==> NamesUnique(rows, n))
    decreases |rows|
  {
    if rows != [] {
      var init := rows[..|rows| - 1];
      var r := rows[|rows| - 1];
      assert rows == init + [r];
      UniqueRunKeys(base, init);
      ClashesSnoc(init, r, base);
      forall n ensures NamesUnique(rows, n) <==> NamesUnique(init, n) || IdentifierConverter(r.name) == n {
        NamesUniqueSnoc(init, r, n);
      }
    }
  }

  /** The entries of `base` are left as they are. */
  lemma {:induction false} UniqueRunKeepsBase(base: map<string, Constraint>, rows: seq<UniqueKeyRow>)
    ensures UniqueRun(base, rows).Ok? ==>
      var st := UniqueRun(base, rows).value;
      forall n :: n in base ==> n in st.constraints && st.constraints[n] == base[n]
    decreases |rows|
  {
    if rows != [] {
      var init := rows[..|rows| - 1];
      var r := rows[|rows| - 1];
      UniqueRunKeys(base, init);
      UniqueRunKeepsBase(base, init);
      var prev := UniqueRun(base, init);
      if prev.Ok? && IdentifierConverter(r.name) in base {
        assert IdentifierConverter(r.name) in prev.value.constraints && IdentifierConverter(r.name) !in prev.value.orders;
        assert UniqueRun(base, rows).Err?;
      }
    }
  }

  /** Every name with orders is a bare unique constraint. */
  lemma {:induction false} UniqueRunFlags(base: map<string, Constraint>, rows: seq<UniqueKeyRow>)
    ensures UniqueRun(base, rows).Ok? ==>
      var st := UniqueRun(base, rows).value;
      forall n :: n in st.orders ==> (n in st.constraints && BareUnique(st.constraints[n]))
    decreases |rows|
  {
    if rows != [] {
      var init := rows[..|rows| - 1];
      var r := rows[|rows| - 1];
      UniqueRunKeys(base, init);
      UniqueRunFlags(base, init);
      var prev := UniqueRun(base, init);
      if prev.Ok? && UniqueStep(prev.value, r).Ok? {
        var name := IdentifierConverter(r.name);
        var next := UniqueStep(prev.value, r).value;
        assert UniqueRun(base, rows) == Ok(next);
        if name in prev.value.orders {
          assert BareUnique(prev.value.constraints[name]);
        }
        assert BareUnique(next.constraints[name]);
      }
    }
  }

  /** A unique constraint and nothing else. */
  predicate BareUnique(c: Constraint)
  {
    c.unique && !c.primaryKey && c.foreignKey.None? && !c.check && !c.index
  }

  /** The orders of a name are its rows' `(key_sequence, column)` pairs in
      row order. */
  lemma {:induction false} UniqueRunOrders(base: map<string, Constraint>, rows: seq<UniqueKeyRow>)
    ensures UniqueRun(base, rows).Ok? ==>
      var st := UniqueRun(base, rows).value;
      forall n :: n in st.orders ==> st.orders[n] == UniqueOrders(rows, n)
    decreases |rows|
  {
    if rows != [] {
      var init := rows[..|rows| - 1];
      var r := rows[|rows| - 1];
      UniqueRunKeys(base, init);
      UniqueRunOrders(base, init);
      var prev := UniqueRun(base, init);
      if prev.Ok? && IdentifierConverter(r.name) !in prev.value.orders {
        UniqueOrdersEmpty(init, IdentifierConverter(r.name));
      }
    }
  }

  /** get_constraints raises exactly when a unique constraint shares its
      name with a foreign or primary key. */
  lemma ConstraintsErr(fks: seq<ImportedKeyRow>, pks: seq<PrimaryKeyRow>, uks: seq<UniqueKeyRow>)
    ensures Constraints(fks, pks, uks).Err? <==> Clashes(uks, KeyConstraints(fks, pks))
  {
    UniqueRunKeys(KeyConstraints(fks, pks), uks);
  }

  /** A unique constraint lists the columns of its rows sorted by key
      sequence (then by column name), and no row's column is lost. */
  lemma ConstraintsUnique(fks: seq<ImportedKeyRow>, pks: seq<PrimaryKeyRow>, uks: seq<UniqueKeyRow>, name: string)
    requires Constraints(fks, pks, uks).Ok? && NamesUnique(uks, name)
    ensures name in Constraints(fks, pks, uks).value
    ensures var c := Constraints(fks, pks, uks).value[name];
      c == Constraint(Columns(Sort(UniqueOrders(uks, name))), false, true, None, false, false) &&
      Sorted(Sort(UniqueOrders(uks, name))) &&
      multiset(Sort(UniqueOrders(uks, name))) == multiset(UniqueOrders(uks, name))
  {
    var base := KeyConstraints(fks, pks);
    UniqueRunKeys(base, uks);
    UniqueRunKeepsBase(base, uks);
    UniqueRunFlags(base, uks);
    UniqueRunOrders(base, uks);
    SortSpec(UniqueOrders(uks, name));
  }

  /** Every entry built by the foreign and primary key loops is a
      single-column constraint; it is a primary key exactly when some primary
      key row carries its name, and otherwise a foreign key. */
  lemma {:induction false} ForeignKeyEntries(rows: seq<ImportedKeyRow>)
    ensures forall name :: name in AddForeignKeys(map[], rows) ==>
      var c := AddForeignKeys(map[], rows)[name];
      |c.columns| == 1 && !c.primaryKey && !c.unique && c.foreignKey.Some? && !c.check && !c.index
    decreases |rows|
  {
    if rows != [] {
      ForeignKeyEntries(rows[..|rows| - 1]);
    }
  }

  /** `rows` names `name` in some row. */
  ghost predicate NamesPrimary(rows: seq<PrimaryKeyRow>, name: string)
  {
    exists j :: 0 <= j < |rows| && IdentifierConverter(rows[j].name) == name
  }

  lemma NamesPrimarySnoc(init: seq<PrimaryKeyRow>, r: PrimaryKeyRow, n: string)
    ensures NamesPrimary(init + [r], n) <==> NamesPrimary(init, n) || IdentifierConverter(r.name) == n
  {
    var rows := init + [r];
    if NamesPrimary(rows, n) && IdentifierConverter(r.name) != n {
      var j :| 0 <= j < |rows| && IdentifierConverter(rows[j].name) == n;
      assert rows[j] == init[j];
    }
    if IdentifierConverter(r.name) == n {
      assert rows[|init|] == r;
    }
    if NamesPrimary(init, n) {
      var j :| 0 <= j < |init| && IdentifierConverter(init[j].name) == n;
      assert rows[j] == init[j];
    }
  }

  lemma {:induction false} PrimaryKeyEntries(m: map<string, Constraint>, rows: seq<PrimaryKeyRow>)
    ensures forall name :: name in AddPrimaryKeys(m, rows) <==> name in m || NamesPrimary(rows, name)
    ensures forall name :: name in AddPrimaryKeys(m, rows) ==>
      var c := AddPrimaryKeys(m, rows)[name];
      if NamesPrimary(rows, name)
      then |c.columns| == 1 && c.primaryKey && !c.unique && c.foreignKey.None? && !c.check && !c.index
      else c == m[name]
    decreases |rows|
  {
    if rows != [] {
      var init := rows[..|rows| - 1];
      var r := rows[|rows| - 1];
      assert rows == init + [r];
      PrimaryKeyEntries(m, init);
      forall n ensures NamesPrimary(rows, n) <==> NamesPrimary(init, n) || IdentifierConverter(r.name) == n {
        NamesPrimarySnoc(init, r, n);
      }
    }
  }

  /** In a successful result every foreign and primary key entry is a
      single-column constraint, marked primary key exactly when a primary key
      row names it; every entry has `check` and `index` False. */
  lemma ConstraintsKeys(fks: seq<ImportedKeyRow>, pks: seq<PrimaryKeyRow>, uks: seq<UniqueKeyRow>, name: string)
    requires Constraints(fks, pks, uks).Ok? && name in KeyConstraints(fks, pks)
    ensures name in Constraints(fks, pks, uks).value
    ensures var c := Constraints(fks, pks, uks).value[name];
      |c.columns| == 1 && !c.unique && !c.check && !c.index &&
      (c.primaryKey <==> NamesPrimary(pks, name)) &&
      (c.foreignKey.Some? <==> !c.primaryKey)
  {
    var base := KeyConstraints(fks, pks);
    UniqueRunKeys(base, uks);
    UniqueRunKeepsBase(base, uks);
    UniqueRunFlags(base, uks);
    ForeignKeyEntries(fks);
    PrimaryKeyEntries(AddForeignKeys(map[], fks), pks);
  }

  /** Every name of the result is a foreign, primary or unique constraint
      name, and every entry has `check` and `index` False. */
  lemma ConstraintsNames(fks: seq<ImportedKeyRow>, pks: seq<PrimaryKeyRow>, uks: seq<UniqueKeyRow>)
    requires Constraints(fks, pks, uks).Ok?
    ensures forall name :: name in Constraints(fks, pks, uks).value <==> name in KeyConstraints(fks, pks) || NamesUnique(uks, name)
    ensures forall name :: name in Constraints(fks, pks, uks).value ==>
      !Constraints(fks, pks, uks).value[name].check && !Constraints(fks, pks, uks).value[name].index
  {
    var base := KeyConstraints(fks, pks);
    UniqueRunKeys(base, uks);
    UniqueRunKeepsBase(base, uks);
    UniqueRunFlags(base, uks);
    ForeignKeyEntries(fks);
    PrimaryKeyEntries(AddForeignKeys(map[], fks), pks);
  }
}
