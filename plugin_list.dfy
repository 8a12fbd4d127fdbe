/** The plugin list shown to site builders: one row per plugin id, holding
    the display name, in ascending order of display name. A PHP array with
    string keys is an ordered list of key/value rows with distinct keys. */
module PluginList {
  import opened Text
  import opened Geocoder

  /** One row of the table: plugin id and display name. */
  type Row = (string, string)

  /** The name a definition is listed under: its `name`, or its `id` when it has none. */
  function DisplayName(definition: Definition): string {
    match definition.name
    case Some(n) => n
    case None => definition.id
  }

  function Keys(table: seq<Row>): set<string> {
    set row | row in table :: row.0
  }

  predicate DistinctKeys(table: seq<Row>) {
    forall i, j :: 0 <= i < j < |table| ==> table[i].0 != table[j].0
  }

  /** Display names in nondecreasing order, row after row. */
  predicate SortedByName(table: seq<Row>) {
    forall i :: 0 <= i < |table| - 1 ==> LessEq(table[i].1, table[i + 1].1)
  }

  /** Position of `key` in the table, or the table's length when it is absent. */
  function IndexOf(table: seq<Row>, key: string): (i: nat)
    ensures i <= |table|
    ensures forall j :: 0 <= j < i ==> table[j].0 != key
    ensures i < |table| ==> table[i].0 == key
  {
    if table == [] || table[0].0 == key then 0 else 1 + IndexOf(table[1..], key)
  }

  /** `table[key] = value` on a PHP array: an existing key keeps its place
      and takes the new value, a new key is appended at the end. */
  function Assign(table: seq<Row>, key: string, value: string): (r: seq<Row>)
    ensures |table| <= |r| <= |table| + 1
    ensures forall j :: 0 <= j < |table| ==> r[j].0 == table[j].0
    ensures |r| == |table| + 1 ==> r == table + [(key, value)]
  {
    var i := IndexOf(table, key);
    if i < |table| then table[i := (key, value)] else table + [(key, value)]
  }

  /** After the assignment the table holds the new row and every row of
      another key it held before, and nothing else. */
  lemma AssignRows(table: seq<Row>, key: string, value: string, row: Row)
    requires DistinctKeys(table)
    ensures row in Assign(table, key, value) <==> row == (key, value) || (row in table && row.0 != key)
  {
  }

  /** The assignment keeps the keys distinct. */
  lemma AssignDistinct(table: seq<Row>, key: string, value: string)
    requires DistinctKeys(table)
    ensures DistinctKeys(Assign(table, key, value))
  {
  }

  /** The definitions after position `j` do not mention the id of definition `j` again. */
  predicate LastWithId(definitions: seq<Definition>, j: int) {
    0 <= j < |definitions| && forall k :: j < k < |definitions| ==> definitions[k].id != definitions[j].id
  }

  /** The table as the `foreach` leaves it, before sorting. */
  function Fill(definitions: seq<Definition>): (table: seq<Row>)
    ensures DistinctKeys(table)
  {
    if definitions == [] then []
    else
      var last := definitions[|definitions| - 1];
      var front := Fill(definitions[..|definitions| - 1]);
      AssignDistinct(front, last.id, DisplayName(last));
      Assign(front, last.id, DisplayName(last))
  }

  /** A row of the filled table comes from the last definition with its id,
      and that definition's row is there. */
  lemma {:induction false} FillEntries(definitions: seq<Definition>, row: Row)
    ensures row in Fill(definitions)
        <==> exists j :: LastWithId(definitions, j) && row == (definitions[j].id, DisplayName(definitions[j]))
  {
    if definitions != [] {
      var n := |definitions| - 1;
      var last := definitions[n];
      var front := definitions[..n];
      assert Fill(definitions) == Assign(Fill(front), last.id, DisplayName(last));
      FillEntries(front, row);
      AssignRows(Fill(front), last.id, DisplayName(last), row);
      if row in Fill(definitions) {
        if row.0 == last.id {
          assert LastWithId(definitions, n);
        } else {
          var j :| LastWithId(front, j) && row == (front[j].id, DisplayName(front[j]));
          assert LastWithId(definitions, j);
        }
      }
      if exists j :: LastWithId(definitions, j) && row == (definitions[j].id, DisplayName(definitions[j])) {
        var j :| LastWithId(definitions, j) && row == (definitions[j].id, DisplayName(definitions[j]));
        if j < n {
          assert LastWithId(front, j);
        }
      }
    }
  }

  /** Every id of a definition is a key of the filled table, and no other. */
  lemma {:induction false} FillKeys(definitions: seq<Definition>)
    ensures Keys(Fill(definitions)) == set d | d in definitions :: d.id
  {
    if definitions != [] {
      var n := |definitions| - 1;
      var last := definitions[n];
      var front := definitions[..n];
      var table := Fill(front);
      FillKeys(front);
      assert Fill(definitions) == Assign(table, last.id, DisplayName(last));
      assert definitions == front + [last];
      assert (set d | d in definitions :: d.id) == (set d | d in front :: d.id) + {last.id};
      forall key | key in Keys(Fill(definitions)) ensures key in Keys(table) + {last.id} {
        var row :| row in Fill(definitions) && row.0 == key;
        AssignRows(table, last.id, DisplayName(last), row);
      }
      forall key | key in Keys(table) + {last.id} ensures key in Keys(Fill(definitions)) {
        if key == last.id {
          AssignRows(table, last.id, DisplayName(last), (last.id, DisplayName(last)));
        } else {
          var row :| row in table && row.0 == key;
          AssignRows(table, last.id, DisplayName(last), row);
        }
      }
    }
  }

  /** Head of an insertion: the new row or the old head. */
  function Insert(row: Row, table: seq<Row>): (r: seq<Row>)
    requires SortedByName(table)
    ensures SortedByName(r)
    ensures multiset(r) == multiset(table) + multiset{row}
    ensures r[0] == row || (table != [] && r[0] == table[0])
  {
    if table == [] then [row]
    else if LessEq(row.1, table[0].1) then [row] + table
    else
      LessEqTotal(row.1, table[0].1);
      assert table == [table[0]] + table[1..];
      [table[0]] + Insert(row, table[1..])
  }

  /** Sorting by display name, as `asort` does; ties may come out in any order. */
  function SortByName(table: seq<Row>): (r: seq<Row>)
    ensures SortedByName(r)
    ensures multiset(r) == multiset(table)
  {
    if table == [] then []
    else
      assert table == [table[0]] + table[1..];
      Insert(table[0], SortByName(table[1..]))
  }

  /** Rows in a permuted table are the rows of the original. */
  lemma SameRows(a: seq<Row>, b: seq<Row>)
    requires multiset(a) == multiset(b)
    ensures forall row :: row in a <==> row in b
  {
    forall row ensures row in a <==> row in b {
      assert row in a <==> row in multiset(a);
      assert row in b <==> row in multiset(b);
    }
  }

  /** With distinct keys, the first key does not come again. */
  lemma HeadKeyNew(table: seq<Row>)
    requires DistinctKeys(table) && table != []
    ensures table[0].0 !in Keys(table[1..])
  {
  }

  /** Inserting a row adds its key. */
  lemma {:induction false} InsertKeys(row: Row, table: seq<Row>)
    requires SortedByName(table)
    ensures Keys(Insert(row, table)) == Keys(table) + {row.0}
  {
    if table != [] {
      assert table == [table[0]] + table[1..];
      assert Keys(table) == {table[0].0} + Keys(table[1..]);
      if !LessEq(row.1, table[0].1) {
        var rest := Insert(row, table[1..]);
        InsertKeys(row, table[1..]);
        assert Keys([table[0]] + rest) == {table[0].0} + Keys(rest);
      }
    }
  }

  /** Inserting a row under a new key keeps the keys distinct. */
  lemma {:induction false} InsertDistinct(row: Row, table: seq<Row>)
    requires SortedByName(table)
    requires DistinctKeys(table) && row.0 !in Keys(table)
    ensures DistinctKeys(Insert(row, table))
  {
    if table != [] && !LessEq(row.1, table[0].1) {
      var rest := Insert(row, table[1..]);
      assert table == [table[0]] + table[1..];
      assert Keys(table) == {table[0].0} + Keys(table[1..]);
      InsertDistinct(row, table[1..]);
      InsertKeys(row, table[1..]);
      HeadKeyNew(table);
      forall y | 0 < y < |[table[0]] + rest| ensures table[0].0 != ([table[0]] + rest)[y].0 {
        assert ([table[0]] + rest)[y] == rest[y - 1];
        assert rest[y - 1] in rest;
      }
    } else {
      forall y | 0 < y < |[row] + table| ensures row.0 != ([row] + table)[y].0 {
        assert ([row] + table)[y] == table[y - 1];
        assert table[y - 1] in table;
      }
    }
  }

  /** Sorting keeps the keys, and keeps them distinct. */
  lemma {:induction false} SortKeys(table: seq<Row>)
    ensures Keys(SortByName(table)) == Keys(table)
    ensures DistinctKeys(table) ==> DistinctKeys(SortByName(table))
  {
    if table != [] {
      assert table == [table[0]] + table[1..];
      assert Keys(table) == {table[0].0} + Keys(table[1..]);
      SortKeys(table[1..]);
      InsertKeys(table[0], SortByName(table[1..]));
      if DistinctKeys(table) {
        HeadKeyNew(table);
        InsertDistinct(table[0], SortByName(table[1..]));
      }
    }
  }

  /** Sorted row after row means sorted between any two rows. */
  lemma {:induction false} SortedPairwise(table: seq<Row>, i: int, j: int)
    requires SortedByName(table)
    requires 0 <= i <= j < |table|
    ensures LessEq(table[i].1, table[j].1)
    decreases j - i
  {
    if i == j {
      LessEqReflexive(table[i].1);
    } else {
      SortedPairwise(table, i + 1, j);
      LessEqTransitive(table[i].1, table[i + 1].1, table[j].1);
    }
  }

  /** The plugin list of one plugin type: every id of the type exactly once,
      listed under the display name of the last definition with that id,
      sorted by display name. */
  method GetPlugins(manager: PluginManager) returns (table: seq<Row>)
    ensures SortedByName(table)
    ensures DistinctKeys(table)
    ensures Keys(table) == set d | d in manager.definitions :: d.id
    ensures forall row :: row in table <==>
              exists j :: LastWithId(manager.definitions, j)
                          && row == (manager.definitions[j].id, DisplayName(manager.definitions[j]))
  {
    var definitions := manager.definitions;
    var options: seq<Row> := [];
    for i := 0 to |definitions|
      invariant options == Fill(definitions[..i])
    {
      var data := definitions[i];
      var name := DisplayName(data);
      assert definitions[..i + 1][..i] == definitions[..i];
      options := Assign(options, data.id, name);
    }
    assert definitions[..|definitions|] == definitions;
    FillKeys(definitions);
    table := SortByName(options);
    SameRows(options, table);
    SortKeys(options);
    forall row ensures row in table
        <==> exists j :: LastWithId(definitions, j) && row == (definitions[j].id, DisplayName(definitions[j]))
    {
      FillEntries(definitions, row);
    }
  }
}
