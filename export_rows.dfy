/**
 * The flat records the export code works on: each row is an object with
 * string keys in insertion order (`Object.keys`), each value a string, a
 * number, a boolean, or `undefined`.
 */
module ExportRows {

  /** A value of an exported object. */
  datatype Cell = Str(s: string) | Num(x: real) | Bool(b: bool) | Missing

  /** An exported object: its keys in insertion order with their values. */
  type Row = seq<(string, Cell)>

  /** `Object.keys(row)`. */
  function ObjectKeys(row: Row): (r: seq<string>)
    ensures |r| == |row|
  {
    seq(|row|, i requires 0 <= i < |row| => row[i].0)
  }

  /** The column headers of a table of rows: the first row's keys, none for no rows. */
  function TableHeaders(data: seq<Row>): seq<string> {
    if data == [] then [] else ObjectKeys(data[0])
  }

  /** `row[key]`: the value stored under the key, `undefined` when there is none. */
  function Lookup(row: Row, key: string): Cell {
    if row == [] then Missing
    else if row[0].0 == key then row[0].1
    else Lookup(row[1..], key)
  }

  /** An object literal never repeats a key. */
  predicate DistinctKeys(row: Row) {
    forall i, j :: 0 <= i < j < |row| ==> row[i].0 != row[j].0
  }

  /**
   * In a row without repeated keys, looking up a key finds the value stored
   * with it, and a key the row lacks reads as `undefined`.
   */
  lemma {:induction false} LookupFinds(row: Row, i: nat)
    requires DistinctKeys(row) && i < |row|
    ensures Lookup(row, row[i].0) == row[i].1
  {
    if i > 0 {
      assert DistinctKeys(row[1..]) by {
        forall a, b | 0 <= a < b < |row[1..]| ensures row[1..][a].0 != row[1..][b].0 {
          assert row[1..][a] == row[a + 1] && row[1..][b] == row[b + 1];
        }
      }
      assert row[0].0 != row[i].0;
      LookupFinds(row[1..], i - 1);
    }
  }

  /** A key absent from the row reads as `undefined`. */
  lemma {:induction false} LookupAbsent(row: Row, key: string)
    requires key !in ObjectKeys(row)
    ensures Lookup(row, key) == Missing
  {
    if row != [] {
      assert ObjectKeys(row)[0] == row[0].0;
      assert ObjectKeys(row[1..]) == ObjectKeys(row)[1..];
      LookupAbsent(row[1..], key);
    }
  }
}
