/** A record of the dataset: an ordered mapping from column name to string value. */
module Records {

  datatype Field = Field(column: string, value: string)

  /** Fields in column order; a record never names a column twice. */
  type Record = seq<Field>

  /** The column names of a record, in order (the keys of the PHP array). */
  function Columns(r: Record): (cs: seq<string>)
    ensures |cs| == |r|
    ensures forall i :: 0 <= i < |r| ==> cs[i] == r[i].column
  {
    seq(|r|, i requires 0 <= i < |r| => r[i].column)
  }

  /** The values of a record, in column order. */
  function Values(r: Record): (vs: seq<string>)
    ensures |vs| == |r|
    ensures forall i :: 0 <= i < |r| ==> vs[i] == r[i].value
  {
    seq(|r|, i requires 0 <= i < |r| => r[i].value)
  }

  predicate Distinct(s: seq<string>)
  {
    forall i, j :: 0 <= i < j < |s| ==> s[i] != s[j]
  }

  /** Lookup by column name, `$row[$column]`; a missing column reads as PHP null, shown as "". */
  function Get(r: Record, column: string): string
  {
    if r == [] then ""
    else if r[0].column == column then r[0].value
    else Get(r[1..], column)
  }

  /** A lookup yields the value of a field with that name, or "" when there is none. */
  lemma {:induction false} GetFound(r: Record, column: string)
    ensures column in Columns(r) ==> exists i :: 0 <= i < |r| && r[i].column == column && r[i].value == Get(r, column)
    ensures column !in Columns(r) ==> Get(r, column) == ""
  {
    if r != [] && r[0].column != column {
      GetFound(r[1..], column);
      assert Columns(r[1..]) == Columns(r)[1..];
      assert Columns(r) == [r[0].column] + Columns(r[1..]);
      if column in Columns(r[1..]) {
        var i :| 0 <= i < |r[1..]| && r[1..][i].column == column && r[1..][i].value == Get(r[1..], column);
        assert r[i + 1].column == column;
      }
    }
  }

  /** With distinct columns, looking up the j-th column name yields the j-th value. */
  lemma {:induction false} GetAt(r: Record, j: nat)
    requires Distinct(Columns(r)) && j < |r|
    ensures Get(r, r[j].column) == r[j].value
  {
    if j > 0 {
      assert r[0].column != r[j].column by { assert Columns(r)[0] != Columns(r)[j]; }
      assert Columns(r[1..]) == Columns(r)[1..];
      GetAt(r[1..], j - 1);
    }
  }

  /** Every record has exactly the given column list. */
  predicate Shaped(headers: seq<string>, rows: seq<Record>)
  {
    Distinct(headers) && forall i :: 0 <= i < |rows| ==> Columns(rows[i]) == headers
  }
}
