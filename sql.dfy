/**
  The shape of the dynamic UPDATE statements the postgres repositories build:
  one "column=$n" assignment per supplied field, numbered from 1, joined with
  ", ", and a WHERE clause on the row key bound to the next placeholder.
*/
module Sql {
  import opened Wrappers
  import Strconv
  import Strings

  /** A bound argument: text, an integer, or an instant (Unix seconds). */
  datatype Arg = Text(s: string) | Int(n: int) | Time(seconds: int)

  /** A column to set and the argument bound to it. */
  type Field = (string, Arg)

  /** 1 for a field the request supplies (non-nil in Go), 0 for one it leaves out. */
  function Supplied<T>(o: Option<T>): nat {
    if o.Some? then 1 else 0
  }

  /** The positional placeholder "$n". */
  function Placeholder(n: nat): (p: string)
    ensures |p| >= 2 && p[0] == '$'
  {
    "$" + Strconv.Itoa(n)
  }

  /** The fragment fmt.Sprintf("<column>=$%d", n). */
  function Assignment(column: string, n: nat): string {
    column + "=" + Placeholder(n)
  }

  /** The SET fragments of `fields`: the i-th (from 0) sets its column to placeholder i + 1. */
  function Assignments(fields: seq<Field>): (r: seq<string>)
    ensures |r| == |fields|
    ensures forall i :: 0 <= i < |fields| ==> r[i] == Assignment(fields[i].0, i + 1)
  {
    seq(|fields|, i requires 0 <= i < |fields| => Assignment(fields[i].0, i + 1))
  }

  /** The arguments bound to the SET placeholders, in placeholder order. */
  function Bindings(fields: seq<Field>): (r: seq<Arg>)
    ensures |r| == |fields|
    ensures forall i :: 0 <= i < |fields| ==> r[i] == fields[i].1
  {
    seq(|fields|, i requires 0 <= i < |fields| => fields[i].1)
  }

  /** Appending one field adds one fragment, numbered one past the fields before it, and one argument. */
  lemma AppendField(fields: seq<Field>, column: string, arg: Arg)
    ensures Assignments(fields + [(column, arg)]) == Assignments(fields) + [Assignment(column, |fields| + 1)]
    ensures Bindings(fields + [(column, arg)]) == Bindings(fields) + [arg]
  {
    assert (fields + [(column, arg)])[|fields|] == (column, arg);
  }

  /** UPDATE <table> SET <assignments> WHERE <key> = $(k+1), for k fields. */
  function UpdateStatement(table: string, keyColumn: string, fields: seq<Field>): string {
    "UPDATE " + table + " SET " + Strings.Join(Assignments(fields), ", ")
      + " WHERE " + keyColumn + " = " + Placeholder(|fields| + 1)
  }

  /**
    Placeholder i binds args[i - 1]: the k SET placeholders and the WHERE
    placeholder are pairwise distinct, so no argument is bound twice.
  */
  lemma PlaceholdersDistinct(i: nat, j: nat)
    requires i != j
    ensures Placeholder(i) != Placeholder(j)
  {
    if Placeholder(i) == Placeholder(j) {
      assert Strconv.Itoa(i) == Placeholder(i)[1..];
      assert Strconv.Itoa(j) == Placeholder(j)[1..];
      Strconv.ItoaInjective(i, j);
    }
  }
}
