/**
 * The dynamic `UPDATE ... SET` statements that the provider and API-key
 * handlers assemble from the fields present in a request
 * (backend/internal/handlers/providers.go, backend/internal/handlers/api_keys.go).
 */
module Sql {
  import opened Text

  /** One `column = ?` (with its argument) or `column = CURRENT_TIMESTAMP`. */
  datatype Assignment<C> =
    | SetText(column: C, text: string)
    | SetInt(column: C, n: int)
    | SetCurrentTimestamp(column: C)

  datatype SqlValue = TextArg(text: string) | IntArg(n: int)

  /** The clause text; `name` spells a column as it appears in the table. */
  function Clause<C>(a: Assignment<C>, name: C -> string): (c: string)
    ensures HasPrefix(c, name(a.column) + " = ")
  {
    match a
    case SetText(col, _) => name(col) + " = ?"
    case SetInt(col, _) => name(col) + " = ?"
    case SetCurrentTimestamp(col) => name(col) + " = CURRENT_TIMESTAMP"
  }

  function Clauses<C>(sets: seq<Assignment<C>>, name: C -> string): (cs: seq<string>)
    ensures |cs| == |sets|
    ensures forall i :: 0 <= i < |sets| ==> cs[i] == Clause(sets[i], name)
  {
    if sets == [] then [] else [Clause(sets[0], name)] + Clauses(sets[1..], name)
  }

  /** The bound arguments in clause order: one per `?`, none for CURRENT_TIMESTAMP. */
  function Args<C>(sets: seq<Assignment<C>>): (args: seq<SqlValue>)
    ensures |args| <= |sets|
    ensures (forall i :: 0 <= i < |sets| ==> !sets[i].SetCurrentTimestamp?) ==> |args| == |sets|
  {
    if sets == [] then []
    else
      (match sets[0]
       case SetText(_, s) => [TextArg(s)]
       case SetInt(_, n) => [IntArg(n)]
       case SetCurrentTimestamp(_) => []) + Args(sets[1..])
  }

  /**
   * The query-building loop: the clauses joined by ", " between the fixed
   * head (`UPDATE <table> SET `) and the `WHERE id = ?` tail.
   */
  method BuildUpdateQuery(head: string, updates: seq<string>) returns (query: string)
    ensures query == head + Join(updates, ", ") + " WHERE id = ?"
  {
    query := head;
    var i := 0;
    while i < |updates|
      invariant 0 <= i <= |updates|
      invariant query == head + Join(updates[..i], ", ")
    {
      if i > 0 {
        query := query + ", ";
        JoinSnoc(updates[..i], updates[i], ", ");
      }
      query := query + updates[i];
      assert updates[..i + 1] == updates[..i] + [updates[i]];
      i := i + 1;
    }
    assert updates[..i] == updates;
    query := query + " WHERE id = ?";
  }

  /** Executing the assignments left to right against one row. */
  function ApplyAll<R, C>(row: R, sets: seq<Assignment<C>>, apply: (R, Assignment<C>) -> R): R
    decreases |sets|
  {
    if sets == [] then row else ApplyAll(apply(row, sets[0]), sets[1..], apply)
  }

  lemma {:induction false} ApplyAllAppend<R, C>(row: R, xs: seq<Assignment<C>>, ys: seq<Assignment<C>>,
                                                apply: (R, Assignment<C>) -> R)
    ensures ApplyAll(row, xs + ys, apply) == ApplyAll(ApplyAll(row, xs, apply), ys, apply)
    decreases |xs|
  {
    if xs != [] {
      assert (xs + ys)[1..] == xs[1..] + ys;
      ApplyAllAppend(apply(row, xs[0]), xs[1..], ys, apply);
    } else {
      assert xs + ys == ys;
    }
  }
}
