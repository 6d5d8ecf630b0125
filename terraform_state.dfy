/**
 * `fetch_terraform_state`: the rows of the Terraform remote-state table,
 * one serialised row after another, or a sentinel when the table is empty.
 * The connection, the SQL and the row serialiser (`json.dumps(dict(row),
 * indent=2)`) are not modelled: the query's outcome and the serialiser are
 * parameters.
 */
module TerraformState {
  import opened PyText

  const NoStateText := "No Terraform state found."

  /** What connecting and running the query give: the rows in order, or the message of the exception. */
  datatype Query<Row> = Rows(rows: seq<Row>) | QueryFailed(error: string)

  /** The outcome of `fetch_terraform_state`: the state text, or the exception it lets through. */
  datatype Fetch = Fetched(text: string) | FetchFailed(error: string)

  /** The serialised rows, in row order. */
  function Serialised<Row>(rows: seq<Row>, serialise: Row -> string): (lines: seq<string>)
    ensures |lines| == |rows|
  {
    seq(|rows|, i requires 0 <= i < |rows| => serialise(rows[i]))
  }

  /** The state text for a list of rows. */
  function StateText<Row>(rows: seq<Row>, serialise: Row -> string): string
  {
    if rows == [] then NoStateText else Join("\n", Serialised(rows, serialise))
  }

  /** What `fetch_terraform_state()` gives for an outcome of the query. */
  function Fetching<Row>(query: Query<Row>, serialise: Row -> string): Fetch
  {
    match query
    case Rows(rows) => Fetched(StateText(rows, serialise))
    case QueryFailed(e) => FetchFailed(e)
  }

  /** `fetch_terraform_state()`, given the outcome of the query. */
  method FetchTerraformState<Row>(query: Query<Row>, serialise: Row -> string) returns (r: Fetch)
    ensures query.QueryFailed? ==> r == FetchFailed(query.error)
    ensures query.Rows? ==> r == Fetched(StateText(query.rows, serialise))
    ensures r == Fetching(query, serialise)
  {
    match query
    case QueryFailed(e) =>
      r := FetchFailed(e);
    case Rows(rows) =>
      if rows == [] {
        return Fetched(NoStateText);
      }
      var stateLines: seq<string> := [];
      for i := 0 to |rows|
        invariant stateLines == Serialised(rows[..i], serialise)
      {
        assert rows[..i + 1] == rows[..i] + [rows[i]];
        stateLines := stateLines + [serialise(rows[i])];
      }
      assert rows[..|rows|] == rows;
      r := Fetched(Join("\n", stateLines));
  }

  /**
   * A further row adds a newline and its own text at the end: the state text
   * lists the rows in the order the query returned them.
   */
  lemma StateTextAppend<Row>(rows: seq<Row>, row: Row, serialise: Row -> string)
    requires rows != []
    ensures StateText(rows + [row], serialise) == StateText(rows, serialise) + "\n" + serialise(row)
  {
    assert Serialised(rows + [row], serialise) == Serialised(rows, serialise) + [serialise(row)];
    JoinAppend("\n", Serialised(rows, serialise), [serialise(row)]);
  }

  /**
   * The text of a non-empty table is as long as its rows' texts and one
   * newline between neighbours.
   */
  lemma StateTextLength<Row>(rows: seq<Row>, serialise: Row -> string)
    requires rows != []
    ensures |StateText(rows, serialise)| == SumLengths(Serialised(rows, serialise)) + |rows| - 1
  {
    JoinLength("\n", Serialised(rows, serialise));
  }
}
