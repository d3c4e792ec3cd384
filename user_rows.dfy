/**
 * The `users` table as the status updater sees it: the rows of
 * `SELECT email FROM users`, the statements the handlers issue, and the
 * `reduce` that both src/slack.js and src/server.js use to turn the rows into
 * a list of email values.
 */
module UserRows {
  import opened Js

  /** One row of `SELECT email FROM users`; `row['email']` is its only column. */
  datatype Row = Row(email: Val)

  /** What `await database.query(...)` produced: an array of rows, a falsy `rows`, or a rejection. */
  datatype QueryResult = Rows(rows: seq<Row>) | NoRows | QueryThrew(message: string)

  /** The SQL statements the handlers send to the database. */
  datatype Statement = SelectEmails | InsertEmail(email: Val) | DeleteEmail(email: Val)

  /**
   * The array the `reduce` builds: it starts from `[]` and pushes
   * `row['email']` of each row in turn, so it is a left fold.
   */
  function EmailsOf(rows: seq<Row>): (emails: seq<Val>)
    ensures |emails| == |rows|
    ensures forall i :: 0 <= i < |rows| ==> emails[i] == rows[i].email
  {
    if rows == [] then [] else EmailsOf(rows[..|rows| - 1]) + [rows[|rows| - 1].email]
  }

  /** `emails.includes(email)` on the list built from `rows`: some row carries `email`. */
  predicate Listed(rows: seq<Row>, email: Val) {
    exists k :: 0 <= k < |rows| && rows[k].email == email
  }

  lemma ListedIffIncluded(rows: seq<Row>, email: Val)
    ensures email in EmailsOf(rows) <==> Listed(rows, email)
  {
    var emails := EmailsOf(rows);
    if email in emails {
      var k :| 0 <= k < |emails| && emails[k] == email;
      assert rows[k].email == email;
    }
  }

  /** The `rows.reduce((map, row) => { map.push(row['email']); return map }, [])` loop. */
  method CollectEmails(rows: seq<Row>) returns (emails: seq<Val>)
    ensures emails == EmailsOf(rows)
    ensures |emails| == |rows| && forall i :: 0 <= i < |rows| ==> emails[i] == rows[i].email
  {
    emails := [];
    var n := 0;
    while n < |rows|
      invariant 0 <= n <= |rows|
      invariant emails == EmailsOf(rows[..n])
    {
      assert rows[..n + 1][..n] == rows[..n];
      emails := emails + [rows[n].email];
      n := n + 1;
    }
    assert rows[..n] == rows;
  }
}
