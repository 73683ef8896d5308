/**
 How the `results` state is stored as a JavaScript array and how the page
 decides what to show from that array.
 */
module ResultsView {
  import opened Records

  /** The text of the no-results sentinel. */
  const NoResultsMessage: string := "No results found"

  /** One element of the stored array: a dataset record, or the sentinel
      object `{ message: "No results found" }`. */
  datatype Row = RecordRow(rec: Record) | MessageRow(message: string)

  /** What the results area shows. */
  datatype View =
    | Nothing                      // the array is empty
    | MessageView(text: string)    // the first element has a message
    | TableView(rows: seq<Row>)    // one table row per element

  /** The `message` property of an element, read for its truthiness: the
      empty string stands for an absent (undefined) or empty value. */
  function MessageOf(row: Row): (m: string)
  {
    match row
    case MessageRow(m) => m
    case RecordRow(rec) => if "message" in rec.others then rec.others["message"] else ""
  }

  /** The decision of the results area: nothing for an empty array, the first
      element's message when it has one, otherwise the table. */
  function Render(rows: seq<Row>): (v: View)
    ensures v.Nothing? <==> rows == []
    ensures v.MessageView? ==> v.text == MessageOf(rows[0]) && v.text != ""
    ensures v.TableView? ==> v.rows == rows && MessageOf(rows[0]) == ""
  {
    if rows == [] then Nothing
    else if MessageOf(rows[0]) != "" then MessageView(MessageOf(rows[0]))
    else TableView(rows)
  }

  /** The array the search stores for each outcome, and what the page then
      shows: nothing, the sentinel's text, or the found records as a table
      unless the first of them carries a message of its own. */
  function Encode(r: Results): (rows: seq<Row>)
    ensures r.Empty? ==> Render(rows) == Nothing
    ensures r.NoMatch? ==> Render(rows) == MessageView(NoResultsMessage)
    ensures r.Found? ==>
              && |rows| == |r.records|
              && forall k :: 0 <= k < |rows| ==> rows[k] == RecordRow(r.records[k])
    ensures r.Found? && |r.records| > 0 ==>
              Render(rows) == if MessageOf(RecordRow(r.records[0])) != ""
                              then MessageView(MessageOf(RecordRow(r.records[0])))
                              else TableView(rows)
  {
    match r
    case Empty => []
    case NoMatch => [MessageRow(NoResultsMessage)]
    case Found(records) => seq(|records|, k requires 0 <= k < |records| => RecordRow(records[k]))
  }

  /** The model's reading of the stored array back into an outcome, following
      the view chosen for it. A sentinel inside a table (an array the search
      never stores) is read as an empty record. */
  function Decode(rows: seq<Row>): (r: Results)
  {
    match Render(rows)
    case Nothing => Empty
    case MessageView(_) => NoMatch
    case TableView(_) => Found(seq(|rows|, k requires 0 <= k < |rows| =>
                                 match rows[k] case RecordRow(rec) => rec case MessageRow(_) => Record("", map[])))
  }

  /** Storing an outcome and reading it back gives the outcome again, for
      every outcome a search can store whose first found record carries no
      message. */
  lemma DecodeEncode(r: Results)
    requires r.Found? ==> |r.records| > 0 && MessageOf(RecordRow(r.records[0])) == ""
    ensures Decode(Encode(r)) == r
  {
    if r.Found? {
      var rows := Encode(r);
      assert Decode(rows).records == r.records;
    }
  }

  /** A found first record with a non-empty `message` field is shown as that
      message, in place of the table, and reads back as the sentinel. */
  lemma FirstMessageHidesTable(r: Results)
    requires r.Found? && |r.records| > 0 && MessageOf(RecordRow(r.records[0])) != ""
    ensures Render(Encode(r)) == MessageView(r.records[0].others["message"])
    ensures Decode(Encode(r)) == NoMatch
  {
  }
}
