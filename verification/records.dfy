/**
 The values the page component keeps in its state: the loaded dataset and the
 search results.
 */
module Records {

  /** A value that may be absent; `None` stands for JavaScript's `null`. */
  datatype Option<+T> = None | Some(value: T)

  /** One entry of the exam-result dataset. Only the name (key "الاسم") is
      read by the search. The remaining keys (seat number "رقم الجلوس",
      score "الدرجة", status "student_case_desc", and any other) are carried
      along unread, each with the text it displays as. As in a JSON object,
      where each key occurs once, `others` never holds the name key. */
  datatype Record = Record(name: string, others: map<string, string>)

  /** The `results` state of the page.
      - `Empty`: no search has produced anything yet (the initial `[]`);
      - `NoMatch`: a search ran and nothing matched (the one-element
        "No results found" sentinel);
      - `Found`: the matching records, in dataset order. */
  datatype Results = Empty | NoMatch | Found(records: seq<Record>)
}
