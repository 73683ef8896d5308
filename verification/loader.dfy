/**
 The load effect that runs once when the page mounts: fetch the archive
 `/natega.zip`, open it, read the entry `natega.json` and parse it.

 The network, the archive library and the JSON parser are not modelled: what
 they produce is the input `Fetched`, and the model is the state the effect
 leaves behind for each of those outcomes.
 */
module Loader {
  import opened Prefix
  import opened Records

  /** The entry the dataset is read from. */
  const DatasetEntry: string := "natega.json"

  /** Prefix the catch block puts in front of every thrown error's message. */
  const CaughtPrefix: string := "Error extracting file: "

  /** Message thrown for a response whose status is not OK, before the status text. */
  const NotOkPrefix: string := "Failed to fetch the ZIP file: "

  /** Message thrown when the archive has no entries at all. */
  const NoFilesMessage: string := "No files found in the ZIP archive."

  /** Message set, without being thrown, when the dataset entry is absent. */
  const NoDatasetMessage: string := "No JSON file found in the archive."

  /** What reading the dataset entry as text and parsing it yields. */
  datatype EntryContent =
    | ReadRejects(message: string)     // reading the entry as text rejects
    | ParseThrows(message: string)     // the text is not valid JSON
    | Parsed(records: seq<Record>)     // the parsed array of records

  /** What the network and the archive library yield. */
  datatype Fetched =
    | FetchRejects(message: string)    // fetch or reading the body rejects
    | HttpNotOk(statusText: string)    // a response with a non-OK status
    | ZipThrows(message: string)       // the body is not a readable archive
    | Archive(entries: map<string, EntryContent>)  // the archive's entries by name

  /** The part of the page state the effect writes. */
  datatype LoadState = LoadState(isLoading: bool, error: string, data: Option<seq<Record>>)

  /** The state before the effect runs: not loading, no error, no data. */
  const Initial: LoadState := LoadState(false, "", None)

  /** How the body of the `try` ends. */
  datatype TryEnd =
    | StoresData(records: seq<Record>)   // data set from the parsed entry
    | Reports(message: string)           // error set inside the try, nothing thrown
    | Throws(message: string)            // an error thrown to the catch block

  /** The start of the effect: loading is switched on and the error cleared. */
  function Begin(s: LoadState): (t: LoadState)
    ensures t.isLoading && t.error == [] && t.data == s.data
  {
    s.(isLoading := true, error := "")
  }

  /** The body of the `try`, from the I/O outcome. */
  function RunTry(f: Fetched): (e: TryEnd)
    // Data is stored exactly when the archive has the dataset entry and it parses.
    ensures e.StoresData? <==>
              f.Archive? && DatasetEntry in f.entries && f.entries[DatasetEntry].Parsed?
    // The only error reported without being thrown is the missing entry.
    ensures e.Reports? <==>
              f.Archive? && |f.entries| > 0 && DatasetEntry !in f.entries
    ensures e.Reports? ==> e.message == NoDatasetMessage
  {
    match f
    case FetchRejects(m) => Throws(m)
    case HttpNotOk(status) => Throws(NotOkPrefix + status)
    case ZipThrows(m) => Throws(m)
    case Archive(entries) =>
      if |entries| == 0 then
        Throws(NoFilesMessage)
      else if DatasetEntry !in entries then
        Reports(NoDatasetMessage)
      else
        match entries[DatasetEntry]
        case ReadRejects(m) => Throws(m)
        case ParseThrows(m) => Throws(m)
        case Parsed(records) => StoresData(records)
  }

  /** The end of the effect: the outcome of the `try`, the `catch`, and the
      `finally` that switches loading off. */
  function Finish(s: LoadState, e: TryEnd): (t: LoadState)
    ensures !t.isLoading
    ensures e.StoresData? ==> t.data == Some(e.records) && t.error == s.error
    ensures e.Reports? ==> t.data == s.data && t.error == e.message
    ensures e.Throws? ==> t.data == s.data && t.error == CaughtPrefix + e.message
  {
    match e
    case StoresData(records) => s.(data := Some(records), isLoading := false)
    case Reports(m) => s.(error := m, isLoading := false)
    case Throws(m) => s.(error := CaughtPrefix + m, isLoading := false)
  }

  /** `fetchFile`: the whole effect, from the state before it to the state after it. */
  function FetchFile(s: LoadState, f: Fetched): (t: LoadState)
    // Loading always ends switched off.
    ensures !t.isLoading
    // The error is left empty exactly on the successful path ...
    ensures t.error == [] <==>
              f.Archive? && DatasetEntry in f.entries && f.entries[DatasetEntry].Parsed?
    // ... which is the only path that replaces the data.
    ensures t.error == [] ==> t.data == Some(f.entries[DatasetEntry].records)
    ensures t.error != [] ==> t.data == s.data
  {
    Finish(Begin(s), RunTry(f))
  }

  /** The error text of each failing path. */
  lemma FetchFileErrors(s: LoadState, f: Fetched)
    ensures f.FetchRejects? ==> FetchFile(s, f).error == CaughtPrefix + f.message
    ensures f.HttpNotOk? ==> FetchFile(s, f).error == CaughtPrefix + NotOkPrefix + f.statusText
    ensures f.ZipThrows? ==> FetchFile(s, f).error == CaughtPrefix + f.message
    ensures f.Archive? && |f.entries| == 0 ==>
              FetchFile(s, f).error == CaughtPrefix + NoFilesMessage
    ensures f.Archive? && |f.entries| > 0 && DatasetEntry !in f.entries ==>
              FetchFile(s, f).error == NoDatasetMessage
    ensures f.Archive? && DatasetEntry in f.entries && !f.entries[DatasetEntry].Parsed? ==>
              FetchFile(s, f).error == CaughtPrefix + f.entries[DatasetEntry].message
  {
    if f.HttpNotOk? {
      assert CaughtPrefix + (NotOkPrefix + f.statusText) == CaughtPrefix + NotOkPrefix + f.statusText;
    }
  }

  /** The missing-entry message is the only failure shown without the catch
      block's prefix: the error starts with the prefix exactly when something
      was thrown. */
  lemma PrefixMarksThrownErrors(s: LoadState, f: Fetched)
    ensures IsSlicePrefix(FetchFile(s, f).error, CaughtPrefix) <==> RunTry(f).Throws?
  {
    if RunTry(f).Reports? {
      assert NoDatasetMessage[0] != CaughtPrefix[0];
    }
  }

  /** Run once from the mounted page, the effect shows exactly one of the
      dataset and an error message, and a failure leaves no data at all. */
  lemma LoadFromInitial(f: Fetched)
    ensures FetchFile(Initial, f).data.Some? <==> FetchFile(Initial, f).error == []
  {
  }
}
