/** The ledger file `finance_data.csv`: its fixed columns, its creation, the
    append of one transaction, and reading it back as typed records. The file
    is modelled as a sequence of lines of typed cells rather than bytes. */
module Ledger {
  import opened Wrappers
  import opened Calendar
  import opened DateText

  datatype Category = Income | Expense

  /** One cell of a CSV line as the writer produced it: text, an amount in
      cents, or a category name. */
  datatype Cell = Text(text: string) | Money(cents: nat) | Kind(category: Category)

  type Line = seq<Cell>

  /** The backing file: None while it does not exist. */
  type Store = Option<seq<Line>>

  /** The column names, in the order in which every line lists its cells. */
  const Columns: seq<string> := ["date", "amount", "category", "description"]

  /** A transaction as the range query sees it, once its date has been parsed. */
  datatype Record = Record(date: ValidDate, amount: nat, category: Category, description: string)

  /** Every way reading or querying the ledger can fail. */
  datatype LedgerError =
    | FileNotFound        // the file does not exist
    | NoColumns           // the file is empty, not even a header line
    | MissingColumns      // the first line does not name the ledger's columns
    | MalformedRow        // a line whose cells do not match the columns
    | UnparsedStoredDate  // a stored date that is not `DD-MM-YYYY`
    | UnparsedStartDate   // the query's start date does not parse
    | UnparsedEndDate     // the query's end date does not parse
    | EmptyView           // a weekly grid asked of no transactions

  /** The header line naming `columns`. */
  function HeaderLine(columns: seq<string>): (line: Line)
    ensures |line| == |columns|
    ensures forall i :: 0 <= i < |columns| ==> line[i] == Text(columns[i])
  {
    if |columns| == 0 then [] else [Text(columns[0])] + HeaderLine(columns[1..])
  }

  /** `CSV.initalize_csv`: reading an existing file succeeds and changes
      nothing; a missing file is created holding only the header line. */
  function Initialize(store: Store): (r: Store)
    ensures r.Some?
    ensures store.Some? ==> r == store
    ensures store.None? ==> Load(r) == Ok([])
  {
    match store
    case Some(_) => store
    case None => Some([HeaderLine(Columns)])
  }

  /** The dictionary `add_entry` builds from its four arguments. */
  function NewEntry(date: string, amount: nat, category: Category, description: string): (entry: map<string, Cell>)
    ensures entry.Keys == set c | c in Columns
    ensures entry[Columns[0]] == Text(date) && entry[Columns[1]] == Money(amount)
    ensures entry[Columns[2]] == Kind(category) && entry[Columns[3]] == Text(description)
  {
    map["date" := Text(date), "amount" := Money(amount),
        "category" := Kind(category), "description" := Text(description)]
  }

  /** `csv.DictWriter(fieldnames=...).writerow(entry)`: the entry's values laid
      out in field-name order, a missing field written as empty text; None where
      the writer raises because the entry holds a key that is not a field. */
  function WriteRow(fieldnames: seq<string>, entry: map<string, Cell>): (r: Option<Line>)
    ensures r.Some? <==> forall k :: k in entry ==> k in fieldnames
    ensures r.Some? ==> |r.value| == |fieldnames|
    ensures r.Some? ==> forall i :: 0 <= i < |fieldnames| && fieldnames[i] in entry ==> r.value[i] == entry[fieldnames[i]]
    ensures r.Some? ==> forall i :: 0 <= i < |fieldnames| && fieldnames[i] !in entry ==> r.value[i] == Text("")
  {
    if forall k :: k in entry ==> k in fieldnames then
      Some(seq(|fieldnames|, i requires 0 <= i < |fieldnames| =>
        if fieldnames[i] in entry then entry[fieldnames[i]] else Text("")))
    else None
  }

  /** `CSV.add_entry`: append one line holding the four values in column
      order. Opening the file for append creates it when it is missing, in
      which case it gets no header line. */
  function AddEntry(store: Store, date: string, amount: nat, category: Category, description: string): (r: Store)
    ensures r.Some?
    ensures |r.value| == (if store.Some? then |store.value| else 0) + 1
    ensures store.Some? ==> r.value[..|store.value|] == store.value
    ensures var line := r.value[|r.value| - 1];
      && |line| == |Columns|
      && forall i :: 0 <= i < |Columns| ==> line[i] == NewEntry(date, amount, category, description)[Columns[i]]
  {
    var line := WriteRow(Columns, NewEntry(date, amount, category, description));
    assert line.Some?;
    match store
    case None => Some([line.value])
    case Some(lines) => Some(lines + [line.value])
  }

  /** A data line has a text date, an amount, a category and a text description. */
  predicate WellFormed(line: Line) {
    |line| == 4 && line[0].Text? && line[1].Money? && line[2].Kind? && line[3].Text?
  }

  /** A well-formed line whose stored date parses. */
  predicate Readable(line: Line) {
    WellFormed(line) && Parse(line[0].text).Some?
  }

  /** The record a line denotes, or why it denotes none. */
  function DecodeRow(line: Line): (r: Result<Record, LedgerError>)
    ensures r.Ok? <==> Readable(line)
    ensures r.Ok? ==> r.value.date == Parse(line[0].text).value
    ensures r.Ok? ==> r.value.amount == line[1].cents && r.value.category == line[2].category
    ensures r.Ok? ==> r.value.description == line[3].text
    ensures r.Err? ==> r.error == (if WellFormed(line) then UnparsedStoredDate else MalformedRow)
  {
    if !WellFormed(line) then Err(MalformedRow)
    else match Parse(line[0].text)
      case None => Err(UnparsedStoredDate)
      case Some(d) => Ok(Record(d, line[1].cents, line[2].category, line[3].text))
  }

  /** `pd.read_csv` followed by the date conversion of `get_transactions`:
      the records of the data lines in file order, or the first error. */
  function Load(store: Store): (r: Result<seq<Record>, LedgerError>)
    ensures r.Ok? <==> (store.Some? && |store.value| > 0 && store.value[0] == HeaderLine(Columns)
      && forall i :: 1 <= i < |store.value| ==> Readable(store.value[i]))
    ensures r.Ok? ==> |r.value| == |store.value| - 1
    ensures r.Ok? ==> forall i :: 0 <= i < |r.value| ==> DecodeRow(store.value[i + 1]) == Ok(r.value[i])
    ensures store.None? ==> r == Err(FileNotFound)
    ensures store.Some? && |store.value| == 0 ==> r == Err(NoColumns)
    ensures store.Some? && |store.value| > 0 && store.value[0] != HeaderLine(Columns) ==> r == Err(MissingColumns)
    ensures r.Err? && store.Some? && |store.value| > 0 && store.value[0] == HeaderLine(Columns) ==>
      r.error == (if forall i :: 1 <= i < |store.value| ==> WellFormed(store.value[i]) then UnparsedStoredDate else MalformedRow)
  {
    match store
    case None => Err(FileNotFound)
    case Some(lines) =>
      if |lines| == 0 then Err(NoColumns)
      else if lines[0] != HeaderLine(Columns) then Err(MissingColumns)
      else if exists i :: 1 <= i < |lines| && !WellFormed(lines[i]) then Err(MalformedRow)
      else
        LoadDecodesEach(lines);
        TryMap(DecodeRow, lines[1..])
  }

  /** What the column conversion in `Load` yields line by line: each record
      decodes the line after it, and a failure is some line's date. */
  lemma LoadDecodesEach(lines: seq<Line>)
    requires |lines| > 0
    ensures TryMap(DecodeRow, lines[1..]).Ok? <==> forall i :: 1 <= i < |lines| ==> Readable(lines[i])
    ensures TryMap(DecodeRow, lines[1..]).Ok? ==>
      forall i :: 0 <= i < |lines| - 1 ==> DecodeRow(lines[i + 1]) == Ok(TryMap(DecodeRow, lines[1..]).value[i])
    ensures TryMap(DecodeRow, lines[1..]).Err? && (forall i :: 1 <= i < |lines| ==> WellFormed(lines[i])) ==>
      TryMap(DecodeRow, lines[1..]).error == UnparsedStoredDate
  {
    var tail := lines[1..];
    assert forall i :: 1 <= i < |lines| ==> lines[i] == tail[i - 1];
    if TryMap(DecodeRow, tail).Ok? {
      assert forall i :: 0 <= i < |lines| - 1 ==> tail[i] == lines[i + 1];
    } else if forall i :: 1 <= i < |lines| ==> WellFormed(lines[i]) {
      TryMapError(DecodeRow, tail);
      var j :| 0 <= j < |tail| && DecodeRow(tail[j]) == Err(TryMap(DecodeRow, tail).error);
      assert WellFormed(lines[j + 1]);
    }
  }

  // ---------------------------------------------------------------------------
  // Properties

  /** Initialising twice is initialising once. */
  lemma InitializeIdempotent(store: Store)
    ensures Initialize(Initialize(store)) == Initialize(store)
  {
  }

  /** Reading an existing ledger after initialisation reads what was there. */
  lemma InitializeKeepsRecords(store: Store)
    requires store.Some?
    ensures Load(Initialize(store)) == Load(store)
  {
  }

  /** A file whose header names the columns and whose data lines are all
      well-formed reads as the decoding of its data lines. */
  lemma LoadDecodes(store: Store)
    requires store.Some? && |store.value| > 0 && store.value[0] == HeaderLine(Columns)
    requires forall i :: 1 <= i < |store.value| ==> WellFormed(store.value[i])
    ensures Load(store) == TryMap(DecodeRow, store.value[1..])
  {
  }

  /** A readable file has the header line and well-formed data lines. */
  lemma LoadOkShape(store: Store)
    requires Load(store).Ok?
    ensures store.Some? && |store.value| > 0 && store.value[0] == HeaderLine(Columns)
    ensures forall i :: 1 <= i < |store.value| ==> WellFormed(store.value[i])
  {
  }

  /** Appending to a readable file keeps its header, keeps its data lines and
      adds one well-formed line holding the entry's values. */
  lemma AddedLines(store: Store, date: string, amount: nat, category: Category, description: string)
    requires store.Some? && |store.value| > 0 && store.value[0] == HeaderLine(Columns)
    requires forall i :: 1 <= i < |store.value| ==> WellFormed(store.value[i])
    ensures var after := AddEntry(store, date, amount, category, description).value;
      && |after| > 0 && after[0] == HeaderLine(Columns)
      && after[1..] == store.value[1..] + [[Text(date), Money(amount), Kind(category), Text(description)]]
      && forall i :: 1 <= i < |after| ==> WellFormed(after[i])
  {
    var lines := store.value;
    var after := AddEntry(store, date, amount, category, description).value;
    var line := after[|after| - 1];
    assert after == lines + [line];
    assert line == [Text(date), Money(amount), Kind(category), Text(description)];
    assert after[1..] == lines[1..] + [line];
    forall i | 1 <= i < |after|
      ensures WellFormed(after[i])
    {
      if i < |lines| {
        assert after[i] == lines[i];
      }
    }
  }

  /** Adding an entry to a readable ledger adds exactly its record at the end
      when its date parses, and makes the ledger unreadable otherwise. */
  lemma LoadAfterAdd(store: Store, date: string, amount: nat, category: Category, description: string)
    requires Load(store).Ok?
    ensures Parse(date).Some? ==>
      Load(AddEntry(store, date, amount, category, description))
        == Ok(Load(store).value + [Record(Parse(date).value, amount, category, description)])
    ensures Parse(date).None? ==>
      Load(AddEntry(store, date, amount, category, description)) == Err(UnparsedStoredDate)
  {
    var line := [Text(date), Money(amount), Kind(category), Text(description)];
    var after := AddEntry(store, date, amount, category, description);
    LoadOkShape(store);
    LoadDecodes(store);
    AddedLines(store, date, amount, category, description);
    LoadDecodes(after);
    TryMapSnoc(DecodeRow, store.value[1..], line);
  }

  /** Adding each record in turn, its date written as `DD-MM-YYYY`. */
  function AddAll(store: Store, records: seq<Record>): (r: Store)
    ensures records == [] ==> r == store
    ensures records != [] ==> r.Some? && |r.value| == (if store.Some? then |store.value| else 0) + |records|
  {
    if |records| == 0 then store
    else
      var last := records[|records| - 1];
      AddEntry(AddAll(store, records[..|records| - 1]), Format(last.date), last.amount, last.category, last.description)
  }

  /** A fresh ledger given any records in turn reads back exactly those
      records, in the order they were added. */
  lemma {:induction false} LoadAddAll(records: seq<Record>)
    ensures Load(AddAll(Initialize(None), records)) == Ok(records)
  {
    if |records| > 0 {
      var prefix, last := records[..|records| - 1], records[|records| - 1];
      LoadAddAll(prefix);
      DropLast(records);
      AddFormatted(AddAll(Initialize(None), prefix), AddAll(Initialize(None), records), prefix, last);
    }
  }

  /** A non-empty sequence is its prefix followed by its last element. */
  lemma DropLast<T>(xs: seq<T>)
    requires |xs| > 0
    ensures xs[..|xs| - 1] + [xs[|xs| - 1]] == xs
  {
  }

  /** Adding a record with its date written out reads back as that record. */
  lemma AddFormatted(before: Store, after: Store, records: seq<Record>, last: Record)
    requires Load(before) == Ok(records)
    requires after == AddEntry(before, Format(last.date), last.amount, last.category, last.description)
    ensures Load(after) == Ok(records + [last])
  {
    ParseFormat(last.date);
    LoadAfterAdd(before, Format(last.date), last.amount, last.category, last.description);
  }

  /** A ledger whose file was never initialised has no header line, so reading
      it fails even after an entry was added. */
  lemma AddWithoutInitialize(date: string, amount: nat, category: Category, description: string)
    ensures Load(AddEntry(None, date, amount, category, description)) == Err(MissingColumns)
  {
    var lines := AddEntry(None, date, amount, category, description).value;
    assert lines[0][1] == Money(amount);
    assert HeaderLine(Columns)[1] == Text("amount");
  }
}
