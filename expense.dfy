/**
 * The expense list of `src/components/ExpenseDetailModal.tsx`: the notes
 * storage keys, the advertising test, adding, editing and deleting expenses,
 * the free-text and structured notes kept per expense position, and the cost
 * line shown under an advertising expense.
 */
module Expense {
  import opened Wrappers
  import Numbers
  import Seqs
  import Text

  /** `ExpenseDetail`; the last three fields are optional in the source. */
  datatype ExpenseDetail = ExpenseDetail(
    date: string,
    amount: real,
    description: string,
    link: Option<string>,
    includeInCost: Option<bool>,
    costPercentage: Option<real>)

  /** One row of a structured note, `{person, amount, description}`; all three are text. */
  datatype NoteRow = NoteRow(person: string, amount: string, description: string)

  /** The three editable fields of a row. */
  datatype RowField = Person | RowAmount | RowDescription

  /** The add-expense form: the three text inputs. */
  datatype NewExpense = NewExpense(description: string, date: string, amount: string)

  /** What the list shows under an advertising expense. */
  datatype CostLine = NotCounted | Partial(cost: real) | Full

  const NotesPrefix: string := "expenseNotes_"
  const StructuredPrefix: string := "structuredNotes_"
  const BlankRow: NoteRow := NoteRow("", "", "")

  /** `expenseNotes_<category>` with every whitespace run of the category replaced by `_`. */
  function NotesKey(category: string): (key: string)
    ensures key == NotesPrefix + Text.ReplaceSpaceRuns(category)
    ensures Text.NoSpace(key[|NotesPrefix|..])
  {
    NotesPrefix + Text.ReplaceSpaceRuns(category)
  }

  /** `structuredNotes_<category>`, sanitised as `NotesKey`. */
  function StructuredKey(category: string): (key: string)
    ensures key == StructuredPrefix + Text.ReplaceSpaceRuns(category)
    ensures Text.NoSpace(key[|StructuredPrefix|..])
  {
    StructuredPrefix + Text.ReplaceSpaceRuns(category)
  }

  /**
   * Only whitespace is rewritten in the notes keys: a category without
   * whitespace is used as it is, punctuation and non-ASCII letters included,
   * whereas the concert sanitiser would drop them.
   */
  lemma NotesKeyKeepsOtherCharacters(category: string)
    requires Text.NoSpace(category)
    ensures NotesKey(category)[|NotesPrefix|..] == category
    ensures StructuredKey(category)[|StructuredPrefix|..] == category
  {
  }

  /**
   * A character outside `[A-Za-z0-9_]` in a category without whitespace (the
   * `&` of `Reklam&PR`, a Turkish letter) stays in the notes keys but is
   * dropped by the concert sanitiser.
   */
  lemma NotesKeyDiffersFromConcertKey(category: string, c: char)
    requires Text.NoSpace(category)
    requires c in category && !Text.IsWordChar(c)
    ensures c in NotesKey(category)[|NotesPrefix|..] && c in StructuredKey(category)[|StructuredPrefix|..]
    ensures c !in Text.SanitizeName(category)
  {
    NotesKeyKeepsOtherCharacters(category);
  }

  /** `category.toLowerCase().includes('reklam')`. */
  function IsAdvertisement(category: string): (b: bool)
    ensures b <==> exists i :: Text.OccursAt(Text.ToLower(category), "reklam", i)
  {
    Text.Contains(Text.ToLower(category), "reklam")
  }

  /** The test is case-insensitive on ASCII letters and finds the word anywhere. */
  lemma AdvertisementExamples()
    ensures IsAdvertisement("Reklam")
    ensures IsAdvertisement("Sosyal REKLAM")
    ensures !IsAdvertisement("Kira")
  {
    assert Text.OccursAt(Text.ToLower("Reklam"), "reklam", 0);
    assert Text.OccursAt(Text.ToLower("Sosyal REKLAM"), "reklam", 7);
  }

  /**
   * The filter of the structured-note editor: a row is kept when some field
   * is not all whitespace, that is, does not trim to nothing.
   */
  predicate KeepRow(row: NoteRow) {
    !Text.AllSpace(row.person) || !Text.AllSpace(row.amount) || !Text.AllSpace(row.description)
  }

  /** `rows.filter(note => note.person.trim() || note.amount.trim() || note.description.trim())`. */
  function ValidRows(rows: seq<NoteRow>): (r: seq<NoteRow>)
    ensures |r| <= |rows|
    ensures forall i :: 0 <= i < |r| ==> KeepRow(r[i])
  {
    Seqs.Keep(rows, KeepRow)
  }

  /**
   * The filter keeps exactly the rows with some non-blank field: every kept
   * row has a field that trims to something, and a list without blank rows
   * is kept whole.
   */
  lemma ValidRowsContents(rows: seq<NoteRow>, row: NoteRow)
    ensures row in ValidRows(rows) <==> row in rows && KeepRow(row)
    ensures row in ValidRows(rows) ==>
      Text.Trim(row.person) != [] || Text.Trim(row.amount) != [] || Text.Trim(row.description) != []
    ensures (forall i :: 0 <= i < |rows| ==> KeepRow(rows[i])) ==> ValidRows(rows) == rows
  {
    Seqs.KeepContents(rows, KeepRow);
    if forall i :: 0 <= i < |rows| ==> KeepRow(rows[i]) {
      Seqs.KeepAll(rows, KeepRow);
    }
  }

  /** The single blank row the editor opens with is filtered away, so saving it stores no structured note. */
  lemma BlankRowDropped()
    ensures ValidRows([BlankRow]) == []
  {
    assert !KeepRow(BlankRow);
  }

  /** `{...note, [field]: value}`. */
  function WithRowField(row: NoteRow, field: RowField, value: string): (r: NoteRow)
    ensures field == Person ==> r == row.(person := value)
    ensures field == RowAmount ==> r == row.(amount := value)
    ensures field == RowDescription ==> r == row.(description := value)
  {
    match field
    case Person => row.(person := value)
    case RowAmount => row.(amount := value)
    case RowDescription => row.(description := value)
  }

  /** `parseFloat(text) || 100`: a failed parse and a parsed 0 both give 100. */
  function PercentOr100(parsed: Option<real>): (p: real)
    ensures parsed.Some? && parsed.value != 0.0 ==> p == parsed.value
    ensures parsed.None? || parsed.value == 0.0 ==> p == 100.0
    ensures p != 0.0
  {
    if parsed.Some? && parsed.value != 0.0 then parsed.value else 100.0
  }

  /** The expense appended by the add form; an advertising one is counted at 100%. */
  function NewEntry(form: NewExpense, amount: real, isAd: bool): (e: ExpenseDetail)
    ensures e.date == form.date && e.amount == amount && e.description == form.description
    ensures e.link.None?
    ensures isAd ==> e.includeInCost == Some(true) && e.costPercentage == Some(100.0)
    ensures !isAd ==> e.includeInCost.None? && e.costPercentage.None?
  {
    ExpenseDetail(form.date, amount, form.description, None,
      if isAd then Some(true) else None,
      if isAd then Some(100.0) else None)
  }

  /**
   * The record `handleSaveExpense` writes at the edited position: the name,
   * amount (0 when it does not parse) and date from the form, and for an
   * advertising category also the link, the counted flag and the percentage
   * (100 when it does not parse or is 0).
   */
  function EditedEntry(e: ExpenseDetail, name: string, amount: Option<real>, date: string,
                       isAd: bool, link: string, includeInCost: bool, percentage: Option<real>): (r: ExpenseDetail)
    ensures r.description == name && r.amount == Numbers.ParseOrZero(amount) && r.date == date
    ensures isAd ==> (r.link == Some(link) && r.includeInCost == Some(includeInCost)
      && r.costPercentage == Some(PercentOr100(percentage)))
    ensures !isAd ==> r.link == e.link && r.includeInCost == e.includeInCost && r.costPercentage == e.costPercentage
  {
    var base := e.(description := name, amount := Numbers.ParseOrZero(amount), date := date);
    if isAd then base.(link := Some(link), includeInCost := Some(includeInCost), costPercentage := Some(PercentOr100(percentage)))
    else base
  }

  /**
   * The cost line under an advertising expense: not counted when the flag is
   * explicitly false; a partial amount when a percentage below 100 is recorded;
   * otherwise the full amount, with no extra line.
   */
  function CostDisplay(e: ExpenseDetail): (c: CostLine)
    ensures c == NotCounted <==> e.includeInCost == Some(false)
    ensures c.Partial? <==> e.includeInCost != Some(false) && e.costPercentage.Some? && e.costPercentage.value < 100.0
    ensures c.Partial? ==> c.cost * 100.0 == e.amount * e.costPercentage.value
  {
    if e.includeInCost == Some(false) then NotCounted
    else if e.costPercentage.Some? && e.costPercentage.value < 100.0 then Partial(e.amount * (e.costPercentage.value / 100.0))
    else Full
  }

  /** For a non-negative amount and percentage, the counted part never exceeds the amount. */
  lemma PartialCostBounded(e: ExpenseDetail)
    requires 0.0 <= e.amount
    requires e.costPercentage.Some? ==> 0.0 <= e.costPercentage.value
    ensures CostDisplay(e).Partial? ==> 0.0 <= CostDisplay(e).cost <= e.amount
  {
    if CostDisplay(e).Partial? {
      Numbers.FractionBounds(e.amount, e.costPercentage.value / 100.0);
    }
  }

  /**
   * A stored notes value: absent is the empty map; otherwise the parsed map.
   * `None` is a value that does not parse.
   */
  function LoadedNotes<V>(saved: map<string, Option<map<int, V>>>, key: string): Option<map<int, V>> {
    if key !in saved then Some(map[]) else saved[key]
  }

  /**
   * The notes maps the opening effect leaves: with no category nothing is
   * loaded; otherwise each stored value is loaded, an absent one is empty, and
   * if either stored value does not parse both maps are empty.
   */
  function OpenNotes(savedNotes: map<string, Option<map<int, string>>>,
                     savedStructured: map<string, Option<map<int, seq<NoteRow>>>>,
                     category: string): (r: (map<int, string>, map<int, seq<NoteRow>>))
    ensures category == "" ==> r == (map[], map[])
    ensures var n := LoadedNotes(savedNotes, NotesKey(category));
      var s := LoadedNotes(savedStructured, StructuredKey(category));
      category != "" ==>
        (n.Some? && s.Some? ==> r == (n.value, s.value))
        && (n.None? || s.None? ==> r == (map[], map[]))
  {
    var n := LoadedNotes(savedNotes, NotesKey(category));
    var s := LoadedNotes(savedStructured, StructuredKey(category));
    if category == "" then (map[], map[])
    else if n.Some? && s.Some? then (n.value, s.value)
    else (map[], map[])
  }

  /**
   * The editing state of the list: which expense, note or structured note is
   * open, and the values typed so far. `amount` and `costPercentage` are
   * `parseFloat` of their inputs; `None` stands for NaN.
   */
  datatype EditState = EditState(
    editingExpense: Option<nat>, editingNote: Option<nat>, editingStructuredNote: Option<nat>,
    link: string, note: string, expenseName: string, expenseAmount: Option<real>, expenseDate: string,
    includeInCost: bool, costPercentage: Option<real>, rows: seq<NoteRow>)

  /** Nothing open, every input at its initial value. */
  const Closed: EditState := EditState(None, None, None, "", "", "", None, "", true, Some(100.0), [])

  /**
   * One input of the expense edit form, with the value typed; the amount and
   * the percentage as `parseFloat` of their text (`None` for NaN).
   */
  datatype FormInput =
    | NameInput(name: string)
    | DateInput(date: string)
    | AmountInput(amount: Option<real>)
    | LinkInput(link: string)
    | IncludeInCostInput(counted: bool)
    | PercentageInput(percentage: Option<real>)
    | NoteInput(note: string)

  /**
   * The form after one input: exactly the field that input is bound to takes
   * the value; which expense is being edited and the note rows never change.
   */
  function WithInput(e: EditState, input: FormInput): (r: EditState)
    ensures r.editingExpense == e.editingExpense && r.editingNote == e.editingNote
    ensures r.editingStructuredNote == e.editingStructuredNote && r.rows == e.rows
    ensures input.NameInput? ==> r == e.(expenseName := input.name)
    ensures input.DateInput? ==> r == e.(expenseDate := input.date)
    ensures input.AmountInput? ==> r == e.(expenseAmount := input.amount)
    ensures input.LinkInput? ==> r == e.(link := input.link)
    ensures input.IncludeInCostInput? ==> r == e.(includeInCost := input.counted)
    ensures input.PercentageInput? ==> r == e.(costPercentage := input.percentage)
    ensures input.NoteInput? ==> r == e.(note := input.note)
  {
    match input
    case NameInput(name) => e.(expenseName := name)
    case DateInput(date) => e.(expenseDate := date)
    case AmountInput(amount) => e.(expenseAmount := amount)
    case LinkInput(link) => e.(link := link)
    case IncludeInCostInput(counted) => e.(includeInCost := counted)
    case PercentageInput(percentage) => e.(costPercentage := percentage)
    case NoteInput(note) => e.(note := note)
  }

  /** The state of the expense list for one category and month. */
  class ExpenseEditor {
    const category: string
    /** The two local-storage keys of the category's notes. */
    const notesKey: string
    const structuredKey: string
    /** `editedExpenses`. */
    var expenses: seq<ExpenseDetail>
    /** `expenseNotes` and `structuredNotes`, keyed by position in the list. */
    var notes: map<int, string>
    var structuredNotes: map<int, seq<NoteRow>>
    /** Local storage for the two notes keys: absent, unparseable (`None`) or parsed. */
    var savedNotes: map<string, Option<map<int, string>>>
    var savedStructured: map<string, Option<map<int, seq<NoteRow>>>>
    /** The list last handed to `onExpensesUpdate`, if any. */
    var published: Option<seq<ExpenseDetail>>
    /** The `editing…` and `temp…` state variables. */
    var edit: EditState
    var showAddForm: bool
    var newExpense: NewExpense

    /** Opening the list: the expenses given, the notes maps loaded; `today` starts the add form. */
    constructor Open(category: string, expenses: seq<ExpenseDetail>,
                     savedNotes: map<string, Option<map<int, string>>>,
                     savedStructured: map<string, Option<map<int, seq<NoteRow>>>>, today: string)
      ensures this.category == category && this.expenses == expenses
      ensures notesKey == NotesKey(category) && structuredKey == StructuredKey(category)
      ensures (notes, structuredNotes) == OpenNotes(savedNotes, savedStructured, category)
      ensures this.savedNotes == savedNotes && this.savedStructured == savedStructured
      ensures published.None? && edit == Closed
      ensures !showAddForm && newExpense == NewExpense("", today, "")
    {
      this.category := category;
      notesKey := NotesKey(category);
      structuredKey := StructuredKey(category);
      this.expenses := expenses;
      var loaded := OpenNotes(savedNotes, savedStructured, category);
      notes := loaded.0;
      structuredNotes := loaded.1;
      this.savedNotes := savedNotes;
      this.savedStructured := savedStructured;
      published := None;
      edit := Closed;
      showAddForm := false;
      newExpense := NewExpense("", today, "");
    }

    /** `handleAddLink(index)`. */
    method HandleAddLink(index: nat)
      modifies this
      ensures edit == old(edit).(editingExpense := Some(index),
        link := if index < |expenses| && expenses[index].link.Some? then expenses[index].link.value else "")
      ensures expenses == old(expenses) && notes == old(notes) && structuredNotes == old(structuredNotes)
      ensures savedNotes == old(savedNotes) && savedStructured == old(savedStructured) && published == old(published) && showAddForm == old(showAddForm) && newExpense == old(newExpense)
    {
      edit := edit.(editingExpense := Some(index),
        link := if index < |expenses| && expenses[index].link.Some? then expenses[index].link.value else "");
    }

    /** `handleSaveLink(index)`: only that expense's link changes. */
    method HandleSaveLink(index: nat)
      requires index < |expenses|
      modifies this
      ensures expenses == old(expenses)[index := old(expenses)[index].(link := Some(old(edit).link))]
      ensures edit == old(edit).(editingExpense := None, link := "")
      ensures notes == old(notes) && structuredNotes == old(structuredNotes) && published == old(published)
      ensures savedNotes == old(savedNotes) && savedStructured == old(savedStructured) && showAddForm == old(showAddForm) && newExpense == old(newExpense)
    {
      expenses := expenses[index := expenses[index].(link := Some(edit.link))];
      edit := edit.(editingExpense := None, link := "");
    }

    /** `handleAddNote(index)`. */
    method HandleAddNote(index: nat)
      modifies this
      ensures edit == old(edit).(editingNote := Some(index), note := if index in notes then notes[index] else "")
      ensures expenses == old(expenses) && notes == old(notes) && structuredNotes == old(structuredNotes)
      ensures savedNotes == old(savedNotes) && savedStructured == old(savedStructured) && published == old(published) && showAddForm == old(showAddForm) && newExpense == old(newExpense)
    {
      edit := edit.(editingNote := Some(index), note := if index in notes then notes[index] else "");
    }

    /** `handleSaveNote(index)`: stores the note, even an empty one, and writes the whole map. */
    method HandleSaveNote(index: nat)
      modifies this
      ensures notes == old(notes)[index := old(edit).note]
      ensures savedNotes == old(savedNotes)[notesKey := Some(notes)]
      ensures edit == old(edit).(editingNote := None, note := "")
      ensures expenses == old(expenses) && structuredNotes == old(structuredNotes) && savedStructured == old(savedStructured)
      ensures published == old(published) && showAddForm == old(showAddForm) && newExpense == old(newExpense)
    {
      notes := notes[index := edit.note];
      savedNotes := savedNotes[notesKey := Some(notes)];
      edit := edit.(editingNote := None, note := "");
    }

    /** `handleAddStructuredNote(index)`: the stored rows, or one blank row. */
    method HandleAddStructuredNote(index: nat)
      modifies this
      ensures edit == old(edit).(editingStructuredNote := Some(index),
        rows := if index in structuredNotes then structuredNotes[index] else [BlankRow])
      ensures expenses == old(expenses) && notes == old(notes) && structuredNotes == old(structuredNotes)
      ensures savedNotes == old(savedNotes) && savedStructured == old(savedStructured) && published == old(published) && showAddForm == old(showAddForm) && newExpense == old(newExpense)
    {
      edit := edit.(editingStructuredNote := Some(index),
        rows := if index in structuredNotes then structuredNotes[index] else [BlankRow]);
    }

    /** `handleSaveStructuredNote(index)`: stores the filtered rows, even when none is left. */
    method HandleSaveStructuredNote(index: nat)
      modifies this
      ensures structuredNotes == old(structuredNotes)[index := ValidRows(old(edit).rows)]
      ensures savedStructured == old(savedStructured)[structuredKey := Some(structuredNotes)]
      ensures edit == old(edit).(editingStructuredNote := None, rows := [])
      ensures expenses == old(expenses) && notes == old(notes) && savedNotes == old(savedNotes)
      ensures published == old(published) && showAddForm == old(showAddForm) && newExpense == old(newExpense)
    {
      structuredNotes := structuredNotes[index := ValidRows(edit.rows)];
      savedStructured := savedStructured[structuredKey := Some(structuredNotes)];
      edit := edit.(editingStructuredNote := None, rows := []);
    }

    /** `addNoteRow`: appends one blank row. */
    method AddNoteRow()
      modifies this
      ensures edit == old(edit).(rows := old(edit).rows + [BlankRow])
      ensures expenses == old(expenses) && notes == old(notes) && structuredNotes == old(structuredNotes)
      ensures savedNotes == old(savedNotes) && savedStructured == old(savedStructured) && published == old(published) && showAddForm == old(showAddForm) && newExpense == old(newExpense)
    {
      edit := edit.(rows := edit.rows + [BlankRow]);
    }

    /** `removeNoteRow(rowIndex)`: drops only that row. */
    method RemoveNoteRow(rowIndex: int)
      modifies this
      ensures edit == old(edit).(rows := Seqs.RemoveAt(old(edit).rows, rowIndex))
      ensures expenses == old(expenses) && notes == old(notes) && structuredNotes == old(structuredNotes)
      ensures savedNotes == old(savedNotes) && savedStructured == old(savedStructured) && published == old(published) && showAddForm == old(showAddForm) && newExpense == old(newExpense)
    {
      edit := edit.(rows := Seqs.RemoveAt(edit.rows, rowIndex));
    }

    /** `updateNoteRow(rowIndex, field, value)`: changes one field of one row. */
    method UpdateNoteRow(rowIndex: int, field: RowField, value: string)
      modifies this
      ensures edit == old(edit).(rows := edit.rows)
      ensures |edit.rows| == |old(edit).rows|
      ensures 0 <= rowIndex < |edit.rows| ==> edit.rows[rowIndex] == WithRowField(old(edit).rows[rowIndex], field, value)
      ensures forall j :: 0 <= j < |edit.rows| && j != rowIndex ==> edit.rows[j] == old(edit).rows[j]
      ensures expenses == old(expenses) && notes == old(notes) && structuredNotes == old(structuredNotes)
      ensures savedNotes == old(savedNotes) && savedStructured == old(savedStructured) && published == old(published) && showAddForm == old(showAddForm) && newExpense == old(newExpense)
    {
      if 0 <= rowIndex < |edit.rows| {
        edit := edit.(rows := edit.rows[rowIndex := WithRowField(edit.rows[rowIndex], field, value)]);
      }
    }

    /** The add button: shows the add form. */
    method OpenAddForm()
      modifies this
      ensures showAddForm
      ensures expenses == old(expenses) && published == old(published) && edit == old(edit) && newExpense == old(newExpense)
      ensures notes == old(notes) && structuredNotes == old(structuredNotes) && savedNotes == old(savedNotes) && savedStructured == old(savedStructured)
    {
      showAddForm := true;
    }

    /** One input of the add form. */
    method EditNewExpense(form: NewExpense)
      modifies this
      ensures newExpense == form
      ensures expenses == old(expenses) && published == old(published) && edit == old(edit)
      ensures notes == old(notes) && structuredNotes == old(structuredNotes) && savedNotes == old(savedNotes) && savedStructured == old(savedStructured) && showAddForm == old(showAddForm)
    {
      newExpense := form;
    }

    /**
     * `handleAddExpense`: with a non-empty description and amount text,
     * appends one expense and resets the form; otherwise nothing changes.
     * `amount` is `parseFloat` of the amount text.
     */
    method HandleAddExpense(amount: real, today: string)
      modifies this
      ensures old(newExpense).description == "" || old(newExpense).amount == "" ==>
        expenses == old(expenses) && published == old(published)
        && newExpense == old(newExpense) && showAddForm == old(showAddForm)
      ensures old(newExpense).description != "" && old(newExpense).amount != "" ==>
        expenses == old(expenses) + [NewEntry(old(newExpense), amount, IsAdvertisement(category))]
        && published == Some(expenses)
        && newExpense == NewExpense("", today, "") && !showAddForm
      ensures notes == old(notes) && structuredNotes == old(structuredNotes) && edit == old(edit)
      ensures savedNotes == old(savedNotes) && savedStructured == old(savedStructured)
    {
      if newExpense.description != "" && newExpense.amount != "" {
        expenses := expenses + [NewEntry(newExpense, amount, IsAdvertisement(category))];
        published := Some(expenses);
        newExpense := NewExpense("", today, "");
        showAddForm := false;
      }
    }

    /** `handleCancelAdd`. */
    method HandleCancelAdd(today: string)
      modifies this
      ensures newExpense == NewExpense("", today, "") && !showAddForm
      ensures expenses == old(expenses) && published == old(published) && edit == old(edit)
      ensures notes == old(notes) && structuredNotes == old(structuredNotes) && savedNotes == old(savedNotes) && savedStructured == old(savedStructured)
    {
      newExpense := NewExpense("", today, "");
      showAddForm := false;
    }

    /** `handleDeleteExpense(index)`: when confirmed, removes exactly that expense and keeps the others in order. */
    method HandleDeleteExpense(index: int, confirmed: bool)
      modifies this
      ensures !confirmed ==> expenses == old(expenses) && published == old(published)
      ensures confirmed ==> expenses == Seqs.RemoveAt(old(expenses), index) && published == Some(expenses)
      ensures notes == old(notes) && structuredNotes == old(structuredNotes) && edit == old(edit)
      ensures savedNotes == old(savedNotes) && savedStructured == old(savedStructured) && showAddForm == old(showAddForm) && newExpense == old(newExpense)
    {
      if confirmed {
        expenses := Seqs.RemoveAt(expenses, index);
        published := Some(expenses);
      }
    }

    /**
     * `handleEditExpense(index)`: loads the form from the expense and its
     * notes; the link, the counted flag and the percentage only for an
     * advertising category.
     */
    method HandleEditExpense(index: nat)
      requires index < |expenses|
      modifies this
      ensures expenses == old(expenses) && notes == old(notes) && structuredNotes == old(structuredNotes)
      ensures var e := expenses[index];
        var loaded := old(edit).(editingExpense := Some(index), expenseName := e.description,
          expenseAmount := Some(e.amount), expenseDate := e.date,
          note := if index in notes then notes[index] else "",
          rows := if index in structuredNotes then structuredNotes[index] else [BlankRow]);
        edit == if IsAdvertisement(category) then
          loaded.(link := e.link.GetOr(""), includeInCost := e.includeInCost.GetOr(true),
                  costPercentage := Some(e.costPercentage.GetOr(100.0)))
        else loaded
      ensures savedNotes == old(savedNotes) && savedStructured == old(savedStructured) && published == old(published) && showAddForm == old(showAddForm) && newExpense == old(newExpense)
    {
      var e := expenses[index];
      var loaded := edit.(editingExpense := Some(index), expenseName := e.description,
        expenseAmount := Some(e.amount), expenseDate := e.date,
        note := if index in notes then notes[index] else "",
        rows := if index in structuredNotes then structuredNotes[index] else [BlankRow]);
      if IsAdvertisement(category) {
        edit := loaded.(link := e.link.GetOr(""), includeInCost := e.includeInCost.GetOr(true),
                        costPercentage := Some(e.costPercentage.GetOr(100.0)));
      } else {
        edit := loaded;
      }
    }

    /** Typing in the expense edit form: only the bound field of the form changes. */
    method EditExpenseForm(input: FormInput)
      modifies this
      ensures edit == WithInput(old(edit), input)
      ensures expenses == old(expenses) && notes == old(notes) && structuredNotes == old(structuredNotes)
      ensures savedNotes == old(savedNotes) && savedStructured == old(savedStructured) && published == old(published)
      ensures showAddForm == old(showAddForm) && newExpense == old(newExpense)
    {
      edit := WithInput(edit, input);
    }

    /**
     * `handleSaveExpense(index)`: only that expense changes; the free-text note
     * is stored only when it is not blank, the structured note only when some
     * row survives the filter; then the form is reset.
     */
    method HandleSaveExpense(index: nat)
      requires index < |expenses|
      modifies this
      ensures var f := old(edit);
        expenses == old(expenses)[index := EditedEntry(old(expenses)[index], f.expenseName, f.expenseAmount,
          f.expenseDate, IsAdvertisement(category), f.link, f.includeInCost, f.costPercentage)]
      ensures !Text.AllSpace(old(edit).note) ==>
        notes == old(notes)[index := old(edit).note] && savedNotes == old(savedNotes)[notesKey := Some(notes)]
      ensures Text.AllSpace(old(edit).note) ==> notes == old(notes) && savedNotes == old(savedNotes)
      ensures ValidRows(old(edit).rows) != [] ==>
        structuredNotes == old(structuredNotes)[index := ValidRows(old(edit).rows)]
        && savedStructured == old(savedStructured)[structuredKey := Some(structuredNotes)]
      ensures ValidRows(old(edit).rows) == [] ==>
        structuredNotes == old(structuredNotes) && savedStructured == old(savedStructured)
      ensures published == Some(expenses)
      ensures edit == Closed.(editingNote := old(edit).editingNote, editingStructuredNote := old(edit).editingStructuredNote)
      ensures showAddForm == old(showAddForm) && newExpense == old(newExpense)
    {
      var f := edit;
      var edited := EditedEntry(expenses[index], f.expenseName, f.expenseAmount, f.expenseDate,
        IsAdvertisement(category), f.link, f.includeInCost, f.costPercentage);
      StoreNote(index, f.note);
      StoreRows(index, f.rows);
      expenses := expenses[index := edited];
      published := Some(expenses);
      edit := Closed.(editingNote := f.editingNote, editingStructuredNote := f.editingStructuredNote);
    }

    /** The notes step of `handleSaveExpense`: a note that is not blank is stored and persisted. */
    method StoreNote(index: nat, note: string)
      modifies this
      ensures !Text.AllSpace(note) ==>
        notes == old(notes)[index := note] && savedNotes == old(savedNotes)[notesKey := Some(notes)]
      ensures Text.AllSpace(note) ==> notes == old(notes) && savedNotes == old(savedNotes)
      ensures expenses == old(expenses) && structuredNotes == old(structuredNotes) && savedStructured == old(savedStructured)
      ensures edit == old(edit)
      ensures published == old(published) && showAddForm == old(showAddForm) && newExpense == old(newExpense)
    {
      if !Text.AllSpace(note) {
        notes := notes[index := note];
        savedNotes := savedNotes[notesKey := Some(notes)];
      }
    }

    /** The structured-notes step of `handleSaveExpense`: stored and persisted only when some row survives the filter. */
    method StoreRows(index: nat, rows: seq<NoteRow>)
      modifies this
      ensures ValidRows(rows) != [] ==>
        structuredNotes == old(structuredNotes)[index := ValidRows(rows)]
        && savedStructured == old(savedStructured)[structuredKey := Some(structuredNotes)]
      ensures ValidRows(rows) == [] ==> structuredNotes == old(structuredNotes) && savedStructured == old(savedStructured)
      ensures expenses == old(expenses) && notes == old(notes) && savedNotes == old(savedNotes)
      ensures edit == old(edit)
      ensures published == old(published) && showAddForm == old(showAddForm) && newExpense == old(newExpense)
    {
      var valid := ValidRows(rows);
      if |valid| > 0 {
        structuredNotes := structuredNotes[index := valid];
        savedStructured := savedStructured[structuredKey := Some(structuredNotes)];
      }
    }

    /** `handleCancelEdit`: clears every edit in progress. */
    method HandleCancelEdit()
      modifies this
      ensures edit == Closed
      ensures expenses == old(expenses) && notes == old(notes) && structuredNotes == old(structuredNotes)
      ensures published == old(published)
      ensures savedNotes == old(savedNotes) && savedStructured == old(savedStructured) && showAddForm == old(showAddForm) && newExpense == old(newExpense)
    {
      edit := Closed;
    }
  }

  /**
   * Notes are keyed by position and are not re-keyed when an expense is
   * deleted: after deleting position `i`, the expense that moves into
   * position `j >= i` is shown with the note stored for position `j`, which
   * was written for the expense that used to be there.
   */
  lemma NotesStayByPosition(expenses: seq<ExpenseDetail>, i: int, j: int)
    requires 0 <= i <= j && j + 1 < |expenses| && expenses[j] != expenses[j + 1]
    ensures var after := Seqs.RemoveAt(expenses, i);
      j < |after| && after[j] == expenses[j + 1] && after[j] != expenses[j]
  {
  }
}
