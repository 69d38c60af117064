/**
 * The income list of `src/components/IncomeDetailModal.tsx`: the hard-coded
 * concert-detail table behind `getConcertDetails`, and the editors that add a
 * concert, rename one and delete one.
 */
module Income {
  import opened Wrappers
  import Concert
  import Seqs
  import Dashboard

  /** The `details` of a concert name absent from the table: every figure 0, `emre` included. */
  const ZeroDetails: Concert.ConcertDetails :=
    Concert.ConcertDetails(0.0, 0.0, 0.0, 0.0, 0.0, 0.0, 0.0, Some(0.0), None, 0.0)

  /** `concertDetailsMap`: the per-concert breakdown, keyed by the income's description. */
  function ConcertTable(): map<string, Concert.ConcertDetails> {
    map[
      "Büyükçekmece Konseri" := Concert.ConcertDetails(122000.0, 20000.0, 0.0, 0.0, 0.0, 0.0, 350000.0, Some(166400.0), None, 41600.0),
      "Kıbrıs Avlu Konseri" := Concert.ConcertDetails(112000.0, 10000.0, 0.0, 0.0, 0.0, 0.0, 200000.0, Some(62400.0), None, 15600.0),
      "Fethiye Hayal Konseri" := Concert.ConcertDetails(117000.0, 15000.0, 0.0, 0.0, 13500.0, 0.0, 200000.0, Some(43600.0), None, 10900.0),
      "Kocaeli Hayal Konseri" := Concert.ConcertDetails(122000.0, 0.0, 6200.0, 0.0, 0.0, 0.0, 171400.0, Some(34560.0), None, 8640.0),
      "Çorlu Lebi Derya Konseri" := Concert.ConcertDetails(122000.0, 0.0, 3000.0, 0.0, 0.0, 0.0, 250000.0, Some(100000.0), None, 25000.0),
      "Sancaktepe Nefes Konseri" := Concert.ConcertDetails(122000.0, 10000.0, 0.0, 0.0, 0.0, 0.0, 350000.0, Some(174400.0), None, 43600.0),
      "Kıbrıs Belediye Konseri" := Concert.ConcertDetails(117000.0, 10000.0, 20000.0, 0.0, 1600.0, 0.0, 400000.0, Some(201120.0), None, 50280.0),
      "İzmir Havagazi Konseri" := Concert.ConcertDetails(122000.0, 30000.0, 5000.0, 0.0, 0.0, 0.0, 400000.0, Some(194400.0), None, 48600.0),
      "Bahçelievler Bld. Konseri" := Concert.ConcertDetails(127000.0, 20000.0, 25000.0, 0.0, 0.0, 0.0, 500000.0, Some(262400.0), None, 65600.0),
      "Tuana Ankara IF Konseri" := Concert.ConcertDetails(55100.0, 0.0, 8567.0, 0.0, 0.0, 0.0, 24090.0, None, Some(0.0), -39577.0),
      "Denizli Fuar 3 Tem" := Concert.ConcertDetails(130000.0, 0.0, 0.0, 0.0, 0.0, 0.0, 400000.0, Some(216000.0), None, 54000.0),
      "Çanakkale Karabiga 5 Tem" := Concert.ConcertDetails(127000.0, 5000.0, 5000.0, 0.0, 0.0, 0.0, 500000.0, Some(290400.0), None, 72600.0),
      "Emre FYİ Büyükada 6 Tem" := Concert.ConcertDetails(122000.0, 0.0, 0.0, 0.0, 0.0, 0.0, 225000.0, Some(82400.0), None, 20600.0),
      "Tuana FYİ Büyükada 6 Tem" := Concert.ConcertDetails(56500.0, 0.0, 0.0, 0.0, 1000.0, 0.0, 30000.0, None, Some(0.0), -27500.0),
      "Ankara IF 9 Tem" := Concert.ConcertDetails(100000.0, 0.0, 0.0, 0.0, 0.0, 0.0, 176000.0, Some(60800.0), None, 15200.0),
      "Dorock XL 10 Tem" := Concert.ConcertDetails(123000.0, 0.0, 12000.0, 0.0, 0.0, 0.0, 186600.0, Some(41280.0), None, 10320.0),
      "Emre Kuşadası 24 Tem" := Concert.ConcertDetails(123000.0, 10000.0, 0.0, 0.0, 5800.0, 0.0, 250000.0, Some(88960.0), None, 22240.0),
      "Tuana Kuşadası 27 Tem" := Concert.ConcertDetails(57500.0, 0.0, 0.0, 0.0, 1000.0, 0.0, 80000.0, None, Some(21500.0), 0.0)
    ]
  }

  /** `getConcertDetails(name)`: the table entry, or the all-zero record for a name the table does not have. */
  function GetConcertDetails(concertName: string): (d: Concert.ConcertDetails)
    ensures concertName in ConcertTable() ==> d == ConcertTable()[concertName]
    ensures concertName !in ConcertTable() ==> d == ZeroDetails
  {
    var table := ConcertTable();
    if concertName in table then table[concertName] else ZeroDetails
  }

  /** An unknown concert opens with nothing to split: every share is 0. */
  lemma UnknownConcertIsZero(concertName: string)
    requires concertName !in ConcertTable()
    ensures Concert.ConcertShares(map[], GetConcertDetails(concertName)) == Concert.Shares(0.0, 0.0, 0.0, 0.0, 0.0)
  {
  }

  /**
   * Every table entry that records Emre's share agrees with the split the
   * concert sheet computes from the same figures: 4/5 and 1/5 of what the fee
   * leaves after the six expense categories.
   */
  lemma TableAgreesWithSplit()
    ensures forall name :: name in ConcertTable() && ConcertTable()[name].emre.Some? ==>
      var d := ConcertTable()[name];
      var s := Concert.ConcertShares(map[], d);
      s.emre == d.emre.value && s.hoze == d.hoze
  {
  }

  /** The entries without an Emre share give the whole net profit to Tuana and Hoze together. */
  lemma TuanaEntriesSplitNet()
    ensures forall name :: name in ConcertTable() && ConcertTable()[name].emre.None? ==>
      var d := ConcertTable()[name];
      d.tuana.Some? && d.tuana.value + d.hoze == Concert.ConcertShares(map[], d).netProfit
  {
  }

  /**
   * The dashboard's Haziran concert incomes against the table: each equals
   * the concert's Hoze share, except Büyükçekmece, listed at 43600 while its
   * table share is 41600.
   */
  lemma HaziranIncomesAgainstTable(digital: map<string, int>)
    ensures var items := Dashboard.HaziranData(digital).incomes[0].items;
      items[0].amount == GetConcertDetails(items[0].description).hoze + 2000.0
      && forall i :: 1 <= i < |items| ==> items[i].amount == GetConcertDetails(items[i].description).hoze
  {
  }

  /** The dashboard's Temmuz concert incomes each equal the concert's Hoze share in the table. */
  lemma TemmuzIncomesAgainstTable(digital: map<string, int>)
    ensures var items := Dashboard.TemmuzData(digital).incomes[0].items;
      forall i :: 0 <= i < |items| ==> items[i].amount == GetConcertDetails(items[i].description).hoze
  {
  }

  /** The add-concert form: the three text inputs. */
  datatype NewConcert = NewConcert(name: string, date: string, amount: string)

  /** The state of the income list for one category and month. */
  class IncomeEditor {
    /** `editedIncomes`. */
    var incomes: seq<Dashboard.Item>
    /** `editingConcert` and `tempConcertName`. */
    var editingConcert: Option<nat>
    var tempConcertName: string
    var showAddForm: bool
    var newConcert: NewConcert
    /** The list last handed to `onIncomesUpdate`, if any. */
    var published: Option<seq<Dashboard.Item>>
    /** `selectedConcert`: the income whose breakdown is open, with its table details. */
    var selectedConcert: Option<(Dashboard.Item, Concert.ConcertDetails)>
    /** `isConcertModalOpen`. */
    var concertModalOpen: bool

    /** Opening the list on the dashboard's incomes; `today` is the date the add form starts with. */
    constructor Open(incomes: seq<Dashboard.Item>, today: string)
      ensures this.incomes == incomes
      ensures editingConcert.None? && tempConcertName == "" && !showAddForm
      ensures newConcert == NewConcert("", today, "")
      ensures published.None? && selectedConcert.None? && !concertModalOpen
    {
      this.incomes := incomes;
      editingConcert := None;
      tempConcertName := "";
      showAddForm := false;
      newConcert := NewConcert("", today, "");
      published := None;
      selectedConcert := None;
      concertModalOpen := false;
    }

    /** `handleConcertClick`: opens the breakdown of an income with the table's details for its description. */
    method HandleConcertClick(income: Dashboard.Item)
      modifies this
      ensures selectedConcert == Some((income, GetConcertDetails(income.description))) && concertModalOpen
      ensures incomes == old(incomes) && published == old(published)
      ensures editingConcert == old(editingConcert) && tempConcertName == old(tempConcertName)
      ensures showAddForm == old(showAddForm) && newConcert == old(newConcert)
    {
      selectedConcert := Some((income, GetConcertDetails(income.description)));
      concertModalOpen := true;
    }

    /**
     * The breakdown's `onClose`: hides it, while `selectedConcert` stays set,
     * so the breakdown stays mounted.
     */
    method CloseConcertModal()
      modifies this
      ensures !concertModalOpen && selectedConcert == old(selectedConcert)
      ensures incomes == old(incomes) && published == old(published)
      ensures editingConcert == old(editingConcert) && tempConcertName == old(tempConcertName)
      ensures showAddForm == old(showAddForm) && newConcert == old(newConcert)
    {
      concertModalOpen := false;
    }

    /** `handleEditConcertName`. */
    method HandleEditConcertName(index: nat, currentName: string)
      modifies this
      ensures editingConcert == Some(index) && tempConcertName == currentName
      ensures incomes == old(incomes) && published == old(published)
      ensures showAddForm == old(showAddForm) && newConcert == old(newConcert)
      ensures selectedConcert == old(selectedConcert) && concertModalOpen == old(concertModalOpen)
    {
      editingConcert := Some(index);
      tempConcertName := currentName;
    }

    /** `handleSaveConcertName(index)`: only that income's description changes, to the edited name. */
    method HandleSaveConcertName(index: nat)
      requires index < |incomes|
      modifies this
      ensures |incomes| == |old(incomes)|
      ensures incomes[index] == old(incomes)[index].(description := old(tempConcertName))
      ensures forall j :: 0 <= j < |incomes| && j != index ==> incomes[j] == old(incomes)[j]
      ensures published == Some(incomes)
      ensures editingConcert.None? && tempConcertName == ""
      ensures showAddForm == old(showAddForm) && newConcert == old(newConcert)
      ensures selectedConcert == old(selectedConcert) && concertModalOpen == old(concertModalOpen)
    {
      incomes := incomes[index := incomes[index].(description := tempConcertName)];
      published := Some(incomes);
      editingConcert := None;
      tempConcertName := "";
    }

    /** `handleCancelEdit`. */
    method HandleCancelEdit()
      modifies this
      ensures editingConcert.None? && tempConcertName == ""
      ensures incomes == old(incomes) && published == old(published)
      ensures showAddForm == old(showAddForm) && newConcert == old(newConcert)
      ensures selectedConcert == old(selectedConcert) && concertModalOpen == old(concertModalOpen)
    {
      editingConcert := None;
      tempConcertName := "";
    }

    /** Typing in the rename input: only the name being edited changes. */
    method SetTempConcertName(name: string)
      modifies this
      ensures tempConcertName == name
      ensures editingConcert == old(editingConcert) && incomes == old(incomes) && published == old(published)
      ensures showAddForm == old(showAddForm) && newConcert == old(newConcert)
      ensures selectedConcert == old(selectedConcert) && concertModalOpen == old(concertModalOpen)
    {
      tempConcertName := name;
    }

    /** One input of the add form. */
    method EditNewConcert(form: NewConcert)
      modifies this
      ensures newConcert == form
      ensures incomes == old(incomes) && published == old(published)
      ensures showAddForm == old(showAddForm)
      ensures editingConcert == old(editingConcert) && tempConcertName == old(tempConcertName)
      ensures selectedConcert == old(selectedConcert) && concertModalOpen == old(concertModalOpen)
    {
      newConcert := form;
    }

    /**
     * `handleAddConcert`: with a non-empty name and amount text, appends one
     * income at the end and resets the form; otherwise nothing changes.
     * `amount` is `parseFloat` of the amount text.
     */
    method HandleAddConcert(amount: real, today: string)
      modifies this
      ensures old(newConcert).name == "" || old(newConcert).amount == "" ==>
        incomes == old(incomes) && published == old(published)
        && newConcert == old(newConcert) && showAddForm == old(showAddForm)
      ensures old(newConcert).name != "" && old(newConcert).amount != "" ==>
        incomes == old(incomes) + [Dashboard.Item(old(newConcert).date, amount, old(newConcert).name)]
        && published == Some(incomes)
        && newConcert == NewConcert("", today, "") && !showAddForm
      ensures editingConcert == old(editingConcert) && tempConcertName == old(tempConcertName)
      ensures selectedConcert == old(selectedConcert) && concertModalOpen == old(concertModalOpen)
    {
      if newConcert.name != "" && newConcert.amount != "" {
        incomes := incomes + [Dashboard.Item(newConcert.date, amount, newConcert.name)];
        published := Some(incomes);
        newConcert := NewConcert("", today, "");
        showAddForm := false;
      }
    }

    /** The add button: shows the add form. */
    method OpenAddForm()
      modifies this
      ensures showAddForm
      ensures incomes == old(incomes) && published == old(published) && newConcert == old(newConcert)
      ensures editingConcert == old(editingConcert) && tempConcertName == old(tempConcertName)
      ensures selectedConcert == old(selectedConcert) && concertModalOpen == old(concertModalOpen)
    {
      showAddForm := true;
    }

    /** `handleCancelAdd`. */
    method HandleCancelAdd(today: string)
      modifies this
      ensures newConcert == NewConcert("", today, "") && !showAddForm
      ensures incomes == old(incomes) && published == old(published)
      ensures editingConcert == old(editingConcert) && tempConcertName == old(tempConcertName)
      ensures selectedConcert == old(selectedConcert) && concertModalOpen == old(concertModalOpen)
    {
      newConcert := NewConcert("", today, "");
      showAddForm := false;
    }

    /** `handleDeleteIncome(index)`: when confirmed, removes exactly that income and keeps the others in order. */
    method HandleDeleteIncome(index: int, confirmed: bool)
      modifies this
      ensures !confirmed ==> incomes == old(incomes) && published == old(published)
      ensures confirmed ==> incomes == Seqs.RemoveAt(old(incomes), index) && published == Some(incomes)
      ensures editingConcert == old(editingConcert) && tempConcertName == old(tempConcertName)
      ensures showAddForm == old(showAddForm) && newConcert == old(newConcert)
      ensures selectedConcert == old(selectedConcert) && concertModalOpen == old(concertModalOpen)
    {
      if confirmed {
        incomes := Seqs.RemoveAt(incomes, index);
        published := Some(incomes);
      }
    }
  }
}
