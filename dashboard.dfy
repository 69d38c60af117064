/**
 * The figures of `src/components/Dashboard.tsx`: the per-month digital
 * income loaded from local storage, the mock monthly ledger, the income,
 * expense and net totals, the per-category totals and percentages, and the
 * routing of a click on an income category.
 */
module Dashboard {
  import opened Wrappers
  import Numbers
  import Digital

  /** One ledger line, `{date, amount, description}`. */
  datatype Item = Item(date: string, amount: real, description: string)

  /** One entry of `incomes` or `expenses`: a category name and its lines, in insertion order. */
  datatype Category = Category(name: string, items: seq<Item>)

  /** A month of the ledger. */
  datatype MonthData = MonthData(incomes: seq<Category>, expenses: seq<Category>)

  /** The three headline figures. */
  datatype Totals = Totals(totalIncome: real, totalExpense: real, netProfit: real)

  /** The months `loadDigitalIncomeData` reads. */
  const Months: seq<string> := ["Haziran", "Temmuz", "Ağustos", "Eylül", "Ekim", "Kasım", "Aralık"]
  /** The figure used for Haziran when its record is missing or unparseable. */
  const HaziranFallback: int := 159000
  const DigitalCategory: string := "Dijital Gelir"
  const ConcertCategory: string := "Konser Gelirleri"
  const CurrentMonth: string := "Haziran"

  /**
   * The dashboard value of one month: the rounded TRY share of a stored record
   * that parses, computed as the digital sheet computes it; otherwise 159000 for
   * Haziran and 0 for any other month.
   */
  function MonthValue(saved: map<string, Option<Digital.DigitalRecord>>, month: string): (v: int)
    ensures var key := Digital.StorageKey(month);
      key in saved && saved[key].Some? ==> v == Numbers.Round(Digital.ComputeSplit(saved[key].value).hozeShareTRY)
    ensures var key := Digital.StorageKey(month);
      (key !in saved || saved[key].None?) ==> v == (if month == "Haziran" then HaziranFallback else 0)
  {
    var key := Digital.StorageKey(month);
    if key in saved && saved[key].Some? then Numbers.Round(Digital.ComputeSplit(saved[key].value).hozeShareTRY)
    else if month == "Haziran" then HaziranFallback
    else 0
  }

  /**
   * The Haziran fall-back is a constant of its own: it is not the rounded
   * figure of the sheet's Haziran default, which is 127169.
   */
  lemma FallbackDiffersFromSheetDefault()
    ensures MonthValue(map[], "Haziran") == 159000
    ensures Numbers.Round(Digital.ComputeSplit(Digital.DefaultRecord("Haziran")).hozeShareTRY) == 127169
  {
    Digital.HaziranDefaultSplit();
    assert (127169.328 + 0.5).Floor == 127169;
  }

  /** After the sheet saves a record for a month, the dashboard shows that record's rounded TRY share. */
  lemma SavedRecordIsShown(saved: map<string, Option<Digital.DigitalRecord>>, month: string, rec: Digital.DigitalRecord)
    ensures MonthValue(saved[Digital.StorageKey(month) := Some(rec)], month)
      == Numbers.Round(Digital.ComputeSplit(rec).hozeShareTRY)
  {
  }

  /** `loadDigitalIncomeData`: one entry per listed month, filled in month by month. */
  method LoadDigitalIncomeData(saved: map<string, Option<Digital.DigitalRecord>>) returns (data: map<string, int>)
    ensures data.Keys == set m | m in Months
    ensures forall m :: m in Months ==> data[m] == MonthValue(saved, m)
  {
    data := map[];
    var i := 0;
    while i < |Months|
      invariant 0 <= i <= |Months|
      invariant data.Keys == set j | 0 <= j < i :: Months[j]
      invariant forall j :: 0 <= j < i ==> data[Months[j]] == MonthValue(saved, Months[j])
    {
      var month := Months[i];
      var value := ReadMonth(saved, month);
      data := data[month := value];
      i := i + 1;
    }
    assert forall m :: m in Months ==> exists j :: 0 <= j < |Months| && Months[j] == m;
  }

  /** The body of the loop in `loadDigitalIncomeData`: one month's figure, recomputed from its stored record. */
  method ReadMonth(saved: map<string, Option<Digital.DigitalRecord>>, month: string) returns (value: int)
    ensures value == MonthValue(saved, month)
  {
    var key := Digital.StorageKey(month);
    if key in saved && saved[key].Some? {
      var rec := saved[key].value;
      var taxAmount := rec.totalDigitalIncome * (rec.taxRate / 100.0);
      var afterTax := rec.totalDigitalIncome - taxAmount;
      var hozeShare := afterTax * (rec.hozeShareRate / 100.0);
      var hozeShareTRY := hozeShare * rec.usdToTryRate;
      value := Numbers.Round(hozeShareTRY);
    } else {
      value := if month == "Haziran" then HaziranFallback else 0;
    }
  }

  /** The digital-income line of a month: present only when the month's value is truthy (present and non-zero). */
  function DigitalItems(digital: map<string, int>, month: string, date: string): (items: seq<Item>)
    ensures |items| <= 1
    ensures items != [] <==> month in digital && digital[month] != 0
    ensures items != [] ==> items[0].amount == digital[month] as real
  {
    if month in digital && digital[month] != 0 then
      [Item(date, digital[month] as real, "Aylık Dijital Gelir Payı")]
    else []
  }

  /** The Haziran ledger. */
  function HaziranData(digital: map<string, int>): MonthData {
    MonthData(
      [ Category(ConcertCategory, [
          Item("2025-06-05", 43600.0, "Büyükçekmece Konseri"),
          Item("2025-06-12", 15600.0, "Kıbrıs Avlu Konseri"),
          Item("2025-06-19", 10900.0, "Fethiye Hayal Konseri"),
          Item("2025-06-26", 8640.0, "Kocaeli Hayal Konseri")]),
        Category(DigitalCategory, DigitalItems(digital, "Haziran", "2025-06-30"))],
      [ Category("Personel Maaş", [Item("2025-06-01", 45000.0, "Aylık Maaş Ödemeleri")]),
        Category("Kira", [Item("2025-06-01", 25000.0, "Ofis Kirası")]),
        Category("Reklam", [Item("2025-06-15", 34200.0, "Sosyal Medya Reklamları")])])
  }

  /** The Temmuz ledger; it is never displayed, since the current month is fixed to Haziran. */
  function TemmuzData(digital: map<string, int>): MonthData {
    MonthData(
      [ Category(ConcertCategory, [
          Item("2025-07-03", 54000.0, "Denizli Fuar 3 Tem"),
          Item("2025-07-05", 72600.0, "Çanakkale Karabiga 5 Tem"),
          Item("2025-07-06", 20600.0, "Emre FYİ Büyükada 6 Tem"),
          Item("2025-07-06", -27500.0, "Tuana FYİ Büyükada 6 Tem"),
          Item("2025-07-09", 15200.0, "Ankara IF 9 Tem"),
          Item("2025-07-10", 10320.0, "Dorock XL 10 Tem"),
          Item("2025-07-24", 22240.0, "Emre Kuşadası 24 Tem"),
          Item("2025-07-27", 0.0, "Tuana Kuşadası 27 Tem")]),
        Category(DigitalCategory, DigitalItems(digital, "Temmuz", "2025-07-31"))],
      [ Category("Personel Maaş", [Item("2025-07-01", 45000.0, "Aylık Maaş Ödemeleri")]),
        Category("Kira", [Item("2025-07-01", 25000.0, "Ofis Kirası")])])
  }

  /** `monthlyData`. */
  function MonthlyData(digital: map<string, int>): (m: map<string, MonthData>)
    ensures m.Keys == {"Haziran", "Temmuz"}
  {
    map["Haziran" := HaziranData(digital), "Temmuz" := TemmuzData(digital)]
  }

  /** `monthlyData[currentMonth] || { incomes: {}, expenses: {} }`. */
  function CurrentData(digital: map<string, int>): (r: MonthData)
    ensures r == HaziranData(digital)
  {
    var monthly := MonthlyData(digital);
    if CurrentMonth in monthly then monthly[CurrentMonth] else MonthData([], [])
  }

  /** `items.reduce((sum, item) => sum + item.amount, 0)`. */
  function ItemsTotal(items: seq<Item>): real
    decreases |items|
  {
    if items == [] then 0.0
    else ItemsTotal(items[..|items| - 1]) + items[|items| - 1].amount
  }

  /** Lines with no negative amount never give a negative total. */
  lemma {:induction false} ItemsTotalNonNegative(items: seq<Item>)
    requires forall i :: 0 <= i < |items| ==> items[i].amount >= 0.0
    ensures ItemsTotal(items) >= 0.0
    decreases |items|
  {
    if items != [] {
      ItemsTotalNonNegative(items[..|items| - 1]);
    }
  }

  lemma {:induction false} ItemsTotalAppend(a: seq<Item>, b: seq<Item>)
    ensures ItemsTotal(a + b) == ItemsTotal(a) + ItemsTotal(b)
    decreases |b|
  {
    if b == [] {
      assert a + b == a;
    } else {
      assert (a + b)[..|a + b| - 1] == a + b[..|b| - 1];
      ItemsTotalAppend(a, b[..|b| - 1]);
    }
  }

  /** `Object.values(categories).flat()`. */
  function Flatten(cats: seq<Category>): (items: seq<Item>)
    decreases |cats|
  {
    if cats == [] then []
    else Flatten(cats[..|cats| - 1]) + cats[|cats| - 1].items
  }

  /** The figure shown beside each category, in order. */
  function CategoryTotals(cats: seq<Category>): (totals: seq<real>)
    ensures |totals| == |cats|
    ensures forall i :: 0 <= i < |cats| ==> totals[i] == ItemsTotal(cats[i].items)
  {
    seq(|cats|, i requires 0 <= i < |cats| => ItemsTotal(cats[i].items))
  }

  function SumReals(xs: seq<real>): real
    decreases |xs|
  {
    if xs == [] then 0.0 else SumReals(xs[..|xs| - 1]) + xs[|xs| - 1]
  }

  /** The per-category totals add up to the total of every line of every category. */
  lemma {:induction false} CategoryTotalsSum(cats: seq<Category>)
    ensures SumReals(CategoryTotals(cats)) == ItemsTotal(Flatten(cats))
    decreases |cats|
  {
    if cats != [] {
      var init := cats[..|cats| - 1];
      assert CategoryTotals(cats)[..|cats| - 1] == CategoryTotals(init);
      CategoryTotalsSum(init);
      ItemsTotalAppend(Flatten(init), cats[|cats| - 1].items);
    }
  }

  /** `totalIncome`, `totalExpense` and `netProfit`. */
  function MonthTotals(md: MonthData): (t: Totals)
    ensures t.totalIncome == SumReals(CategoryTotals(md.incomes))
    ensures t.totalExpense == SumReals(CategoryTotals(md.expenses))
    ensures t.netProfit == t.totalIncome - t.totalExpense
  {
    CategoryTotalsSum(md.incomes);
    CategoryTotalsSum(md.expenses);
    var income := ItemsTotal(Flatten(md.incomes));
    var expense := ItemsTotal(Flatten(md.expenses));
    Totals(income, expense, income - expense)
  }

  /**
   * The Haziran headline: 78740 of concert income plus the digital value,
   * 104200 of expenses.
   */
  lemma HaziranTotals(digital: map<string, int>)
    ensures var d := if "Haziran" in digital then digital["Haziran"] as real else 0.0;
      MonthTotals(CurrentData(digital)) == Totals(78740.0 + d, 104200.0, 78740.0 + d - 104200.0)
  {
    var md := HaziranData(digital);
    assert CurrentData(digital) == md;
    var c := md.incomes[0].items;
    var di := md.incomes[1].items;
    HaziranConcertIncome(digital);
    assert ItemsTotal(di) == if "Haziran" in digital then digital["Haziran"] as real else 0.0 by {
      if di != [] {
        assert di[..0] == [];
      }
    }
    assert CategoryTotals(md.incomes) == [ItemsTotal(c), ItemsTotal(di)];
    var t := [ItemsTotal(c), ItemsTotal(di)];
    assert t[..1] == [ItemsTotal(c)] && [ItemsTotal(c)][..0] == [];
    assert SumReals([ItemsTotal(c)]) == ItemsTotal(c);
    assert SumReals(t) == ItemsTotal(c) + ItemsTotal(di);
    HaziranExpenses(digital);
  }

  /** The four Haziran concert lines add up to 78740. */
  lemma HaziranConcertIncome(digital: map<string, int>)
    ensures ItemsTotal(HaziranData(digital).incomes[0].items) == 78740.0
  {
    var c := HaziranData(digital).incomes[0].items;
    assert c[..1][..0] == [];
    assert ItemsTotal(c[..1]) == 43600.0;
    assert c[..2][..1] == c[..1];
    assert ItemsTotal(c[..2]) == 59200.0;
    assert c[..3][..2] == c[..2];
    assert ItemsTotal(c[..3]) == 70100.0;
    assert c[..|c| - 1] == c[..3];
  }

  /** The three Haziran expense categories add up to 104200. */
  lemma HaziranExpenses(digital: map<string, int>)
    ensures SumReals(CategoryTotals(HaziranData(digital).expenses)) == 104200.0
  {
    var md := HaziranData(digital);
    var e := CategoryTotals(md.expenses);
    assert e == [45000.0, 25000.0, 34200.0] by {
      assert md.expenses[0].items[..0] == [];
      assert md.expenses[1].items[..0] == [];
      assert md.expenses[2].items[..0] == [];
    }
    assert e[..2] == [45000.0, 25000.0] && e[..2][..1] == [45000.0] && [45000.0][..0] == [];
    assert SumReals([45000.0]) == 45000.0;
    assert SumReals(e[..2]) == 70000.0;
  }

  /** The percentage beside a category: computed only when the overall total is positive, otherwise shown as `0`. */
  function Percentage(total: real, overall: real): (p: Option<real>)
    ensures p.Some? <==> overall > 0.0
    ensures p.Some? ==> p.value * overall == total * 100.0
  {
    if overall > 0.0 then Some((total / overall) * 100.0) else None
  }

  /** The computed percentages of a list of category totals, against a positive overall total. */
  function Percentages(totals: seq<real>, overall: real): (pcts: seq<real>)
    requires overall > 0.0
    ensures |pcts| == |totals|
    ensures forall i :: 0 <= i < |totals| ==> Some(pcts[i]) == Percentage(totals[i], overall)
    decreases |totals|
  {
    if totals == [] then []
    else Percentages(totals[..|totals| - 1], overall) + [Percentage(totals[|totals| - 1], overall).value]
  }

  lemma {:induction false} PercentagesSum(totals: seq<real>, overall: real)
    requires overall > 0.0
    ensures SumReals(Percentages(totals, overall)) * overall == SumReals(totals) * 100.0
    decreases |totals|
  {
    if totals != [] {
      var init := totals[..|totals| - 1];
      var last := totals[|totals| - 1];
      var pcts := Percentages(totals, overall);
      assert pcts[..|pcts| - 1] == Percentages(init, overall);
      PercentagesSum(init, overall);
      var p := Percentage(last, overall).value;
      assert p * overall == last * 100.0;
      assert SumReals(pcts) == SumReals(Percentages(init, overall)) + p;
      assert SumReals(pcts) * overall == SumReals(Percentages(init, overall)) * overall + p * overall;
    }
  }

  lemma CancelPositive(x: real, total: real, overall: real)
    requires overall > 0.0 && total == overall && x * overall == total * 100.0
    ensures x == 100.0
  {
    assert (x - 100.0) * overall == 0.0;
  }

  /** With a positive overall total, the displayed percentages of the categories add up to 100. */
  lemma PercentagesSumTo100(cats: seq<Category>)
    requires ItemsTotal(Flatten(cats)) > 0.0
    ensures SumReals(Percentages(CategoryTotals(cats), ItemsTotal(Flatten(cats)))) == 100.0
  {
    var overall := ItemsTotal(Flatten(cats));
    PercentagesSum(CategoryTotals(cats), overall);
    CategoryTotalsSum(cats);
    var sum := SumReals(Percentages(CategoryTotals(cats), overall));
    CancelPositive(sum, SumReals(CategoryTotals(cats)), overall);
  }

  /** Which dialog the dashboard has open. */
  class DashboardView {
    var selectedIncomeCategory: Option<string>
    var selectedExpenseCategory: Option<string>
    var selectedMonth: string
    var showDigitalModal: bool
    /** `digitalIncomeData`. */
    var digitalIncomeData: map<string, int>

    /** Mounting: nothing selected, the digital figures loaded. */
    constructor Open(saved: map<string, Option<Digital.DigitalRecord>>)
      ensures selectedIncomeCategory.None? && selectedExpenseCategory.None? && selectedMonth == "" && !showDigitalModal
      ensures forall m :: m in Months ==> m in digitalIncomeData && digitalIncomeData[m] == MonthValue(saved, m)
    {
      var data := LoadDigitalIncomeData(saved);
      selectedIncomeCategory := None;
      selectedExpenseCategory := None;
      selectedMonth := "";
      showDigitalModal := false;
      digitalIncomeData := data;
    }

    /** The `digitalIncomeUpdated` listener: reload every month. */
    method Refresh(saved: map<string, Option<Digital.DigitalRecord>>)
      modifies this
      ensures forall m :: m in Months ==> m in digitalIncomeData && digitalIncomeData[m] == MonthValue(saved, m)
      ensures selectedIncomeCategory == old(selectedIncomeCategory) && selectedExpenseCategory == old(selectedExpenseCategory)
      ensures selectedMonth == old(selectedMonth) && showDigitalModal == old(showDigitalModal)
    {
      digitalIncomeData := LoadDigitalIncomeData(saved);
    }

    /** The totals of the displayed month. */
    function Headline(): Totals
      reads this
    {
      MonthTotals(CurrentData(digitalIncomeData))
    }

    /** `handleIncomeClick`: `Dijital Gelir` opens the digital sheet, any other category the income list. */
    method HandleIncomeClick(category: string, month: string)
      modifies this
      ensures selectedMonth == month
      ensures category == DigitalCategory ==> showDigitalModal && selectedIncomeCategory == old(selectedIncomeCategory)
      ensures category != DigitalCategory ==> selectedIncomeCategory == Some(category) && showDigitalModal == old(showDigitalModal)
      ensures selectedExpenseCategory == old(selectedExpenseCategory) && digitalIncomeData == old(digitalIncomeData)
    {
      if category == DigitalCategory {
        showDigitalModal := true;
        selectedMonth := month;
      } else {
        selectedIncomeCategory := Some(category);
        selectedMonth := month;
      }
    }

    /** `handleExpenseClick`: every expense category opens the expense list. */
    method HandleExpenseClick(category: string, month: string)
      modifies this
      ensures selectedExpenseCategory == Some(category) && selectedMonth == month
      ensures selectedIncomeCategory == old(selectedIncomeCategory) && showDigitalModal == old(showDigitalModal)
      ensures digitalIncomeData == old(digitalIncomeData)
    {
      selectedExpenseCategory := Some(category);
      selectedMonth := month;
    }
  }
}
