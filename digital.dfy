/**
 * The monthly digital-income sheet of `src/components/DigitalIncomeModal.tsx`:
 * the tax → share → exchange-rate chain, the per-month default record, the
 * load and cancel fall-back, and saving a month's record.
 */
module Digital {
  import opened Wrappers
  import Numbers

  /** `editData`: income in USD, the two rates in percent, and the USD→TRY rate. */
  datatype DigitalRecord = DigitalRecord(totalDigitalIncome: real, taxRate: real, hozeShareRate: real, usdToTryRate: real)

  /** The four derived figures the sheet shows. */
  datatype Split = Split(taxAmount: real, afterTax: real, hozeShare: real, hozeShareTRY: real)

  /** The four inputs of the edit form. */
  datatype Field = Income | TaxRate | ShareRate | UsdToTry

  const KeyPrefix: string := "digitalIncomeData_"
  const DefaultMonth: string := "Haziran"

  /** `digitalIncomeData_<month>`. */
  function StorageKey(month: string): (key: string)
    ensures |key| == |KeyPrefix| + |month| && key[..|KeyPrefix|] == KeyPrefix && key[|KeyPrefix|..] == month
  {
    KeyPrefix + month
  }

  /** Different months use different keys. */
  lemma StorageKeyInjective(m1: string, m2: string)
    ensures StorageKey(m1) == StorageKey(m2) ==> m1 == m2
  {
    if StorageKey(m1) == StorageKey(m2) {
      assert m1 == StorageKey(m1)[|KeyPrefix|..];
    }
  }

  /**
   * The record a month falls back to: 13871 USD of income for Haziran and none
   * for any other month, with the same three rates.
   */
  function DefaultRecord(month: string): (r: DigitalRecord)
    ensures r.taxRate == 20.0 && r.hozeShareRate == 30.0 && r.usdToTryRate == 38.2
    ensures month == DefaultMonth ==> r.totalDigitalIncome == 13871.0
    ensures month != DefaultMonth ==> r.totalDigitalIncome == 0.0
  {
    DigitalRecord(if month == DefaultMonth then 13871.0 else 0.0, 20.0, 30.0, 38.2)
  }

  /**
   * The calculation block: tax is a percentage of income, the share a
   * percentage of what remains, and the TRY figure the share at the given rate.
   */
  function ComputeSplit(r: DigitalRecord): (s: Split)
    ensures s.taxAmount * 100.0 == r.totalDigitalIncome * r.taxRate
    ensures s.taxAmount + s.afterTax == r.totalDigitalIncome
    ensures s.hozeShare * 100.0 == s.afterTax * r.hozeShareRate
    ensures s.hozeShareTRY == s.hozeShare * r.usdToTryRate
  {
    var taxAmount := r.totalDigitalIncome * (r.taxRate / 100.0);
    var afterTax := r.totalDigitalIncome - taxAmount;
    var hozeShare := afterTax * (r.hozeShareRate / 100.0);
    Split(taxAmount, afterTax, hozeShare, hozeShare * r.usdToTryRate)
  }

  /**
   * With a non-negative income and both rates between 0 and 100, the tax is
   * between nothing and the whole income, and the share between nothing and
   * the after-tax amount.
   */
  lemma {:induction false} SplitBounds(r: DigitalRecord)
    requires 0.0 <= r.totalDigitalIncome
    requires 0.0 <= r.taxRate <= 100.0 && 0.0 <= r.hozeShareRate <= 100.0
    ensures var s := ComputeSplit(r);
      0.0 <= s.taxAmount <= r.totalDigitalIncome
      && 0.0 <= s.afterTax <= r.totalDigitalIncome
      && 0.0 <= s.hozeShare <= s.afterTax
  {
    Numbers.FractionBounds(r.totalDigitalIncome, r.taxRate / 100.0);
    var afterTax := r.totalDigitalIncome - r.totalDigitalIncome * (r.taxRate / 100.0);
    Numbers.FractionBounds(afterTax, r.hozeShareRate / 100.0);
  }

  /** The Haziran defaults: 13871 USD gives 2774.2 tax, 11096.8 after tax, a 3329.04 share, 127169.328 TRY. */
  lemma HaziranDefaultSplit()
    ensures ComputeSplit(DefaultRecord(DefaultMonth)) == Split(2774.2, 11096.8, 3329.04, 127169.328)
  {
  }

  /**
   * What the mount effect and `handleCancel` load: a stored record that parses
   * is used as it is; a missing or unparseable one gives the month default.
   */
  function LoadRecord(saved: map<string, Option<DigitalRecord>>, month: string): (r: DigitalRecord)
    ensures StorageKey(month) in saved && saved[StorageKey(month)].Some? ==> r == saved[StorageKey(month)].value
    ensures StorageKey(month) !in saved || saved[StorageKey(month)].None? ==> r == DefaultRecord(month)
  {
    var key := StorageKey(month);
    if key in saved && saved[key].Some? then saved[key].value else DefaultRecord(month)
  }

  /** A record saved for a month is what that month loads next, and no other month's load changes. */
  lemma SaveThenLoad(saved: map<string, Option<DigitalRecord>>, month: string, other: string, rec: DigitalRecord)
    ensures LoadRecord(saved[StorageKey(month) := Some(rec)], month) == rec
    ensures other != month ==> LoadRecord(saved[StorageKey(month) := Some(rec)], other) == LoadRecord(saved, other)
  {
    StorageKeyInjective(month, other);
  }

  /** An input's `onChange`: only the edited field changes; a value that does not parse becomes 0. */
  function WithField(r: DigitalRecord, f: Field, parsed: Option<real>): (r': DigitalRecord)
    ensures f == Income ==> r' == r.(totalDigitalIncome := Numbers.ParseOrZero(parsed))
    ensures f == TaxRate ==> r' == r.(taxRate := Numbers.ParseOrZero(parsed))
    ensures f == ShareRate ==> r' == r.(hozeShareRate := Numbers.ParseOrZero(parsed))
    ensures f == UsdToTry ==> r' == r.(usdToTryRate := Numbers.ParseOrZero(parsed))
  {
    var v := Numbers.ParseOrZero(parsed);
    match f
    case Income => r.(totalDigitalIncome := v)
    case TaxRate => r.(taxRate := v)
    case ShareRate => r.(hozeShareRate := v)
    case UsdToTry => r.(usdToTryRate := v)
  }

  /** The state of the sheet for one month. */
  class DigitalIncomeEditor {
    const month: string
    var editData: DigitalRecord
    var isEditing: bool
    /** Local storage, by key: absent, unparseable (`None`) or a parsed record. */
    var saved: map<string, Option<DigitalRecord>>
    /** Whether a `digitalIncomeUpdated` event has been dispatched. */
    var notified: bool

    /** Opening the sheet: the mount effect loads the month's record. */
    constructor Open(month: string, saved: map<string, Option<DigitalRecord>>)
      ensures this.month == month && this.saved == saved
      ensures editData == LoadRecord(saved, month)
      ensures !isEditing && !notified
    {
      this.month := month;
      this.saved := saved;
      editData := LoadRecord(saved, month);
      isEditing := false;
      notified := false;
    }

    /** The figures shown for the current record. */
    function Figures(): Split
      reads this
    {
      ComputeSplit(editData)
    }

    /** The edit button. */
    method StartEditing()
      modifies this
      ensures isEditing
      ensures editData == old(editData) && saved == old(saved) && notified == old(notified)
    {
      isEditing := true;
    }

    /** One input's `onChange`. */
    method Edit(f: Field, parsed: Option<real>)
      modifies this
      ensures editData == WithField(old(editData), f, parsed)
      ensures isEditing == old(isEditing) && saved == old(saved) && notified == old(notified)
    {
      editData := WithField(editData, f, parsed);
    }

    /** `handleSave`: stores the record under the month's key, notifies the dashboard and leaves editing. */
    method Save()
      modifies this
      ensures saved == old(saved)[StorageKey(month) := Some(old(editData))]
      ensures LoadRecord(saved, month) == editData
      ensures editData == old(editData)
      ensures notified && !isEditing
    {
      saved := saved[StorageKey(month) := Some(editData)];
      SaveThenLoad(old(saved), month, month, editData);
      notified := true;
      isEditing := false;
    }

    /** `handleCancel`: reloads exactly what opening the sheet loads and leaves editing. */
    method Cancel()
      modifies this
      ensures editData == LoadRecord(saved, month)
      ensures !isEditing
      ensures saved == old(saved) && notified == old(notified)
    {
      editData := LoadRecord(saved, month);
      isEditing := false;
    }
  }
}
