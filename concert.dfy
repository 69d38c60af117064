/**
 * The concert breakdown of `src/components/ConcertDetailModal.tsx`: the
 * category-total precedence (override, then line items, then the concert's
 * `details` default), the 80/20 split of net profit, the per-concert
 * storage key, the first-open seeding of the override map, and the
 * override and line-item editors.
 */
module Concert {
  import opened Wrappers
  import Numbers
  import Seqs
  import Text

  /** The `details` a concert is opened with; `emre` and `tuana` are present only for some concerts. */
  datatype ConcertDetails = ConcertDetails(
    ekip: real,
    ulasim: real,
    reklam: real,
    konaklama: real,
    ekstra: real,
    yemek: real,
    kase: real,
    emre: Option<real>,
    tuana: Option<real>,
    hoze: real)

  /** One line of a category breakdown, `{name, amount}`. */
  datatype LineItem = LineItem(name: string, amount: real)

  /** What `calculateConcertShares` returns. */
  datatype Shares = Shares(emre: real, hoze: real, netProfit: real, totalExpenses: real, kase: real)

  const Ekip: string := "Ekip"
  const Ulasim: string := "Ulaşım"
  const Reklam: string := "Reklam"
  const Konaklama: string := "Konaklama"
  const Ekstra: string := "Ekstra"
  const Yemek: string := "Yemek"
  const Kase: string := "Kaşe"
  const Emre: string := "Emre"
  const Hoze: string := "Hoze"
  const NewItemName: string := "Yeni Kişi"
  const KeyPrefix: string := "concertAmounts_"

  /** The labels of `detailItems`, in display order: seven categories, then the two computed shares. */
  const DetailLabels: seq<string> := [Ekip, Ulasim, Reklam, Konaklama, Ekstra, Yemek, Kase, Emre, Hoze]

  /** The seven real categories. */
  const CategoryLabels: seq<string> := [Ekip, Ulasim, Reklam, Konaklama, Ekstra, Yemek, Kase]

  /** The initial `categoryDetails` state: only `Ekip` has a breakdown. */
  const DefaultEkipItems: seq<LineItem> := [
    LineItem("Elibol", 12000.0),
    LineItem("Emin", 12000.0),
    LineItem("Ömer", 10000.0),
    LineItem("Özgür", 10000.0),
    LineItem("Safa", 15000.0),
    LineItem("Kara", 10000.0),
    LineItem("Hüseyin", 10000.0),
    LineItem("Mert", 9000.0),
    LineItem("Emlik", 7000.0),
    LineItem("Rodi1", 6000.0),
    LineItem("Rodi2", 6000.0),
    LineItem("Sidal", 10000.0),
    LineItem("Naz", 5000.0)
  ]

  /** The initial `categoryDetails`: a breakdown for Ekip only, adding up to 122000. */
  function DefaultLineItems(): (m: map<string, seq<LineItem>>)
    ensures m.Keys == {Ekip} && Sum(m[Ekip]) == 122000.0
  {
    DefaultEkipSum();
    map[Ekip := DefaultEkipItems]
  }

  /** `items.reduce((sum, d) => sum + d.amount, 0)`. */
  function Sum(items: seq<LineItem>): real
    decreases |items|
  {
    if items == [] then 0.0 else Sum(items[..|items| - 1]) + items[|items| - 1].amount
  }

  /** The sum of a concatenation is the sum of the parts. */
  lemma {:induction false} SumAppend(a: seq<LineItem>, b: seq<LineItem>)
    ensures Sum(a + b) == Sum(a) + Sum(b)
    decreases |b|
  {
    if b != [] {
      var b' := b[..|b| - 1];
      assert (a + b)[..|a + b| - 1] == a + b';
      SumAppend(a, b');
    } else {
      assert a + b == a;
    }
  }

  /** The default `Ekip` breakdown adds up to 122000. */
  lemma DefaultEkipSum()
    ensures Sum(DefaultEkipItems) == 122000.0
  {
    var s := DefaultEkipItems;
    assert s[..1][..0] == [];
    assert Sum(s[..1]) == 12000.0;
    assert s[..2][..1] == s[..1];
    assert Sum(s[..2]) == 24000.0;
    assert s[..3][..2] == s[..2];
    assert Sum(s[..3]) == 34000.0;
    assert s[..4][..3] == s[..3];
    assert Sum(s[..4]) == 44000.0;
    assert s[..5][..4] == s[..4];
    assert Sum(s[..5]) == 59000.0;
    assert s[..6][..5] == s[..5];
    assert Sum(s[..6]) == 69000.0;
    assert s[..7][..6] == s[..6];
    assert Sum(s[..7]) == 79000.0;
    assert s[..8][..7] == s[..7];
    assert Sum(s[..8]) == 88000.0;
    assert s[..9][..8] == s[..8];
    assert Sum(s[..9]) == 95000.0;
    assert s[..10][..9] == s[..9];
    assert Sum(s[..10]) == 101000.0;
    assert s[..11][..10] == s[..10];
    assert Sum(s[..11]) == 107000.0;
    assert s[..12][..11] == s[..11];
    assert Sum(s[..12]) == 117000.0;
    assert s[..13][..12] == s[..12];
    assert Sum(s[..13]) == 122000.0;
    assert s[..13] == s;
  }

  /** The `switch` fall-back of `calculateCategoryTotal`: the concert's `details` value, 0 for any other label. */
  function DefaultAmount(cat: string, d: ConcertDetails): real {
    if cat == Ekip then d.ekip
    else if cat == Ulasim then d.ulasim
    else if cat == Reklam then d.reklam
    else if cat == Konaklama then d.konaklama
    else if cat == Ekstra then d.ekstra
    else if cat == Yemek then d.yemek
    else if cat == Kase then d.kase
    else 0.0
  }

  /** `calculateCategoryTotal(label)`. */
  function CategoryTotal(cat: string, overrides: map<string, real>, items: map<string, seq<LineItem>>, d: ConcertDetails): real {
    if cat in overrides then overrides[cat]
    else if cat in items && |items[cat]| > 0 then Sum(items[cat])
    else DefaultAmount(cat, d)
  }

  /**
   * The precedence of `calculateCategoryTotal`: an override wins; without one
   * a non-empty breakdown is summed; without either the `details` value is used
   * for the seven known labels and 0 for any other.
   */
  lemma CategoryTotalPrecedence(cat: string, overrides: map<string, real>, items: map<string, seq<LineItem>>, d: ConcertDetails)
    ensures cat in overrides ==> CategoryTotal(cat, overrides, items, d) == overrides[cat]
    ensures cat !in overrides && cat in items && items[cat] != [] ==>
      CategoryTotal(cat, overrides, items, d) == Sum(items[cat])
    ensures cat !in overrides && (cat !in items || items[cat] == []) && cat in CategoryLabels ==>
      CategoryTotal(cat, overrides, items, d) == DefaultAmount(cat, d)
    ensures cat !in overrides && (cat !in items || items[cat] == []) && cat !in CategoryLabels ==>
      CategoryTotal(cat, overrides, items, d) == 0.0
  {
  }

  /** `edited[label] !== undefined ? edited[label] : fallback`. */
  function OverrideOr(overrides: map<string, real>, cat: string, fallback: real): real {
    if cat in overrides then overrides[cat] else fallback
  }

  /** `calculateConcertShares()`: only overrides and `details` are read, never the line-item sums. */
  function ConcertShares(overrides: map<string, real>, d: ConcertDetails): (s: Shares)
    ensures s.totalExpenses == OverrideOr(overrides, Ekip, d.ekip) + OverrideOr(overrides, Ulasim, d.ulasim)
      + OverrideOr(overrides, Reklam, d.reklam) + OverrideOr(overrides, Konaklama, d.konaklama)
      + OverrideOr(overrides, Ekstra, d.ekstra) + OverrideOr(overrides, Yemek, d.yemek)
    ensures s.kase == OverrideOr(overrides, Kase, d.kase)
    ensures s.netProfit == s.kase - s.totalExpenses
    ensures s.emre + s.hoze == s.netProfit
    ensures s.emre == 4.0 * s.hoze
    ensures s.netProfit < 0.0 <==> s.hoze < 0.0
  {
    var totalExpenses := OverrideOr(overrides, Ekip, d.ekip) + OverrideOr(overrides, Ulasim, d.ulasim)
      + OverrideOr(overrides, Reklam, d.reklam) + OverrideOr(overrides, Konaklama, d.konaklama)
      + OverrideOr(overrides, Ekstra, d.ekstra) + OverrideOr(overrides, Yemek, d.yemek);
    var kase := OverrideOr(overrides, Kase, d.kase);
    var netProfit := kase - totalExpenses;
    Shares((netProfit / 5.0) * 4.0, (netProfit / 5.0) * 1.0, netProfit, totalExpenses, kase)
  }

  /**
   * The shares ignore the `Ekip` breakdown: with no override, the default
   * crew list sums to 122000 while the split uses `details.ekip`.
   */
  lemma SharesIgnoreLineItems()
    ensures var d := ConcertDetails(100000.0, 0.0, 0.0, 0.0, 0.0, 0.0, 200000.0, None, None, 0.0);
      CategoryTotal(Ekip, map[], DefaultLineItems(), d) == 122000.0
      && ConcertShares(map[], d).totalExpenses == 100000.0
  {
    DefaultEkipSum();
  }

  /** Büyükçekmece: a 350000 fee against 142000 of expenses leaves 208000, split 166400 / 41600. */
  lemma BuyukcekmeceShares()
    ensures var d := ConcertDetails(122000.0, 20000.0, 0.0, 0.0, 0.0, 0.0, 350000.0, Some(166400.0), None, 41600.0);
      ConcertShares(map[], d) == Shares(166400.0, 41600.0, 208000.0, 142000.0, 350000.0)
  {
  }

  /**
   * `concertAmounts_` followed by the sanitised concert name: the name's
   * `[A-Za-z0-9_]` characters, with `_` standing for its whitespace runs.
   */
  function StorageKey(concertName: string): (key: string)
    ensures |KeyPrefix| <= |key| && key[..|KeyPrefix|] == KeyPrefix
    ensures forall i :: |KeyPrefix| <= i < |key| ==> Text.IsWordChar(key[i])
    ensures forall c :: c in key[|KeyPrefix|..] <==>
      (c in concertName && Text.IsWordChar(c)) || (c == '_' && !Text.NoSpace(concertName))
  {
    assert (KeyPrefix + Text.SanitizeName(concertName))[|KeyPrefix|..] == Text.SanitizeName(concertName);
    KeyPrefix + Text.SanitizeName(concertName)
  }

  /** Two different concert names can share a storage key: `ı` is not in `[A-Za-z0-9_]`. */
  lemma StorageKeyCollision()
    ensures "Kıbrıs" != "Kbrs"
    ensures StorageKey("Kıbrıs") == StorageKey("Kbrs")
  {
    assert "Kıbrıs"[1] != "Kbrs"[1];
    DottedNameSanitized();
    PlainNameSanitized();
  }

  lemma DottedNameSanitized()
    ensures Text.SanitizeName("Kıbrıs") == "Kbrs"
  {
    var a := "Kıbrıs";
    assert Text.NoSpace(a);
    var p := Text.IsWordChar;
    assert Seqs.Keep(a[5..], p) == "s";
    assert Seqs.Keep(a[4..], p) == "s";
    assert Seqs.Keep(a[3..], p) == "rs";
    assert Seqs.Keep(a[2..], p) == "brs";
    assert Seqs.Keep(a[1..], p) == "brs";
    assert Seqs.Keep(a, p) == "Kbrs";
  }

  lemma PlainNameSanitized()
    ensures Text.SanitizeName("Kbrs") == "Kbrs"
  {
    var b := "Kbrs";
    assert Text.NoSpace(b);
    var p := Text.IsWordChar;
    assert Seqs.Keep(b[3..], p) == "s";
    assert Seqs.Keep(b[2..], p) == "rs";
    assert Seqs.Keep(b[1..], p) == "brs";
    assert Seqs.Keep(b, p) == "Kbrs";
  }

  /** The override map seeded on first open: six categories from `details`, but not `Ekip`. */
  function SeedOverrides(d: ConcertDetails): (m: map<string, real>)
    ensures m.Keys == {Kase, Ulasim, Reklam, Konaklama, Ekstra, Yemek}
    ensures Ekip !in m
    ensures forall cat :: cat in m ==> m[cat] == DefaultAmount(cat, d)
  {
    map[Kase := d.kase, Ulasim := d.ulasim, Reklam := d.reklam, Konaklama := d.konaklama, Ekstra := d.ekstra, Yemek := d.yemek]
  }

  /** Right after seeding, every seeded category shows its `details` value and the split equals the unedited one. */
  lemma SeedingPreservesFigures(d: ConcertDetails, items: map<string, seq<LineItem>>)
    ensures forall cat :: cat in SeedOverrides(d) ==> CategoryTotal(cat, SeedOverrides(d), items, d) == DefaultAmount(cat, d)
    ensures ConcertShares(SeedOverrides(d), d) == ConcertShares(map[], d)
  {
  }

  /**
   * The override map the mount effect leaves: a stored map is loaded
   * unchanged, an unparseable one gives the empty map, and a missing one is
   * seeded.
   */
  function LoadedOverrides(saved: map<string, Option<map<string, real>>>, key: string, d: ConcertDetails): (m: map<string, real>)
    ensures key in saved && saved[key].Some? ==> m == saved[key].value
    ensures key in saved && saved[key].None? ==> m == map[]
    ensures key !in saved ==> m == SeedOverrides(d)
  {
    if key !in saved then SeedOverrides(d)
    else saved[key].GetOr(map[])
  }

  /** The sum of the nine `detailItems` labels, as the footer shows it. */
  function TotalOver(labels: seq<string>, overrides: map<string, real>, items: map<string, seq<LineItem>>, d: ConcertDetails): real
    decreases |labels|
  {
    if labels == [] then 0.0
    else TotalOver(labels[..|labels| - 1], overrides, items, d) + CategoryTotal(labels[|labels| - 1], overrides, items, d)
  }

  /** `detailItems.reduce((sum, item) => sum + calculateCategoryTotal(item.cat), 0)`. */
  function FooterTotal(overrides: map<string, real>, items: map<string, seq<LineItem>>, d: ConcertDetails): real {
    TotalOver(DetailLabels, overrides, items, d)
  }

  /**
   * The footer adds nothing for `Emre` and `Hoze` when neither has an override
   * or a breakdown: it is the sum of the seven real categories (fee included).
   */
  lemma FooterIsSevenCategories(overrides: map<string, real>, items: map<string, seq<LineItem>>, d: ConcertDetails)
    requires Emre !in overrides && Hoze !in overrides
    requires Emre !in items && Hoze !in items
    ensures FooterTotal(overrides, items, d) == TotalOver(CategoryLabels, overrides, items, d)
  {
    var nine := DetailLabels;
    var eight := CategoryLabels + [Emre];
    assert nine[..|nine| - 1] == eight && nine[|nine| - 1] == Hoze;
    assert eight[..|eight| - 1] == CategoryLabels && eight[|eight| - 1] == Emre;
    assert CategoryTotal(Hoze, overrides, items, d) == 0.0;
    assert CategoryTotal(Emre, overrides, items, d) == 0.0;
    assert TotalOver(eight, overrides, items, d) == TotalOver(CategoryLabels, overrides, items, d);
  }

  /** Local storage after the open effect: the seed is written only under a key not stored yet. */
  function SeededStorage(saved: map<string, Option<map<string, real>>>, key: string, d: ConcertDetails): (r: map<string, Option<map<string, real>>>)
    ensures key in r && LoadedOverrides(r, key, d) == LoadedOverrides(saved, key, d)
    ensures forall k :: k != key ==> (k in r <==> k in saved) && (k in saved ==> r[k] == saved[k])
    ensures key in saved ==> r == saved
  {
    if key in saved then saved else saved[key := Some(SeedOverrides(d))]
  }

  /** Opening the same concert again loads the map the first opening loaded or seeded, and stores nothing new. */
  lemma ReopenIsStable(saved: map<string, Option<map<string, real>>>, key: string, d: ConcertDetails, d2: ConcertDetails)
    ensures var once := SeededStorage(saved, key, d);
      SeededStorage(once, key, d2) == once
      && LoadedOverrides(once, key, d2) == LoadedOverrides(saved, key, d)
  {
  }

  /**
   * The state of the concert modal. It stays mounted while the income list
   * has a concert selected, so the line items survive closing and reopening,
   * even for another concert.
   */
  class ConcertEditor {
    var concertName: string
    var details: ConcertDetails
    /** `editedCategoryAmounts`. */
    var overrides: map<string, real>
    /** `categoryDetails`. */
    var items: map<string, seq<LineItem>>
    /** Local storage, by key: absent, unparseable (`None`) or a parsed override map. */
    var saved: map<string, Option<map<string, real>>>

    /**
     * Mounting and the first run of the open effect: the line items start
     * with the default crew; the overrides are loaded or seeded, and seeding
     * also stores the seed. With an empty concert name the effect does
     * nothing and the overrides stay empty.
     */
    constructor Open(concertName: string, details: ConcertDetails, saved: map<string, Option<map<string, real>>>)
      ensures this.concertName == concertName && this.details == details
      ensures items == DefaultLineItems()
      ensures concertName != "" ==>
        overrides == LoadedOverrides(saved, StorageKey(concertName), details)
        && this.saved == SeededStorage(saved, StorageKey(concertName), details)
      ensures concertName == "" ==> overrides == map[] && this.saved == saved
    {
      this.concertName := concertName;
      this.details := details;
      items := DefaultLineItems();
      if concertName != "" {
        var key := StorageKey(concertName);
        overrides := LoadedOverrides(saved, key, details);
        this.saved := SeededStorage(saved, key, details);
      } else {
        overrides := map[];
        this.saved := saved;
      }
    }

    /**
     * Reopening, possibly for another concert: the open effect runs again for
     * a non-empty name; the line items are kept as they were, and with an
     * empty name so are the overrides.
     */
    method Reopen(concertName: string, details: ConcertDetails)
      modifies this
      ensures this.concertName == concertName && this.details == details
      ensures items == old(items)
      ensures concertName != "" ==>
        overrides == LoadedOverrides(old(saved), StorageKey(concertName), details)
        && saved == SeededStorage(old(saved), StorageKey(concertName), details)
      ensures concertName == "" ==> overrides == old(overrides) && saved == old(saved)
    {
      this.concertName := concertName;
      this.details := details;
      if concertName != "" {
        var key := StorageKey(concertName);
        overrides := LoadedOverrides(saved, key, details);
        saved := SeededStorage(saved, key, details);
      }
    }

    /** The footer figure of the current state. */
    function Footer(): real
      reads this
    {
      FooterTotal(overrides, items, details)
    }

    /** `handleSaveCategoryAmount`: sets only the edited cat and stores the whole map. */
    method SaveCategoryAmount(cat: string, parsed: Option<real>)
      modifies this
      ensures overrides == old(overrides)[cat := Numbers.ParseOrZero(parsed)]
      ensures forall other :: other != cat ==> (other in overrides <==> other in old(overrides))
      ensures forall other :: other != cat && other in overrides ==> overrides[other] == old(overrides)[other]
      ensures CategoryTotal(cat, overrides, items, details) == Numbers.ParseOrZero(parsed)
      ensures saved == old(saved)[StorageKey(concertName) := Some(overrides)]
      ensures LoadedOverrides(saved, StorageKey(concertName), details) == overrides
      ensures items == old(items) && concertName == old(concertName) && details == old(details)
    {
      overrides := overrides[cat := Numbers.ParseOrZero(parsed)];
      saved := saved[StorageKey(concertName) := Some(overrides)];
    }

    /** `handleAddDetail`: appends `{Yeni Kişi, 0}`, so the breakdown's sum does not change. */
    method AddDetail(category: string)
      modifies this
      ensures var before := if category in old(items) then old(items)[category] else [];
        items == old(items)[category := before + [LineItem(NewItemName, 0.0)]]
        && Sum(items[category]) == Sum(before)
      ensures overrides == old(overrides) && saved == old(saved)
      ensures concertName == old(concertName) && details == old(details)
    {
      var before := if category in items then items[category] else [];
      SumAppend(before, [LineItem(NewItemName, 0.0)]);
      assert Sum([LineItem(NewItemName, 0.0)]) == 0.0 by {
        assert [LineItem(NewItemName, 0.0)][..0] == [];
      }
      items := items[category := before + [LineItem(NewItemName, 0.0)]];
    }

    /** `handleSaveDetail`: replaces only the edited line; an unparseable amount becomes 0. */
    method SaveDetail(category: string, index: int, name: string, parsed: Option<real>)
      requires category in items
      modifies this
      ensures items == old(items)[category := Seqs.UpdateAt(old(items)[category], index, LineItem(name, Numbers.ParseOrZero(parsed)))]
      ensures overrides == old(overrides) && saved == old(saved)
      ensures concertName == old(concertName) && details == old(details)
    {
      items := items[category := Seqs.UpdateAt(items[category], index, LineItem(name, Numbers.ParseOrZero(parsed)))];
    }

    /** `handleDeleteDetail`: removes only the given line. */
    method DeleteDetail(category: string, index: int)
      requires category in items
      modifies this
      ensures items == old(items)[category := Seqs.RemoveAt(old(items)[category], index)]
      ensures overrides == old(overrides) && saved == old(saved)
      ensures concertName == old(concertName) && details == old(details)
    {
      items := items[category := Seqs.RemoveAt(items[category], index)];
    }
  }
}
