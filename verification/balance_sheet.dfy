/**
 * The figures of sections/balance_sheet.py: the per-category asset table with its total
 * (render_assets_summary) and the net worth analysis (render_net_worth_analysis).
 * Only the numbers and labels are modelled; the widgets that show them are not.
 */
module BalanceSheet {
  import opened ClientAssets
  import Validators

  /** The cased characters of `title()` in this model: the ASCII letters, as the validators define them. */
  predicate IsLetter(c: char) { Validators.IsAsciiLetter(c) }

  function Upper(c: char): char { if 'a' <= c <= 'z' then (c as int - 32) as char else c }

  function Lower(c: char): char { if 'A' <= c <= 'Z' then (c as int + 32) as char else c }

  /** How `replace('_', ' ').title()` writes one character, given whether the character
      before it is cased; an underscore is not cased, and neither is the space it becomes. */
  function LabelChar(c: char, afterCased: bool): char
  {
    if c == '_' then ' ' else if !IsLetter(c) then c else if afterCased then Lower(c) else Upper(c)
  }

  /** `s.replace('_', ' ').title()` on ASCII text, continuing after a character that was
      (or was not) cased. */
  function LabelFrom(s: string, afterCased: bool): (r: string)
    ensures |r| == |s|
    ensures forall i {:trigger r[i]} :: 0 <= i < |s| ==>
      r[i] == LabelChar(s[i], if i == 0 then afterCased else IsLetter(s[i - 1]))
  {
    if s == [] then [] else [LabelChar(s[0], afterCased)] + LabelFrom(s[1..], IsLetter(s[0]))
  }

  /** `category.replace('_', ' ').title()`: underscores become spaces, the first letter of
      each run of letters is upper-cased and every other letter lower-cased. */
  function DisplayLabel(key: string): (r: string)
    ensures |r| == |key|
    ensures forall i :: 0 <= i < |key| && key[i] == '_' ==> r[i] == ' '
    ensures forall i :: 0 <= i < |key| && IsLetter(key[i]) ==>
      r[i] == if i == 0 || !IsLetter(key[i - 1]) then Upper(key[i]) else Lower(key[i])
    ensures forall i :: 0 <= i < |key| && key[i] != '_' && !IsLetter(key[i]) ==> r[i] == key[i]
  {
    LabelFrom(key, false)
  }

  /** A label is already in display form: formatting it again changes nothing. */
  lemma DisplayLabelIdempotent(key: string)
    ensures DisplayLabel(DisplayLabel(key)) == DisplayLabel(key)
  {
    var r := DisplayLabel(key);
    var rr := DisplayLabel(r);
    forall i | 0 <= i < |key|
      ensures rr[i] == r[i]
    {
      CaseKeepsLetters(key[i]);
      if i > 0 {
        CaseKeepsLetters(key[i - 1]);
      }
    }
  }

  /** Changing case keeps a letter a letter and a non-letter unchanged. */
  lemma CaseKeepsLetters(c: char)
    ensures IsLetter(Upper(c)) == IsLetter(c) && IsLetter(Lower(c)) == IsLetter(c)
    ensures Upper(Upper(c)) == Upper(c) && Upper(Lower(c)) == Upper(c)
    ensures Lower(Upper(c)) == Lower(c) && Lower(Lower(c)) == Lower(c)
  {
  }

  /** One row of the assets table. */
  datatype SummaryRow = SummaryRow(category: string, value: real)

  /** One row per category, in the dictionary's order, labelled for display and valued at
      the sum of its assets; the total is the sum of the rows and of all assets alike. */
  method AssetsSummary(client: Client) returns (rows: seq<SummaryRow>, totalAssets: real)
    ensures |rows| == |CategoriesOf(client)|
    ensures forall i :: 0 <= i < |rows| ==>
      rows[i] == SummaryRow(DisplayLabel(CategoriesOf(client)[i].key), Sum(CategoriesOf(client)[i].assets, Everything))
    ensures totalAssets == SumReals(CategoryTotals(CategoriesOf(client)))
    ensures totalAssets == Sum(AllAssets(client), Everything)
  {
    rows, totalAssets := [], 0.0;
    if client.assets.Some? {
      var categories := client.assets.value;
      for i := 0 to |categories|
        invariant |rows| == i
        invariant forall j :: 0 <= j < i ==>
          rows[j] == SummaryRow(DisplayLabel(categories[j].key), Sum(categories[j].assets, Everything))
        invariant totalAssets == Sum(Flatten(categories[..i]), Everything)
      {
        var categoryTotal := Sum(categories[i].assets, Everything);
        FlattenSnoc(categories, i);
        SumAppend(Flatten(categories[..i]), categories[i].assets, Everything);
        totalAssets := totalAssets + categoryTotal;
        rows := rows + [SummaryRow(DisplayLabel(categories[i].key), categoryTotal)];
      }
      assert categories[..|categories|] == categories;
    }
    SumOfCategoryTotals(CategoriesOf(client));
  }

  /** Total assets over every asset, no liabilities yet, and net worth their difference. */
  method NetWorthAnalysis(client: Client) returns (totalAssets: real, totalLiabilities: real, netWorth: real)
    ensures totalAssets == Sum(AllAssets(client), Everything)
    ensures totalLiabilities == 0.0
    ensures netWorth == totalAssets - totalLiabilities == totalAssets
  {
    totalAssets := 0.0;
    if client.assets.Some? {
      var categories := client.assets.value;
      for i := 0 to |categories|
        invariant totalAssets == Sum(Flatten(categories[..i]), Everything)
      {
        var category := categories[i].assets;
        ghost var done := Flatten(categories[..i]);
        assert done + category[..0] == done;
        for j := 0 to |category|
          invariant totalAssets == Sum(done + category[..j], Everything)
        {
          SumSnoc(done, category, j, Everything);
          totalAssets := totalAssets + category[j].value.GetOr(0.0);
        }
        assert category[..|category|] == category;
        FlattenSnoc(categories, i);
      }
      assert categories[..|categories|] == categories;
    }
    totalLiabilities := 0.0;
    netWorth := totalAssets - totalLiabilities;
  }
}
