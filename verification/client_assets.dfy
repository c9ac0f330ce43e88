/**
 * The asset part of a client record, as the totals in sections/assets_liabilities.py and
 * sections/balance_sheet.py read it: an optional `assets` dictionary from category key to
 * a list of asset records, each of which may lack any of its keys.
 *
 * The sums are defined from the end of the sequence, the way the source's loops
 * accumulate them.
 */
module ClientAssets {
  import opened Wrappers

  /** One asset record: `value`, `include_in_nest_egg` and `is_managed`, each possibly absent. */
  datatype Asset = Asset(value: Option<real>, includeInNestEgg: Option<bool>, isManaged: Option<bool>)

  /** One entry of the `assets` dictionary, in the dictionary's order. */
  datatype Category = Category(key: string, assets: seq<Asset>)

  /** The client record; `assets` may be missing. */
  datatype Client = Client(assets: Option<seq<Category>>)

  /** `asset.get('value', 0)`. */
  function ValueOf(a: Asset): real { a.value.GetOr(0.0) }

  /** `asset.get('include_in_nest_egg', True)`. */
  predicate InNestEgg(a: Asset) { a.includeInNestEgg.GetOr(true) }

  /** `asset.get('is_managed', False)`. */
  predicate IsManaged(a: Asset) { a.isManaged.GetOr(false) }

  /** Which running total an asset's value is counted toward. */
  datatype Part = Everything | NestEgg | Managed | Unmanaged

  /** What one asset adds to the given total. */
  function Share(a: Asset, p: Part): real
  {
    match p
    case Everything => ValueOf(a)
    case NestEgg => if InNestEgg(a) then ValueOf(a) else 0.0
    case Managed => if IsManaged(a) then ValueOf(a) else 0.0
    case Unmanaged => if IsManaged(a) then 0.0 else ValueOf(a)
  }

  /** The total of part `p` over a list of assets. */
  function Sum(s: seq<Asset>, p: Part): real
  {
    if s == [] then 0.0 else Sum(s[..|s| - 1], p) + Share(s[|s| - 1], p)
  }

  /** Every asset of every category, category by category. */
  function Flatten(cats: seq<Category>): (r: seq<Asset>)
  {
    if cats == [] then [] else Flatten(cats[..|cats| - 1]) + cats[|cats| - 1].assets
  }

  /** The categories of a client; none when `assets` is missing. */
  function CategoriesOf(c: Client): seq<Category> { c.assets.GetOr([]) }

  function AllAssets(c: Client): seq<Asset> { Flatten(CategoriesOf(c)) }

  /** The value of each category in turn. */
  function CategoryTotals(cats: seq<Category>): seq<real>
  {
    seq(|cats|, i requires 0 <= i < |cats| => Sum(cats[i].assets, Everything))
  }

  function SumReals(xs: seq<real>): real
  {
    if xs == [] then 0.0 else SumReals(xs[..|xs| - 1]) + xs[|xs| - 1]
  }

  predicate NonNegativeValues(s: seq<Asset>)
  {
    forall i :: 0 <= i < |s| ==> ValueOf(s[i]) >= 0.0
  }

  /** A total over two lists is the sum of the totals. */
  lemma {:induction false} SumAppend(a: seq<Asset>, b: seq<Asset>, p: Part)
    ensures Sum(a + b, p) == Sum(a, p) + Sum(b, p)
  {
    if b == [] {
      assert a + b == a;
    } else {
      assert (a + b)[..|a + b| - 1] == a + b[..|b| - 1];
      SumAppend(a, b[..|b| - 1], p);
    }
  }

  /** Every asset is either managed or unmanaged, so the two totals make up the whole. */
  lemma {:induction false} ManagedPlusUnmanaged(s: seq<Asset>)
    ensures Sum(s, Everything) == Sum(s, Managed) + Sum(s, Unmanaged)
  {
    if s != [] {
      ManagedPlusUnmanaged(s[..|s| - 1]);
    }
  }

  /** With no negative value, every partial total lies between 0 and the whole. */
  lemma {:induction false} PartWithinWhole(s: seq<Asset>, p: Part)
    requires NonNegativeValues(s)
    ensures 0.0 <= Sum(s, p) <= Sum(s, Everything)
  {
    if s != [] {
      PartWithinWhole(s[..|s| - 1], p);
    }
  }

  /** Adding the category totals gives the total over all assets. */
  lemma {:induction false} SumOfCategoryTotals(cats: seq<Category>)
    ensures SumReals(CategoryTotals(cats)) == Sum(Flatten(cats), Everything)
  {
    if cats != [] {
      var init := cats[..|cats| - 1];
      SumOfCategoryTotals(init);
      assert CategoryTotals(cats)[..|cats| - 1] == CategoryTotals(init);
      SumAppend(Flatten(init), cats[|cats| - 1].assets, Everything);
    }
  }

  /** Flattening one more category appends its assets. */
  lemma FlattenSnoc(cats: seq<Category>, i: nat)
    requires i < |cats|
    ensures Flatten(cats[..i + 1]) == Flatten(cats[..i]) + cats[i].assets
  {
    assert cats[..i + 1][..i] == cats[..i];
  }

  /** Taking one more asset adds its share. */
  lemma SumSnoc(a: seq<Asset>, b: seq<Asset>, j: nat, p: Part)
    requires j < |b|
    ensures Sum(a + b[..j + 1], p) == Sum(a + b[..j], p) + Share(b[j], p)
  {
    assert (a + b[..j + 1])[..|a + b[..j + 1]| - 1] == a + b[..j];
  }
}
