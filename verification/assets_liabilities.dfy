/**
 * The summary totals of sections/assets_liabilities.py (calculate_totals).
 */
module AssetsLiabilities {
  import opened ClientAssets

  /** Total assets, nest egg, managed and unmanaged totals over every asset of every
      category; all four are 0 when the client has no `assets`. */
  method CalculateTotals(client: Client) returns (totalAssets: real, totalNestEgg: real, totalManaged: real, totalUnmanaged: real)
    ensures totalAssets == Sum(AllAssets(client), Everything)
    ensures totalNestEgg == Sum(AllAssets(client), NestEgg)
    ensures totalManaged == Sum(AllAssets(client), Managed)
    ensures totalUnmanaged == Sum(AllAssets(client), Unmanaged)
    ensures totalAssets == totalManaged + totalUnmanaged
    ensures client.assets.None? ==> totalAssets == totalNestEgg == totalManaged == totalUnmanaged == 0.0
    ensures NonNegativeValues(AllAssets(client)) ==>
      0.0 <= totalNestEgg <= totalAssets && 0.0 <= totalManaged <= totalAssets && 0.0 <= totalUnmanaged <= totalAssets
  {
    totalAssets, totalNestEgg, totalManaged, totalUnmanaged := 0.0, 0.0, 0.0, 0.0;
    if client.assets.Some? {
      var categories := client.assets.value;
      for i := 0 to |categories|
        invariant totalAssets == Sum(Flatten(categories[..i]), Everything)
        invariant totalNestEgg == Sum(Flatten(categories[..i]), NestEgg)
        invariant totalManaged == Sum(Flatten(categories[..i]), Managed)
        invariant totalUnmanaged == Sum(Flatten(categories[..i]), Unmanaged)
      {
        var category := categories[i].assets;
        ghost var done := Flatten(categories[..i]);
        assert done + category[..0] == done;
        for j := 0 to |category|
          invariant totalAssets == Sum(done + category[..j], Everything)
          invariant totalNestEgg == Sum(done + category[..j], NestEgg)
          invariant totalManaged == Sum(done + category[..j], Managed)
          invariant totalUnmanaged == Sum(done + category[..j], Unmanaged)
        {
          var asset := category[j];
          SumSnoc(done, category, j, Everything);
          SumSnoc(done, category, j, NestEgg);
          SumSnoc(done, category, j, Managed);
          SumSnoc(done, category, j, Unmanaged);
          var value := asset.value.GetOr(0.0);
          totalAssets := totalAssets + value;
          if asset.includeInNestEgg.GetOr(true) {
            totalNestEgg := totalNestEgg + value;
          }
          if asset.isManaged.GetOr(false) {
            totalManaged := totalManaged + value;
          } else {
            totalUnmanaged := totalUnmanaged + value;
          }
        }
        assert category[..|category|] == category;
        FlattenSnoc(categories, i);
      }
      assert categories[..|categories|] == categories;
    }
    ManagedPlusUnmanaged(AllAssets(client));
    if NonNegativeValues(AllAssets(client)) {
      PartWithinWhole(AllAssets(client), NestEgg);
      PartWithinWhole(AllAssets(client), Managed);
      PartWithinWhole(AllAssets(client), Unmanaged);
    }
  }
}
