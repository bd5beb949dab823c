/** The shipment notice: the parcels to ship and their total weight. */
module ShippingService {
  import opened Products

  /** The sum of the parcels' weights, one weight per parcel. */
  function TotalWeight(parcels: seq<Product>): (weight: real) {
    if parcels == [] then 0.0
    else TotalWeight(parcels[..|parcels| - 1]) + parcels[|parcels| - 1].Weight()
  }

  /** Walks the parcels in order and adds up their weights. */
  method Ship(parcels: seq<Product>) returns (totalWeight: real)
    ensures totalWeight == TotalWeight(parcels)
  {
    totalWeight := 0.0;
    for i := 0 to |parcels|
      invariant totalWeight == TotalWeight(parcels[..i])
    {
      assert parcels[..i + 1][..i] == parcels[..i];
      totalWeight := totalWeight + parcels[i].Weight();
    }
    assert parcels[..|parcels|] == parcels;
  }
}
