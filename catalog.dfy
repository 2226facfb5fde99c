/**
 * The vehicle catalogue and the listing filter: location, vehicle type and
 * a case-insensitive search on the name.
 */
module Catalog {
  import opened Text
  import opened Seqs

  /** A vehicle record; the rating and the image URL take part in no logic and are left out. */
  datatype Vehicle = Vehicle(
    id: int,
    name: string,
    category: string,
    kind: string,           // "CAR" or "BIKE"
    pricePerHour: nat,
    transmission: string,
    fuel: string,
    seats: nat,
    available: bool,
    location: string)

  /** The listing filters; "ALL" switches the location or the type test off. */
  datatype Filters = Filters(kind: string, search: string, location: string)

  const All: string := "ALL"

  /** The filters the listing starts with: every type, no search text, every city. */
  const InitialFilters: Filters := Filters(All, "", All)

  const InitialVehicles: seq<Vehicle> := [
    Vehicle(1, "Tesla Model 3", "Luxury", "CAR", 2500, "Automatic", "Electric", 5, true, "Mumbai"),
    Vehicle(2, "Royal Enfield Classic", "Cruiser", "BIKE", 800, "Manual", "Petrol", 2, true, "Pune"),
    Vehicle(3, "Mahindra Thar", "SUV", "CAR", 1500, "Manual", "Diesel", 4, true, "Mumbai"),
    Vehicle(4, "KTM Duke 390", "Sports", "BIKE", 1200, "Manual", "Petrol", 2, true, "Bangalore")
  ]

  predicate LocationMatches(v: Vehicle, f: Filters)
  {
    f.location == All || v.location == f.location
  }

  predicate KindMatches(v: Vehicle, f: Filters)
  {
    f.kind == All || v.kind == f.kind
  }

  predicate SearchMatches(v: Vehicle, f: Filters)
  {
    Includes(Lower(v.name), Lower(f.search))
  }

  /**
   * The test the listing applies to each vehicle: the city is the selected
   * one or ALL, the type is the selected one or ALL, and the lower-cased
   * search text occurs somewhere in the lower-cased name.
   */
  function Matches(v: Vehicle, f: Filters): (ok: bool)
    ensures ok <==>
      (f.location == All || v.location == f.location) &&
      (f.kind == All || v.kind == f.kind) &&
      exists i :: OccursAt(Lower(v.name), Lower(f.search), i)
  {
    IncludesIffOccurs(Lower(v.name), Lower(f.search));
    LocationMatches(v, f) && KindMatches(v, f) && SearchMatches(v, f)
  }

  /**
   * The listing: every vehicle it shows passes all three tests and comes from
   * the catalogue, and every catalogue vehicle that passes them is shown.
   */
  function Filtered(vehicles: seq<Vehicle>, f: Filters): (r: seq<Vehicle>)
    ensures |r| <= |vehicles|
    ensures forall i :: 0 <= i < |r| ==> r[i] in vehicles && Matches(r[i], f)
    ensures forall j :: 0 <= j < |vehicles| && Matches(vehicles[j], f) ==> vehicles[j] in r
  {
    Filter(v => Matches(v, f), vehicles)
  }

  /**
   * The listing keeps catalogue order: its k-th entry is the vehicle at the
   * k-th position (in increasing order) whose record passes the tests.
   */
  lemma FilteredInOrder(vehicles: seq<Vehicle>, f: Filters)
    ensures |Filtered(vehicles, f)| == |KeptIndices(v => Matches(v, f), vehicles)|
    ensures forall k :: 0 <= k < |Filtered(vehicles, f)| ==>
      Filtered(vehicles, f)[k] == vehicles[KeptIndices(v => Matches(v, f), vehicles)[k]]
  {
    FilterSelects(v => Matches(v, f), vehicles);
  }

  /**
   * The search ignores case: two search texts that agree letter by letter
   * once lower-cased ("TESLA" and "tesla") give the same listing.
   */
  lemma SearchIgnoresCase(vehicles: seq<Vehicle>, f: Filters, typed: string)
    requires |typed| == |f.search|
    requires forall i :: 0 <= i < |typed| ==> LowerChar(typed[i]) == LowerChar(f.search[i])
    ensures Filtered(vehicles, f.(search := typed)) == Filtered(vehicles, f)
  {
    var g := f.(search := typed);
    assert Lower(typed) == Lower(f.search);
    var p, q := v => Matches(v, g), v => Matches(v, f);
    assert Filtered(vehicles, g) == Filter(p, vehicles);
    assert Filtered(vehicles, f) == Filter(q, vehicles);
    FilterAgrees(p, q, vehicles);
  }

  /** Searching "TESLA" shows what searching "tesla" shows. */
  lemma TeslaInEitherCase(vehicles: seq<Vehicle>)
    ensures Filtered(vehicles, InitialFilters.(search := "TESLA")) ==
            Filtered(vehicles, InitialFilters.(search := "tesla"))
  {
    SearchIgnoresCase(vehicles, InitialFilters.(search := "tesla"), "TESLA");
  }

  /** The initial filters show the whole catalogue. */
  lemma {:induction false} InitialFiltersShowAll(vehicles: seq<Vehicle>)
    ensures Filtered(vehicles, InitialFilters) == vehicles
  {
    if vehicles != [] {
      IncludesEmpty(Lower(vehicles[0].name));
      InitialFiltersShowAll(vehicles[1..]);
      assert vehicles == [vehicles[0]] + vehicles[1..];
    }
  }

  /** With the type filter on BIKE the catalogue shows the two bikes, in catalogue order. */
  lemma InitialBikes()
    ensures Filtered(InitialVehicles, InitialFilters.(kind := "BIKE")) == [InitialVehicles[1], InitialVehicles[3]]
  {
    var f := InitialFilters.(kind := "BIKE");
    var vs := InitialVehicles;
    IncludesEmpty(Lower(vs[1].name));
    IncludesEmpty(Lower(vs[3].name));
    assert !Matches(vs[0], f) && Matches(vs[1], f) && !Matches(vs[2], f) && Matches(vs[3], f);
    var p := v => Matches(v, f);
    assert Filter(p, vs[4..]) == [];
    assert Filter(p, vs[3..]) == [vs[3]] + Filter(p, vs[3..][1..]);
    assert vs[3..][1..] == vs[4..];
    assert Filter(p, vs[2..]) == Filter(p, vs[2..][1..]) && vs[2..][1..] == vs[3..];
    assert Filter(p, vs[1..]) == [vs[1]] + Filter(p, vs[1..][1..]) && vs[1..][1..] == vs[2..];
    assert Filter(p, vs) == Filter(p, vs[1..]);
  }
}
