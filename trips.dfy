/**
 * Bookings and the profile page's split of them into current and past trips
 * by comparing each dropoff time with the current time.
 */
module Trips {
  import opened Wrappers
  import opened Seqs
  import opened Catalog
  import opened Checkout

  datatype Status = Paid

  /**
   * A stored booking. `date` is the clock reading when it was paid; pickup
   * and dropoff are the entered times (`None` for a time that does not parse).
   */
  datatype Booking = Booking(
    vehicle: Vehicle,
    date: int,
    duration: nat,
    pickupTime: Option<int>,
    dropoffTime: Option<int>,
    totalPrice: nat,
    status: Status,
    phone: string)

  /** A booking made through the details page: a positive duration and the rental price without the deposit. */
  ghost predicate WellFormed(b: Booking)
  {
    b.duration > 0 &&
    b.duration == Duration(b.pickupTime, b.dropoffTime) &&
    b.totalPrice == RentalPrice(b.duration, b.vehicle.pricePerHour)
  }

  /** Its dropoff is strictly after `now`. */
  predicate IsCurrent(b: Booking, now: int)
  {
    b.dropoffTime.Some? && b.dropoffTime.value > now
  }

  /** Its dropoff is at or before `now`. */
  predicate IsPast(b: Booking, now: int)
  {
    b.dropoffTime.Some? && b.dropoffTime.value <= now
  }

  function CurrentTrips(bookings: seq<Booking>, now: int): (r: seq<Booking>)
    ensures forall i :: 0 <= i < |r| ==> r[i] in bookings && r[i].dropoffTime.Some? && r[i].dropoffTime.value > now
    ensures forall j :: 0 <= j < |bookings| && IsCurrent(bookings[j], now) ==> bookings[j] in r
  {
    Filter(b => IsCurrent(b, now), bookings)
  }

  function PastTrips(bookings: seq<Booking>, now: int): (r: seq<Booking>)
    ensures forall i :: 0 <= i < |r| ==> r[i] in bookings && r[i].dropoffTime.Some? && r[i].dropoffTime.value <= now
    ensures forall j :: 0 <= j < |bookings| && IsPast(bookings[j], now) ==> bookings[j] in r
  {
    Filter(b => IsPast(b, now), bookings)
  }

  /**
   * When every dropoff time parses, the two lists split the bookings: their
   * lengths and contents add up to the bookings, and each position goes to
   * exactly one list, to the current one iff its dropoff is after `now`.
   */
  lemma TripsPartition(bookings: seq<Booking>, now: int)
    requires forall j :: 0 <= j < |bookings| ==> bookings[j].dropoffTime.Some?
    ensures |CurrentTrips(bookings, now)| + |PastTrips(bookings, now)| == |bookings|
    ensures multiset(CurrentTrips(bookings, now)) + multiset(PastTrips(bookings, now)) == multiset(bookings)
    ensures forall j :: 0 <= j < |bookings| ==>
      (j in KeptIndices(b => IsCurrent(b, now), bookings) <==> bookings[j].dropoffTime.value > now) &&
      (j in KeptIndices(b => IsCurrent(b, now), bookings) <==> j !in KeptIndices(b => IsPast(b, now), bookings))
  {
    FilterPartition(b => IsCurrent(b, now), b => IsPast(b, now), bookings);
  }

  /** Each list keeps the bookings' order: entry k is the booking at the k-th kept position. */
  lemma TripsInOrder(bookings: seq<Booking>, now: int)
    ensures |CurrentTrips(bookings, now)| == |KeptIndices(b => IsCurrent(b, now), bookings)|
    ensures forall k :: 0 <= k < |CurrentTrips(bookings, now)| ==>
      CurrentTrips(bookings, now)[k] == bookings[KeptIndices(b => IsCurrent(b, now), bookings)[k]]
    ensures |PastTrips(bookings, now)| == |KeptIndices(b => IsPast(b, now), bookings)|
    ensures forall k :: 0 <= k < |PastTrips(bookings, now)| ==>
      PastTrips(bookings, now)[k] == bookings[KeptIndices(b => IsPast(b, now), bookings)[k]]
  {
    FilterSelects(b => IsCurrent(b, now), bookings);
    FilterSelects(b => IsPast(b, now), bookings);
  }

  /** A booking whose dropoff does not parse is compared false both ways and appears in neither list. */
  lemma UnparsedDropoffInNeither(bookings: seq<Booking>, now: int, b: Booking)
    requires b.dropoffTime.None?
    ensures b !in CurrentTrips(bookings, now) && b !in PastTrips(bookings, now)
  {
  }

  /** A newly prepended booking that is still running heads the current trips. */
  lemma PrependedCurrentFirst(b: Booking, bookings: seq<Booking>, now: int)
    requires IsCurrent(b, now)
    ensures CurrentTrips([b] + bookings, now) == [b] + CurrentTrips(bookings, now)
  {
    assert ([b] + bookings)[1..] == bookings;
  }
}
