/**
 * The top-level application state and its event handlers: login, the
 * login-gated Book Now, KYC input, starting, completing and cancelling a
 * payment, and the listing and profile views derived from the state.
 */
module RentApp {
  import opened Wrappers
  import opened Catalog
  import opened Checkout
  import opened Trips
  import opened Payment

  datatype View = Home | Listing | Details | Profile | Login

  /** The signed-in user; the avatar URL takes part in no logic and is left out. */
  datatype User = User(id: string, name: string, email: string, phone: string, kycVerified: bool)

  const MockUser: User := User("u1", "Aditya Kumar", "aditya.k@rentngo.com", "+91 98765 43210", true)

  /** The checkout the payment step is for. */
  datatype BookingDetails = BookingDetails(duration: nat, pickup: Option<int>, dropoff: Option<int>)

  /**
   * The booking recorded when a payment completes: PAID, for the vehicle,
   * window and phone given, priced so that the amount charged is its total
   * plus exactly the deposit; a checkout from the details page gives a
   * well-formed booking.
   */
  function NewBooking(v: Vehicle, d: BookingDetails, phone: string, now: int): (b: Booking)
    ensures b.status == Paid && b.vehicle == v && b.phone == phone && b.date == now
    ensures b.duration == d.duration && b.pickupTime == d.pickup && b.dropoffTime == d.dropoff
    ensures AmountDue(d.duration, v.pricePerHour) == b.totalPrice + Deposit
    ensures d.duration > 0 && d.duration == Duration(d.pickup, d.dropoff) ==> WellFormed(b)
  {
    Booking(v, now, d.duration, d.pickup, d.dropoff, RentalPrice(d.duration, v.pricePerHour), Paid, phone)
  }

  class App {
    var view: View
    var user: Option<User>
    var bookings: seq<Booking>
    const vehicles: seq<Vehicle>
    var filters: Filters
    var selectedVehicle: Option<Vehicle>
    var showPayment: bool
    var modal: PaymentModal?
    var activeBookingDetails: Option<BookingDetails>
    var kycData: Kyc

    /**
     * The payment modal is mounted exactly while it is shown; the details
     * page and the payment modal always have a vehicle; a payment in
     * progress has its checkout; every stored booking has a positive
     * duration and is priced without the deposit.
     */
    ghost predicate Valid()
      reads this
    {
      (showPayment <==> modal != null) &&
      (view == Details ==> selectedVehicle.Some?) &&
      (showPayment ==> selectedVehicle.Some? && activeBookingDetails.Some?) &&
      (activeBookingDetails.Some? ==>
        var d := activeBookingDetails.value;
        d.duration > 0 && d.duration == Duration(d.pickup, d.dropoff)) &&
      (forall i :: 0 <= i < |bookings| ==> WellFormed(bookings[i]))
    }

    constructor ()
      ensures Valid()
      ensures view == Home && user.None? && bookings == [] && vehicles == InitialVehicles
      ensures filters == InitialFilters && selectedVehicle.None? && !showPayment && modal == null
      ensures activeBookingDetails.None? && kycData == EmptyKyc
    {
      view := Home;
      user := None;
      bookings := [];
      vehicles := InitialVehicles;
      filters := InitialFilters;
      selectedVehicle := None;
      showPayment := false;
      modal := null;
      activeBookingDetails := None;
      kycData := EmptyKyc;
    }

    /** Sign in as the mock user and go home. */
    method HandleLogin()
      requires Valid()
      modifies this
      ensures Valid()
      ensures user == Some(MockUser) && view == Home
      ensures bookings == old(bookings) && filters == old(filters)
      ensures selectedVehicle == old(selectedVehicle) && showPayment == old(showPayment)
      ensures activeBookingDetails == old(activeBookingDetails) && kycData == old(kycData)
      ensures modal == old(modal)
    {
      user := Some(MockUser);
      view := Home;
    }

    /** Book Now: signed out it goes to the login page, signed in it opens the vehicle's details. */
    method HandleBookNow(v: Vehicle)
      requires Valid()
      modifies this
      ensures Valid()
      ensures old(user).None? ==> view == Login && selectedVehicle == old(selectedVehicle)
      ensures old(user).Some? ==> view == Details && selectedVehicle == Some(v)
      ensures user == old(user) && bookings == old(bookings) && filters == old(filters)
      ensures showPayment == old(showPayment)
      ensures activeBookingDetails == old(activeBookingDetails) && kycData == old(kycData)
      ensures modal == old(modal)
    {
      if user.None? {
        view := Login;
      } else {
        selectedVehicle := Some(v);
        view := Details;
      }
    }

    /** A document input changed; `file` is the object URL of the chosen file, if any. */
    method HandleFileUpload(field: DocField, file: Option<string>)
      requires Valid()
      modifies this
      ensures Valid()
      ensures kycData == WithUpload(old(kycData), field, file)
      ensures view == old(view) && user == old(user) && bookings == old(bookings)
      ensures filters == old(filters) && selectedVehicle == old(selectedVehicle)
      ensures showPayment == old(showPayment) && activeBookingDetails == old(activeBookingDetails)
      ensures modal == old(modal)
    {
      if file.Some? {
        kycData := WithUpload(kycData, field, file);
      }
    }

    /** A KYC text input changed. */
    method EditKycText(field: TextField, value: string)
      requires Valid()
      modifies this
      ensures Valid()
      ensures kycData == WithText(old(kycData), field, value)
      ensures view == old(view) && user == old(user) && bookings == old(bookings)
      ensures filters == old(filters) && selectedVehicle == old(selectedVehicle)
      ensures showPayment == old(showPayment) && activeBookingDetails == old(activeBookingDetails)
      ensures modal == old(modal)
    {
      kycData := WithText(kycData, field, value);
    }

    /** A listing filter changed. */
    method SetFilters(f: Filters)
      requires Valid()
      modifies this
      ensures Valid()
      ensures filters == f
      ensures view == old(view) && user == old(user) && bookings == old(bookings)
      ensures selectedVehicle == old(selectedVehicle) && showPayment == old(showPayment)
      ensures activeBookingDetails == old(activeBookingDetails) && kycData == old(kycData)
      ensures modal == old(modal)
    {
      filters := f;
    }

    /**
     * Proceed to payment, pressed on the details page; the button is enabled
     * only when the form is complete for the duration of the entered window.
     * A modal that was not yet shown is mounted afresh at INIT.
     */
    method StartPayment(duration: nat, pickup: Option<int>, dropoff: Option<int>)
      requires Valid()
      requires view == Details
      requires duration == Duration(pickup, dropoff) && FormComplete(kycData, duration)
      modifies this
      ensures Valid()
      ensures activeBookingDetails == Some(BookingDetails(duration, pickup, dropoff)) && showPayment
      ensures old(modal) == null ==> fresh(modal) && modal.step == Init
      ensures old(modal) != null ==> modal == old(modal)
      ensures view == old(view) && user == old(user) && bookings == old(bookings)
      ensures filters == old(filters) && selectedVehicle == old(selectedVehicle) && kycData == old(kycData)
    {
      activeBookingDetails := Some(BookingDetails(duration, pickup, dropoff));
      showPayment := true;
      if modal == null {
        modal := new PaymentModal();
      }
    }

    /** The amount the modal's INIT screen charges: the booking's price plus exactly the deposit. */
    function PaymentTotal(now: int): (amount: nat)
      reads this
      requires Valid() && showPayment
      ensures amount == NewBooking(selectedVehicle.value, activeBookingDetails.value, kycData.phone, now).totalPrice + Deposit
    {
      AmountDue(activeBookingDetails.value.duration, selectedVehicle.value.pricePerHour)
    }

    /** The modal's Pay button, shown only on its INIT screen. */
    method Pay()
      requires Valid() && showPayment && modal.step == Init
      modifies modal
      ensures Valid()
      ensures modal.step == Processing
    {
      modal.HandlePay();
    }

    /** The processing delay elapses; it is pending exactly while the modal is processing. */
    method PaymentTimerFires()
      requires Valid() && showPayment && modal.step == Processing
      modifies modal
      ensures Valid()
      ensures modal.step == Success
    {
      modal.TimerFires();
    }

    /**
     * View in Profile, shown only on the modal's SUCCESS screen: the PAID
     * booking goes in front of the old ones, the modal closes and the
     * profile opens.
     */
    method OnPaymentComplete(now: int)
      requires Valid() && showPayment && modal.step == Success
      modifies this
      ensures Valid()
      ensures bookings == [NewBooking(old(selectedVehicle).value, old(activeBookingDetails).value, old(kycData).phone, now)] + old(bookings)
      ensures |bookings| == |old(bookings)| + 1 && bookings[1..] == old(bookings)
      ensures !showPayment && modal == null && view == Profile
      ensures user == old(user) && filters == old(filters) && selectedVehicle == old(selectedVehicle)
      ensures activeBookingDetails == old(activeBookingDetails) && kycData == old(kycData)
    {
      var b := NewBooking(selectedVehicle.value, activeBookingDetails.value, kycData.phone, now);
      bookings := [b] + bookings;
      showPayment := false;
      modal := null;
      view := Profile;
    }

    /** Cancel Transaction, shown only on the modal's INIT screen: only the modal closes. */
    method CancelPayment()
      requires Valid() && showPayment && modal.step == Init
      modifies this
      ensures Valid()
      ensures !showPayment && modal == null
      ensures view == old(view) && user == old(user) && bookings == old(bookings)
      ensures filters == old(filters) && selectedVehicle == old(selectedVehicle)
      ensures activeBookingDetails == old(activeBookingDetails) && kycData == old(kycData)
    {
      showPayment := false;
      modal := null;
    }

    /** The vehicles the listing page shows. */
    function ShownVehicles(): (r: seq<Vehicle>)
      reads this
      ensures forall i :: 0 <= i < |r| ==> r[i] in vehicles && Matches(r[i], filters)
      ensures forall j :: 0 <= j < |vehicles| && Matches(vehicles[j], filters) ==> vehicles[j] in r
    {
      Filtered(vehicles, filters)
    }

    /** The profile page's current and past trips, which split the bookings. */
    function ProfileTrips(now: int): (r: (seq<Booking>, seq<Booking>))
      reads this
      requires Valid()
      ensures |r.0| + |r.1| == |bookings|
      ensures multiset(r.0) + multiset(r.1) == multiset(bookings)
      ensures forall i :: 0 <= i < |r.0| ==> IsCurrent(r.0[i], now)
      ensures forall i :: 0 <= i < |r.1| ==> IsPast(r.1[i], now)
    {
      assert forall j :: 0 <= j < |bookings| ==> WellFormed(bookings[j]);
      TripsPartition(bookings, now);
      (CurrentTrips(bookings, now), PastTrips(bookings, now))
    }
  }

  /**
   * A whole booking: sign in, book the Thar, fill in the KYC form, pick a
   * 90-minute window, pay and wait for the delay, then view the profile.
   * The one booking is PAID for two hours, and still running at pickup time.
   */
  method BookingFlow(pickup: int, now: int) returns (app: App)
    requires now < pickup + 5400000
    ensures app.Valid() && |app.bookings| == 1 && app.view == Profile && !app.showPayment
    ensures app.bookings[0].status == Paid && app.bookings[0].duration == 2
    ensures app.bookings[0].totalPrice == 2 * 1500 && app.bookings[0].phone == "+91 98765 43210"
    ensures app.ProfileTrips(now).0 == app.bookings && app.ProfileTrips(now).1 == []
  {
    app := new App();
    app.HandleBookNow(InitialVehicles[2]);
    assert app.view == Login;
    app.HandleLogin();
    app.HandleBookNow(InitialVehicles[2]);
    app.EditKycText(FullName, "Aditya Kumar");
    app.EditKycText(Phone, "+91 98765 43210");
    app.EditKycText(LicenseNumber, "MH01 2024");
    app.HandleFileUpload(LicenseFront, Some("blob:front"));
    app.HandleFileUpload(AadharFront, Some("blob:aadhar"));
    var dropoff := Some(pickup + 5400000);
    var hours := Duration(Some(pickup), dropoff);
    assert hours == 2;
    app.StartPayment(hours, Some(pickup), dropoff);
    app.Pay();
    app.PaymentTimerFires();
    app.OnPaymentComplete(pickup);
    assert IsCurrent(app.bookings[0], now);
    assert app.ProfileTrips(now).0 == [app.bookings[0]];
    assert app.ProfileTrips(now).1 == [];
  }
}
