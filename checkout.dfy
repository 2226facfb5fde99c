/**
 * The vehicle details page: rental duration from the pickup and dropoff
 * times, the estimated price, the KYC form and the check that gates the
 * proceed button, and the amount the payment step asks for.
 */
module Checkout {
  import opened Wrappers

  /** 1000 * 60 * 60 milliseconds. */
  const MsPerHour: int := 3600000

  /** The fixed security deposit added on the payment step. */
  const Deposit: nat := 2500

  /** The least whole number of hours that covers a positive window of `diff` milliseconds. */
  function HoursCovering(diff: int): (h: nat)
    requires diff > 0
    ensures h >= 1
    ensures (h - 1) * MsPerHour < diff <= h * MsPerHour
  {
    (diff + MsPerHour - 1) / MsPerHour
  }

  /** Only one whole number of hours satisfies the covering bounds. */
  lemma HoursCoveringUnique(diff: int, n: int)
    requires diff > 0
    requires (n - 1) * MsPerHour < diff <= n * MsPerHour
    ensures n == HoursCovering(diff)
  {
  }

  /**
   * Rental duration in hours. A time is `None` when its field is empty;
   * the duration is 0 then, and when the window is not strictly positive.
   */
  function Duration(pickup: Option<int>, dropoff: Option<int>): (d: nat)
    ensures d == 0 <==> pickup.None? || dropoff.None? || dropoff.value <= pickup.value
    ensures d > 0 ==> (d - 1) * MsPerHour < dropoff.value - pickup.value <= d * MsPerHour
  {
    if pickup.None? || dropoff.None? then 0
    else
      var diff := dropoff.value - pickup.value;
      if diff > 0 then HoursCovering(diff) else 0
  }

  /** Moving the dropoff later never shortens the rental. */
  lemma DurationMonotone(pickup: int, dropoff1: int, dropoff2: int)
    requires dropoff1 <= dropoff2
    ensures Duration(Some(pickup), Some(dropoff1)) <= Duration(Some(pickup), Some(dropoff2))
  {
  }

  /**
   * The estimated price shown on the details page: nothing for no hours,
   * at least one hour's rate for a positive duration.
   */
  function RentalPrice(duration: nat, pricePerHour: nat): (price: nat)
    ensures price == 0 <==> duration == 0 || pricePerHour == 0
    ensures duration > 0 ==> price >= pricePerHour
  {
    duration * pricePerHour
  }

  /** The amount the payment step asks for: the rental price plus the deposit. */
  function AmountDue(duration: nat, pricePerHour: nat): (amount: nat)
    ensures amount - Deposit == RentalPrice(duration, pricePerHour)
  {
    duration * pricePerHour + Deposit
  }

  /** A longer rental never costs less. */
  lemma {:induction false} RentalPriceMonotone(d1: nat, d2: nat, pricePerHour: nat)
    requires d1 <= d2
    ensures RentalPrice(d1, pricePerHour) <= RentalPrice(d2, pricePerHour)
    decreases d2 - d1
  {
    if d1 < d2 {
      RentalPriceMonotone(d1 + 1, d2, pricePerHour);
      assert RentalPrice(d1 + 1, pricePerHour) == RentalPrice(d1, pricePerHour) + pricePerHour;
    }
  }

  /** The KYC form. An uploaded document is the object URL made for the chosen file. */
  datatype Kyc = Kyc(
    fullName: string,
    phone: string,
    licenseNumber: string,
    licenseFront: Option<string>,
    licenseBack: Option<string>,
    aadharFront: Option<string>)

  const EmptyKyc: Kyc := Kyc("", "", "", None, None, None)

  datatype TextField = FullName | Phone | LicenseNumber
  datatype DocField = LicenseFront | LicenseBack | AadharFront

  function Text(k: Kyc, field: TextField): string
  {
    match field
    case FullName => k.fullName
    case Phone => k.phone
    case LicenseNumber => k.licenseNumber
  }

  function Doc(k: Kyc, field: DocField): Option<string>
  {
    match field
    case LicenseFront => k.licenseFront
    case LicenseBack => k.licenseBack
    case AadharFront => k.aadharFront
  }

  /** Typing into one text input: that field takes the new value, nothing else changes. */
  function WithText(k: Kyc, field: TextField, value: string): (r: Kyc)
    ensures Text(r, field) == value
    ensures forall g :: g != field ==> Text(r, g) == Text(k, g)
    ensures forall g :: Doc(r, g) == Doc(k, g)
  {
    match field
    case FullName => k.(fullName := value)
    case Phone => k.(phone := value)
    case LicenseNumber => k.(licenseNumber := value)
  }

  /**
   * Choosing a document file: when a file was chosen, that one document
   * takes its URL and nothing else changes; with no file the form is unchanged.
   */
  function WithUpload(k: Kyc, field: DocField, file: Option<string>): (r: Kyc)
    ensures file.None? ==> r == k
    ensures file.Some? ==> Doc(r, field) == file
    ensures forall g :: g != field ==> Doc(r, g) == Doc(k, g)
    ensures forall g :: Text(r, g) == Text(k, g)
  {
    if file.None? then k
    else
      match field
      case LicenseFront => k.(licenseFront := file)
      case LicenseBack => k.(licenseBack := file)
      case AadharFront => k.(aadharFront := file)
  }

  /**
   * The proceed button is enabled exactly when this holds: every text field
   * is filled in, every document but the back of the licence is uploaded,
   * and the duration is positive.
   */
  function FormComplete(k: Kyc, duration: nat): (ok: bool)
    ensures ok <==>
      (forall g :: Text(k, g) != "") &&
      (forall g :: g != LicenseBack ==> Doc(k, g).Some?) &&
      duration > 0
  {
    assert Text(k, FullName) == k.fullName && Text(k, Phone) == k.phone && Text(k, LicenseNumber) == k.licenseNumber;
    assert Doc(k, LicenseFront) == k.licenseFront && Doc(k, AadharFront) == k.aadharFront;
    k.fullName != "" && k.phone != "" && k.licenseNumber != "" &&
    k.licenseFront.Some? && k.aadharFront.Some? && duration > 0
  }

  /**
   * The empty form is never complete; typing the three text fields and
   * uploading both front documents completes it for every positive duration.
   */
  lemma FillingInCompletesForm(name: string, phone: string, license: string,
                               front: string, aadhar: string, duration: nat)
    requires name != "" && phone != "" && license != "" && duration > 0
    ensures !FormComplete(EmptyKyc, duration)
    ensures FormComplete(
      WithUpload(WithUpload(
        WithText(WithText(WithText(EmptyKyc, FullName, name), Phone, phone), LicenseNumber, license),
        LicenseFront, Some(front)), AadharFront, Some(aadhar)),
      duration)
  {
    assert Text(EmptyKyc, FullName) == "";
  }

  /** The back of the licence is optional: uploading it never changes completeness. */
  lemma LicenseBackOptional(k: Kyc, file: Option<string>, duration: nat)
    ensures FormComplete(WithUpload(k, LicenseBack, file), duration) == FormComplete(k, duration)
  {
  }

  /** A complete form means both times are set and the dropoff is after the pickup. */
  lemma CompleteFormHasWindow(k: Kyc, pickup: Option<int>, dropoff: Option<int>)
    requires FormComplete(k, Duration(pickup, dropoff))
    ensures pickup.Some? && dropoff.Some? && pickup.value < dropoff.value
  {
  }
}
