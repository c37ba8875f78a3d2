/**
 * The record the form keeps in its state and posts as the JSON body of
 * `POST /predict`; the backend parses the same body into `RentInput`.
 * JavaScript numbers and Python floats are modelled as reals.
 */
module RentRequest {

  /** The eight keys of the JSON body. */
  datatype Field = Sqft | Beds | Bath | Laundry | Pets | HousingType | Parking | HoodDistrict

  const AllFields: set<Field> := {Sqft, Beds, Bath, Laundry, Pets, HousingType, Parking, HoodDistrict}

  lemma AllFieldsListed()
    ensures forall f :: f in AllFields
  {
    forall f ensures f in AllFields {
      match f
      case Sqft =>
      case Beds =>
      case Bath =>
      case Laundry =>
      case Pets =>
      case HousingType =>
      case Parking =>
      case HoodDistrict =>
    }
  }

  datatype PredictionData = PredictionData(
    sqft: real,
    beds: real,
    bath: real,
    laundry: string,
    pets: string,
    housingType: string,
    parking: string,
    hoodDistrict: real)

  /** The literal labels of the four categorical fields (the same lists in
      the form's type and in the backend schema). */
  const LaundryLabels: set<string> := {"(a) in-unit", "(b) on-site", "(c) no laundry"}
  const PetLabels: set<string> := {"(a) both", "(b) dogs", "(c) cats", "(d) no pets"}
  const HousingLabels: set<string> := {"(a) single", "(b) double", "(c) multi"}
  const ParkingLabels: set<string> := {"(a) unknown", "(b) protected", "(c) off-street", "(d) no parking"}

  /** A number with no fractional part. */
  predicate IsInteger(x: real) {
    x == x.Floor as real
  }
}
