/**
 * The backend's request schema `RentInput`: per-field constraints that the
 * validation layer checks before the prediction handler runs. Validation
 * reports every failing field at once.
 */
module Schema {
  import opened RentRequest

  /** The constraint the schema declares for one field. */
  predicate FieldAccepted(r: PredictionData, f: Field) {
    match f
    case Sqft => IsInteger(r.sqft) && r.sqft >= 100.0
    case Beds => IsInteger(r.beds) && r.beds >= 0.0
    case Bath => r.bath >= 0.0
    case Laundry => r.laundry in LaundryLabels
    case Pets => r.pets in PetLabels
    case HousingType => r.housingType in HousingLabels
    case Parking => r.parking in ParkingLabels
    case HoodDistrict => 1.0 <= r.hoodDistrict <= 10.0
  }

  /** The fields whose constraint fails: the content of the validation error. */
  function Violations(r: PredictionData): (bad: set<Field>)
    ensures forall f :: f in bad <==> !FieldAccepted(r, f)
  {
    AllFieldsListed();
    set f | f in AllFields && !FieldAccepted(r, f)
  }

  /** The request body parses into a `RentInput`. */
  predicate Accepts(r: PredictionData) {
    Violations(r) == {}
  }

  lemma AcceptsIffEveryField(r: PredictionData)
    ensures Accepts(r) <==> forall f :: FieldAccepted(r, f)
  {
  }

  /** `sqft` is an integer field with lower bound 100. */
  lemma SqftConstraint(r: PredictionData)
    ensures Sqft !in Violations(r) <==> IsInteger(r.sqft) && r.sqft >= 100.0
    ensures r.sqft == 100.5 ==> Sqft in Violations(r)
  {
  }

  /** `beds` is an integer field with lower bound 0, `bath` a float with lower bound 0. */
  lemma BedsBathConstraints(r: PredictionData)
    ensures Beds !in Violations(r) <==> IsInteger(r.beds) && r.beds >= 0.0
    ensures Bath !in Violations(r) <==> r.bath >= 0.0
    ensures r.bath == 0.5 ==> Bath !in Violations(r)
  {
  }

  /** The four categorical fields admit exactly their listed literals: 3, 4, 3 and 4 of them. */
  lemma {:induction false} LiteralConstraints(r: PredictionData)
    ensures Laundry !in Violations(r) <==> r.laundry in LaundryLabels
    ensures Pets !in Violations(r) <==> r.pets in PetLabels
    ensures HousingType !in Violations(r) <==> r.housingType in HousingLabels
    ensures Parking !in Violations(r) <==> r.parking in ParkingLabels
    ensures |LaundryLabels| == 3 && |PetLabels| == 4 && |HousingLabels| == 3 && |ParkingLabels| == 4
  {
  }

  /** `hood_district` is a float in [1, 10], bounds included, with no integrality demanded. */
  lemma DistrictConstraint(r: PredictionData)
    ensures HoodDistrict !in Violations(r) <==> 1.0 <= r.hoodDistrict <= 10.0
    ensures r.hoodDistrict == 2.5 ==> HoodDistrict !in Violations(r)
  {
  }
}
