/**
 * Facts that relate the form, the backend schema, the mappings and the
 * feature preparation to each other.
 */
module Agreement {
  import opened Wrappers
  import opened RentRequest
  import Schema
  import Mappings
  import Predict
  import Form

  /**
   * On area, bedrooms and bathrooms the form's checks and the schema's bounds
   * accept the same records, given the integral area and bedroom counts that
   * the form's `parseInt` inputs produce.
   */
  lemma NumericChecksAgree(d: PredictionData)
    requires IsInteger(d.sqft) && IsInteger(d.beds)
    ensures Form.ValidationMessage(d).None? <==>
      Sqft !in Schema.Violations(d) && Beds !in Schema.Violations(d) && Bath !in Schema.Violations(d)
  {
  }

  /** Without integrality they part: an area of 150.5 passes the form but not the schema. */
  lemma FractionalAreaPassesOnlyTheForm(d: PredictionData)
    requires d.sqft == 150.5 && d.beds == 1.0 && d.bath == 1.0
    ensures Form.ValidationMessage(d).None?
    ensures Sqft in Schema.Violations(d)
  {
  }

  /** The form reports only the first failing check, the schema every failing field. */
  lemma FormReportsFirstSchemaReportsAll(d: PredictionData)
    requires d.sqft == 50.0 && d.beds == -1.0 && d.bath == 1.0
    requires Schema.Accepts(d.(sqft := 100.0, beds := 0.0))
    ensures Form.ValidationMessage(d) == Some(Form.AreaMessage)
    ensures Schema.Violations(d) == {Sqft, Beds}
  {
  }

  /** The laundry, pet and housing maps have the schema's literals as their domains. */
  lemma MapDomainsAreSchemaLiterals()
    ensures Mappings.LaundryMap.Keys == LaundryLabels
    ensures Mappings.PetMap.Keys == PetLabels
    ensures Mappings.HouseMap.Keys == HousingLabels
  {
  }

  /** On a schema-valid record the only lookup that can fail is the district's, and it fails
      exactly when the district has a fractional part. */
  lemma AcceptedLookupIffIntegralDistrict(d: PredictionData)
    requires Schema.Accepts(d)
    ensures Predict.BuildInputDict(d).Success? <==> IsInteger(d.hoodDistrict)
    ensures Predict.BuildInputDict(d).Failure? ==>
      Predict.BuildInputDict(d).error == Predict.DistrictKey(d.hoodDistrict)
  {
    Schema.AcceptsIffEveryField(d);
    assert Schema.FieldAccepted(d, Laundry) && Schema.FieldAccepted(d, Pets);
    assert Schema.FieldAccepted(d, HousingType) && Schema.FieldAccepted(d, HoodDistrict);
    MapDomainsAreSchemaLiterals();
    Mappings.DistrictKeys(d.hoodDistrict);
  }

  /** District 2.5 passes the schema and then has no key in the district map. */
  lemma HalfDistrictPassesSchemaButHasNoKey(d: PredictionData)
    requires d == PredictionData(800.0, 2.0, 1.0, "(a) in-unit", "(a) both", "(a) single", "(a) unknown", 2.5)
    ensures Schema.Accepts(d)
    ensures Predict.BuildInputDict(d) == Failure(Predict.DistrictKey(2.5))
  {
  }

  /** Every request the form sends is accepted by the schema and gets through the lookups. */
  lemma SubmittedFormReachesModel(d: PredictionData)
    requires Form.Reachable(d) && Form.ValidationMessage(d).None?
    ensures Schema.Accepts(d)
    ensures Predict.BuildInputDict(d).Success?
  {
    assert Form.Admissible(Sqft, Form.ValueOf(d, Sqft));
    assert Form.Admissible(Beds, Form.ValueOf(d, Beds));
    assert Form.Admissible(Laundry, Form.ValueOf(d, Laundry));
    assert Form.Admissible(Pets, Form.ValueOf(d, Pets));
    assert Form.Admissible(HousingType, Form.ValueOf(d, HousingType));
    assert Form.Admissible(Parking, Form.ValueOf(d, Parking));
    assert Form.Admissible(HoodDistrict, Form.ValueOf(d, HoodDistrict));
    forall f ensures Schema.FieldAccepted(d, f) {
    }
    Schema.AcceptsIffEveryField(d);
    AcceptedLookupIffIntegralDistrict(d);
  }
}
