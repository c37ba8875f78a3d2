/**
 * The four dictionaries that turn request labels into the categories the
 * regression model was trained on.
 */
module Mappings {
  import opened RentRequest

  const LaundryMap: map<string, string> := map[
    "(a) in-unit" := "in-unit",
    "(b) on-site" := "not in-unit",
    "(c) no laundry" := "not in-unit"]

  const PetMap: map<string, string> := map[
    "(a) both" := "allows_dogs",
    "(b) dogs" := "allows_dogs",
    "(c) cats" := "no_dogs",
    "(d) no pets" := "no_dogs"]

  const HouseMap: map<string, string> := map[
    "(a) single" := "single",
    "(b) double" := "multi",
    "(c) multi" := "multi"]

  /** Keyed by floats: Python finds a key only for an equal number. */
  const DistrictMap: map<real, string> := map[
    1.0 := "west",
    2.0 := "southwest",
    3.0 := "southwest",
    4.0 := "central",
    5.0 := "central",
    6.0 := "central",
    7.0 := "marina",
    8.0 := "north beach",
    9.0 := "FiDi/SOMA",
    10.0 := "southwest"]

  lemma LaundryMapContents()
    ensures LaundryMap.Keys == LaundryLabels
    ensures forall l :: l in LaundryMap ==> (LaundryMap[l] == "in-unit" <==> l == "(a) in-unit")
    ensures LaundryMap.Values == {"in-unit", "not in-unit"}
  {
  }

  lemma PetMapContents()
    ensures PetMap.Keys == PetLabels
    ensures forall l :: l in PetMap ==> (PetMap[l] == "allows_dogs" <==> l in {"(a) both", "(b) dogs"})
    ensures forall l :: l in PetMap ==> (PetMap[l] == "no_dogs" <==> l in {"(c) cats", "(d) no pets"})
  {
  }

  lemma HouseMapContents()
    ensures HouseMap.Keys == HousingLabels
    ensures forall l :: l in HouseMap ==> (HouseMap[l] == "single" <==> l == "(a) single")
    ensures HouseMap.Values == {"single", "multi"}
  {
  }

  /** The district keys are exactly the whole numbers 1 to 10. */
  lemma DistrictKeys(d: real)
    ensures d in DistrictMap <==> IsInteger(d) && 1.0 <= d <= 10.0
  {
  }

  /** Ten districts fall into six regions; 2, 3 and 10 are "southwest", 4, 5 and 6 "central". */
  lemma DistrictRegions()
    ensures (set d | d in DistrictMap && DistrictMap[d] == "southwest") == {2.0, 3.0, 10.0}
    ensures (set d | d in DistrictMap && DistrictMap[d] == "central") == {4.0, 5.0, 6.0}
    ensures DistrictMap.Values == {"west", "southwest", "central", "marina", "north beach", "FiDi/SOMA"}
    ensures |DistrictMap.Values| == 6
  {
    assert DistrictMap.Values == {"west", "southwest", "central", "marina", "north beach", "FiDi/SOMA"} by {
      assert DistrictMap[1.0] == "west" && DistrictMap[7.0] == "marina";
      assert DistrictMap[8.0] == "north beach" && DistrictMap[9.0] == "FiDi/SOMA";
      assert DistrictMap[2.0] == "southwest" && DistrictMap[4.0] == "central";
    }
  }
}
