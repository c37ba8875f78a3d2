/**
 * Feature preparation in `predict_rent`: the request record becomes a
 * one-row dictionary through the four mappings, the one-hot encoding
 * (`pd.get_dummies`, a given function here) turns it into a map from
 * column names to numbers, and that map is aligned to the model's
 * training columns.
 */
module Predict {
  import opened Wrappers
  import opened RentRequest
  import opened Mappings

  /** `input_dict`: numbers copied, labels mapped, parking left as its label. */
  datatype InputDict = InputDict(
    sqft: real,
    beds: real,
    bath: real,
    laundry: string,
    pets: string,
    housingType: string,
    parking: string,
    hoodDistrict: string)

  /** The `KeyError` raised by the first dictionary lookup that misses. */
  datatype MissingKey = LabelKey(key: string) | DistrictKey(district: real)

  /** The constant column the regression was fitted with. */
  const ConstColumn: string := "const"

  /** Builds `input_dict`, looking the entries up in source order. */
  function BuildInputDict(data: PredictionData): (r: Result<InputDict, MissingKey>)
    ensures r.Success? <==>
      data.laundry in LaundryMap && data.pets in PetMap &&
      data.housingType in HouseMap && data.hoodDistrict in DistrictMap
    ensures r.Success? ==>
      r.value.sqft == data.sqft && r.value.beds == data.beds &&
      r.value.bath == data.bath && r.value.parking == data.parking
    ensures r.Success? ==>
      r.value.laundry == LaundryMap[data.laundry] && r.value.pets == PetMap[data.pets] &&
      r.value.housingType == HouseMap[data.housingType] &&
      r.value.hoodDistrict == DistrictMap[data.hoodDistrict]
    ensures r.Failure? && data.laundry in LaundryMap && data.pets in PetMap && data.housingType in HouseMap ==>
      r.error == DistrictKey(data.hoodDistrict)
  {
    if data.laundry !in LaundryMap then Failure(LabelKey(data.laundry))
    else if data.pets !in PetMap then Failure(LabelKey(data.pets))
    else if data.housingType !in HouseMap then Failure(LabelKey(data.housingType))
    else if data.hoodDistrict !in DistrictMap then Failure(DistrictKey(data.hoodDistrict))
    else
      Success(InputDict(
        data.sqft, data.beds, data.bath,
        LaundryMap[data.laundry], PetMap[data.pets], HouseMap[data.housingType],
        data.parking, DistrictMap[data.hoodDistrict]))
  }

  /**
   * Aligns the encoded row to `trainCols`: every training column missing
   * from the encoding is added with 0, `const` is set to 1.0, and the row
   * is projected onto `trainCols` in that order.
   */
  method AlignColumns(encoded: map<string, real>, trainCols: seq<string>)
    returns (columns: seq<string>, row: seq<real>)
    ensures columns == trainCols && |row| == |trainCols|
    ensures forall i :: 0 <= i < |trainCols| && trainCols[i] == ConstColumn ==> row[i] == 1.0
    ensures forall i :: 0 <= i < |trainCols| && trainCols[i] != ConstColumn && trainCols[i] !in encoded ==>
      row[i] == 0.0
    ensures forall i :: 0 <= i < |trainCols| && trainCols[i] != ConstColumn && trainCols[i] in encoded ==>
      row[i] == encoded[trainCols[i]]
  {
    var frame := encoded;
    var i := 0;
    while i < |trainCols|
      invariant 0 <= i <= |trainCols|
      invariant forall j :: 0 <= j < i && trainCols[j] != ConstColumn ==> trainCols[j] in frame
      invariant encoded.Keys <= frame.Keys
      invariant forall c :: c in frame ==> frame[c] == if c in encoded then encoded[c] else 0.0
    {
      var col := trainCols[i];
      if col !in frame && col != ConstColumn {
        frame := frame[col := 0.0];
      }
      i := i + 1;
    }
    frame := frame[ConstColumn := 1.0];

    columns, row := [], [];
    var k := 0;
    while k < |trainCols|
      invariant 0 <= k <= |trainCols|
      invariant columns == trainCols[..k] && |row| == k
      invariant forall j :: 0 <= j < k ==> row[j] == frame[trainCols[j]]
    {
      columns, row := columns + [trainCols[k]], row + [frame[trainCols[k]]];
      k := k + 1;
    }
  }

  /**
   * The body of `predict_rent` up to the model call: the aligned feature row,
   * or the `KeyError` of a failed lookup.
   */
  method PrepareFeatures(data: PredictionData, getDummies: InputDict -> map<string, real>, trainCols: seq<string>)
    returns (r: Result<seq<real>, MissingKey>)
    ensures r.Success? <==> BuildInputDict(data).Success?
    ensures r.Failure? ==> r.error == BuildInputDict(data).error
    ensures r.Success? ==> |r.value| == |trainCols|
    ensures r.Success? ==> forall i :: 0 <= i < |trainCols| ==>
      var encoded := getDummies(BuildInputDict(data).value);
      r.value[i] == (if trainCols[i] == ConstColumn then 1.0
                     else if trainCols[i] in encoded then encoded[trainCols[i]]
                     else 0.0)
  {
    var dict := BuildInputDict(data);
    if dict.Failure? {
      return Failure(dict.error);
    }
    var encoded := getDummies(dict.value);
    var columns, row := AlignColumns(encoded, trainCols);
    return Success(row);
  }
}
