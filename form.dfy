/**
 * The prediction form: its record state, the field-update handler, the
 * ordered client-side checks, and the submit handler around one request
 * whose outcome is a parameter (an answered response or a rejected fetch).
 */
module Form {
  import opened Wrappers
  import opened RentRequest

  // ---------------------------------------------------------------- record

  /** What an input handler passes: a number or a select's string. */
  datatype FieldValue = Num(n: real) | Text(s: string)

  const InitialForm: PredictionData :=
    PredictionData(0.0, 0.0, 0.0, "(a) in-unit", "(a) both", "(a) single", "(a) unknown", 1.0)

  function ValueOf(d: PredictionData, f: Field): FieldValue {
    match f
    case Sqft => Num(d.sqft)
    case Beds => Num(d.beds)
    case Bath => Num(d.bath)
    case Laundry => Text(d.laundry)
    case Pets => Text(d.pets)
    case HousingType => Text(d.housingType)
    case Parking => Text(d.parking)
    case HoodDistrict => Num(d.hoodDistrict)
  }

  /** Numeric fields take numbers, the select fields strings. */
  predicate KindMatches(f: Field, v: FieldValue) {
    match f
    case Sqft | Beds | Bath | HoodDistrict => v.Num?
    case Laundry | Pets | HousingType | Parking => v.Text?
  }

  /** The spread update `{...prev, [field]: value}`. */
  function WithField(d: PredictionData, f: Field, v: FieldValue): (r: PredictionData)
    requires KindMatches(f, v)
    ensures ValueOf(r, f) == v
    ensures forall g :: g != f ==> ValueOf(r, g) == ValueOf(d, g)
  {
    match f
    case Sqft => d.(sqft := v.n)
    case Beds => d.(beds := v.n)
    case Bath => d.(bath := v.n)
    case Laundry => d.(laundry := v.s)
    case Pets => d.(pets := v.s)
    case HousingType => d.(housingType := v.s)
    case Parking => d.(parking := v.s)
    case HoodDistrict => d.(hoodDistrict := v.n)
  }

  /**
   * What the page's input handlers can deliver: `parseInt(..) || 0` for
   * area and bedrooms, `parseFloat(..) || 0` for bathrooms, `parseInt` of
   * one of the options "1" to "10" for the district, and one of the listed
   * options for each select.
   */
  predicate Admissible(f: Field, v: FieldValue) {
    match f
    case Sqft | Beds => v.Num? && IsInteger(v.n)
    case Bath => v.Num?
    case HoodDistrict => v.Num? && IsInteger(v.n) && 1.0 <= v.n <= 10.0
    case Laundry => v.Text? && v.s in LaundryLabels
    case Pets => v.Text? && v.s in PetLabels
    case HousingType => v.Text? && v.s in HousingLabels
    case Parking => v.Text? && v.s in ParkingLabels
  }

  /** Every record the form can hold through its own inputs. */
  predicate Reachable(d: PredictionData) {
    forall f :: Admissible(f, ValueOf(d, f))
  }

  lemma InitialFormReachable()
    ensures Reachable(InitialForm)
  {
  }

  lemma WithFieldKeepsReachable(d: PredictionData, f: Field, v: FieldValue)
    requires Reachable(d) && Admissible(f, v)
    ensures KindMatches(f, v) && Reachable(WithField(d, f, v))
  {
  }

  // ------------------------------------------------------------ validation

  const AreaMessage: string := "Area must be at least 100 sqft"
  const BedsMessage: string := "Bedrooms cannot be negative"
  const BathMessage: string := "Bathrooms must be at least 0.5"

  /** `validateForm`'s chain of checks: the message of the first failing one. */
  function ValidationMessage(d: PredictionData): Option<string> {
    if d.sqft < 100.0 then Some(AreaMessage)
    else if d.beds < 0.0 then Some(BedsMessage)
    else if d.bath < 0.0 then Some(BathMessage)
    else None
  }

  /** A check as a failing condition and its message. */
  datatype Check = Check(fails: bool, message: string)

  /** The checks in the order they run. */
  function Checks(d: PredictionData): seq<Check> {
    [Check(d.sqft < 100.0, AreaMessage), Check(d.beds < 0.0, BedsMessage), Check(d.bath < 0.0, BathMessage)]
  }

  /** Reference reading of a guard chain: the first failing check decides. */
  function FirstFailing(cs: seq<Check>): (m: Option<string>)
    ensures m.None? <==> forall i :: 0 <= i < |cs| ==> !cs[i].fails
    ensures m.Some? ==> exists i :: 0 <= i < |cs| && cs[i].fails && cs[i].message == m.value &&
                          forall j :: 0 <= j < i ==> !cs[j].fails
  {
    if cs == [] then None
    else if cs[0].fails then Some(cs[0].message)
    else
      var m := FirstFailing(cs[1..]);
      assert forall i :: 1 <= i < |cs| ==> cs[i] == cs[1..][i - 1];
      if m.Some? then
        var i :| 0 <= i < |cs[1..]| && cs[1..][i].fails && cs[1..][i].message == m.value &&
                 forall j :: 0 <= j < i ==> !cs[1..][j].fails;
        assert cs[i + 1].fails && cs[i + 1].message == m.value;
        m
      else m
  }

  lemma ValidationIsFirstFailingCheck(d: PredictionData)
    ensures ValidationMessage(d) == FirstFailing(Checks(d))
  {
    var cs := Checks(d);
    assert cs[1..] == [cs[1], cs[2]];
    assert cs[1..][1..] == [cs[2]];
    assert cs[1..][1..][1..] == [];
  }

  /** Validation passes exactly when area >= 100, bedrooms >= 0 and bathrooms >= 0. */
  lemma ValidationPassesIff(d: PredictionData)
    ensures ValidationMessage(d).None? <==> d.sqft >= 100.0 && d.beds >= 0.0 && d.bath >= 0.0
  {
  }

  /** Area is checked first: a too-small area with negative bedrooms reports only the area. */
  lemma AreaCheckedFirst(d: PredictionData)
    requires d.sqft == 50.0 && d.beds == -1.0
    ensures ValidationMessage(d) == Some(AreaMessage)
  {
  }

  /** The bathroom check is `bath < 0`, so zero bathrooms pass despite the "at least 0.5" message. */
  lemma ZeroBathroomsPass(d: PredictionData)
    requires d.sqft >= 100.0 && d.beds >= 0.0 && d.bath == 0.0
    ensures ValidationMessage(d) == None
    ensures d.bath < 0.5
  {
  }

  /** The untouched form (area 0) fails with the area message. */
  lemma InitialFormFailsOnArea()
    ensures ValidationMessage(InitialForm) == Some(AreaMessage)
  {
  }

  // --------------------------------------------------------------- response

  /** The JavaScript values a JSON response field can read as; `Undefined` is a missing key. */
  datatype JsValue = Undefined | Null | Bool(b: bool) | Number(n: real) | Str(s: string) | Composite

  predicate Truthy(v: JsValue) {
    match v
    case Undefined => false
    case Null => false
    case Bool(b) => b
    case Number(n) => n != 0.0
    case Str(s) => s != ""
    case Composite => true
  }

  /** JavaScript's `a || b`. */
  function JsOr(a: JsValue, b: JsValue): JsValue {
    if Truthy(a) then a else b
  }

  /** What a `catch` clause receives. */
  datatype Thrown = ErrorObject(message: string) | NonError

  /** The parsed body of an answered request, or the error reading it raised. */
  datatype Body = Parsed(predictedRent: JsValue, prediction: JsValue) | Unreadable(message: string)

  /** The outcome of the request: a response with a status, or a rejected fetch. */
  datatype Outcome = Responded(status: nat, body: Body) | Rejected(reason: Thrown)

  /** `response.ok`. */
  predicate StatusOk(status: nat) {
    200 <= status <= 299
  }

  const ServerErrorPrefix: string := "Server error: "
  const FallbackMessage: string := "Failed to get prediction. Please try again."

  function Digit(n: nat): (c: char)
    requires n < 10
    ensures '0' <= c <= '9'
  {
    "0123456789"[n]
  }

  function DigitValue(c: char): nat
    requires '0' <= c <= '9'
  {
    c as nat - '0' as nat
  }

  predicate AllDigits(s: string) {
    forall i :: 0 <= i < |s| ==> '0' <= s[i] <= '9'
  }

  /** The decimal reading of a digit string. */
  function DecimalValue(s: string): nat
    requires AllDigits(s)
  {
    if s == [] then 0 else DecimalValue(s[..|s| - 1]) * 10 + DigitValue(s[|s| - 1])
  }

  /** A status code as a template literal writes it. */
  function Decimal(n: nat): (s: string)
    ensures |s| >= 1 && AllDigits(s)
    ensures s[0] == '0' ==> n == 0
  {
    if n < 10 then [Digit(n)] else Decimal(n / 10) + [Digit(n % 10)]
  }

  lemma {:induction false} DecimalRoundTrip(n: nat)
    ensures DecimalValue(Decimal(n)) == n
  {
    var s := Decimal(n);
    if n < 10 {
      assert s[..|s| - 1] == [];
    } else {
      DecimalRoundTrip(n / 10);
      assert s[..|s| - 1] == Decimal(n / 10);
    }
  }

  /** The `try` block: `throw new Error(`Server error: ...`)` on a non-ok status, else the chosen field. */
  function TryBlock(o: Outcome): Result<JsValue, Thrown> {
    match o
    case Rejected(t) => Failure(t)
    case Responded(status, body) =>
      if !StatusOk(status) then Failure(ErrorObject(ServerErrorPrefix + Decimal(status)))
      else match body
        case Unreadable(m) => Failure(ErrorObject(m))
        case Parsed(rent, pred) => Success(JsOr(rent, pred))
  }

  /** The `catch` clause's message. */
  function CatchMessage(t: Thrown): string {
    match t
    case ErrorObject(m) => m
    case NonError => FallbackMessage
  }

  /** The request's effect: a value for `prediction`, or a message for `error`. */
  function Interpret(o: Outcome): (r: Result<JsValue, string>)
    ensures r.Failure? <==> o.Rejected? || !StatusOk(o.status) || o.body.Unreadable?
  {
    match TryBlock(o)
    case Success(v) => Success(v)
    case Failure(t) => Failure(CatchMessage(t))
  }

  /** A non-ok status ends in the message "Server error: <status>". */
  lemma NonOkStatusMessage(status: nat, body: Body)
    requires !StatusOk(status)
    ensures Interpret(Responded(status, body)) == Failure(ServerErrorPrefix + Decimal(status))
    ensures status == 500 ==> Interpret(Responded(status, body)) == Failure("Server error: 500")
  {
    if status == 500 {
      assert Digit(0) == '0' && Digit(5) == '5';
      assert Decimal(5) == "5";
      assert Decimal(50) == "50";
      assert Decimal(500) == "500";
      assert ServerErrorPrefix + "500" == "Server error: 500";
    }
  }

  /** An ok body yields `predicted_rent` when it is truthy, otherwise `prediction`. */
  lemma OkBodyChoosesField(status: nat, rent: JsValue, pred: JsValue)
    requires StatusOk(status)
    ensures Truthy(rent) ==> Interpret(Responded(status, Parsed(rent, pred))) == Success(rent)
    ensures !Truthy(rent) ==> Interpret(Responded(status, Parsed(rent, pred))) == Success(pred)
  {
  }

  /** `predicted_rent: 0` is falsy and falls through to `prediction`. */
  lemma ZeroRentFallsThrough(status: nat, pred: JsValue)
    requires StatusOk(status)
    ensures Interpret(Responded(status, Parsed(Number(0.0), pred))) == Success(pred)
  {
  }

  /** A body with neither field leaves `prediction` undefined, which is `!== null`, so the result card shows. */
  lemma MissingFieldsGiveUndefined(status: nat)
    requires StatusOk(status)
    ensures Interpret(Responded(status, Parsed(Undefined, Undefined))) == Success(Undefined)
    ensures Undefined != Null
  {
  }

  /** A rejected fetch reports its error's message, or the fallback for a non-Error value. */
  lemma RejectionMessage(t: Thrown)
    ensures Interpret(Rejected(t)) == Failure(if t.ErrorObject? then t.message else FallbackMessage)
  {
  }

  // ------------------------------------------------------------- component

  /** The component's four pieces of state. */
  class PredictForm {
    var formData: PredictionData
    var isLoading: bool
    var prediction: JsValue
    var error: Option<string>

    /** While a request is in flight nothing from the previous attempt is shown. */
    ghost predicate Valid()
      reads this
    {
      isLoading ==> prediction == Null && error == None
    }

    constructor ()
      ensures Valid()
      ensures formData == InitialForm && !isLoading && prediction == Null && error == None
    {
      formData := InitialForm;
      isLoading := false;
      prediction := Null;
      error := None;
    }

    /** `handleInputChange`: updates one field; clears a truthy error. */
    method HandleInputChange(field: Field, value: FieldValue)
      requires Valid() && KindMatches(field, value)
      modifies this
      ensures Valid()
      ensures formData == WithField(old(formData), field, value)
      ensures error == if old(error).Some? && old(error).value != "" then None else old(error)
      ensures isLoading == old(isLoading) && prediction == old(prediction)
    {
      formData := WithField(formData, field, value);
      if error.Some? && error.value != "" {
        error := None;
      }
    }

    /** `validateForm`: on failure sets the first failing check's message. */
    method ValidateForm() returns (ok: bool)
      modifies this`error
      ensures ok <==> ValidationMessage(formData).None?
      ensures error == if ok then old(error) else ValidationMessage(formData)
    {
      if formData.sqft < 100.0 {
        error := Some(AreaMessage);
        return false;
      }
      if formData.beds < 0.0 {
        error := Some(BedsMessage);
        return false;
      }
      if formData.bath < 0.0 {
        error := Some(BathMessage);
        return false;
      }
      return true;
    }

    /**
     * `handlePredict` up to the request: validation, then the reset.
     * Returns the body that is posted, or None when no request is made.
     * The submit button is disabled while loading, hence `!isLoading`.
     */
    method StartPredict() returns (request: Option<PredictionData>)
      requires Valid() && !isLoading
      modifies this
      ensures Valid() && formData == old(formData)
      ensures request.Some? <==> ValidationMessage(formData).None?
      ensures request.None? ==>
        error == ValidationMessage(formData) && !isLoading && prediction == old(prediction)
      ensures request.Some? ==>
        request.value == formData && isLoading && error == None && prediction == Null
    {
      var ok := ValidateForm();
      if !ok {
        return None;
      }
      isLoading := true;
      error := None;
      prediction := Null;
      return Some(formData);
    }

    /** `handlePredict` after the request: exactly one of the two results, then loading cleared. */
    method FinishPredict(outcome: Outcome)
      requires Valid() && isLoading
      modifies this
      ensures Valid() && !isLoading && formData == old(formData)
      ensures Interpret(outcome).Success? ==>
        prediction == Interpret(outcome).value && error == old(error)
      ensures Interpret(outcome).Failure? ==>
        prediction == old(prediction) && error == Some(Interpret(outcome).error)
    {
      var r := Interpret(outcome);
      match r {
        case Success(v) =>
          prediction := v;
        case Failure(m) =>
          error := Some(m);
      }
      isLoading := false;
    }

    /** `handlePredict` from click to settlement, with the request's outcome given. */
    method HandlePredict(outcome: Outcome) returns (request: Option<PredictionData>)
      requires Valid() && !isLoading
      modifies this
      ensures Valid() && !isLoading && formData == old(formData)
      ensures request.Some? <==> ValidationMessage(formData).None?
      ensures request.None? ==> error == ValidationMessage(formData) && prediction == old(prediction)
      ensures request.Some? ==> request.value == formData
      ensures request.Some? && Interpret(outcome).Success? ==>
        prediction == Interpret(outcome).value && error == None
      ensures request.Some? && Interpret(outcome).Failure? ==>
        prediction == Null && error == Some(Interpret(outcome).error)
    {
      request := StartPredict();
      if request.Some? {
        FinishPredict(outcome);
      }
    }
  }
}
