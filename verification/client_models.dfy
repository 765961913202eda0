/**
 * The Backbone models of the web client (src/sa_web/static/sa/js/models.js):
 * the URL a submission collection posts to, and the way a place collection
 * hands its submission types to every place it adds.
 *
 * JavaScript values that reach this code are undefined, null, booleans,
 * integral numbers and strings. Backbone's own `add`, which the collection
 * delegates to, is not part of this model: `Add` returns the options it
 * passes on.
 */
module ClientModels {
  import opened Wrappers
  import opened Text

  datatype JsValue =
    | Undefined
    | Null
    | Bool(b: bool)
    | Num(n: int)
    | Str(s: string)

  /** JavaScript truthiness: undefined, null, false, 0 and "" are false. */
  predicate JsTruthy(v: JsValue)
  {
    match v
    case Undefined => false
    case Null => false
    case Bool(b) => b
    case Num(n) => n != 0
    case Str(s) => s != ""
  }

  /** What `+` with a string makes of a value. */
  function JsString(v: JsValue): string
  {
    match v
    case Undefined => "undefined"
    case Null => "null"
    case Bool(b) => if b then "true" else "false"
    case Num(n) => IntToDecimal(n)
    case Str(s) => s
  }

  const PlacesPath := "/api/places/"

  /** The message of the Error thrown for a place that has not been saved. */
  function UnsavedPlaceMessage(submissionType: JsValue): string
  {
    "Place model id is not defined. You must save the Place before saving its " + JsString(submissionType) + "."
  }

  /** `SubmissionCollection.url`: the collection URL under its place, or the Error thrown. */
  function SubmissionUrl(placeId: JsValue, submissionType: JsValue): Result<string, string>
  {
    if !JsTruthy(placeId) then Err(UnsavedPlaceMessage(submissionType))
    else Ok(PlacesPath + JsString(placeId) + "/" + JsString(submissionType) + "/")
  }

  /**
   * The URL is built exactly when the place id is truthy; it then lies
   * under `/api/places/` and ends with a slash, and otherwise the message
   * names the submission type.
   */
  lemma SubmissionUrlThrowsForUnsavedPlace(placeId: JsValue, submissionType: JsValue)
    ensures SubmissionUrl(placeId, submissionType).Ok? <==> JsTruthy(placeId)
    ensures var r := SubmissionUrl(placeId, submissionType);
      r.Ok? ==> PlacesPath <= r.value && r.value[|r.value| - 1] == '/'
    ensures var r := SubmissionUrl(placeId, submissionType);
      r.Err? ==> JsString(submissionType) + "." <= r.error[|r.error| - |JsString(submissionType)| - 1..]
  {
    var t := JsString(submissionType);
    if JsTruthy(placeId) {
      var u := PlacesPath + JsString(placeId) + "/" + t + "/";
      assert u[..|PlacesPath|] == PlacesPath;
    } else {
      var m := UnsavedPlaceMessage(submissionType);
      var prefix := "Place model id is not defined. You must save the Place before saving its ";
      assert m == prefix + (t + ".");
      assert m[|m| - |t| - 1..] == t + ".";
    }
  }

  /** A saved place with a numeric id and a string type give the path segments `places`, the id in decimal, and the type. */
  lemma SubmissionUrlSegments(id: nat, submissionType: string)
    requires id != 0 && '/' !in submissionType
    ensures SubmissionUrl(Num(id), Str(submissionType)) == Ok(PlacesPath + NatToDecimal(id) + "/" + submissionType + "/")
    ensures Split(SubmissionUrl(Num(id), Str(submissionType)).value, '/') == ["", "api", "places", NatToDecimal(id), submissionType, ""]
  {
    var digits := NatToDecimal(id);
    assert '/' !in digits by {
      forall i | 0 <= i < |digits| ensures digits[i] != '/' {
        assert IsDigit(digits[i]);
      }
    }
    var parts := ["", "api", "places", digits, submissionType, ""];
    SubmissionPathJoin(digits, submissionType);
    SplitJoin(parts, '/');
  }

  lemma SubmissionPathJoin(a: string, b: string)
    ensures Join(["", "api", "places", a, b, ""], '/') == PlacesPath + a + "/" + b + "/"
  {
    var parts := ["", "api", "places", a, b, ""];
    assert parts[1..][1..][1..][1..][1..] == [""];
    assert Join(parts[1..][1..][1..][1..], '/') == b + "/";
    assert Join(parts[1..][1..][1..], '/') == a + "/" + b + "/";
    assert Join(parts[1..][1..], '/') == "places/" + a + "/" + b + "/";
    assert Join(parts[1..], '/') == "api/places/" + a + "/" + b + "/";
  }

  /** A JavaScript options object: its own properties. */
  class Options {
    var props: map<string, JsValue>

    constructor(props: map<string, JsValue>)
      ensures this.props == props
    {
      this.props := props;
    }

    /** Reading a property: undefined when the object does not have it. */
    function Prop(name: string): JsValue
      reads this
    {
      if name in props then props[name] else Undefined
    }
  }

  const ResponseTypeKey := "responseType"
  const SupportTypeKey := "supportType"

  /** Reading a property of something that is not an object throws a TypeError. */
  datatype AddError = OptionsUndefined

  /** `S.PlaceCollection`, with the options it was initialized with (possibly undefined). */
  class PlaceCollection {
    var options: Options?

    /** `initialize(models, options)`. */
    constructor(options: Options?)
      ensures this.options == options
    {
      this.options := options;
    }

    /**
     * `add(models, options)`: the per-call options (a new object when none
     * are given) get the collection's `responseType` and `supportType`,
     * and are passed on to Backbone's `add`. Without collection options
     * the property read throws.
     */
    method Add(options: Options?) returns (passed: Result<Options, AddError>)
      modifies options
      ensures this.options == null ==> passed == Err(OptionsUndefined)
      ensures this.options == null && options != null ==> options.props == old(options.props)
      ensures this.options != null ==> passed.Ok?
      ensures passed.Ok? && options != null ==> passed.value == options
      ensures passed.Ok? && options == null ==> fresh(passed.value)
      ensures passed.Ok? ==> (
        passed.value.props ==
          (if options == null then map[] else old(options.props))
            [ResponseTypeKey := old(this.options.Prop(ResponseTypeKey))]
            [SupportTypeKey := old(this.options.Prop(SupportTypeKey))])
    {
      var opts := options;
      if opts == null {
        opts := new Options(map[]);
      }
      if this.options == null {
        return Err(OptionsUndefined);
      }
      opts.props := opts.props[ResponseTypeKey := this.options.Prop(ResponseTypeKey)];
      opts.props := opts.props[SupportTypeKey := this.options.Prop(SupportTypeKey)];
      passed := Ok(opts);
    }
  }
}
