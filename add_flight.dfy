/** The administrator's "Add Flight" form. */
module AddFlight {
  import opened Optional
  import opened Records
  import opened JsValues
  import opened Forms

  /** Every field of the form, in checking order, with the message shown when it is left empty. */
  function FlightRules(): seq<Rule> {
    [
    Rule("flightNumber", "Flight number is required."),
    Rule("departureAirport", "Departure airport is required."),
    Rule("arrivalAirport", "Arrival airport is required."),
    Rule("flightDate", "Flight date is required."),
    Rule("flightTime", "Flight time is required."),
    Rule("aircraftType", "Aircraft type is required."),
    Rule("duration", "Duration is required."),
    Rule("seatAvailability", "Seat availability is required."),
    Rule("price", "Price is required.")]
  }

  lemma FlightRulesDistinct()
    ensures DistinctKeys(FlightRules())
  {
  }

  /** The initial and post-submit form: all nine fields empty. */
  function EmptyFlightForm(): (r: Record)
    ensures r.Keys == set i | 0 <= i < |FlightRules()| :: FlightRules()[i].key
    ensures forall k :: k in r ==> r[k] == Str("")
  {
    map i | 0 <= i < |FlightRules()| :: FlightRules()[i].key := Str("")
  }

  /** `validateForm`: builds the errors one field at a time. */
  method ValidateFlightForm(data: Record) returns (errors: map<string, string>)
    ensures errors == MissingFields(data, FlightRules())
  {
    errors := map[];
    errors := CheckRequired(data, errors, "flightNumber", "Flight number is required.");
    errors := CheckRequired(data, errors, "departureAirport", "Departure airport is required.");
    errors := CheckRequired(data, errors, "arrivalAirport", "Arrival airport is required.");
    errors := CheckRequired(data, errors, "flightDate", "Flight date is required.");
    errors := CheckRequired(data, errors, "flightTime", "Flight time is required.");
    errors := CheckRequired(data, errors, "aircraftType", "Aircraft type is required.");
    errors := CheckRequired(data, errors, "duration", "Duration is required.");
    errors := CheckRequired(data, errors, "seatAvailability", "Seat availability is required.");
    errors := CheckRequired(data, errors, "price", "Price is required.");
  }

  /**
   * The form validates exactly when all nine fields are filled in; each empty
   * field is reported once under its own key, with its own message.
   */
  lemma FlightFormErrorsExact(data: Record, k: string)
    ensures MissingFields(data, FlightRules()) == map[] <==> forall i :: 0 <= i < |FlightRules()| ==> Truthy(Get(data, FlightRules()[i].key))
    ensures k in MissingFields(data, FlightRules()) <==> (exists i :: 0 <= i < |FlightRules()| && FlightRules()[i].key == k) && !Truthy(Get(data, k))
    ensures forall i :: 0 <= i < |FlightRules()| && FlightRules()[i].key == k && !Truthy(Get(data, k))
                        ==> MissingFields(data, FlightRules())[k] == FlightRules()[i].message
  {
    FlightRulesDistinct();
    NoMissingFieldsIff(data, FlightRules());
    MissingFieldsExact(data, FlightRules(), k);
  }

  /** Submitting the untouched form reports all nine fields. */
  lemma EmptyFormFailsEverywhere(i: nat)
    requires i < |FlightRules()|
    ensures FlightRules()[i].key in MissingFields(EmptyFlightForm(), FlightRules())
  {
    RequireFromKeys(EmptyFlightForm(), map[], FlightRules(), 0, FlightRules()[i].key);
  }

  /** `userData?.image || ""`. */
  function ImageOrEmpty(image: Option<string>): (s: string)
    ensures image.Some? && image.value != "" ==> s == image.value
    ensures image.None? || image.value == "" ==> s == ""
  {
    match image
    case Some(i) => if i != "" then i else ""
    case None => ""
  }

  /** `flightData`: the form as typed plus the poster's e-mail and image. */
  function FlightData(form: Record, user: Option<AuthUser>, signImage: Option<string>): (r: Record)
    ensures r.Keys == form.Keys + {"userEmail", "userImage"}
    ensures Get(r, "userEmail") == FromOption(EmailOf(user))
    ensures Get(r, "userImage") == Str(ImageOrEmpty(signImage))
    ensures forall k :: k != "userEmail" && k != "userImage" ==> Get(r, k) == Get(form, k)
  {
    SetField(SetField(form, "userEmail", FromOption(EmailOf(user))), "userImage", Str(ImageOrEmpty(signImage)))
  }

  /** The form's state: the fields typed so far and the last validation's errors. */
  class FlightForm {
    var formData: Record
    var formErrors: map<string, string>

    constructor ()
      ensures formData == EmptyFlightForm() && formErrors == map[]
    {
      formData := EmptyFlightForm();
      formErrors := map[];
    }

    /** `handleChange`: only the named field takes the typed value. */
    method HandleChange(name: string, value: string)
      modifies this`formData
      ensures formData == SetField(old(formData), name, Str(value))
    {
      formData := SetField(formData, name, Str(value));
    }

    /**
     * `handleSubmit`: an invalid form stops before anything is built; a valid
     * one is posted with the poster's details and the form is cleared, whether
     * or not the post succeeds.
     */
    method HandleSubmit(user: Option<AuthUser>, signImage: Option<string>) returns (posted: Option<Record>)
      modifies this`formData, this`formErrors
      ensures formErrors == MissingFields(old(formData), FlightRules())
      ensures posted.Some? <==> formErrors == map[]
      ensures posted.Some? ==> posted.value == FlightData(old(formData), user, signImage) && formData == EmptyFlightForm()
      ensures posted.None? ==> formData == old(formData)
    {
      var errors := ValidateFlightForm(formData);
      formErrors := errors;
      if errors != map[] {
        return None;
      }
      posted := Some(FlightData(formData, user, signImage));
      formData := EmptyFlightForm();
    }
  }
}
