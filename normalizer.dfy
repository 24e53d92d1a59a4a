/**
 * The payload the prediction page posts to the inference service, built from the form
 * record when "Run Prediction" is pressed (frontend/src/app/Home/Page.tsx, lines 37-49).
 */
module Normalizer {
  import opened Wrappers
  import Coerce

  /** The form record: the id of each input element to the text it currently holds. */
  type FormData = map<string, string>

  const VehicleName := "vehicle_name"
  const Model := "model"
  const MachineAge := "machine_age"
  const TotalKilometers := "total_kilometers"
  const AirTemperature := "Air_temperature"
  const ProcessTemperature := "Process_temperature"
  const RotationalSpeed := "Rotational_speed"
  const Torque := "Torque"
  const ToolWear := "Tool_wear"
  const MachineType := "machine_type"

  /** The ten form fields the payload is built from. */
  const FieldIds: set<string> :=
    {VehicleName, Model, MachineAge, TotalKilometers, AirTemperature, ProcessTemperature,
     RotationalSpeed, Torque, ToolWear, MachineType}

  /** What an empty text field is sent as. */
  const Unknown := "Unknown"

  /** The form as the page first renders it: every field empty, machine type "M". */
  const InitialForm: FormData :=
    map[VehicleName := "", Model := "", MachineAge := "", TotalKilometers := "",
        AirTemperature := "", ProcessTemperature := "", RotationalSpeed := "",
        Torque := "", ToolWear := "", MachineType := "M"]

  /** The request body; every key is always present. */
  datatype PredictionRequest = PredictionRequest(
    vehicleName: string,
    model: string,
    machineAge: real,
    totalKilometers: real,
    airTemperature: real,
    processTemperature: real,
    rotationalSpeed: real,
    torque: real,
    toolWear: real,
    typeL: bool,
    typeM: bool)

  /** Reading a field the record does not hold gives `undefined`, here None. */
  function Lookup(form: FormData, id: string): (value: Option<string>)
    ensures value.Some? <==> id in form
    ensures value.Some? ==> value.value == form[id]
  {
    if id in form then Some(form[id]) else None
  }

  /** The rule for a text field: empty or absent becomes "Unknown", anything else is kept. */
  ghost predicate TextDefaulted(raw: Option<string>, out: string)
  {
    if raw == None || raw == Some("") then out == Unknown else out == raw.value
  }

  /**
   * The rule for a numeric field: the parsed number when the text parses, otherwise 0.
   * `parseFloat(undefined)` is NaN, so an absent field counts as a failed parse.
   */
  ghost predicate NumberDefaulted(raw: Option<string>, parseFloat: string -> Option<real>, out: real)
  {
    out == (if raw.Some? && parseFloat(raw.value).Some? then parseFloat(raw.value).value else 0.0)
  }

  /** `parseFloat(raw) || 0`. */
  function ParsedOrZero(raw: Option<string>, parseFloat: string -> Option<real>): (x: real)
    ensures NumberDefaulted(raw, parseFloat, x)
  {
    match raw
    case None => 0.0
    case Some(s) => Coerce.OrZero(parseFloat(s))
  }

  /**
   * Builds the request from the form. `parseFloat` stands for JavaScript's parser, which
   * yields None where it would yield NaN.
   */
  function Normalize(form: FormData, parseFloat: string -> Option<real>): (r: PredictionRequest)
    ensures TextDefaulted(Lookup(form, VehicleName), r.vehicleName)
    ensures TextDefaulted(Lookup(form, Model), r.model)
    ensures r.vehicleName != "" && r.model != ""
    ensures NumberDefaulted(Lookup(form, MachineAge), parseFloat, r.machineAge)
    ensures NumberDefaulted(Lookup(form, TotalKilometers), parseFloat, r.totalKilometers)
    ensures NumberDefaulted(Lookup(form, AirTemperature), parseFloat, r.airTemperature)
    ensures NumberDefaulted(Lookup(form, ProcessTemperature), parseFloat, r.processTemperature)
    ensures NumberDefaulted(Lookup(form, RotationalSpeed), parseFloat, r.rotationalSpeed)
    ensures NumberDefaulted(Lookup(form, Torque), parseFloat, r.torque)
    ensures NumberDefaulted(Lookup(form, ToolWear), parseFloat, r.toolWear)
    ensures r.typeL <==> Lookup(form, MachineType) == Some("L")
    ensures r.typeM <==> Lookup(form, MachineType) == Some("M")
    ensures !(r.typeL && r.typeM)
  {
    PredictionRequest(
      vehicleName := Coerce.OrText(Lookup(form, VehicleName), Unknown),
      model := Coerce.OrText(Lookup(form, Model), Unknown),
      machineAge := ParsedOrZero(Lookup(form, MachineAge), parseFloat),
      totalKilometers := ParsedOrZero(Lookup(form, TotalKilometers), parseFloat),
      airTemperature := ParsedOrZero(Lookup(form, AirTemperature), parseFloat),
      processTemperature := ParsedOrZero(Lookup(form, ProcessTemperature), parseFloat),
      rotationalSpeed := ParsedOrZero(Lookup(form, RotationalSpeed), parseFloat),
      torque := ParsedOrZero(Lookup(form, Torque), parseFloat),
      toolWear := ParsedOrZero(Lookup(form, ToolWear), parseFloat),
      typeL := Lookup(form, MachineType) == Some("L"),
      typeM := Lookup(form, MachineType) == Some("M"))
  }

  /** For the two values the machine-type select offers, exactly one flag is set. */
  lemma ExactlyOneMachineType(form: FormData, parseFloat: string -> Option<real>)
    requires Lookup(form, MachineType) in {Some("L"), Some("M")}
    ensures Normalize(form, parseFloat).typeL != Normalize(form, parseFloat).typeM
  {
  }

  /** The payload depends on the ten form fields and on nothing else in the record. */
  lemma NormalizeReadsOnlyFields(f: FormData, g: FormData, parseFloat: string -> Option<real>)
    requires forall id :: id in FieldIds ==> Lookup(f, id) == Lookup(g, id)
    ensures Normalize(f, parseFloat) == Normalize(g, parseFloat)
  {
    assert Lookup(f, VehicleName) == Lookup(g, VehicleName);
    assert Lookup(f, Model) == Lookup(g, Model);
    assert Lookup(f, MachineAge) == Lookup(g, MachineAge);
    assert Lookup(f, TotalKilometers) == Lookup(g, TotalKilometers);
    assert Lookup(f, AirTemperature) == Lookup(g, AirTemperature);
    assert Lookup(f, ProcessTemperature) == Lookup(g, ProcessTemperature);
    assert Lookup(f, RotationalSpeed) == Lookup(g, RotationalSpeed);
    assert Lookup(f, Torque) == Lookup(g, Torque);
    assert Lookup(f, ToolWear) == Lookup(g, ToolWear);
    assert Lookup(f, MachineType) == Lookup(g, MachineType);
  }

  /** Storing a value under an id outside the ten fields leaves the payload as it was. */
  lemma EditOutsideFieldsKeepsPayload(form: FormData, id: string, value: string, parseFloat: string -> Option<real>)
    requires id !in FieldIds
    ensures Normalize(form[id := value], parseFloat) == Normalize(form, parseFloat)
  {
    forall k | k in FieldIds
      ensures Lookup(form[id := value], k) == Lookup(form, k)
    {
      assert k != id;
    }
    NormalizeReadsOnlyFields(form[id := value], form, parseFloat);
  }

  /** Editing the vehicle-name input changes the payload's name and nothing else in it. */
  lemma EditVehicleNameChangesOnlyName(form: FormData, v: string, parseFloat: string -> Option<real>)
    ensures Normalize(form[VehicleName := v], parseFloat) ==
      Normalize(form, parseFloat).(vehicleName := Coerce.OrText(Some(v), Unknown))
  {
    var edited := form[VehicleName := v];
    assert Lookup(edited, VehicleName) == Some(v);
    assert Lookup(edited, Model) == Lookup(form, Model);
    assert Lookup(edited, MachineAge) == Lookup(form, MachineAge);
    assert Lookup(edited, TotalKilometers) == Lookup(form, TotalKilometers);
    assert Lookup(edited, AirTemperature) == Lookup(form, AirTemperature);
    assert Lookup(edited, ProcessTemperature) == Lookup(form, ProcessTemperature);
    assert Lookup(edited, RotationalSpeed) == Lookup(form, RotationalSpeed);
    assert Lookup(edited, Torque) == Lookup(form, Torque);
    assert Lookup(edited, ToolWear) == Lookup(form, ToolWear);
    assert Lookup(edited, MachineType) == Lookup(form, MachineType);
  }

  /** Submitting the untouched form: placeholders for the names, zeros, and type M. */
  lemma InitialFormPayload(parseFloat: string -> Option<real>)
    requires parseFloat("") == None
    ensures Normalize(InitialForm, parseFloat) ==
      PredictionRequest(Unknown, Unknown, 0.0, 0.0, 0.0, 0.0, 0.0, 0.0, 0.0, false, true)
  {
  }
}
