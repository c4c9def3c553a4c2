/**
 * The patient record held by the input form: a patient name and thirteen
 * clinical fields, all kept as the text the user typed.
 */
module Patient {
  import opened Wrappers

  /** The form's fields, in the key order of the initial record. */
  datatype Field =
    | PatientName | Age | Sex | Cp | Trestbps | Chol | Fbs
    | Restecg | Thalach | Exang | Oldpeak | Slope | Ca | Thal

  /**
   * The form record.  Every update spreads the previous record, so the key
   * order never changes and two records serialise to the same JSON text
   * exactly when they are equal.
   */
  datatype PatientRecord = PatientRecord(
    patientName: string, age: string, sex: string, cp: string,
    trestbps: string, chol: string, fbs: string, restecg: string,
    thalach: string, exang: string, oldpeak: string, slope: string,
    ca: string, thal: string)

  /** The record the form starts with. */
  const InitialData := PatientRecord(
    "New Patient", "50", "1", "0", "120", "200", "0",
    "0", "150", "0", "0.0", "1", "0", "2")

  /** The value of one field. */
  function Get(r: PatientRecord, f: Field): string {
    match f
    case PatientName => r.patientName
    case Age => r.age
    case Sex => r.sex
    case Cp => r.cp
    case Trestbps => r.trestbps
    case Chol => r.chol
    case Fbs => r.fbs
    case Restecg => r.restecg
    case Thalach => r.thalach
    case Exang => r.exang
    case Oldpeak => r.oldpeak
    case Slope => r.slope
    case Ca => r.ca
    case Thal => r.thal
  }

  /** `{ ...r, [f]: v }`: field `f` replaced by `v`, every other field kept. */
  function Set(r: PatientRecord, f: Field, v: string): (r': PatientRecord)
    ensures Get(r', f) == v
    ensures forall g :: g != f ==> Get(r', g) == Get(r, g)
  {
    match f
    case PatientName => r.(patientName := v)
    case Age => r.(age := v)
    case Sex => r.(sex := v)
    case Cp => r.(cp := v)
    case Trestbps => r.(trestbps := v)
    case Chol => r.(chol := v)
    case Fbs => r.(fbs := v)
    case Restecg => r.(restecg := v)
    case Thalach => r.(thalach := v)
    case Exang => r.(exang := v)
    case Oldpeak => r.(oldpeak := v)
    case Slope => r.(slope := v)
    case Ca => r.(ca := v)
    case Thal => r.(thal := v)
  }

  /** Two records that agree on every field are the same record. */
  lemma FieldsDetermineRecord(r: PatientRecord, s: PatientRecord)
    requires forall g :: Get(r, g) == Get(s, g)
    ensures r == s
  {
    assert Get(r, PatientName) == Get(s, PatientName) && Get(r, Age) == Get(s, Age);
    assert Get(r, Sex) == Get(s, Sex) && Get(r, Cp) == Get(s, Cp);
    assert Get(r, Trestbps) == Get(s, Trestbps) && Get(r, Chol) == Get(s, Chol);
    assert Get(r, Fbs) == Get(s, Fbs) && Get(r, Restecg) == Get(s, Restecg);
    assert Get(r, Thalach) == Get(s, Thalach) && Get(r, Exang) == Get(s, Exang);
    assert Get(r, Oldpeak) == Get(s, Oldpeak) && Get(r, Slope) == Get(s, Slope);
    assert Get(r, Ca) == Get(s, Ca) && Get(r, Thal) == Get(s, Thal);
  }

  /** Writing back a field's own value leaves the record as it was. */
  lemma SetOwnValue(r: PatientRecord, f: Field)
    ensures Set(r, f, Get(r, f)) == r
  {
    FieldsDetermineRecord(Set(r, f, Get(r, f)), r);
  }

  /** The later of two writes to one field wins, and the earlier one leaves no trace. */
  lemma SetTwice(r: PatientRecord, f: Field, v: string, w: string)
    ensures Set(Set(r, f, v), f, w) == Set(r, f, w)
  {
    FieldsDetermineRecord(Set(Set(r, f, v), f, w), Set(r, f, w));
  }

  const RangeWarning := "Range: 80-200"
  const CriticalWarning := "Critical: >400"

  /**
   * The advisory warning for one field.  `parsed` is what JavaScript's
   * `parseFloat` makes of the text: `None` stands for NaN, which fails every
   * comparison.
   */
  function GetValidation(name: Field, parsed: Option<real>): (w: Option<string>)
    ensures w == Some(RangeWarning) <==>
              name == Trestbps && parsed.Some? && (parsed.value < 80.0 || parsed.value > 200.0)
    ensures w == Some(CriticalWarning) <==> name == Chol && parsed.Some? && parsed.value > 400.0
    ensures w == None || w == Some(RangeWarning) || w == Some(CriticalWarning)
  {
    if name == Trestbps && parsed.Some? && (parsed.value < 80.0 || parsed.value > 200.0) then
      Some(RangeWarning)
    else if name == Chol && parsed.Some? && parsed.value > 400.0 then
      Some(CriticalWarning)
    else
      None
  }

  /** The boundaries themselves are accepted: 80 and 200 for blood pressure, 400 for cholesterol. */
  lemma ValidationBoundsInclusive()
    ensures GetValidation(Trestbps, Some(80.0)) == None
    ensures GetValidation(Trestbps, Some(200.0)) == None
    ensures GetValidation(Chol, Some(400.0)) == None
    ensures GetValidation(Trestbps, Some(250.0)) == Some(RangeWarning)
    ensures GetValidation(Chol, Some(450.0)) == Some(CriticalWarning)
  {
  }
}
