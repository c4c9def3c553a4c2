/**
 * The downloadable report: a header band, the patient table (Section I), the
 * consensus summary with one line per model (Section II), the factor table
 * (Section III) and two signature lines.  Drawing is abstracted to the rows,
 * texts, colours and vertical positions the layout chooses; the end positions
 * of the two generated tables are inputs.
 */
module Report {
  import opened Wrappers
  import opened Patient
  import opened Payload

  datatype Color = Rgb(red: int, green: int, blue: int)

  /** Colour of the verdict for a risk outcome. */
  const AlertColor := Rgb(239, 68, 68)
  /** Colour of the verdict for a healthy outcome. */
  const ConfirmColor := Rgb(16, 185, 129)

  datatype Labels = Labels(title: string, desc: string)

  /** The display label and explanation of each clinical feature. */
  const FriendlyLabels: map<string, Labels> := map[
    "age" := Labels("Patient Age", "Risk naturally increases with physiological age."),
    "sex" := Labels("Biological Sex", "Statistical variance based on biological markers."),
    "cp" := Labels("Chest Pain Type", "Typical angina is a high-weight clinical indicator."),
    "trestbps" := Labels("Resting Blood Pressure", "High pressure strains the cardiac muscle over time."),
    "chol" := Labels("Serum Cholesterol", "Elevated levels contribute to arterial plaque buildup."),
    "fbs" := Labels("Fasting Blood Sugar", "High sugar levels can damage blood vessels."),
    "restecg" := Labels("EKG Results", "Abnormalities in resting EKG signals."),
    "thalach" := Labels("Maximum Heart Rate", "Lower peak rates during stress tests can signal risk."),
    "exang" := Labels("Exercise Angina", "Pain during physical activity is a significant marker."),
    "oldpeak" := Labels("ST Depression", "Stress-induced heart strain measured via EKG."),
    "slope" := Labels("ST Slope", "The shape of the EKG curve during peak exercise."),
    "ca" := Labels("Major Vessels (Fluoroscopy)", "Number of major vessels (0-3) colored by flourosopy."),
    "thal" := Labels("Thalassemia Type", "Genetic blood flow markers impacting oxygen delivery.")
  ]

  /** The label of a factor: its friendly label when that is a non-empty text, its raw name otherwise. */
  function FactorLabel(name: string): (caption: string)
    ensures name in FriendlyLabels ==> caption == FriendlyLabels[name].title
    ensures name !in FriendlyLabels ==> caption == name
  {
    if name in FriendlyLabels && FriendlyLabels[name].title != "" then FriendlyLabels[name].title else name
  }

  /** The explanation column of a factor row; absent for an unmapped name. */
  function FactorDesc(name: string): (desc: Option<string>)
    ensures desc.Some? <==> name in FriendlyLabels
    ensures desc.Some? ==> desc.value == FriendlyLabels[name].desc && desc.value != ""
  {
    if name in FriendlyLabels then Some(FriendlyLabels[name].desc) else None
  }

  /** Every friendly label is non-empty, so the raw name shows exactly for unmapped names. */
  lemma FactorLabelFallback(name: string)
    ensures FactorLabel(name) == name <==> name !in FriendlyLabels || FriendlyLabels[name].title == name
    ensures name in FriendlyLabels ==> FactorLabel(name) == FriendlyLabels[name].title
    ensures FactorDesc(name).Some? <==> name in FriendlyLabels
  {
    if name in FriendlyLabels {
      assert FriendlyLabels[name].title != "";
    }
  }

  /** The per-model status word. */
  function Status(pred: int): (s: string)
    ensures s == "RISK" <==> pred == 1
    ensures s == "HEALTHY" <==> pred != 1
  {
    if pred == 1 then "RISK" else "HEALTHY"
  }

  /** JavaScript's white space and line terminators, the characters `trim` removes. */
  predicate IsJsSpace(c: char) {
    var n := c as int;
    n == 0x09 || n == 0x0A || n == 0x0B || n == 0x0C || n == 0x0D || n == 0x20 || n == 0xA0
    || n == 0x1680 || (0x2000 <= n <= 0x200A) || n == 0x2028 || n == 0x2029
    || n == 0x202F || n == 0x205F || n == 0x3000 || n == 0xFEFF
  }

  predicate IsCapital(c: char) {
    'A' <= c <= 'Z'
  }

  /** `replace(/([A-Z])/g, ' $1')`: a space put before every capital letter. */
  function SpaceCapitals(s: string): string {
    if s == [] then []
    else (if IsCapital(s[0]) then [' ', s[0]] else [s[0]]) + SpaceCapitals(s[1..])
  }

  /** `s` without its leading JavaScript white space. */
  function TrimStart(s: string): (r: string)
    ensures |r| <= |s|
    ensures r == [] || !IsJsSpace(r[0])
  {
    if s != [] && IsJsSpace(s[0]) then TrimStart(s[1..]) else s
  }

  /** `s` without its trailing JavaScript white space; the first character stays. */
  function TrimEnd(s: string): (r: string)
    ensures |r| <= |s|
    ensures r == [] || (r[0] == s[0] && !IsJsSpace(r[|r| - 1]))
  {
    if s != [] && IsJsSpace(s[|s| - 1]) then TrimEnd(s[..|s| - 1]) else s
  }

  /** The display name of a model key: capitals spaced apart, then trimmed. */
  function ModelName(key: string): (name: string)
    ensures name == [] || (!IsJsSpace(name[0]) && !IsJsSpace(name[|name| - 1]))
  {
    TrimEnd(TrimStart(SpaceCapitals(key)))
  }

  /** `s` with every plain space removed. */
  function Unspaced(s: string): string {
    if s == [] then [] else (if s[0] == ' ' then [] else [s[0]]) + Unspaced(s[1..])
  }

  lemma {:induction false} UnspacedAppend(a: string, b: string)
    ensures Unspaced(a + b) == Unspaced(a) + Unspaced(b)
  {
    if a != [] {
      assert (a + b)[0] == a[0] && (a + b)[1..] == a[1..] + b;
      UnspacedAppend(a[1..], b);
    } else {
      assert a + b == b;
    }
  }

  /** Spacing capitals adds nothing but plain spaces. */
  lemma {:induction false} SpaceCapitalsAddsOnlySpaces(s: string)
    ensures Unspaced(SpaceCapitals(s)) == Unspaced(s)
    ensures forall c :: c in SpaceCapitals(s) && IsJsSpace(c) ==> c == ' ' || c in s
  {
    if s != [] {
      var head := if IsCapital(s[0]) then [' ', s[0]] else [s[0]];
      SpaceCapitalsAddsOnlySpaces(s[1..]);
      UnspacedAppend(head, SpaceCapitals(s[1..]));
      assert s == [s[0]] + s[1..];
      UnspacedAppend([s[0]], s[1..]);
    }
  }

  lemma {:induction false} TrimStartDropsOnlySpaces(s: string)
    requires forall c :: c in s && IsJsSpace(c) ==> c == ' '
    ensures Unspaced(TrimStart(s)) == Unspaced(s)
    ensures forall c :: c in TrimStart(s) ==> c in s
  {
    if s != [] && IsJsSpace(s[0]) {
      assert s == [s[0]] + s[1..];
      UnspacedAppend([s[0]], s[1..]);
      TrimStartDropsOnlySpaces(s[1..]);
    }
  }

  lemma {:induction false} TrimEndDropsOnlySpaces(s: string)
    requires forall c :: c in s && IsJsSpace(c) ==> c == ' '
    ensures Unspaced(TrimEnd(s)) == Unspaced(s)
  {
    if s != [] && IsJsSpace(s[|s| - 1]) {
      assert s == s[..|s| - 1] + [s[|s| - 1]];
      UnspacedAppend(s[..|s| - 1], [s[|s| - 1]]);
      TrimEndDropsOnlySpaces(s[..|s| - 1]);
    }
  }

  lemma {:induction false} UnspacedNoSpace(s: string)
    requires ' ' !in s
    ensures Unspaced(s) == s
  {
    if s != [] {
      assert s == [s[0]] + s[1..];
      UnspacedNoSpace(s[1..]);
    }
  }

  /**
   * For a key without white space, deleting the spaces of its display name
   * gives the key back: the display name only adds spaces.
   */
  lemma ModelNameRoundTrip(key: string)
    requires forall c :: c in key ==> !IsJsSpace(c)
    ensures Unspaced(ModelName(key)) == key
  {
    var spaced := SpaceCapitals(key);
    SpaceCapitalsAddsOnlySpaces(key);
    TrimStartDropsOnlySpaces(spaced);
    TrimEndDropsOnlySpaces(TrimStart(spaced));
    UnspacedNoSpace(key);
  }

  lemma {:induction false} SpaceCapitalsAppend(a: string, b: string)
    ensures SpaceCapitals(a + b) == SpaceCapitals(a) + SpaceCapitals(b)
  {
    if a == [] {
      assert a + b == b;
    } else {
      assert (a + b)[0] == a[0] && (a + b)[1..] == a[1..] + b;
      SpaceCapitalsAppend(a[1..], b);
    }
  }

  /** A capital followed by lower-case letters becomes a space, the capital and the rest. */
  lemma {:induction false} SpaceCapitalsWord(w: string)
    requires |w| >= 1 && IsCapital(w[0]) && forall k :: 1 <= k < |w| ==> 'a' <= w[k] <= 'z'
    ensures SpaceCapitals(w) == [' '] + w
  {
    LowerUnchanged(w[1..]);
  }

  lemma {:induction false} LowerUnchanged(w: string)
    requires forall k :: 0 <= k < |w| ==> 'a' <= w[k] <= 'z'
    ensures SpaceCapitals(w) == w
  {
    if w != [] {
      LowerUnchanged(w[1..]);
    }
  }

  lemma TrimLeadingSpace(w: string)
    requires w != [] && !IsJsSpace(w[0]) && !IsJsSpace(w[|w| - 1])
    ensures TrimEnd(TrimStart([' '] + w)) == w
  {
    assert ([' '] + w)[1..] == w;
  }

  /** Two capitalised words run together are shown as the two words with a space between. */
  lemma TwoWordName(a: string, b: string)
    requires |a| >= 1 && IsCapital(a[0]) && forall k :: 1 <= k < |a| ==> 'a' <= a[k] <= 'z'
    requires |b| >= 2 && IsCapital(b[0]) && forall k :: 1 <= k < |b| ==> 'a' <= b[k] <= 'z'
    ensures ModelName(a + b) == a + [' '] + b
  {
    SpaceCapitalsAppend(a, b);
    SpaceCapitalsWord(a);
    SpaceCapitalsWord(b);
    assert SpaceCapitals(a + b) == [' '] + (a + [' '] + b);
    TrimLeadingSpace(a + [' '] + b);
  }

  /** The two-word model keys of the service as the report shows them. */
  lemma TwoWordKeyNames(key: string)
    requires key == "RandomForest" || key == "LogisticRegression"
    ensures ModelName(key) == if key == "RandomForest" then "Random Forest" else "Logistic Regression"
  {
    if key == "RandomForest" {
      var a, b := "Random", "Forest";
      assert key == a + b;
      TwoWordName(a, b);
    } else {
      var a, b := "Logistic", "Regression";
      assert key == a + b;
      TwoWordName(a, b);
    }
  }

  /** Three capitalised words run together are shown with a space between each pair. */
  lemma ThreeWordName(a: string, b: string, c: string)
    requires |a| >= 1 && IsCapital(a[0]) && forall k :: 1 <= k < |a| ==> 'a' <= a[k] <= 'z'
    requires |b| >= 1 && IsCapital(b[0]) && forall k :: 1 <= k < |b| ==> 'a' <= b[k] <= 'z'
    requires |c| >= 2 && IsCapital(c[0]) && forall k :: 1 <= k < |c| ==> 'a' <= c[k] <= 'z'
    ensures ModelName(a + b + c) == a + [' '] + b + [' '] + c
  {
    var shown := a + [' '] + b + [' '] + c;
    SpaceCapitalsWord(a);
    SpaceCapitalsWord(b);
    SpaceCapitalsWord(c);
    SpaceCapitalsThree(a, b, c);
    assert shown[0] == a[0] && shown[|shown| - 1] == c[|c| - 1];
    TrimLeadingSpace(shown);
  }

  /** Three words that each gain one leading space keep those spaces when run together. */
  lemma SpaceCapitalsThree(a: string, b: string, c: string)
    requires SpaceCapitals(a) == [' '] + a && SpaceCapitals(b) == [' '] + b && SpaceCapitals(c) == [' '] + c
    ensures SpaceCapitals(a + b + c) == [' '] + (a + [' '] + b + [' '] + c)
  {
    SpaceCapitalsAppend(a + b, c);
    SpaceCapitalsAppend(a, b);
    calc {
      SpaceCapitals(a + b + c);
      SpaceCapitals(a + b) + SpaceCapitals(c);
      SpaceCapitals(a) + SpaceCapitals(b) + SpaceCapitals(c);
      ([' '] + a) + ([' '] + b) + ([' '] + c);
      [' '] + (a + [' '] + b + [' '] + c);
    }
  }

  /** The acronym key: each capital of "XGB" is spelt out as a word of its own. */
  lemma XGBoostName(key: string)
    requires key == "XGBoost"
    ensures ModelName(key) == "X G Boost"
  {
    var x, g, boost := "X", "G", "Boost";
    assert key == x + g + boost;
    ThreeWordName(x, g, boost);
  }

  /** A vertical position and the text drawn there. */
  datatype TextLine = TextLine(text: string, y: int)

  /** One row of the factor table: label, impact (tenths of a percent) and explanation. */
  datatype FactorRow = FactorRow(caption: string, impact: int, context: Option<string>)

  datatype Document = Document(
    reportId: string,
    issued: string,
    patientRows: seq<seq<string>>,
    summaryTop: int,
    verdict: TextLine,
    verdictColor: Color,
    summary: TextLine,
    modelLines: seq<TextLine>,
    factorTitleY: int,
    factorTableY: int,
    factorRows: seq<FactorRow>,
    signatureY: int,
    fileName: string)

  /** Section I: the patient table, read from the current form. */
  function PatientRows(form: PatientRecord): (rows: seq<seq<string>>)
    ensures |rows| == 5 && forall i :: 0 <= i < 5 ==> |rows[i]| == 3
    ensures rows[0][1] == form.patientName && rows[1][1] == form.age
    ensures rows[2][1] == form.trestbps + " mm Hg" && rows[3][1] == form.chol + " mg/dl"
    ensures rows[4][1] == form.thalach + " BPM"
    ensures rows[0][0] == "Patient Name" && rows[1][0] == "Age" && rows[2][0] == "Resting BP"
    ensures rows[3][0] == "Cholesterol" && rows[4][0] == "Peak Heart Rate"
    ensures rows[0][2] == "N/A" && rows[1][2] == "1-110" && rows[2][2] == "90-140"
    ensures rows[3][2] == "125-200" && rows[4][2] == "60-200"
  {
    [ ["Patient Name", form.patientName, "N/A"],
      ["Age", form.age, "1-110"],
      ["Resting BP", form.trestbps + " mm Hg", "90-140"],
      ["Cholesterol", form.chol + " mg/dl", "125-200"],
      ["Peak Heart Rate", form.thalach + " BPM", "60-200"] ]
  }

  /** One character in ASCII upper case. */
  function UpperChar(c: char): char {
    if 'a' <= c <= 'z' then (c as int - 32) as char else c
  }

  /** ASCII upper case: each lower-case ASCII letter becomes its capital, and every other character is kept. */
  function ToUpper(s: string): (r: string)
    ensures |r| == |s|
    ensures forall i :: 0 <= i < |r| ==> !('a' <= r[i] <= 'z')
    ensures forall i :: 0 <= i < |s| && !('a' <= s[i] <= 'z') ==> r[i] == s[i]
    ensures forall i :: 0 <= i < |s| && 'a' <= s[i] <= 'z' ==> r[i] == (s[i] as int - 32) as char
  {
    seq(|s|, i requires 0 <= i < |s| => UpperChar(s[i]))
  }

  function ModelLineText(d: ModelDetail): string {
    ModelName(d.name) + ": " + d.conf + " Confidence (" + Status(d.pred) + ") | Benchmark Accuracy: " + d.accuracy
  }

  /** The model lines, one per entry, starting at `y` and four units apart. */
  function ModelLinesFrom(details: seq<ModelDetail>, y: int): (lines: seq<TextLine>)
    ensures |lines| == |details|
    ensures forall i :: 0 <= i < |details| ==> lines[i] == TextLine(ModelLineText(details[i]), y + 4 * i)
  {
    if details == [] then []
    else [TextLine(ModelLineText(details[0]), y)] + ModelLinesFrom(details[1..], y + 4)
  }

  function FactorRows(factors: seq<Factor>): seq<FactorRow> {
    seq(|factors|, i requires 0 <= i < |factors| =>
      FactorRow(FactorLabel(factors[i].name), factors[i].impact, FactorDesc(factors[i].name)))
  }

  /**
   * The document for form `form` and result `res`, given where the two
   * generated tables end and the opaque clock readings.
   */
  function Layout(form: PatientRecord, res: PredictionResult, table1End: int, table3End: int,
                  stamp: string, issued: string): (d: Document)
    ensures d.patientRows == PatientRows(form) && d.fileName == "SafeBeat_Report_" + form.patientName + ".pdf"
    ensures |d.modelLines| == |res.modelsDetail| && |d.factorRows| == |res.topFactors|
    ensures d.summaryTop == table1End + 15 && d.signatureY == table3End + 25
  {
    var top := table1End + 15;
    Document(
      "REPORT ID: SB-" + stamp,
      "ISSUED: " + issued,
      PatientRows(form),
      top,
      TextLine(ToUpper(res.result), top + 22),
      if res.prediction == 1 then AlertColor else ConfirmColor,
      TextLine("Ensemble Confidence: " + res.confidence + " | Consensus: " + res.consensus, top + 32),
      ModelLinesFrom(res.modelsDetail, top + 40),
      top + 55,
      top + 60,
      FactorRows(res.topFactors),
      table3End + 25,
      "SafeBeat_Report_" + form.patientName + ".pdf")
  }

  /**
   * The running cursor: Section II starts 15 below the patient table, the
   * model lines start 40 below that and step by 4, the factor table starts 60
   * below Section II's top whatever the number of models, and the signatures
   * sit 25 below the factor table.
   */
  lemma LayoutCursor(form: PatientRecord, res: PredictionResult, table1End: int, table3End: int,
                     stamp: string, issued: string)
    ensures var d := Layout(form, res, table1End, table3End, stamp, issued);
      && d.summaryTop == table1End + 15
      && |d.modelLines| == |res.modelsDetail|
      && (forall i :: 0 <= i < |d.modelLines| ==> d.modelLines[i].y == table1End + 55 + 4 * i)
      && d.factorTitleY == table1End + 70
      && d.factorTableY == table1End + 75
      && d.signatureY == table3End + 25
  {
  }

  /**
   * Up to four models, the model lines stay above the Section III title; a
   * fifth model's line falls below it, since the title's offset is fixed.
   */
  lemma ModelLinesClearOfSectionThree(form: PatientRecord, res: PredictionResult, table1End: int,
                                      table3End: int, stamp: string, issued: string)
    ensures var d := Layout(form, res, table1End, table3End, stamp, issued);
      && |d.modelLines| == |res.modelsDetail|
      && (|d.modelLines| <= 4 ==> forall i :: 0 <= i < |d.modelLines| ==> d.modelLines[i].y < d.factorTitleY)
      && (|d.modelLines| >= 5 ==> d.modelLines[4].y > d.factorTitleY)
  {
    LayoutCursor(form, res, table1End, table3End, stamp, issued);
  }

  /**
   * The outcome is shown in the alert colour exactly for a risk prediction,
   * and each model line says RISK exactly for a model that voted 1.
   */
  lemma LayoutOutcome(form: PatientRecord, res: PredictionResult, table1End: int, table3End: int,
                      stamp: string, issued: string)
    ensures var d := Layout(form, res, table1End, table3End, stamp, issued);
      && (d.verdictColor == AlertColor <==> res.prediction == 1)
      && (d.verdictColor == ConfirmColor <==> res.prediction != 1)
      && d.verdict.text == ToUpper(res.result)
      && d.verdict.y == table1End + 37
      && d.summary == TextLine("Ensemble Confidence: " + res.confidence + " | Consensus: " + res.consensus,
                               table1End + 47)
      && |d.modelLines| == |res.modelsDetail|
      && forall i :: 0 <= i < |d.modelLines| ==>
           d.modelLines[i].text == ModelName(res.modelsDetail[i].name) + ": " + res.modelsDetail[i].conf
             + " Confidence (" + Status(res.modelsDetail[i].pred) + ") | Benchmark Accuracy: "
             + res.modelsDetail[i].accuracy
  {
  }

  /** Section III has one row per top factor, labelled through the friendly labels. */
  lemma LayoutFactors(form: PatientRecord, res: PredictionResult, table1End: int, table3End: int,
                      stamp: string, issued: string)
    ensures var d := Layout(form, res, table1End, table3End, stamp, issued);
      && |d.factorRows| == |res.topFactors|
      && forall i :: 0 <= i < |d.factorRows| ==>
           d.factorRows[i].impact == res.topFactors[i].impact
           && (res.topFactors[i].name in FriendlyLabels ==>
                 d.factorRows[i].caption == FriendlyLabels[res.topFactors[i].name].title)
           && (res.topFactors[i].name !in FriendlyLabels ==> d.factorRows[i].caption == res.topFactors[i].name)
           && d.factorRows[i].context == FactorDesc(res.topFactors[i].name)
  {
    var d := Layout(form, res, table1End, table3End, stamp, issued);
    forall i | 0 <= i < |d.factorRows|
      ensures res.topFactors[i].name in FriendlyLabels ==>
                d.factorRows[i].caption == FriendlyLabels[res.topFactors[i].name].title
    {
      FactorLabelFallback(res.topFactors[i].name);
    }
  }

  /**
   * The model lines of Section II, drawn one after another while the cursor
   * advances by four.
   */
  method DrawModelLines(details: seq<ModelDetail>, top: int) returns (lines: seq<TextLine>, modelY: int)
    ensures |lines| == |details|
    ensures forall i :: 0 <= i < |details| ==> lines[i] == TextLine(ModelLineText(details[i]), top + 4 * i)
    ensures modelY == top + 4 * |details|
  {
    lines := [];
    modelY := top;
    var i := 0;
    while i < |details|
      invariant 0 <= i <= |details|
      invariant |lines| == i && modelY == top + 4 * i
      invariant forall k :: 0 <= k < i ==> lines[k] == TextLine(ModelLineText(details[k]), top + 4 * k)
    {
      lines := lines + [TextLine(ModelLineText(details[i]), modelY)];
      modelY := modelY + 4;
      i := i + 1;
    }
  }

  /**
   * The report for the current form and result: nothing when there is no
   * result, otherwise the layout of `Layout`.
   */
  method DownloadPdf(form: PatientRecord, result: Option<PredictionResult>, table1End: int, table3End: int,
                     stamp: string, issued: string) returns (doc: Option<Document>)
    ensures doc.None? <==> result.None?
    ensures result.Some? ==> doc == Some(Layout(form, result.value, table1End, table3End, stamp, issued))
  {
    if result.None? {
      return None;
    }
    var res := result.value;
    var top := table1End + 15;
    var lines, _ := DrawModelLines(res.modelsDetail, top + 40);
    ghost var expected := ModelLinesFrom(res.modelsDetail, top + 40);
    assert |lines| == |expected| && forall i :: 0 <= i < |lines| ==> lines[i] == expected[i];
    assert lines == expected;
    doc := Some(Document(
      "REPORT ID: SB-" + stamp,
      "ISSUED: " + issued,
      PatientRows(form),
      top,
      TextLine(ToUpper(res.result), top + 22),
      if res.prediction == 1 then AlertColor else ConfirmColor,
      TextLine("Ensemble Confidence: " + res.confidence + " | Consensus: " + res.consensus, top + 32),
      lines,
      top + 55,
      top + 60,
      FactorRows(res.topFactors),
      table3End + 25,
      "SafeBeat_Report_" + form.patientName + ".pdf"));
  }
}
