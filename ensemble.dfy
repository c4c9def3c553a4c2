/**
 * The prediction service's `/predict` handler: it guards against an empty
 * body, builds the feature vector, takes a majority vote of three models and
 * assembles the response with the three largest risk drivers.  The models
 * themselves and the floating-point arithmetic on their outputs are inputs.
 */
module Ensemble {
  import opened Wrappers
  import opened Payload

  /** A binary class label. */
  type Bit = x: int | 0 <= x <= 1

  /** The handler's reply: status 400, status 500, or status 200 with the assessment. */
  datatype Reply = BadRequest(error: string) | InternalError | Ok(body: PredictionResult)

  /** The HTTP status code the handler answers with. */
  function StatusCode(r: Reply): int {
    match r
    case BadRequest(_) => 400
    case InternalError => 500
    case Ok(_) => 200
  }

  const NoData := "No data"
  const RiskVerdict := "High Cardiovascular Risk"
  const HealthyVerdict := "Healthy Cardiovascular Profile"
  const ConsensusSuffix := "/3 Models Calculated Risk"
  const Disclaimer := "Consensus-based AI assessment. Not a medical diagnosis."

  /**
   * A request body after Python's `float()` is applied to each value: the
   * number it gives, or `None` where it raises.
   */
  type Body = map<string, Option<real>>

  /**
   * What the three models and the floating-point steps give for one input:
   * the three votes, the rendered confidences, and the random forest's
   * feature importances times 100 rounded to tenths (counted in tenths).
   */
  datatype ModelOutputs = ModelOutputs(
    rf: Bit, lr: Bit, xgb: Bit,
    rfConf: string, lrConf: string, xgbConf: string,
    confidence: string,
    impacts: seq<int>)

  /** The input vector in feature order, a missing feature counting as 0; `None` when a value is not a number. */
  function InputVector(data: Body, features: seq<string>): (v: Option<seq<real>>)
    ensures v.Some? <==> forall i :: 0 <= i < |features| && features[i] in data ==> data[features[i]].Some?
    ensures v.Some? ==> |v.value| == |features|
    ensures v.Some? ==> forall i :: 0 <= i < |features| ==>
              v.value[i] == if features[i] in data then data[features[i]].value else 0.0
  {
    if features == [] then Some([])
    else
      var head := if features[0] in data then data[features[0]] else Some(0.0);
      var rest := InputVector(data, features[1..]);
      if head.None? || rest.None? then
        assert forall i :: 1 <= i < |features| ==> features[i] == features[1..][i - 1];
        None
      else
        Some([head.value] + rest.value)
  }

  /** The majority of three votes. */
  function MajorityVote(rf: Bit, lr: Bit, xgb: Bit): (final: Bit)
    ensures final == 1 <==> (rf == 1 && lr == 1) || (rf == 1 && xgb == 1) || (lr == 1 && xgb == 1)
  {
    if rf + lr + xgb >= 2 then 1 else 0
  }

  /** A digit 0..9 as a character. */
  function Digit(n: nat): (c: char)
    requires n <= 9
    ensures '0' <= c <= '9'
  {
    (48 + n) as char
  }

  /** `f"{risk_count}/3 Models Calculated Risk"`. */
  function Consensus(riskCount: nat): (s: string)
    requires riskCount <= 3
    ensures |s| == 1 + |ConsensusSuffix| && s[1..] == ConsensusSuffix
  {
    [Digit(riskCount)] + ConsensusSuffix
  }

  /** The risk count a consensus text reports. */
  function ConsensusCount(s: string): int
    requires |s| >= 1
  {
    s[0] as int - 48
  }

  /** The consensus text gives back the risk count it was made from. */
  lemma ConsensusRoundTrip(riskCount: nat)
    requires riskCount <= 3
    ensures ConsensusCount(Consensus(riskCount)) == riskCount
  {
  }

  /** The consensus text reports at least two risk votes exactly when the prediction is a risk. */
  lemma ConsensusAgreesWithVote(rf: Bit, lr: Bit, xgb: Bit)
    ensures ConsensusCount(Consensus(rf + lr + xgb)) >= 2 <==> MajorityVote(rf, lr, xgb) == 1
  {
    ConsensusRoundTrip(rf + lr + xgb);
  }

  function Verdict(final: Bit): (s: string)
    ensures s == RiskVerdict <==> final == 1
    ensures s == HealthyVerdict <==> final == 0
  {
    if final == 1 then RiskVerdict else HealthyVerdict
  }

  /** One driver per feature, in feature order. */
  function Unranked(features: seq<string>, impacts: seq<int>): (ds: seq<Factor>)
    requires |impacts| >= |features|
    ensures |ds| == |features|
    ensures forall i :: 0 <= i < |ds| ==> ds[i] == Factor(features[i], impacts[i])
  {
    seq(|features|, i requires 0 <= i < |features| => Factor(features[i], impacts[i]))
  }

  /** Non-increasing impact. */
  ghost predicate SortedByImpact(ds: seq<Factor>) {
    forall i, j :: 0 <= i < j < |ds| ==> ds[i].impact >= ds[j].impact
  }

  /** The drivers with impact `v`, in order. */
  function WithImpact(ds: seq<Factor>, v: int): seq<Factor> {
    if ds == [] then []
    else (if ds[0].impact == v then [ds[0]] else []) + WithImpact(ds[1..], v)
  }

  /** `x` put in front of the first element whose impact it reaches. */
  function Insert(x: Factor, s: seq<Factor>): (r: seq<Factor>)
    ensures |r| == |s| + 1
    ensures forall y :: y in r <==> y == x || y in s
  {
    if s == [] || x.impact >= s[0].impact then [x] + s
    else [s[0]] + Insert(x, s[1..])
  }

  /** Python's stable `sort(key=impact, reverse=True)`, as an insertion sort. */
  function SortByImpact(ds: seq<Factor>): (r: seq<Factor>)
    ensures |r| == |ds|
  {
    if ds == [] then [] else Insert(ds[0], SortByImpact(ds[1..]))
  }

  lemma {:induction false} InsertSorted(x: Factor, s: seq<Factor>)
    requires SortedByImpact(s)
    ensures SortedByImpact(Insert(x, s))
  {
    if s != [] && x.impact < s[0].impact {
      assert SortedByImpact(s[1..]) by {
        forall i, j | 0 <= i < j < |s[1..]| ensures s[1..][i].impact >= s[1..][j].impact {
          assert s[1..][i] == s[i + 1] && s[1..][j] == s[j + 1];
        }
      }
      InsertSorted(x, s[1..]);
      var r := Insert(x, s[1..]);
      forall k | 0 <= k < |r| ensures s[0].impact >= r[k].impact {
        assert r[k] in r;
        if r[k] != x {
          var m :| 0 <= m < |s[1..]| && s[1..][m] == r[k];
          assert s[m + 1] == r[k];
        }
      }
      var t := [s[0]] + r;
      forall i, j | 0 <= i < j < |t| ensures t[i].impact >= t[j].impact {
        if i > 0 {
          assert t[i] == r[i - 1] && t[j] == r[j - 1];
        } else {
          assert t[j] == r[j - 1];
        }
      }
    } else if s != [] {
      var t := [x] + s;
      forall i, j | 0 <= i < j < |t| ensures t[i].impact >= t[j].impact {
        if i > 0 {
          assert t[i] == s[i - 1] && t[j] == s[j - 1];
        } else {
          assert t[j] == s[j - 1];
        }
      }
    }
  }

  lemma {:induction false} InsertPermutes(x: Factor, s: seq<Factor>)
    ensures multiset(Insert(x, s)) == multiset([x] + s)
  {
    if s != [] && x.impact < s[0].impact {
      InsertPermutes(x, s[1..]);
      assert s == [s[0]] + s[1..];
    }
  }

  lemma {:induction false} InsertKeepsGroups(x: Factor, s: seq<Factor>, v: int)
    ensures WithImpact(Insert(x, s), v) == WithImpact([x] + s, v)
  {
    if s != [] && x.impact < s[0].impact {
      InsertKeepsGroups(x, s[1..], v);
      var r := Insert(x, s[1..]);
      assert ([s[0]] + r)[1..] == r;
      assert ([x] + s)[1..] == s;
      assert ([x] + s[1..])[1..] == s[1..];
      assert s == [s[0]] + s[1..];
    } else {
      assert ([x] + s)[1..] == s;
    }
  }

  /**
   * The sort orders the drivers by non-increasing impact, is a permutation,
   * and keeps drivers of equal impact in their original order.
   */
  lemma {:induction false} SortByImpactCorrect(ds: seq<Factor>)
    ensures SortedByImpact(SortByImpact(ds))
    ensures multiset(SortByImpact(ds)) == multiset(ds)
    ensures forall v :: WithImpact(SortByImpact(ds), v) == WithImpact(ds, v)
  {
    if ds != [] {
      SortByImpactCorrect(ds[1..]);
      InsertSorted(ds[0], SortByImpact(ds[1..]));
      InsertPermutes(ds[0], SortByImpact(ds[1..]));
      assert ds == [ds[0]] + ds[1..];
      forall v ensures WithImpact(SortByImpact(ds), v) == WithImpact(ds, v) {
        InsertKeepsGroups(ds[0], SortByImpact(ds[1..]), v);
        assert ([ds[0]] + SortByImpact(ds[1..]))[1..] == SortByImpact(ds[1..]);
      }
    }
  }

  /** The drivers that the first `k` of a sorted list keep weigh at least as much as every dropped one. */
  lemma TopFactorsDominate(ds: seq<Factor>, k: nat)
    requires SortedByImpact(ds) && k <= |ds|
    ensures forall a, b :: a in ds[..k] && b in ds[k..] ==> a.impact >= b.impact
  {
    forall a, b | a in ds[..k] && b in ds[k..] ensures a.impact >= b.impact {
      var i :| 0 <= i < k && ds[..k][i] == a;
      var j :| 0 <= j < |ds| - k && ds[k..][j] == b;
      assert ds[i] == a && ds[k + j] == b;
    }
  }

  /**
   * The risk drivers: one per feature, appended in feature order, then
   * sorted by impact, largest first, stably.
   */
  method RankDrivers(features: seq<string>, impacts: seq<int>) returns (drivers: seq<Factor>)
    requires |impacts| >= |features|
    ensures drivers == SortByImpact(Unranked(features, impacts))
    ensures |drivers| == |features| && SortedByImpact(drivers)
    ensures multiset(drivers) == multiset(Unranked(features, impacts))
    ensures forall v :: WithImpact(drivers, v) == WithImpact(Unranked(features, impacts), v)
  {
    drivers := [];
    var i := 0;
    while i < |features|
      invariant 0 <= i <= |features|
      invariant |drivers| == i
      invariant forall k :: 0 <= k < i ==> drivers[k] == Factor(features[k], impacts[k])
    {
      drivers := drivers + [Factor(features[i], impacts[i])];
      i := i + 1;
    }
    assert drivers == Unranked(features, impacts);
    SortByImpactCorrect(drivers);
    drivers := SortByImpact(drivers);
  }

  /** `models_detail`: each model's vote, confidence and fixed benchmark accuracy. */
  function ModelsDetail(out: ModelOutputs): (m: seq<ModelDetail>)
    ensures |m| == 3
    ensures m[0].name == "RandomForest" && m[1].name == "LogisticRegression" && m[2].name == "XGBoost"
    ensures m[0].pred == out.rf && m[1].pred == out.lr && m[2].pred == out.xgb
    ensures m[0].accuracy == "88.7%" && m[1].accuracy == "89.6%" && m[2].accuracy == "88.7%"
  {
    [ ModelDetail("RandomForest", out.rf, out.rfConf + "%", "88.7%"),
      ModelDetail("LogisticRegression", out.lr, out.lrConf + "%", "89.6%"),
      ModelDetail("XGBoost", out.xgb, out.xgbConf + "%", "88.7%") ]
  }

  /**
   * The `/predict` handler for the parsed request body `data` (`None` for a
   * JSON `null` body, `Some(map[])` for `{}`: the two falsy objects the guard
   * rejects), the feature list of the loaded ensemble and the models' outputs.
   */
  method Predict(data: Option<Body>, features: seq<string>, out: ModelOutputs) returns (reply: Reply)
    ensures StatusCode(reply) == 400 <==> data.None? || data.value == map[]
    ensures reply.BadRequest? ==> reply.error == NoData
    ensures StatusCode(reply) == 500 <==>
              data.Some? && data.value != map[]
              && (InputVector(data.value, features).None? || |out.impacts| < |features|)
    ensures reply.Ok? ==>
              var p := reply.body;
              var riskCount := out.rf + out.lr + out.xgb;
              && p.prediction == MajorityVote(out.rf, out.lr, out.xgb)
              && (p.prediction == 1 <==> riskCount >= 2)
              && p.consensus == Consensus(riskCount)
              && p.result == Verdict(MajorityVote(out.rf, out.lr, out.xgb))
              && p.confidence == out.confidence + "%"
              && p.modelsDetail == ModelsDetail(out)
              && p.topFactors == SortByImpact(Unranked(features, out.impacts))[..if |features| < 3 then |features| else 3]
              && p.disclaimer == Disclaimer
  {
    if data.None? || data.value == map[] {
      return BadRequest(NoData);
    }
    var vector := InputVector(data.value, features);
    if vector.None? {
      return InternalError;
    }
    var riskCount := out.rf + out.lr + out.xgb;
    var finalPrediction := MajorityVote(out.rf, out.lr, out.xgb);
    if |out.impacts| < |features| {
      return InternalError;
    }
    var drivers := RankDrivers(features, out.impacts);
    var top := if |drivers| < 3 then |drivers| else 3;
    reply := Ok(PredictionResult(
      finalPrediction,
      Consensus(riskCount),
      Verdict(finalPrediction),
      out.confidence + "%",
      ModelsDetail(out),
      drivers[..top],
      Disclaimer));
  }

  /**
   * The top factors of a successful reply: at most three, sorted, and never
   * lighter than a driver they leave out.
   */
  lemma TopFactorsProperties(features: seq<string>, impacts: seq<int>)
    requires |impacts| >= |features|
    ensures var drivers := SortByImpact(Unranked(features, impacts));
      var top := if |features| < 3 then |features| else 3;
      && |drivers| == |features|
      && SortedByImpact(drivers[..top])
      && forall a, b :: a in drivers[..top] && b in drivers[top..] ==> a.impact >= b.impact
  {
    var ds := Unranked(features, impacts);
    SortByImpactCorrect(ds);
    var drivers := SortByImpact(ds);
    var top := if |features| < 3 then |features| else 3;
    TopFactorsDominate(drivers, top);
  }
}
