/** The transaction risk scorer behind `POST /api/fraud/check`.

    A request names a user, an amount and optionally a beneficiary. Three
    independent rules run in a fixed order against the user's history, each
    adding one flag and a fixed weight to the score:
      - velocity: five or more transactions in the trailing hour;
      - amount anomaly: the amount exceeds five times the historical average;
      - new beneficiary: the beneficiary is under a day old and the amount
        is over 1000.
    The verdict is unsafe once the score reaches 0.70.

    Scores are integers in hundredths: the weights 0.3, 0.3, 0.4 are 30, 30,
    40 and the cutoff 0.7 is 70. Accumulated in the route's order in IEEE
    doubles, every subset of these weights sums to exactly 0.3, 0.4, 0.6,
    0.7 or 1.0, so the strict `< 0.7` test and `toFixed(2)` agree with the
    integer model. */
module FraudCheck {
  import opened Wrappers
  import opened JsText

  const HourMs: int := 60 * 60 * 1000
  /** The velocity window reaches back one hour from the evaluation time. */
  const VelocityWindowMs: int := HourMs
  const VelocityLimit: nat := 5
  const AnomalyFactor: int := 5
  /** A beneficiary younger than this (in milliseconds) is new. */
  const NewBeneficiaryAgeMs: int := 24 * HourMs
  /** Only amounts strictly above this can raise the new-beneficiary flag. */
  const LargeAmount: int := 1000
  /** A verdict is safe when its score is strictly below this (hundredths). */
  const SafeBelow: nat := 70
  /** The score of a verdict with every flag raised. */
  const MaxScore: nat := 100

  const RequiredMessage: string := "userId and amount are required"
  const InternalErrorMessage: string := "Internal server error"

  datatype Flag = HighVelocity | AmountAnomaly | NewBeneficiary {

    /** The identifier reported in the response's `flags` array. */
    function Name(): string {
      match this
      case HighVelocity => "high_velocity"
      case AmountAnomaly => "amount_anomaly"
      case NewBeneficiary => "new_beneficiary"
    }

    /** The weight the rule adds to the score, in hundredths. */
    function Weight(): nat {
      match this
      case HighVelocity => 30
      case AmountAnomaly => 30
      case NewBeneficiary => 40
    }

    /** The position of the rule in the evaluation order. */
    function Rank(): nat {
      match this
      case HighVelocity => 0
      case AmountAnomaly => 1
      case NewBeneficiary => 2
    }
  }

  /** The parsed request body. A field that is absent or `null` is `None`;
      amounts are whole currency units. */
  datatype Request = Request(userId: Option<string>, amount: Option<int>, beneficiaryId: Option<string>)

  /** A stored `amount` column as `Number(...)` sees it: a number, or
      something that converts to `NaN`. */
  datatype StoredAmount = Numeric(value: int) | NotNumeric

  /** A row of the velocity query (`id, amount`). */
  datatype RecentRow = RecentRow(id: string, amount: StoredAmount)

  /** A row of the beneficiary query. `createdAt` is `None` when the column
      is null or empty; a timestamp that does not parse is also `None`,
      since its `NaN` age makes the age comparison false. */
  datatype BeneficiaryRow = BeneficiaryRow(createdAt: Option<int>)

  /** What the three history queries returned. A query that failed, or
      returned no data, is `None`. `beneficiary` is only consulted when the
      request carries a beneficiary. */
  datatype History = History(
    recent: Option<seq<RecentRow>>,
    amounts: Option<seq<StoredAmount>>,
    beneficiary: Option<BeneficiaryRow>)

  /** `riskScore` is in hundredths. */
  datatype Verdict = Verdict(safe: bool, riskScore: nat, flags: seq<Flag>)

  datatype Response =
    | Scored(verdict: Verdict)
    | BadRequest(error: string)
    | ServerError(error: string)
  {
    /** The HTTP status the route answers with. */
    function Status(): nat {
      match this
      case Scored(_) => 200
      case BadRequest(_) => 400
      case ServerError(_) => 500
    }
  }

  // ---------------------------------------------------------------------
  // Validation

  /** `!userId || amount == null` rejects the request. */
  predicate ValidRequest(req: Request) {
    req.userId.Some? && Truthy(req.userId.value) && req.amount.Some?
  }

  // ---------------------------------------------------------------------
  // The three rules

  /** `recentTx?.length || 0`: a failed query counts as no transactions. */
  function Velocity(recent: Option<seq<RecentRow>>): nat {
    match recent
    case Some(rows) => |rows|
    case None => 0
  }

  predicate VelocityFires(recent: Option<seq<RecentRow>>) {
    Velocity(recent) >= VelocityLimit
  }

  /** `Number(r.amount) || 0`: a value that is not a number counts as 0. */
  function AsNumber(a: StoredAmount): int {
    match a
    case Numeric(v) => v
    case NotNumeric => 0
  }

  /** The sum of the historical amounts, each coerced by `AsNumber`. */
  function Total(rows: seq<StoredAmount>): int {
    if |rows| == 0 then 0 else AsNumber(rows[0]) + Total(rows[1..])
  }

  /** `avg > 0 && amount > 5 * avg` with `avg = Total / count` (and 0 for no
      history), decided without division: with a positive count, the mean
      is positive exactly when the total is, and `amount > 5 * avg` exactly
      when `amount * count > 5 * Total`. See `AnomalyIsAverageTest`. */
  predicate AnomalyFires(amount: int, amounts: Option<seq<StoredAmount>>) {
    var rows := amounts.GetOr([]);
    |rows| > 0 && Total(rows) > 0 && amount * |rows| > AnomalyFactor * Total(rows)
  }

  /** The new-beneficiary rule: a truthy `beneficiaryId`, a found record
      with a creation time, an age under 24 hours and an amount over 1000. */
  predicate BeneficiaryFires(beneficiaryId: Option<string>, ben: Option<BeneficiaryRow>, now: int, amount: int) {
    && beneficiaryId.Some? && Truthy(beneficiaryId.value)
    && ben.Some? && ben.value.createdAt.Some?
    && now - ben.value.createdAt.value < NewBeneficiaryAgeMs
    && amount > LargeAmount
  }

  /** Whether the rule behind `f` fires for a request with this amount. */
  predicate Fires(f: Flag, req: Request, amount: int, now: int, h: History) {
    match f
    case HighVelocity => VelocityFires(h.recent)
    case AmountAnomaly => AnomalyFires(amount, h.amounts)
    case NewBeneficiary => BeneficiaryFires(req.beneficiaryId, h.beneficiary, now, amount)
  }

  // ---------------------------------------------------------------------
  // Aggregation

  /** The sum of the weights of `flags`. */
  function WeightSum(flags: seq<Flag>): nat {
    if |flags| == 0 then 0 else flags[0].Weight() + WeightSum(flags[1..])
  }

  /** Flags appear in strictly increasing rule order: the order the rules
      run in, with no flag twice. */
  predicate InRuleOrder(flags: seq<Flag>) {
    forall i, j :: 0 <= i < j < |flags| ==> flags[i].Rank() < flags[j].Rank()
  }

  /** The running `flags` array and `risk` total of the route. */
  datatype Tally = Tally(flags: seq<Flag>, risk: nat) {
    /** `flags.push(f.Name()); risk += f.Weight()`. */
    function Raise(f: Flag): Tally {
      Tally(flags + [f], risk + f.Weight())
    }
  }

  lemma {:induction false} WeightSumAppend(flags: seq<Flag>, f: Flag)
    ensures WeightSum(flags + [f]) == WeightSum(flags) + f.Weight()
    decreases |flags|
  {
    if |flags| == 0 {
      assert flags + [f] == [f];
    } else {
      assert (flags + [f])[1..] == flags[1..] + [f];
      WeightSumAppend(flags[1..], f);
    }
  }

  /** `if (fires) { flags.push(f); risk += weight }` for a rule that runs
      after every flag already raised. */
  function RaiseIf(t: Tally, fires: bool, f: Flag): (u: Tally)
    requires t.risk == WeightSum(t.flags) && InRuleOrder(t.flags)
    requires forall g :: g in t.flags ==> g.Rank() < f.Rank()
    ensures u.risk == WeightSum(u.flags) && InRuleOrder(u.flags)
    ensures forall g :: g in u.flags <==> g in t.flags || (fires && g == f)
  {
    if fires then
      WeightSumAppend(t.flags, f);
      var u := t.Raise(f);
      assert forall i :: 0 <= i < |t.flags| ==> u.flags[i] == t.flags[i] && t.flags[i] in t.flags;
      u
    else t
  }

  /** The verdict over a validated request. */
  function Score(req: Request, amount: int, now: int, h: History): (v: Verdict)
    ensures forall f :: f in v.flags <==> Fires(f, req, amount, now, h)
    ensures InRuleOrder(v.flags)
    ensures v.riskScore == WeightSum(v.flags) <= MaxScore
    ensures v.safe <==> v.riskScore < SafeBelow
  {
    var t0 := Tally([], 0);
    var t1 := RaiseIf(t0, VelocityFires(h.recent), HighVelocity);
    var t2 := RaiseIf(t1, AnomalyFires(amount, h.amounts), AmountAnomaly);
    var t3 := RaiseIf(t2, BeneficiaryFires(req.beneficiaryId, h.beneficiary, now, amount), NewBeneficiary);
    WeightSumByMembers(t3.flags);
    Verdict(t3.risk < SafeBelow, t3.risk, t3.flags)
  }

  /** The route's decision for a parsed request body: a validation error
      before any rule runs, otherwise the verdict. */
  function Evaluate(req: Request, now: int, h: History): (r: Response)
    ensures r.Scored? <==> ValidRequest(req)
    ensures !r.Scored? ==> r == BadRequest(RequiredMessage) && r.Status() == 400
    ensures r.Scored? ==> r.Status() == 200
    ensures r.Scored? ==> forall f :: f in r.verdict.flags <==> Fires(f, req, req.amount.value, now, h)
    ensures r.Scored? ==> InRuleOrder(r.verdict.flags)
    ensures r.Scored? ==> r.verdict.riskScore == WeightSum(r.verdict.flags) <= MaxScore
    ensures r.Scored? ==> (r.verdict.safe <==> r.verdict.riskScore < SafeBelow)
  {
    if !ValidRequest(req) then BadRequest(RequiredMessage)
    else Scored(Score(req, req.amount.value, now, h))
  }

  /** The whole handler. `body` is `None` when the body is not JSON or is
      JSON `null`: reading or destructuring it throws, and the catch-all
      answers 500. `clientConfigured` says whether the database admin
      client exists: the route dereferences it without a check at its first
      query, which comes after validation, so a valid request without a
      client throws and also gets the 500. */
  function Post(body: Option<Request>, clientConfigured: bool, now: int, h: History): (r: Response)
    ensures r.Status() == 500 <==> body.None? || (ValidRequest(body.value) && !clientConfigured)
    ensures r.Status() == 500 ==> r == ServerError(InternalErrorMessage)
    ensures r.Status() == 400 <==> body.Some? && !ValidRequest(body.value)
    ensures r.Status() == 400 ==> r == BadRequest(RequiredMessage)
    ensures r.Scored? <==> body.Some? && ValidRequest(body.value) && clientConfigured
    ensures r.Scored? ==> forall f :: f in r.verdict.flags <==> Fires(f, body.value, body.value.amount.value, now, h)
    ensures r.Scored? ==> InRuleOrder(r.verdict.flags)
    ensures r.Scored? ==> r.verdict.riskScore == WeightSum(r.verdict.flags)
    ensures r.Scored? ==> (r.verdict.safe <==> r.verdict.riskScore < SafeBelow)
  {
    match body
    case None => ServerError(InternalErrorMessage)
    case Some(req) =>
      if ValidRequest(req) && !clientConfigured then ServerError(InternalErrorMessage)
      else Evaluate(req, now, h)
  }

  /** With a readable body and a configured client the handler answers
      exactly what `Evaluate` decides, and that answer is the one
      rule-ordered list of the firing rules. */
  lemma PostScoresFiredRules(req: Request, now: int, h: History, fired: seq<Flag>)
    requires ValidRequest(req)
    requires InRuleOrder(fired)
    requires forall f :: f in fired <==> Fires(f, req, req.amount.value, now, h)
    ensures Post(Some(req), true, now, h) == Scored(Verdict(WeightSum(fired) < SafeBelow, WeightSum(fired), fired))
  {
    FlagsAreFiredRulesInOrder(req, now, h, fired);
  }

  // ---------------------------------------------------------------------
  // Properties

  /** The `flags` array of the JSON response: the flags' names. */
  function ReportedFlags(flags: seq<Flag>): (names: seq<string>)
    ensures |names| == |flags|
    ensures forall i :: 0 <= i < |flags| ==> names[i] == flags[i].Name()
  {
    seq(|flags|, i requires 0 <= i < |flags| => flags[i].Name())
  }

  /** Distinct flags have distinct names. */
  lemma NameInjective(f: Flag, g: Flag)
    requires f.Name() == g.Name()
    ensures f == g
  {
    assert "high_velocity"[0] == 'h' && "amount_anomaly"[0] == 'a' && "new_beneficiary"[0] == 'n';
  }

  /** The response's `flags` array names exactly the rules that fired, each
      once. */
  lemma ReportedNamesAreFiredRules(req: Request, now: int, h: History)
    requires ValidRequest(req)
    ensures var names := ReportedFlags(Evaluate(req, now, h).verdict.flags);
      && (forall f: Flag :: f.Name() in names <==> Fires(f, req, req.amount.value, now, h))
      && (forall i, j :: 0 <= i < j < |names| ==> names[i] != names[j])
  {
    var flags := Evaluate(req, now, h).verdict.flags;
    var names := ReportedFlags(flags);
    forall f: Flag
      ensures f.Name() in names <==> f in flags
    {
      if f.Name() in names {
        var i :| 0 <= i < |names| && names[i] == f.Name();
        NameInjective(flags[i], f);
      }
      if f in flags {
        var i :| 0 <= i < |flags| && flags[i] == f;
        assert names[i] == f.Name();
      }
    }
    forall i, j | 0 <= i < j < |names|
      ensures names[i] != names[j]
    {
      if names[i] == names[j] {
        NameInjective(flags[i], flags[j]);
      }
    }
  }

  /** Two flag lists in rule order with the same members are equal: the
      membership contract of `Evaluate` determines `flags` completely. */
  lemma {:induction false} RuleOrderIsCanonical(a: seq<Flag>, b: seq<Flag>)
    requires InRuleOrder(a) && InRuleOrder(b)
    requires forall f :: f in a <==> f in b
    ensures a == b
    decreases |a|
  {
    assert |a| > 0 ==> a[0] in a;
    assert |b| > 0 ==> b[0] in b;
    if |a| > 0 && |b| > 0 {
      // The head of each list is its member of least rank, so the heads agree.
      assert a[0] in b && b[0] in a;
      var ja :| 0 <= ja < |a| && a[ja] == b[0];
      var jb :| 0 <= jb < |b| && b[jb] == a[0];
      assert a[0].Rank() <= a[ja].Rank();
      assert b[0].Rank() <= b[jb].Rank();
      assert a[0].Rank() == b[0].Rank();
      assert a[0] == b[0];
      forall f | f in a[1..]
        ensures f in b[1..]
      {
        var i :| 0 <= i < |a| - 1 && a[1..][i] == f;
        assert a[0].Rank() < a[i + 1].Rank() && a[i + 1] == f;
        assert f in a;
        var k :| 0 <= k < |b| && b[k] == f;
        assert b[1..][k - 1] == f;
      }
      forall f | f in b[1..]
        ensures f in a[1..]
      {
        var i :| 0 <= i < |b| - 1 && b[1..][i] == f;
        assert b[0].Rank() < b[i + 1].Rank() && b[i + 1] == f;
        assert f in b;
        var k :| 0 <= k < |a| && a[k] == f;
        assert a[1..][k - 1] == f;
      }
      RuleOrderIsCanonical(a[1..], b[1..]);
    }
  }

  /** Evaluation depends only on the request, the time and the history: the
      flags are exactly the rules that fired, listed in rule order. */
  lemma FlagsAreFiredRulesInOrder(req: Request, now: int, h: History, fired: seq<Flag>)
    requires ValidRequest(req)
    requires InRuleOrder(fired)
    requires forall f :: f in fired <==> Fires(f, req, req.amount.value, now, h)
    ensures Evaluate(req, now, h).verdict.flags == fired
    ensures Evaluate(req, now, h).verdict.riskScore == WeightSum(fired)
  {
    RuleOrderIsCanonical(Evaluate(req, now, h).verdict.flags, fired);
  }

  /** A verdict is unsafe exactly when the new-beneficiary flag is raised
      together with at least one of the other two: 0.3 + 0.4 already reaches
      the cutoff 0.70, while 0.3 + 0.3 stays below it. */
  lemma UnsafeIffBeneficiaryAndAnother(req: Request, now: int, h: History)
    requires ValidRequest(req)
    ensures var v := Evaluate(req, now, h).verdict;
      !v.safe <==> NewBeneficiary in v.flags && (HighVelocity in v.flags || AmountAnomaly in v.flags)
  {
    var v := Evaluate(req, now, h).verdict;
    WeightSumByMembers(v.flags);
  }

  /** The weight sum of a rule-ordered flag list depends only on which
      flags it holds. */
  lemma {:induction false} WeightSumByMembers(flags: seq<Flag>)
    requires InRuleOrder(flags)
    ensures WeightSum(flags) == (if HighVelocity in flags then 30 else 0)
                              + (if AmountAnomaly in flags then 30 else 0)
                              + (if NewBeneficiary in flags then 40 else 0)
    decreases |flags|
  {
    if |flags| > 0 {
      var tail := flags[1..];
      assert forall f :: f in flags <==> f == flags[0] || f in tail;
      assert flags[0] !in tail by {
        assert forall k :: 0 <= k < |tail| ==> tail[k] == flags[k + 1];
      }
      WeightSumByMembers(tail);
    }
  }

  /** The amount-anomaly rule in the route's own terms: the mean of the
      coerced amounts (0 with no history) is positive and the amount exceeds
      five times it. */
  function Average(rows: seq<StoredAmount>): real {
    if |rows| == 0 then 0.0 else Total(rows) as real / |rows| as real
  }

  lemma AnomalyIsAverageTest(amount: int, rows: seq<StoredAmount>)
    ensures AnomalyFires(amount, Some(rows))
        <==> Average(rows) > 0.0 && amount as real > AnomalyFactor as real * Average(rows)
  {
    if |rows| > 0 {
      var n := |rows| as real;
      var t := Total(rows) as real;
      assert Average(rows) == t / n;
      ScaledMeanTest(amount as real, t, n);
      assert (amount * |rows|) as real == amount as real * n;
      assert (AnomalyFactor * Total(rows)) as real == 5.0 * t;
    }
  }

  /** Comparing against a mean `t / n` is comparing against the total once
      both sides are scaled by the positive count `n`. */
  lemma ScaledMeanTest(x: real, t: real, n: real)
    requires n > 0.0
    ensures t / n > 0.0 <==> t > 0.0
    ensures x > 5.0 * (t / n) <==> x * n > 5.0 * t
  {
    var avg := t / n;
    assert avg * n == t;
    assert (5.0 * avg) * n == 5.0 * t;
    assert x * n - 5.0 * t == (x - 5.0 * avg) * n;
  }

  /** Without any history the amount-anomaly rule never fires, whatever
      the amount; nor when the history query failed. */
  lemma NoHistoryNoAnomaly(amount: int)
    ensures !AnomalyFires(amount, Some([]))
    ensures !AnomalyFires(amount, None)
  {
  }

  lemma {:induction false} TotalOfCoercedRows(a: seq<StoredAmount>, b: seq<StoredAmount>)
    requires |a| == |b|
    requires forall i :: 0 <= i < |a| ==> AsNumber(a[i]) == AsNumber(b[i])
    ensures Total(a) == Total(b)
    decreases |a|
  {
    if |a| > 0 {
      TotalOfCoercedRows(a[1..], b[1..]);
    }
  }

  /** A stored amount that is not a number contributes 0 to the total but
      still counts towards the number of rows the mean divides by: the rule
      decides exactly as if that row held the number 0. */
  lemma NonNumericCountsAsZero(amount: int, rows: seq<StoredAmount>, i: int)
    requires 0 <= i < |rows| && rows[i] == NotNumeric
    ensures Total(rows[i := Numeric(0)]) == Total(rows)
    ensures AnomalyFires(amount, Some(rows)) <==> AnomalyFires(amount, Some(rows[i := Numeric(0)]))
  {
    TotalOfCoercedRows(rows, rows[i := Numeric(0)]);
  }

  /** Absent, `null` or empty `beneficiaryId` never raises the flag and
      never makes the request invalid. */
  lemma MissingBeneficiaryNeverFlags(req: Request, now: int, h: History)
    requires ValidRequest(req)
    requires req.beneficiaryId.None? || req.beneficiaryId == Some("")
    ensures Evaluate(req, now, h).Scored?
    ensures NewBeneficiary !in Evaluate(req, now, h).verdict.flags
  {
  }

  /** Validation failures carry no score. */
  lemma MissingFieldIsError(userId: Option<string>, amount: Option<int>, beneficiaryId: Option<string>, now: int, h: History)
    requires userId.None? || userId == Some("") || amount.None?
    ensures Evaluate(Request(userId, amount, beneficiaryId), now, h) == BadRequest(RequiredMessage)
  {
  }

  // ---------------------------------------------------------------------
  // Boundary cases

  lemma VelocityBoundary(rows: seq<RecentRow>)
    ensures |rows| == 5 ==> VelocityFires(Some(rows))
    ensures |rows| == 4 ==> !VelocityFires(Some(rows))
    ensures !VelocityFires(None)
  {
  }

  lemma AnomalyBoundary()
    ensures !AnomalyFires(500, Some([Numeric(100)]))
    ensures AnomalyFires(501, Some([Numeric(100)]))
    ensures !AnomalyFires(0, Some([Numeric(100)]))
  {
  }

  lemma BeneficiaryBoundary(now: int, amount: int)
    ensures BeneficiaryFires(Some("b"), Some(BeneficiaryRow(Some(now - HourMs))), now, 1500)
    ensures !BeneficiaryFires(Some("b"), Some(BeneficiaryRow(Some(now - HourMs))), now, 1000)
    ensures !BeneficiaryFires(Some("b"), Some(BeneficiaryRow(Some(now - 25 * HourMs))), now, amount)
    ensures !BeneficiaryFires(Some("b"), Some(BeneficiaryRow(None)), now, amount)
    ensures !BeneficiaryFires(Some("b"), None, now, amount)
  {
  }

  /** Six transactions in the last hour, a historical mean of 200, an amount
      of 250 and no beneficiary: only the velocity flag, score 0.30, safe. */
  lemma ExampleVelocityOnly(now: int)
    ensures var rows := seq(6, i => RecentRow("t", Numeric(200)));
      Evaluate(Request(Some("u"), Some(250), None), now,
               History(Some(rows), Some([Numeric(200), Numeric(200)]), None))
      == Scored(Verdict(true, 30, [HighVelocity]))
  {
    var rows := seq(6, i => RecentRow("t", Numeric(200)));
    var h := History(Some(rows), Some([Numeric(200), Numeric(200)]), None);
    var req := Request(Some("u"), Some(250), None);
    FlagsAreFiredRulesInOrder(req, now, h, [HighVelocity]);
  }

  /** Two recent transactions, mean 100, amount 1200 and a beneficiary two
      hours old: the anomaly and new-beneficiary flags, score exactly 0.70,
      which is not safe. */
  lemma ExampleThresholdIsUnsafe(now: int)
    ensures var rows := seq(2, i => RecentRow("t", Numeric(100)));
      Evaluate(Request(Some("u"), Some(1200), Some("b")), now,
               History(Some(rows), Some([Numeric(100)]), Some(BeneficiaryRow(Some(now - 2 * HourMs)))))
      == Scored(Verdict(false, 70, [AmountAnomaly, NewBeneficiary]))
  {
    var rows := seq(2, i => RecentRow("t", Numeric(100)));
    var h := History(Some(rows), Some([Numeric(100)]), Some(BeneficiaryRow(Some(now - 2 * HourMs))));
    var req := Request(Some("u"), Some(1200), Some("b"));
    FlagsAreFiredRulesInOrder(req, now, h, [AmountAnomaly, NewBeneficiary]);
  }

  /** The same history with an amount of 600: the anomaly fires, but 600 is
      not over 1000, so the young beneficiary raises nothing and the
      verdict is safe at 0.30. */
  lemma ExampleYoungBeneficiarySmallAmount(now: int)
    ensures var rows := seq(2, i => RecentRow("t", Numeric(100)));
      Evaluate(Request(Some("u"), Some(600), Some("b")), now,
               History(Some(rows), Some([Numeric(100)]), Some(BeneficiaryRow(Some(now - 2 * HourMs)))))
      == Scored(Verdict(true, 30, [AmountAnomaly]))
  {
    var rows := seq(2, i => RecentRow("t", Numeric(100)));
    var h := History(Some(rows), Some([Numeric(100)]), Some(BeneficiaryRow(Some(now - 2 * HourMs))));
    var req := Request(Some("u"), Some(600), Some("b"));
    FlagsAreFiredRulesInOrder(req, now, h, [AmountAnomaly]);
  }
}
