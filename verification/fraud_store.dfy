/** The three queries the fraud route issues, evaluated against a snapshot
    of the `transactions` and `beneficiaries` tables:
      - the user's transactions created at or after `now` minus one hour
        (`eq('user_id', ...)`, `gte('created_at', since)`);
      - the `amount` of every transaction of the user;
      - the beneficiary with the requested id, through `maybeSingle()`,
        which yields no data unless exactly one row matches.
    Any query may fail; a failed query yields `data: null`, modelled as a
    query that is not reachable. Timestamps are milliseconds. */
module TransactionStore {
  import opened Wrappers
  import opened JsText
  import opened FraudCheck

  datatype Transaction = Transaction(id: string, userId: string, amount: StoredAmount, createdAt: int)

  datatype Beneficiary = Beneficiary(id: string, createdAt: Option<int>)

  datatype Snapshot = Snapshot(transactions: seq<Transaction>, beneficiaries: seq<Beneficiary>)

  /** Which of the three queries returned data. */
  datatype Reachability = Reachability(recent: bool, amounts: bool, beneficiary: bool)

  // ---------------------------------------------------------------------
  // Which rows each query selects, as index sets

  predicate InWindow(t: Transaction, userId: string, since: int) {
    t.userId == userId && t.createdAt >= since
  }

  function WindowIndices(txs: seq<Transaction>, userId: string, since: int): set<int> {
    set i | 0 <= i < |txs| && InWindow(txs[i], userId, since)
  }

  function UserIndices(txs: seq<Transaction>, userId: string): set<int> {
    set i | 0 <= i < |txs| && txs[i].userId == userId
  }

  function IdIndices(bens: seq<Beneficiary>, id: string): set<int> {
    set i | 0 <= i < |bens| && bens[i].id == id
  }

  /** A set of one element that contains `i` is `{i}`. */
  lemma SingletonIs(s: set<int>, i: int)
    requires |s| == 1 && i in s
    ensures s == {i}
  {
    assert |s - {i}| == 0;
  }

  /** Dropping the last transaction drops its index, if it was selected. */
  lemma WindowIndicesSnoc(txs: seq<Transaction>, userId: string, since: int)
    requires |txs| > 0
    ensures var n := |txs| - 1;
      |WindowIndices(txs, userId, since)|
      == |WindowIndices(txs[..n], userId, since)| + (if InWindow(txs[n], userId, since) then 1 else 0)
  {
    var n := |txs| - 1;
    var front := WindowIndices(txs[..n], userId, since);
    assert WindowIndices(txs, userId, since) == front + (if InWindow(txs[n], userId, since) then {n} else {});
    assert n !in front;
  }

  /** Dropping the last transaction drops its index, if it was the user's. */
  lemma UserIndicesSnoc(txs: seq<Transaction>, userId: string)
    requires |txs| > 0
    ensures var n := |txs| - 1;
      |UserIndices(txs, userId)|
      == |UserIndices(txs[..n], userId)| + (if txs[n].userId == userId then 1 else 0)
  {
    var n := |txs| - 1;
    var front := UserIndices(txs[..n], userId);
    assert UserIndices(txs, userId) == front + (if txs[n].userId == userId then {n} else {});
    assert n !in front;
  }

  /** The indices of the user's transactions whose stored amount is `a`. */
  function AmountIndices(txs: seq<Transaction>, userId: string, a: StoredAmount): set<int> {
    set i | 0 <= i < |txs| && txs[i].userId == userId && txs[i].amount == a
  }

  /** Dropping the last transaction drops its index from the one set it
      belongs to. */
  lemma AmountIndicesSnoc(txs: seq<Transaction>, userId: string)
    requires |txs| > 0
    ensures var n := |txs| - 1;
      forall a :: |AmountIndices(txs, userId, a)|
        == |AmountIndices(txs[..n], userId, a)| + (if txs[n].userId == userId && txs[n].amount == a then 1 else 0)
  {
    forall a {
      AmountIndicesSnocAt(txs, userId, a);
    }
  }

  lemma AmountIndicesSnocAt(txs: seq<Transaction>, userId: string, a: StoredAmount)
    requires |txs| > 0
    ensures var n := |txs| - 1;
      |AmountIndices(txs, userId, a)|
        == |AmountIndices(txs[..n], userId, a)| + (if txs[n].userId == userId && txs[n].amount == a then 1 else 0)
  {
    var n := |txs| - 1;
    var front := AmountIndices(txs[..n], userId, a);
    assert AmountIndices(txs, userId, a)
        == front + (if txs[n].userId == userId && txs[n].amount == a then {n} else {});
    assert n !in front;
  }

  /** The sum of the `amount` column, each value coerced as the route does,
      over the user's transactions. */
  function UserTotal(txs: seq<Transaction>, userId: string): int {
    if |txs| == 0 then 0
    else
      var n := |txs| - 1;
      UserTotal(txs[..n], userId) + (if txs[n].userId == userId then AsNumber(txs[n].amount) else 0)
  }

  lemma {:induction false} TotalSnoc(rows: seq<StoredAmount>, x: StoredAmount)
    ensures Total(rows + [x]) == Total(rows) + AsNumber(x)
    decreases |rows|
  {
    if |rows| == 0 {
      assert rows + [x] == [x];
    } else {
      assert (rows + [x])[1..] == rows[1..] + [x];
      TotalSnoc(rows[1..], x);
    }
  }

  // ---------------------------------------------------------------------
  // The queries

  /** The velocity query: one row per transaction of the user in the window,
      in table order. */
  function RecentQuery(txs: seq<Transaction>, userId: string, since: int): (r: seq<RecentRow>)
    ensures |r| == |WindowIndices(txs, userId, since)|
    ensures forall t :: t in txs && InWindow(t, userId, since) ==> RecentRow(t.id, t.amount) in r
  {
    if |txs| == 0 then []
    else
      var n := |txs| - 1;
      var t := txs[n];
      var front := RecentQuery(txs[..n], userId, since);
      WindowIndicesSnoc(txs, userId, since);
      assert forall u :: u in txs ==> u in txs[..n] || u == t by {
        assert txs == txs[..n] + [t];
      }
      front + (if InWindow(t, userId, since) then [RecentRow(t.id, t.amount)] else [])
  }

  /** The history query: the stored amount of every transaction of the user,
      in table order. */
  function AmountsQuery(txs: seq<Transaction>, userId: string): (r: seq<StoredAmount>)
    ensures |r| == |UserIndices(txs, userId)|
    ensures forall t :: t in txs && t.userId == userId ==> t.amount in r
    ensures forall a :: multiset(r)[a] == |AmountIndices(txs, userId, a)|
    ensures Total(r) == UserTotal(txs, userId)
  {
    if |txs| == 0 then []
    else
      var n := |txs| - 1;
      var t := txs[n];
      var front := AmountsQuery(txs[..n], userId);
      var last := if t.userId == userId then [t.amount] else [];
      UserIndicesSnoc(txs, userId);
      AmountIndicesSnoc(txs, userId);
      assert forall u :: u in txs ==> u in txs[..n] || u == t by {
        assert txs == txs[..n] + [t];
      }
      assert Total(front + last) == Total(front) + (if t.userId == userId then AsNumber(t.amount) else 0) by {
        if t.userId == userId {
          TotalSnoc(front, t.amount);
        } else {
          assert front + last == front;
        }
      }
      assert multiset(front + last) == multiset(front) + multiset(last);
      front + last
  }

  /** The beneficiary query with `maybeSingle()`: the record when exactly
      one row has the id; no data when none does, and an error (again no
      data) when several do. */
  function BeneficiaryQuery(bens: seq<Beneficiary>, id: string): (r: Option<BeneficiaryRow>)
    ensures r.Some? <==> |IdIndices(bens, id)| == 1
    ensures r.Some? ==> forall i :: i in IdIndices(bens, id) ==> r.value.createdAt == bens[i].createdAt
  {
    var ids := IdIndices(bens, id);
    if |ids| == 1 then
      var i :| i in ids;
      SingletonIs(ids, i);
      Some(BeneficiaryRow(bens[i].createdAt))
    else None
  }

  /** The history the route sees for a request at time `now`. The
      beneficiary query only runs for a truthy `beneficiaryId`. */
  function Fetch(snap: Snapshot, reach: Reachability, req: Request, now: int): History {
    var userId := req.userId.GetOr("");
    var beneficiaryId := req.beneficiaryId.GetOr("");
    History(
      if reach.recent then Some(RecentQuery(snap.transactions, userId, now - VelocityWindowMs)) else None,
      if reach.amounts then Some(AmountsQuery(snap.transactions, userId)) else None,
      if reach.beneficiary && Truthy(beneficiaryId) then BeneficiaryQuery(snap.beneficiaries, beneficiaryId) else None)
  }

  // ---------------------------------------------------------------------
  // The rules in terms of the tables

  /** The velocity flag is raised exactly when the query succeeds and the
      user has at least five transactions created no earlier than one hour
      before `now`. */
  lemma VelocityOverSnapshot(snap: Snapshot, reach: Reachability, req: Request, now: int)
    requires ValidRequest(req)
    ensures HighVelocity in Evaluate(req, now, Fetch(snap, reach, req, now)).verdict.flags
        <==> reach.recent && |WindowIndices(snap.transactions, req.userId.value, now - HourMs)| >= 5
  {
  }

  /** The new-beneficiary flag is raised exactly when the request names a
      beneficiary, the query succeeds, exactly one beneficiary has that id,
      its creation time is known and less than a day before `now`, and the
      amount is over 1000. */
  lemma BeneficiaryOverSnapshot(snap: Snapshot, reach: Reachability, req: Request, now: int)
    requires ValidRequest(req)
    ensures NewBeneficiary in Evaluate(req, now, Fetch(snap, reach, req, now)).verdict.flags
        <==> && req.beneficiaryId.Some? && Truthy(req.beneficiaryId.value) && reach.beneficiary
             && |IdIndices(snap.beneficiaries, req.beneficiaryId.value)| == 1
             && (forall i :: i in IdIndices(snap.beneficiaries, req.beneficiaryId.value) ==>
                   && snap.beneficiaries[i].createdAt.Some?
                   && now - snap.beneficiaries[i].createdAt.value < 24 * HourMs)
             && req.amount.value > 1000
  {
    var id := req.beneficiaryId.GetOr("");
    var ids := IdIndices(snap.beneficiaries, id);
    if |ids| == 1 {
      var i :| i in ids;
      SingletonIs(ids, i);
    }
  }

  /** The amount-anomaly flag is raised exactly when the history query
      succeeds, the user has transactions, the mean of their coerced
      amounts is positive, and the amount exceeds five times that mean. */
  lemma AnomalyOverSnapshot(snap: Snapshot, reach: Reachability, req: Request, now: int)
    requires ValidRequest(req)
    ensures var n := |UserIndices(snap.transactions, req.userId.value)|;
      var mean := if n == 0 then 0.0 else UserTotal(snap.transactions, req.userId.value) as real / n as real;
      (AmountAnomaly in Evaluate(req, now, Fetch(snap, reach, req, now)).verdict.flags
       <==> reach.amounts && n > 0 && mean > 0.0 && req.amount.value as real > 5.0 * mean)
  {
    var rows := AmountsQuery(snap.transactions, req.userId.value);
    AnomalyIsAverageTest(req.amount.value, rows);
  }

  /** The window's lower bound is inclusive: a transaction of the user
      created exactly one hour before `now` is counted, one created a
      millisecond earlier is not, and transactions of other users never are. */
  lemma WindowBoundary(txs: seq<Transaction>, t: Transaction, userId: string, now: int)
    ensures t.userId == userId && t.createdAt == now - HourMs ==>
      |RecentQuery(txs + [t], userId, now - HourMs)| == |RecentQuery(txs, userId, now - HourMs)| + 1
    ensures t.createdAt == now - HourMs - 1 || t.userId != userId ==>
      |RecentQuery(txs + [t], userId, now - HourMs)| == |RecentQuery(txs, userId, now - HourMs)|
  {
    assert (txs + [t])[..|txs|] == txs;
  }
}
