/**
  The optimisation endpoints: training-data upload and its filtered, paginated listing, the
  performance metrics over an agent's tickets, the resolution rate, the fixed-order recommendation
  list, and the optimisation settings update.
*/
module OptimizationController {
  import opened Wrappers
  import opened TicketModel
  import opened AgentModel
  import opened Store
  import Lists
  import Paging
  import Text

  // ---------------------------------------------------------------------------------------------
  // uploadTrainingData

  /** One question/answer pair as sent. */
  datatype QaInput = QaInput(question: Option<string>, answer: Option<string>, category: Option<string>, tags: Option<seq<string>>)

  const MaxQuestion := 500
  const MaxAnswer := 2000
  const MaxTrainingCategory := 100

  /** A pair: question of 1 to 500 characters, answer of 1 to 2000, category up to 100, tags up to
      50 each. */
  predicate ValidQa(q: QaInput) {
    q.question.Some? && 1 <= |q.question.value| <= MaxQuestion
    && q.answer.Some? && 1 <= |q.answer.value| <= MaxAnswer
    && (q.category.Some? ==> |q.category.value| <= MaxTrainingCategory)
    && (q.tags.Some? ==> TagsValid(q.tags.value))
  }

  /** `trainingDataSchema`: at least one pair, each valid. */
  predicate ValidUpload(questions: Option<seq<QaInput>>) {
    questions.Some? && |questions.value| >= 1
    && forall i :: 0 <= i < |questions.value| ==> ValidQa(questions.value[i])
  }

  /** Each pair as pushed: its own fields plus the upload time and uploader. */
  function Stamp(q: QaInput, now: int, caller: Id): TrainingItem
    requires ValidQa(q)
  {
    TrainingItem(q.question.value, q.answer.value, q.category, q.tags, now, caller)
  }

  function StampAll(qs: seq<QaInput>, now: int, caller: Id): (items: seq<TrainingItem>)
    requires forall i :: 0 <= i < |qs| ==> ValidQa(qs[i])
    ensures |items| == |qs|
    ensures forall i :: 0 <= i < |qs| ==> items[i] == Stamp(qs[i], now, caller)
  {
    seq(|qs|, i requires 0 <= i < |qs| => Stamp(qs[i], now, caller))
  }

  /** The agent after `$push` with `$each` and `$set` of the upload time; the schema's timestamps
      also set `updatedAt`. */
  function WithTraining(a: Agent, items: seq<TrainingItem>, now: int): Agent {
    a.(trainingData := a.trainingData + items, lastTrainingUpdate := Some(now), updatedAt := now)
  }

  /** The upload's effect: the old entries keep their place, the new ones follow in request order
      carrying their question and answer, the count is old count + n, and nothing the validators
      check changes. */
  lemma UploadAppends(a: Agent, qs: seq<QaInput>, now: int, caller: Id)
    requires forall i :: 0 <= i < |qs| ==> ValidQa(qs[i])
    ensures var b := WithTraining(a, StampAll(qs, now, caller), now);
            |b.trainingData| == |a.trainingData| + |qs|
            && b.trainingData[..|a.trainingData|] == a.trainingData
            && (forall i :: 0 <= i < |qs| ==>
                  b.trainingData[|a.trainingData| + i].question == qs[i].question.value
                  && b.trainingData[|a.trainingData| + i].answer == qs[i].answer.value
                  && b.trainingData[|a.trainingData| + i].uploadedBy == caller)
            && b.lastTrainingUpdate == Some(now) && b.updatedAt == now
            && (AgentValid(a) <==> AgentValid(b))
  {
  }

  /** `uploadTrainingData`: 400 on a schema violation (checked before the lookup), 404 when the
      caller owns no such agent; otherwise all pairs are appended and the new count reported. */
  method UploadTrainingData(db: Database, caller: Id, id: Id, questions: Option<seq<QaInput>>, now: int)
    returns (r: Result<(Agent, nat)>)
    requires db.Valid()
    modifies db
    ensures db.Valid()
    ensures db.tickets == old(db.tickets) && db.users == old(db.users)
    ensures !ValidUpload(questions) ==> r == Err(400)
    ensures ValidUpload(questions) && !Owns(old(db.agents), caller, id) ==> r == Err(404)
    ensures r.Err? ==> db.agents == old(db.agents)
    ensures r.Ok? ==>
      ValidUpload(questions) && Owns(old(db.agents), caller, id)
      && r.value.0 == WithTraining(old(db.agents)[id], StampAll(questions.value, now, caller), now)
      && r.value.1 == |old(db.agents)[id].trainingData| + |questions.value|
      && db.agents == old(db.agents)[id := r.value.0]
    ensures ValidUpload(questions) && Owns(old(db.agents), caller, id) ==> r.Ok?
  {
    if !ValidUpload(questions) {
      return Err(400);
    }
    if !Owns(db.agents, caller, id) {
      return Err(404);
    }
    var a := db.agents[id];
    var b := WithTraining(a, StampAll(questions.value, now, caller), now);
    UploadAppends(a, questions.value, now, caller);
    ReplaceAgent(db.agents, id, b);
    db.agents := db.agents[id := b];
    r := Ok((b, |b.trainingData|));
  }

  /** The same upload as the handler's code runs under the Agent schema: the schema declares neither
      `trainingData` nor `lastTrainingUpdate`, so strict mode strips both from the update; only the
      `updatedAt` stamp the schema's timestamps add is written, and the hydrated document has no
      `trainingData` to count. */
  function UploadAsWritten(a: Agent, qs: seq<QaInput>, now: int, caller: Id): (Agent, nat)
    requires forall i :: 0 <= i < |qs| ==> ValidQa(qs[i])
  {
    (a.(updatedAt := now), 0)
  }

  /** A one-pair upload reports zero examples and stores none (the agent changes only in `updatedAt`),
      where the intended upload reports the old count plus one. */
  lemma UploadAsWrittenLosesData(a: Agent, now: int, caller: Id)
    ensures var q := QaInput(Some("How do I reset my password?"), Some("Use the reset link."), None, None);
            ValidQa(q)
            && UploadAsWritten(a, [q], now, caller).1 == 0
            && UploadAsWritten(a, [q], now, caller).0 == a.(updatedAt := now)
            && UploadAsWritten(a, [q], now, caller).0.trainingData == a.trainingData
            && |WithTraining(a, StampAll([q], now, caller), now).trainingData| == |a.trainingData| + 1
  {
  }

  // ---------------------------------------------------------------------------------------------
  // getTrainingData

  datatype TrainingQuery = TrainingQuery(page: Option<int>, limit: Option<int>, category: Option<string>, search: Option<string>)

  datatype TrainingPage = TrainingPage(
    items: seq<TrainingItem>,
    count: int,
    total: int,
    pages: Option<int>,
    currentPage: int,
    categories: seq<string>)

  /** `item.category === category` */
  predicate InCategory(item: TrainingItem, category: string) {
    item.category == Some(category)
  }

  /** The case-insensitive search on the question or the answer. */
  predicate MatchesSearch(item: TrainingItem, search: string) {
    var needle := Text.ToLower(search);
    Text.Includes(Text.ToLower(item.question), needle) || Text.Includes(Text.ToLower(item.answer), needle)
  }

  /** The two filters in the handler's order: category when given, then search when given. */
  function FilterTraining(data: seq<TrainingItem>, q: TrainingQuery): seq<TrainingItem> {
    var byCategory := if Truthy(q.category) then Lists.Filter(data, item => InCategory(item, q.category.value)) else data;
    if Truthy(q.search) then Lists.Filter(byCategory, item => MatchesSearch(item, q.search.value)) else byCategory
  }

  /** An item is kept exactly when it is in the requested category (if one is given) and matches
      the search (if one is given); the result is no longer than the data. */
  lemma FilterTrainingIff(data: seq<TrainingItem>, q: TrainingQuery)
    ensures var r := FilterTraining(data, q);
            |r| <= |data|
            && forall item :: item in r <==>
                 item in data
                 && (Truthy(q.category) ==> InCategory(item, q.category.value))
                 && (Truthy(q.search) ==> MatchesSearch(item, q.search.value))
  {
  }

  /** `items.map(item => item.category).filter(Boolean)` */
  function TruthyCategories(items: seq<TrainingItem>): (cs: seq<string>)
    ensures forall c :: c in cs <==> c != "" && exists i :: 0 <= i < |items| && items[i].category == Some(c)
    decreases |items|
  {
    if |items| == 0 then []
    else
      var rest := TruthyCategories(items[1..]);
      assert forall i :: 1 <= i < |items| ==> items[i] == items[1..][i - 1];
      assert forall c :: (exists i :: 0 <= i < |items[1..]| && items[1..][i].category == Some(c))
                           ==> exists i :: 0 <= i < |items| && items[i].category == Some(c) by {
        forall c | exists i :: 0 <= i < |items[1..]| && items[1..][i].category == Some(c)
          ensures exists i :: 0 <= i < |items| && items[i].category == Some(c)
        {
          var i :| 0 <= i < |items[1..]| && items[1..][i].category == Some(c);
          assert items[i + 1].category == Some(c);
        }
      }
      if Truthy(items[0].category) then [items[0].category.value] + rest else rest
  }

  /** `[...new Set(...)]` of the truthy categories: each non-empty category of the filtered data
      once, and nothing else. */
  function CategoriesOf(items: seq<TrainingItem>): (cs: seq<string>)
    ensures Lists.NoDuplicates(cs)
    ensures forall c :: c in cs <==> c != "" && exists i :: 0 <= i < |items| && items[i].category == Some(c)
  {
    Lists.Distinct(TruthyCategories(items))
  }

  function TrainingPageOf(q: TrainingQuery): int {
    if q.page.Some? then q.page.value else 1
  }

  function TrainingLimitOf(q: TrainingQuery): int {
    if q.limit.Some? then q.limit.value else 50
  }

  /** The response for one agent's data: the filtered list sliced at `[(page-1)*limit,
      (page-1)*limit + limit)`, its length as total, `ceil(total/limit)` pages and the categories of
      the whole filtered list. */
  function TrainingResponse(data: seq<TrainingItem>, q: TrainingQuery): TrainingPage {
    PageOfFiltered(FilterTraining(data, q), TrainingPageOf(q), TrainingLimitOf(q))
  }

  function PageOfFiltered(filtered: seq<TrainingItem>, page: int, limit: int): TrainingPage {
    var start := (page - 1) * limit;
    var items := Paging.JsSlice(filtered, start, start + limit);
    TrainingPage(items, |items|, |filtered|, Paging.Pages(|filtered|, limit), page, CategoriesOf(filtered))
  }

  /** For a positive page and limit the page is exactly the filtered items at positions
      `[(page-1)*limit, page*limit)` that exist, at most `limit` of them, and the page count covers
      every filtered item. */
  lemma TrainingResponsePage(filtered: seq<TrainingItem>, page: int, limit: int)
    requires page >= 1 && limit >= 1
    ensures var r := PageOfFiltered(filtered, page, limit);
            var lo := (page - 1) * limit;
            0 <= lo
            && r.total == |filtered| && r.count == |r.items| <= limit
            && (lo < |filtered| ==> r.items == filtered[lo..if lo + limit < |filtered| then lo + limit else |filtered|])
            && (lo >= |filtered| ==> r.items == [])
            && r.pages == Some(Paging.CeilDiv(|filtered|, limit))
            && |filtered| <= Paging.CeilDiv(|filtered|, limit) * limit
  {
    Paging.SliceIsPage(filtered, page, limit);
  }

  /** `getTrainingData`: 404 unless the caller owns the agent, otherwise the response above. */
  method GetTrainingData(db: Database, caller: Id, id: Id, q: TrainingQuery) returns (r: Result<TrainingPage>)
    ensures !Owns(db.agents, caller, id) ==> r == Err(404)
    ensures Owns(db.agents, caller, id) ==> r == Ok(TrainingResponse(db.agents[id].trainingData, q))
  {
    if !Owns(db.agents, caller, id) {
      return Err(404);
    }
    r := Ok(TrainingResponse(db.agents[id].trainingData, q));
  }

  // ---------------------------------------------------------------------------------------------
  // performance metrics and the resolution rate

  /** The `$group` result for one agent. An average is `None` where `$avg` found no value (`null`). */
  datatype Metrics = Metrics(avgSatisfaction: Option<real>, avgResponseTime: Option<real>, totalTickets: nat, resolvedTickets: nat)

  /** `performanceData[0] || { avgSatisfaction: 0, avgResponseTime: 0, totalTickets: 0, ... }` */
  const NoTicketMetrics := Metrics(Some(0.0), Some(0.0), 0, 0)

  function Sum(xs: seq<real>): real
    decreases |xs|
  {
    if |xs| == 0 then 0.0 else xs[0] + Sum(xs[1..])
  }

  /** `$avg`: the mean of the present values, `null` when there are none. */
  function Mean(xs: seq<real>): Option<real> {
    if |xs| == 0 then None else Some(Sum(xs) / (|xs| as real))
  }

  function Satisfactions(ts: seq<Ticket>): (xs: seq<real>)
    ensures |xs| <= |ts|
    decreases |ts|
  {
    if |ts| == 0 then []
    else (if ts[0].analytics.satisfaction.Some? then [ts[0].analytics.satisfaction.value] else []) + Satisfactions(ts[1..])
  }

  function ResponseTimes(ts: seq<Ticket>): (xs: seq<real>)
    ensures |xs| <= |ts|
    decreases |ts|
  {
    if |ts| == 0 then []
    else (if ts[0].analytics.responseTime.Some? then [ts[0].analytics.responseTime.value] else []) + ResponseTimes(ts[1..])
  }

  predicate IsResolved(t: Ticket) {
    t.status == Resolved || t.status == Closed
  }

  /** `$sum` of `$cond: [{ $in: ['$status', ['resolved', 'closed']] }, 1, 0]` */
  function CountResolved(ts: seq<Ticket>): (n: nat)
    ensures n <= |ts|
    ensures n == 0 <==> forall i :: 0 <= i < |ts| ==> !IsResolved(ts[i])
    ensures n == |ts| <==> forall i :: 0 <= i < |ts| ==> IsResolved(ts[i])
    decreases |ts|
  {
    if |ts| == 0 then 0
    else
      var rest := CountResolved(ts[1..]);
      assert forall i :: 1 <= i < |ts| ==> ts[i] == ts[1..][i - 1];
      (if IsResolved(ts[0]) then 1 else 0) + rest
  }

  function MetricsOf(ts: seq<Ticket>): (m: Metrics)
    ensures m.totalTickets == |ts| && m.resolvedTickets <= m.totalTickets
  {
    if |ts| == 0 then NoTicketMetrics
    else Metrics(Mean(Satisfactions(ts)), Mean(ResponseTimes(ts)), |ts|, CountResolved(ts))
  }

  lemma {:induction false} SumConcat(a: seq<real>, b: seq<real>)
    ensures Sum(a + b) == Sum(a) + Sum(b)
    decreases |a|
  {
    if |a| > 0 {
      assert (a + b)[1..] == a[1..] + b;
      SumConcat(a[1..], b);
    } else {
      assert a + b == b;
    }
  }

  /** Every valid ticket's satisfaction lies in [1, 5], so their sum lies between n and 5n. */
  lemma {:induction false} SatisfactionSumBounds(ts: seq<Ticket>)
    requires forall i :: 0 <= i < |ts| ==> AnalyticsValid(ts[i].analytics)
    ensures var xs := Satisfactions(ts);
            |xs| as real <= Sum(xs) <= 5.0 * (|xs| as real)
    decreases |ts|
  {
    if |ts| > 0 {
      assert forall i :: 0 <= i < |ts[1..]| ==> ts[1..][i] == ts[i + 1];
      SatisfactionSumBounds(ts[1..]);
      var head := if ts[0].analytics.satisfaction.Some? then [ts[0].analytics.satisfaction.value] else [];
      var rest := Satisfactions(ts[1..]);
      assert Satisfactions(ts) == head + rest;
      SumConcat(head, rest);
      if head != [] {
        assert Sum(head) == ts[0].analytics.satisfaction.value + Sum([]);
      }
    }
  }

  /** A quotient bounded through its numerator. */
  lemma QuotientBounds(s: real, n: real, lo: real, hi: real)
    requires n > 0.0 && lo * n <= s <= hi * n
    ensures lo <= s / n <= hi
  {
    var q := s / n;
    assert q * n == s;
  }

  /** A mean of values whose sum lies between n and 5n lies in [1, 5]. */
  lemma MeanBounds(xs: seq<real>)
    requires |xs| as real <= Sum(xs) <= 5.0 * (|xs| as real)
    ensures Mean(xs).Some? ==> 1.0 <= Mean(xs).value <= 5.0
  {
    if |xs| > 0 {
      QuotientBounds(Sum(xs), |xs| as real, 1.0, 5.0);
    }
  }

  /** The average satisfaction over valid ticket analytics, when there is one, lies in [1, 5]. */
  lemma MeanSatisfactionInRange(ts: seq<Ticket>)
    requires forall i :: 0 <= i < |ts| ==> AnalyticsValid(ts[i].analytics)
    ensures Mean(Satisfactions(ts)).Some? ==> 1.0 <= Mean(Satisfactions(ts)).value <= 5.0
  {
    SatisfactionSumBounds(ts);
    MeanBounds(Satisfactions(ts));
  }

  /** `totalTickets > 0 ? resolvedTickets / totalTickets * 100 : 0` */
  function ResolutionRate(m: Metrics): (rate: real)
    ensures 0.0 <= rate
    ensures m.resolvedTickets <= m.totalTickets ==> rate <= 100.0
  {
    if m.totalTickets > 0 then (m.resolvedTickets as real / m.totalTickets as real) * 100.0 else 0.0
  }

  /** The threshold test on a percentage, free of division. */
  lemma PercentBelow(r: real, t: real, bound: real)
    requires t > 0.0
    ensures (r / t) * 100.0 < bound <==> 100.0 * r < bound * t
  {
    var q := r / t;
    assert q * t == r;
    assert (q * 100.0) * t == 100.0 * r;
  }

  /** The rate threshold in integers: below 70% exactly when there are no tickets or fewer than 70
      in every 100 are resolved or closed. */
  lemma RateBelowSeventy(m: Metrics)
    ensures ResolutionRate(m) < 70.0 <==> m.totalTickets == 0 || 100 * m.resolvedTickets < 70 * m.totalTickets
  {
    if m.totalTickets > 0 {
      PercentBelow(m.resolvedTickets as real, m.totalTickets as real, 70.0);
      assert (100 * m.resolvedTickets) as real == 100.0 * (m.resolvedTickets as real);
      assert (70 * m.totalTickets) as real == 70.0 * (m.totalTickets as real);
    }
  }

  // ---------------------------------------------------------------------------------------------
  // getOptimizationRecommendations

  datatype Kind = Satisfaction | ResponseTime | ResolutionRateKind | Training | Data
  datatype Urgency = UrgencyHigh | UrgencyMedium | UrgencyLow

  /** One entry of the list: its kind and priority. Its title and action are fixed per kind
      (`Title`, `Action`); its description is left out (two of the five embed formatted numbers and
      category names). */
  datatype Recommendation = Recommendation(kind: Kind, priority: Urgency)

  /** The place of each kind in the handler's sequence of checks. */
  function Rank(k: Kind): nat {
    match k
    case Satisfaction => 0
    case ResponseTime => 1
    case ResolutionRateKind => 2
    case Training => 3
    case Data => 4
  }

  /** The entry pushed for each kind, with its priority. */
  function Card(k: Kind): Recommendation {
    match k
    case Satisfaction => Recommendation(k, UrgencyHigh)
    case ResponseTime => Recommendation(k, UrgencyMedium)
    case ResolutionRateKind => Recommendation(k, UrgencyHigh)
    case Training => Recommendation(k, UrgencyMedium)
    case Data => Recommendation(k, UrgencyLow)
  }

  function Title(k: Kind): string {
    match k
    case Satisfaction => "Improve Customer Satisfaction"
    case ResponseTime => "Reduce Response Time"
    case ResolutionRateKind => "Improve Resolution Rate"
    case Training => "Add Training for Common Issues"
    case Data => "Insufficient Data"
  }

  function Action(k: Kind): string {
    match k
    case Satisfaction => "Upload training data for common issues"
    case ResponseTime => "Review agent settings and training data"
    case ResolutionRateKind => "Focus on training for top unresolved categories"
    case Training => "Create training data for these categories"
    case Data => "Increase agent visibility and usage"
  }

  /** A relational comparison reads `null` as 0. */
  function AsNumber(x: Option<real>): real {
    if x.Some? then x.value else 0.0
  }

  /** The five tests the handler makes, in its order: satisfaction below 3.5, response time above
      60 seconds, resolution rate below 70%, some open or in-progress ticket, fewer than 10 tickets. */
  datatype Signals = Signals(lowSatisfaction: bool, slowResponse: bool, lowResolution: bool,
                             unresolved: bool, fewTickets: bool)

  function SignalsOf(m: Metrics, unresolved: bool): Signals {
    Signals(AsNumber(m.avgSatisfaction) < 3.5, AsNumber(m.avgResponseTime) > 60.0,
            ResolutionRate(m) < 70.0, unresolved, m.totalTickets < 10)
  }

  /** When each recommendation is due. */
  predicate Due(k: Kind, s: Signals) {
    match k
    case Satisfaction => s.lowSatisfaction
    case ResponseTime => s.slowResponse
    case ResolutionRateKind => s.lowResolution
    case Training => s.unresolved
    case Data => s.fewTickets
  }

  /** Kinds strictly in the order of the checks. */
  predicate Ranked(ks: seq<Kind>) {
    forall i, j :: 0 <= i < j < |ks| ==> Rank(ks[i]) < Rank(ks[j])
  }

  /** The list's shape: in check order, each kind present exactly when it is due. */
  predicate Recommends(ks: seq<Kind>, s: Signals) {
    Ranked(ks) && forall k :: k in ks <==> Due(k, s)
  }

  function KindsOf(recs: seq<Recommendation>): (ks: seq<Kind>)
    ensures |ks| == |recs| && forall i :: 0 <= i < |recs| ==> ks[i] == recs[i].kind
  {
    seq(|recs|, i requires 0 <= i < |recs| => recs[i].kind)
  }

  /** The list after the checks of rank below `n`: ranked, holding only kinds of rank below `n`,
      and among those exactly the due ones, each as its fixed entry. */
  predicate Upto(recs: seq<Recommendation>, s: Signals, n: nat) {
    var ks := KindsOf(recs);
    Ranked(ks)
    && (forall i :: 0 <= i < |recs| ==> recs[i] == Card(recs[i].kind) && Rank(recs[i].kind) < n)
    && (forall k :: Rank(k) < n ==> (k in ks <==> Due(k, s)))
  }

  /** One check: the entry is pushed exactly when its kind is due. */
  lemma Step(before: seq<Recommendation>, after: seq<Recommendation>, k: Kind, s: Signals)
    requires Upto(before, s, Rank(k))
    requires after == if Due(k, s) then before + [Card(k)] else before
    ensures Upto(after, s, Rank(k) + 1)
  {
    var ks, ks' := KindsOf(before), KindsOf(after);
    if Due(k, s) {
      assert ks' == ks + [k];
    }
    forall j | Rank(j) < Rank(k) + 1 ensures j in ks' <==> Due(j, s) {
      if Rank(j) == Rank(k) {
        assert j == k;
        assert k !in ks;
      }
    }
  }

  /** The kind checked at each place. */
  function KindAt(n: nat): (k: Kind)
    requires n < 5
    ensures Rank(k) == n
  {
    if n == 0 then Satisfaction
    else if n == 1 then ResponseTime
    else if n == 2 then ResolutionRateKind
    else if n == 3 then Training
    else Data
  }

  /** The list after the first `n` checks. */
  function Pushed(s: Signals, n: nat): seq<Recommendation>
    requires n <= 5
  {
    if n == 0 then []
    else
      var k := KindAt(n - 1);
      Pushed(s, n - 1) + if Due(k, s) then [Card(k)] else []
  }

  lemma {:induction false} PushedUpto(s: Signals, n: nat)
    requires n <= 5
    ensures Upto(Pushed(s, n), s, n)
  {
    if n > 0 {
      var k := KindAt(n - 1);
      PushedUpto(s, n - 1);
      Step(Pushed(s, n - 1), Pushed(s, n), k, s);
    }
  }

  /** After all five checks the list holds each due kind once, in check order, as its fixed entry. */
  lemma PushedRecommends(s: Signals)
    ensures Recommends(KindsOf(Pushed(s, 5)), s)
    ensures forall i :: 0 <= i < |Pushed(s, 5)| ==> Pushed(s, 5)[i] == Card(Pushed(s, 5)[i].kind)
  {
    PushedUpto(s, 5);
  }

  /** The recommendation pushes, in the handler's order. */
  method Recommend(s: Signals) returns (recs: seq<Recommendation>)
    ensures recs == Pushed(s, 5)
    ensures Recommends(KindsOf(recs), s)
    ensures forall i :: 0 <= i < |recs| ==> recs[i] == Card(recs[i].kind)
  {
    recs := [];
    if s.lowSatisfaction {
      recs := recs + [Card(Satisfaction)];
    }
    assert recs == Pushed(s, 1);
    if s.slowResponse {
      recs := recs + [Card(ResponseTime)];
    }
    assert recs == Pushed(s, 2);
    if s.lowResolution {
      recs := recs + [Card(ResolutionRateKind)];
    }
    assert recs == Pushed(s, 3);
    if s.unresolved {
      recs := recs + [Card(Training)];
    }
    assert recs == Pushed(s, 4);
    if s.fewTickets {
      recs := recs + [Card(Data)];
    }
    assert recs == Pushed(s, 5);
    PushedRecommends(s);
  }

  /** A ranked list is the least rank first. */
  lemma HeadLeast(ks: seq<Kind>, k: Kind)
    requires Ranked(ks) && k in ks
    ensures Rank(ks[0]) <= Rank(k)
  {
    var j :| 0 <= j < |ks| && ks[j] == k;
  }

  lemma TailMembers(ks: seq<Kind>, k: Kind)
    requires Ranked(ks) && |ks| > 0
    ensures k in ks[1..] <==> k in ks && k != ks[0]
  {
    if k in ks[1..] {
      var j :| 0 <= j < |ks[1..]| && ks[1..][j] == k;
      assert ks[j + 1] == k;
    }
    if k in ks && k != ks[0] {
      var j :| 0 <= j < |ks| && ks[j] == k;
      assert ks[1..][j - 1] == k;
    }
  }

  /** The order of the checks fixes the list: two ranked lists with the same kinds are equal. */
  lemma {:induction false} RankedUnique(a: seq<Kind>, b: seq<Kind>)
    requires Ranked(a) && Ranked(b)
    requires forall k :: k in a <==> k in b
    ensures a == b
    decreases |a|
  {
    assert |a| > 0 ==> a[0] in b;
    assert |b| > 0 ==> b[0] in a;
    if |a| > 0 && |b| > 0 {
      HeadLeast(a, b[0]);
      HeadLeast(b, a[0]);
      assert a[0] == b[0];
      forall k ensures k in a[1..] <==> k in b[1..] {
        TailMembers(a, k);
        TailMembers(b, k);
      }
      RankedUnique(a[1..], b[1..]);
      assert a == [a[0]] + a[1..];
      assert b == [b[0]] + b[1..];
    }
  }

  /** An agent without tickets gets exactly the satisfaction, resolution-rate and data entries, in
      that order. */
  lemma NoTicketsRecommendations(ks: seq<Kind>)
    requires Recommends(ks, SignalsOf(MetricsOf([]), false))
    ensures ks == [Satisfaction, ResolutionRateKind, Data]
  {
    var expected := [Satisfaction, ResolutionRateKind, Data];
    assert Ranked(expected);
    forall k ensures k in ks <==> k in expected {
      assert k in expected <==> k == Satisfaction || k == ResolutionRateKind || k == Data;
    }
    RankedUnique(ks, expected);
  }

  /** An agent with at least ten tickets, all resolved or closed, every one rated 5 and answered
      within a minute, gets no recommendation at all. */
  lemma HealthyAgentNoRecommendations(ks: seq<Kind>, m: Metrics)
    requires Recommends(ks, SignalsOf(m, false))
    requires m.totalTickets >= 10 && m.resolvedTickets == m.totalTickets
    requires m.avgSatisfaction == Some(5.0) && AsNumber(m.avgResponseTime) <= 60.0
    ensures ks == []
  {
    RateBelowSeventy(m);
    RankedUnique(ks, []);
  }

  /** Something of the agent's tickets is open or in progress (the unresolved-category group is
      non-empty). */
  predicate AnyUnresolved(ts: seq<Ticket>) {
    exists i :: 0 <= i < |ts| && (ts[i].status == Open || ts[i].status == InProgress)
  }

  /** `getOptimizationRecommendations`: 404 unless the caller owns the agent; otherwise the metrics
      over the agent's tickets (`listing` names each of them once) and the recommendation list. */
  method GetOptimizationRecommendations(db: Database, caller: Id, id: Id)
    returns (r: Result<(Metrics, seq<Recommendation>)>, listing: seq<Id>)
    ensures !Owns(db.agents, caller, id) ==> r == Err(404)
    ensures Owns(db.agents, caller, id) ==> r.Ok?
    ensures r.Ok? ==>
      Lists.NoDuplicates(listing)
      && (forall t :: t in listing <==> t in db.tickets && db.tickets[t].agentId == id)
      && (forall i :: 0 <= i < |listing| ==> listing[i] in db.tickets)
      && var ts := TicketsOf(db.tickets, listing);
      r.value.0 == MetricsOf(ts)
      && Recommends(KindsOf(r.value.1), SignalsOf(r.value.0, AnyUnresolved(ts)))
      && (forall i :: 0 <= i < |r.value.1| ==> r.value.1[i] == Card(r.value.1[i].kind))
  {
    listing := [];
    if !Owns(db.agents, caller, id) {
      return Err(404), listing;
    }
    var all := Store.Ids(db.tickets);
    var tickets := db.tickets;
    var ofAgent := (t: Id) => t in tickets && tickets[t].agentId == id;
    listing := Lists.Filter(all, ofAgent);
    Lists.FilterNoDuplicates(all, ofAgent);
    var ts := TicketsOf(tickets, listing);
    var m := MetricsOf(ts);
    var recs := Recommend(SignalsOf(m, AnyUnresolved(ts)));
    r := Ok((m, recs));
  }

  // ---------------------------------------------------------------------------------------------
  // updateAgentOptimization

  /** `optimizationConfigSchema`: confidence in [0, 1], response-time target at least 1, categories
      up to 100 characters, keywords up to 50, fallback message up to 200. */
  predicate ValidOptimization(o: OptimizationSettings) {
    (o.confidenceThreshold.Some? ==> 0.0 <= o.confidenceThreshold.value <= 1.0)
    && (o.responseTimeTarget.Some? ==> o.responseTimeTarget.value >= 1.0)
    && (o.categories.Some? ==> forall i :: 0 <= i < |o.categories.value| ==> |o.categories.value[i]| <= 100)
    && (o.keywords.Some? ==> forall i :: 0 <= i < |o.keywords.value| ==> |o.keywords.value[i]| <= 50)
    && (o.fallbackMessage.Some? ==> |o.fallbackMessage.value| <= 200)
  }

  /** The intended `$set` of `optimization`, with the `updatedAt` stamp of the schema's timestamps. */
  function WithOptimization(a: Agent, o: OptimizationSettings, now: int): Agent {
    a.(optimization := Some(o), updatedAt := now)
  }

  /** The intended update stores the settings as sent, changes nothing the validators check, and so
      keeps a valid agent valid. */
  lemma OptimizationStored(a: Agent, o: OptimizationSettings, now: int)
    ensures var b := WithOptimization(a, o, now);
            b.optimization == Some(o) && b.updatedAt == now
            && b.name == a.name && b.lyzrConfig == a.lyzrConfig && b.widget == a.widget && b.domains == a.domains
            && b.analytics == a.analytics && b.trainingData == a.trainingData
            && (AgentValid(a) <==> AgentValid(b))
  {
  }

  /** The same update as the handler's code runs under the Agent schema: the schema declares no
      `optimization` path, so strict mode strips the `$set`; only `updatedAt` is written. */
  function OptimizationAsWritten(a: Agent, o: OptimizationSettings, now: int): Agent {
    a.(updatedAt := now)
  }

  /** As written the settings are lost: the stored settings stay as they were, so a first update
      leaves none stored, where the intended update stores the ones sent. */
  lemma OptimizationAsWrittenLost(a: Agent, o: OptimizationSettings, now: int)
    ensures OptimizationAsWritten(a, o, now).optimization == a.optimization
    ensures a.optimization.None? ==> OptimizationAsWritten(a, o, now).optimization.None?
                                     && WithOptimization(a, o, now).optimization == Some(o)
  {
  }

  /** `updateAgentOptimization`: 400 on a schema violation, 404 unless the caller owns the agent;
      otherwise the settings object replaces the stored one whole and `updatedAt` becomes now. */
  method UpdateAgentOptimization(db: Database, caller: Id, id: Id, o: OptimizationSettings, now: int) returns (r: Result<Agent>)
    requires db.Valid()
    modifies db
    ensures db.Valid()
    ensures db.tickets == old(db.tickets) && db.users == old(db.users)
    ensures !ValidOptimization(o) ==> r == Err(400) && db.agents == old(db.agents)
    ensures ValidOptimization(o) && !Owns(old(db.agents), caller, id) ==> r == Err(404) && db.agents == old(db.agents)
    ensures ValidOptimization(o) && Owns(old(db.agents), caller, id) ==>
              r == Ok(WithOptimization(old(db.agents)[id], o, now)) && db.agents == old(db.agents)[id := r.value]
  {
    if !ValidOptimization(o) {
      return Err(400);
    }
    if !Owns(db.agents, caller, id) {
      return Err(404);
    }
    var b := WithOptimization(db.agents[id], o, now);
    OptimizationStored(db.agents[id], o, now);
    ReplaceAgent(db.agents, id, b);
    db.agents := db.agents[id := b];
    r := Ok(b);
  }
}
