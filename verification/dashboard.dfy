/**
 * The key figures of the PV dashboard (`pv.dashboard._compute_kpis`), computed
 * from the installation, complaint, intervention and response tables and the
 * dashboard's period.
 */
module Dashboard {
  import opened Wrappers
  import opened Folds
  import opened Records

  /**
   * The dashboard period: the first and last instants (epoch seconds) the ORM
   * compares record timestamps against for the period's start and end dates.
   */
  datatype Period = Period(start: int, end: int)

  /** A `>= date_from` and `<= date_to` search domain: both ends included. */
  predicate Within(t: DateTime, period: Period) {
    period.start <= EpochSeconds(t) <= period.end
  }

  datatype Kpis = Kpis(
    nbInstallations: nat,
    nbActiveInstallations: nat,
    nbComplaints: nat,
    nbInterventions: nat,
    resolutionRate: real,         // percent
    meanInterventionDelay: real,  // hours
    totalBilled: real,
    totalPaid: real,
    paymentRate: real)            // percent

  /**
   * `part / whole * 100` when `whole` is non-zero (truthy), and 0 otherwise: the
   * guarded ratio of the resolution and payment rates.
   */
  function Percentage(part: real, whole: real): (r: real)
    ensures whole == 0.0 ==> r == 0.0
    ensures whole != 0.0 ==> r * whole == part * 100.0
    ensures 0.0 <= part <= whole ==> 0.0 <= r <= 100.0
  {
    if whole != 0.0 then part / whole * 100.0 else 0.0
  }

  /** Not archived: the installations a plain `search([])` returns. */
  predicate IsListed(i: Installation) {
    i.active
  }

  /** `search([])` on the installation table: the unarchived installations, in order. */
  function ListedInstallations(installations: seq<Installation>): (r: seq<Installation>)
    ensures |r| <= |installations|
    ensures forall i :: i in r <==> i in installations && i.active
  {
    Filter(installations, IsListed)
  }

  predicate IsActive(i: Installation) {
    i.state == InProgress
  }

  /** The installations in state 'in_progress'. */
  function ActiveInstallations(installations: seq<Installation>): (r: seq<Installation>)
    ensures |r| <= |installations|
    ensures forall i :: i in r <==> i in installations && i.state == InProgress
  {
    Filter(installations, IsActive)
  }

  /** Reported in the period: the `date_reclamation` domain of the complaint search. */
  function ReportedWithin(period: Period): Complaint -> bool {
    (c: Complaint) => Within(c.reportedAt, period)
  }

  /** Created in the period: the `create_date` domain of the intervention search. */
  function CreatedWithin(period: Period): Intervention -> bool {
    (i: Intervention) => Within(i.createdAt, period)
  }

  /** Closed in the period: the `date_cloture` domain of the response search. */
  function ClosedWithin(period: Period): Response -> bool {
    (f: Response) => Within(f.closedAt, period)
  }

  function ComplaintsIn(complaints: seq<Complaint>, period: Period): (r: seq<Complaint>)
    ensures |r| == Count(complaints, ReportedWithin(period))
    ensures forall c :: c in r <==> c in complaints && Within(c.reportedAt, period)
  {
    Filter(complaints, ReportedWithin(period))
  }

  function InterventionsIn(interventions: seq<Intervention>, period: Period): (r: seq<Intervention>)
    ensures |r| == Count(interventions, CreatedWithin(period))
    ensures forall i :: i in r <==> i in interventions && Within(i.createdAt, period)
  {
    Filter(interventions, CreatedWithin(period))
  }

  function ResponsesIn(responses: seq<Response>, period: Period): (r: seq<Response>)
    ensures |r| == Count(responses, ClosedWithin(period))
    ensures forall f :: f in r <==> f in responses && Within(f.closedAt, period)
  {
    Filter(responses, ClosedWithin(period))
  }

  predicate IsClosed(i: Intervention) {
    i.state == Closed
  }

  /** Created in the period and in state 'closed'. */
  function ResolvedWithin(period: Period): Intervention -> bool {
    (i: Intervention) => Within(i.createdAt, period) && IsClosed(i)
  }

  /** Closed interventions over all interventions, in percent; 0 when there are none. */
  function ResolutionRate(interventions: seq<Intervention>): (r: real)
    ensures |interventions| == 0 ==> r == 0.0
    ensures 0.0 <= r <= 100.0
    ensures |interventions| > 0 ==> r * |interventions| as real == Count(interventions, IsClosed) as real * 100.0
  {
    Percentage(Count(interventions, IsClosed) as real, |interventions| as real)
  }

  /**
   * The intervention a `search([('reclamation_id', '=', id)], limit=1)` finds.
   * `fiche.intervention` declares no `_order`, so the search sorts by `id`: the
   * result is the intervention raised from the complaint with the least id.
   */
  function FirstInterventionFor(interventions: seq<Intervention>, complaint: nat): (r: Option<Intervention>)
    ensures r.None? <==> forall i :: 0 <= i < |interventions| ==> interventions[i].complaint != Some(complaint)
    ensures r.Some? ==> r.value in interventions && r.value.complaint == Some(complaint)
    ensures r.Some? ==>
      forall i :: 0 <= i < |interventions| && interventions[i].complaint == Some(complaint) ==> r.value.id <= interventions[i].id
  {
    if |interventions| == 0 then None
    else
      var head := interventions[0];
      var rest := FirstInterventionFor(interventions[1..], complaint);
      assert forall i :: 1 <= i < |interventions| ==> interventions[i] == interventions[1..][i - 1];
      if head.complaint != Some(complaint) then rest
      else if rest.Some? && rest.value.id < head.id then rest
      else Some(head)
  }

  /** Hours from the complaint to the creation of its intervention. */
  function DelayHours(complaint: Complaint, intervention: Intervention): (h: real)
    ensures h * 3600.0 == (EpochSeconds(intervention.createdAt) - EpochSeconds(complaint.reportedAt)) as real
    ensures h >= 0.0 <==> EpochSeconds(complaint.reportedAt) <= EpochSeconds(intervention.createdAt)
    ensures intervention.createdAt.date == complaint.reportedAt.date ==> -24.0 < h < 24.0
  {
    (EpochSeconds(intervention.createdAt) - EpochSeconds(complaint.reportedAt)) as real / 3600.0
  }

  /** The complaint has an intervention raised from it. */
  function Answered(interventions: seq<Intervention>): Complaint -> bool {
    (c: Complaint) => FirstInterventionFor(interventions, c.id).Some?
  }

  /**
   * The `delais` list: one delay per complaint that has an intervention, in
   * complaint order.
   */
  function Delays(complaints: seq<Complaint>, interventions: seq<Intervention>): (r: seq<real>)
    ensures |r| <= |complaints|
    ensures |r| == 0 <==> forall j :: 0 <= j < |complaints| ==> FirstInterventionFor(interventions, complaints[j].id).None?
  {
    if |complaints| == 0 then []
    else
      var rest := Delays(complaints[1..], interventions);
      assert forall j :: 0 <= j < |complaints| - 1 ==> complaints[1..][j] == complaints[j + 1];
      match FirstInterventionFor(interventions, complaints[0].id)
      case Some(i) => [DelayHours(complaints[0], i)] + rest
      case None => rest
  }

  function Identity(x: real): real {
    x
  }

  /** The arithmetic mean, and 0 for no values. */
  function Mean(xs: seq<real>): (r: real)
    ensures |xs| == 0 ==> r == 0.0
    ensures |xs| > 0 ==> r * |xs| as real == Sum(xs, Identity)
  {
    if |xs| == 0 then 0.0 else Sum(xs, Identity) / |xs| as real
  }

  /** The billed total, the paid total and the payment rate of the responses closed in the period. */
  datatype Billing = Billing(billed: real, paid: real, rate: real)

  /** Closed in the period and flagged paid ('oui'). */
  function PaidWithin(period: Period): Response -> bool {
    (f: Response) => Within(f.closedAt, period) && IsPaid(f)
  }

  /**
   * The paid total of the period's responses is the sum, over all responses, of
   * the amounts of those closed in the period and flagged paid.
   */
  lemma PaidIsPeriodSum(responses: seq<Response>, period: Period)
    ensures Sum(Filter(ResponsesIn(responses, period), IsPaid), Amount) == Sum(responses, Where(PaidWithin(period), Amount))
  {
    var closed := ResponsesIn(responses, period);
    SumFilter(closed, IsPaid, Amount);
    SumFilter(responses, ClosedWithin(period), Where(IsPaid, Amount));
    forall k | 0 <= k < |responses|
      ensures Where(ClosedWithin(period), Where(IsPaid, Amount))(responses[k]) == Where(PaidWithin(period), Amount)(responses[k])
    {
      WhereAt(ClosedWithin(period), Where(IsPaid, Amount), responses[k]);
      WhereAt(IsPaid, Amount, responses[k]);
      WhereAt(PaidWithin(period), Amount, responses[k]);
    }
    SumCorresponding(responses, Where(ClosedWithin(period), Where(IsPaid, Amount)), responses, Where(PaidWithin(period), Amount));
  }

  function BillingFigures(responses: seq<Response>, period: Period): (b: Billing)
    ensures b.billed == Sum(responses, Where(ClosedWithin(period), Amount))
    ensures b.paid == Sum(responses, Where(PaidWithin(period), Amount))
    ensures b.billed == 0.0 ==> b.rate == 0.0
  {
    var closed := ResponsesIn(responses, period);
    var billed := Sum(closed, Amount);
    var paid := Sum(Filter(closed, IsPaid), Amount);
    SumFilter(responses, ClosedWithin(period), Amount);
    PaidIsPeriodSum(responses, period);
    Billing(billed, paid, Percentage(paid, billed))
  }

  /** The closed interventions of the period are those created in the period and closed. */
  lemma PeriodClosedCount(interventions: seq<Intervention>, period: Period)
    ensures Count(InterventionsIn(interventions, period), IsClosed) == Count(interventions, ResolvedWithin(period))
  {
    assert forall j :: 0 <= j < |interventions| ==>
      (ResolvedWithin(period)(interventions[j]) <==> CreatedWithin(period)(interventions[j]) && IsClosed(interventions[j]));
    CountFiltered(interventions, CreatedWithin(period), IsClosed, ResolvedWithin(period));
  }

  /** `_compute_kpis` for one dashboard record. */
  function ComputeKpis(
    installations: seq<Installation>, complaints: seq<Complaint>, interventions: seq<Intervention>,
    responses: seq<Response>, period: Period
  ): (k: Kpis)
    ensures k.nbActiveInstallations <= k.nbInstallations <= |installations|
    ensures k.nbInstallations == 0 <==> forall j :: 0 <= j < |installations| ==> !installations[j].active
    ensures (forall j :: 0 <= j < |installations| ==> installations[j].active) ==> k.nbInstallations == |installations|
    ensures k.nbComplaints == Count(complaints, ReportedWithin(period))
    ensures k.nbInterventions == Count(interventions, CreatedWithin(period))
    ensures 0.0 <= k.resolutionRate <= 100.0
    ensures k.nbInterventions == 0 ==> k.resolutionRate == 0.0
    ensures k.resolutionRate == Percentage(Count(interventions, ResolvedWithin(period)) as real, k.nbInterventions as real)
    ensures k.meanInterventionDelay == Mean(Delays(ComplaintsIn(complaints, period), interventions))
    ensures (forall j :: 0 <= j < |complaints| && Within(complaints[j].reportedAt, period) ==>
      FirstInterventionFor(interventions, complaints[j].id).None?) ==> k.meanInterventionDelay == 0.0
    ensures k.totalBilled == Sum(responses, Where(ClosedWithin(period), Amount))
    ensures k.totalPaid == Sum(responses, Where(PaidWithin(period), Amount))
    ensures k.totalBilled == 0.0 ==> k.paymentRate == 0.0
  {
    var listed := ListedInstallations(installations);
    var inPeriod := InterventionsIn(interventions, period);
    var billing := BillingFigures(responses, period);
    ListedCounts(installations);
    PeriodClosedCount(interventions, period);
    UnansweredPeriodHasNoDelays(complaints, interventions, period);
    Kpis(
      |listed|,
      |ActiveInstallations(listed)|,
      |ComplaintsIn(complaints, period)|,
      |inPeriod|,
      ResolutionRate(inPeriod),
      Mean(Delays(ComplaintsIn(complaints, period), interventions)),
      billing.billed,
      billing.paid,
      billing.rate)
  }

  /** When no complaint of the period has an intervention, there is no delay to average. */
  lemma UnansweredPeriodHasNoDelays(complaints: seq<Complaint>, interventions: seq<Intervention>, period: Period)
    ensures (forall j :: 0 <= j < |complaints| && Within(complaints[j].reportedAt, period) ==>
      FirstInterventionFor(interventions, complaints[j].id).None?) ==> |Delays(ComplaintsIn(complaints, period), interventions)| == 0
  {
    var inPeriod := ComplaintsIn(complaints, period);
    if forall j :: 0 <= j < |complaints| && Within(complaints[j].reportedAt, period) ==>
      FirstInterventionFor(interventions, complaints[j].id).None?
    {
      forall m | 0 <= m < |inPeriod|
        ensures FirstInterventionFor(interventions, inPeriod[m].id).None?
      {
        assert inPeriod[m] in complaints;
        var j :| 0 <= j < |complaints| && complaints[j] == inPeriod[m];
      }
    }
  }

  /**
   * The dashboard's `taux_resolution`: the resolution rate times the number of
   * interventions created in the period is 100 times the number of them closed.
   */
  lemma {:induction false} KpiResolutionRate(
    installations: seq<Installation>, complaints: seq<Complaint>, interventions: seq<Intervention>,
    responses: seq<Response>, period: Period)
    ensures var k := ComputeKpis(installations, complaints, interventions, responses, period);
      k.nbInterventions > 0 ==>
        k.resolutionRate * k.nbInterventions as real == Count(interventions, ResolvedWithin(period)) as real * 100.0
  {
    RateTimesWhole(
      ComputeKpis(installations, complaints, interventions, responses, period).resolutionRate,
      Count(interventions, ResolvedWithin(period)),
      ComputeKpis(installations, complaints, interventions, responses, period).nbInterventions);
  }

  /** A percentage times its whole is 100 times its part. */
  lemma RateTimesWhole(r: real, part: nat, whole: nat)
    requires r == Percentage(part as real, whole as real)
    ensures whole > 0 ==> r * whole as real == part as real * 100.0
  {
  }

  /** No installation is counted exactly when all are archived; none is dropped when none is. */
  lemma ListedCounts(installations: seq<Installation>)
    ensures |ListedInstallations(installations)| == 0 <==> forall j :: 0 <= j < |installations| ==> !installations[j].active
    ensures (forall j :: 0 <= j < |installations| ==> installations[j].active) ==> |ListedInstallations(installations)| == |installations|
  {
    CountZeroIff(installations, IsListed);
    if forall j :: 0 <= j < |installations| ==> installations[j].active {
      CountAll(installations, IsListed);
    }
  }

  predicate IsListedInProgress(i: Installation) {
    i.active && i.state == InProgress
  }

  /**
   * The two installation counts: the unarchived installations, and those of them
   * in state 'in_progress'. Archived installations count in neither.
   */
  lemma InstallationCounts(
    installations: seq<Installation>, complaints: seq<Complaint>, interventions: seq<Intervention>,
    responses: seq<Response>, period: Period)
    ensures var k := ComputeKpis(installations, complaints, interventions, responses, period);
      && k.nbInstallations == Count(installations, IsListed)
      && k.nbActiveInstallations == Count(installations, IsListedInProgress)
  {
    CountFiltered(installations, IsListed, IsActive, IsListedInProgress);
  }

  predicate IsUnpaid(f: Response) {
    !IsPaid(f)
  }

  /** The billed total splits into the paid total and the total of the other responses. */
  lemma BilledSplitsIntoPaidAndUnpaid(responses: seq<Response>, period: Period)
    ensures var b := BillingFigures(responses, period);
      b.billed == b.paid + Sum(Filter(ResponsesIn(responses, period), IsUnpaid), Amount)
  {
    var closed := ResponsesIn(responses, period);
    SumFilter(closed, IsPaid, Amount);
    SumFilter(closed, IsUnpaid, Amount);
    forall k | 0 <= k < |closed|
      ensures Amount(closed[k]) == Where(IsPaid, Amount)(closed[k]) + Where(IsUnpaid, Amount)(closed[k])
    {
      WhereAt(IsPaid, Amount, closed[k]);
      WhereAt(IsUnpaid, Amount, closed[k]);
    }
    SumAdd(closed, Where(IsPaid, Amount), Where(IsUnpaid, Amount), Amount);
    assert BillingFigures(responses, period)
      == Billing(Sum(closed, Amount), Sum(Filter(closed, IsPaid), Amount), Percentage(Sum(Filter(closed, IsPaid), Amount), Sum(closed, Amount)));
  }

  /**
   * With non-negative amounts, the paid total lies between 0 and the billed total,
   * so the payment rate is a percentage.
   */
  lemma KpiPaymentBounds(
    installations: seq<Installation>, complaints: seq<Complaint>, interventions: seq<Intervention>,
    responses: seq<Response>, period: Period)
    requires forall i :: 0 <= i < |responses| ==> responses[i].amount >= 0.0
    ensures var k := ComputeKpis(installations, complaints, interventions, responses, period);
      0.0 <= k.totalPaid <= k.totalBilled && 0.0 <= k.paymentRate <= 100.0
  {
    var b := BillingFigures(responses, period);
    var k := ComputeKpis(installations, complaints, interventions, responses, period);
    assert k.totalBilled == b.billed && k.totalPaid == b.paid && k.paymentRate == b.rate;
    PaymentRateBounds(responses, period);
  }

  lemma PaidAtMostBilled(closed: seq<Response>)
    requires forall i :: 0 <= i < |closed| ==> closed[i].amount >= 0.0
    ensures 0.0 <= Sum(Filter(closed, IsPaid), Amount) <= Sum(closed, Amount)
  {
    SumFilter(closed, IsPaid, Amount);
    SumMonotone(closed, Where(IsPaid, Amount), Amount);
    SumMonotone(closed, NoAmount, Where(IsPaid, Amount));
    SumBounds(closed, NoAmount, 0.0, 0.0);
  }

  lemma PaymentRateBounds(responses: seq<Response>, period: Period)
    requires forall i :: 0 <= i < |responses| ==> responses[i].amount >= 0.0
    ensures var b := BillingFigures(responses, period);
      0.0 <= b.paid <= b.billed && 0.0 <= b.rate <= 100.0
  {
    var closed := ResponsesIn(responses, period);
    assert forall i :: 0 <= i < |closed| ==> closed[i] in responses;
    PaidAtMostBilled(closed);
    var paid := Sum(Filter(closed, IsPaid), Amount);
    var billed := Sum(closed, Amount);
    assert BillingFigures(responses, period) == Billing(billed, paid, Percentage(paid, billed));
  }

  /** The payment rate is the paid total over the billed total, times 100. */
  lemma PaymentRateIsRatio(responses: seq<Response>, period: Period)
    ensures var b := BillingFigures(responses, period);
      b.billed != 0.0 ==> b.rate == b.paid / b.billed * 100.0
  {
    var closed := ResponsesIn(responses, period);
    var paid := Sum(Filter(closed, IsPaid), Amount);
    var billed := Sum(closed, Amount);
    var rate := Percentage(paid, billed);
    assert BillingFigures(responses, period) == Billing(billed, paid, rate);
  }

  /** The dashboard's `taux_paiement` is `montant_total_paye / montant_total_facture * 100`. */
  lemma KpiPaymentRate(
    installations: seq<Installation>, complaints: seq<Complaint>, interventions: seq<Intervention>,
    responses: seq<Response>, period: Period)
    ensures var k := ComputeKpis(installations, complaints, interventions, responses, period);
      k.totalBilled != 0.0 ==> k.paymentRate == k.totalPaid / k.totalBilled * 100.0
  {
    var b := BillingFigures(responses, period);
    var k := ComputeKpis(installations, complaints, interventions, responses, period);
    assert k.totalBilled == b.billed && k.totalPaid == b.paid && k.paymentRate == b.rate;
    PaymentRateIsRatio(responses, period);
  }

  /** One delay per complaint that has an intervention. */
  lemma {:induction false} DelaysCount(complaints: seq<Complaint>, interventions: seq<Intervention>)
    ensures |Delays(complaints, interventions)| == Count(complaints, Answered(interventions))
  {
    if |complaints| > 0 {
      DelaysCount(complaints[1..], interventions);
    }
  }

  /**
   * When the intervention the search finds for each answered complaint came
   * between `lo` and `hi` hours after it, every delay lies between `lo` and `hi`.
   */
  lemma {:induction false} DelaysBetween(complaints: seq<Complaint>, interventions: seq<Intervention>, lo: real, hi: real)
    requires forall j :: 0 <= j < |complaints| && FirstInterventionFor(interventions, complaints[j].id).Some? ==>
      lo <= DelayHours(complaints[j], FirstInterventionFor(interventions, complaints[j].id).value) <= hi
    ensures forall k :: 0 <= k < |Delays(complaints, interventions)| ==> lo <= Delays(complaints, interventions)[k] <= hi
  {
    if |complaints| > 0 {
      assert forall j :: 0 <= j < |complaints| - 1 ==> complaints[1..][j] == complaints[j + 1];
      DelaysBetween(complaints[1..], interventions, lo, hi);
    }
  }

  /** The mean of values that all lie in `[lo, hi]` lies in `[lo, hi]`. */
  lemma MeanBetween(xs: seq<real>, lo: real, hi: real)
    requires |xs| > 0
    requires forall i :: 0 <= i < |xs| ==> lo <= xs[i] <= hi
    ensures lo <= Mean(xs) <= hi
  {
    var n := |xs| as real;
    SumBounds(xs, Identity, lo, hi);
    var m := Mean(xs);
    assert m * n == Sum(xs, Identity);
    assert (m - lo) * n >= 0.0 && (hi - m) * n >= 0.0;
  }

  /**
   * When every answered complaint's intervention came between `lo` and `hi` hours
   * after it, the mean delay lies between `lo` and `hi` too.
   */
  lemma MeanDelayBetween(complaints: seq<Complaint>, interventions: seq<Intervention>, lo: real, hi: real)
    requires forall j :: 0 <= j < |complaints| && FirstInterventionFor(interventions, complaints[j].id).Some? ==>
      lo <= DelayHours(complaints[j], FirstInterventionFor(interventions, complaints[j].id).value) <= hi
    ensures |Delays(complaints, interventions)| > 0 ==> lo <= Mean(Delays(complaints, interventions)) <= hi
  {
    var delays := Delays(complaints, interventions);
    if |delays| > 0 {
      DelaysBetween(complaints, interventions, lo, hi);
      MeanBetween(delays, lo, hi);
    }
  }

  /**
   * The `search(..., limit=1)` lookup as a scan of the intervention table from
   * its end, keeping the matching intervention with the least id seen so far.
   */
  method SearchFirst(interventions: seq<Intervention>, complaint: nat) returns (found: Option<Intervention>)
    ensures found == FirstInterventionFor(interventions, complaint)
  {
    found := None;
    var i := |interventions|;
    while i > 0
      invariant 0 <= i <= |interventions|
      invariant found == FirstInterventionFor(interventions[i..], complaint)
    {
      i := i - 1;
      assert interventions[i..][1..] == interventions[i + 1..];
      var candidate := interventions[i];
      if candidate.complaint == Some(complaint) && (found.None? || candidate.id <= found.value.id) {
        found := Some(candidate);
      }
    }
    assert interventions[0..] == interventions;
  }

  /** The delays of a non-empty list: the first complaint's, if answered, then the rest. */
  lemma {:induction false} DelaysStep(complaints: seq<Complaint>, interventions: seq<Intervention>)
    requires |complaints| > 0
    ensures var found := FirstInterventionFor(interventions, complaints[0].id);
      Delays(complaints, interventions)
        == (if found.Some? then [DelayHours(complaints[0], found.value)] else []) + Delays(complaints[1..], interventions)
  {
  }

  /** One more step of the `delais` loop keeps its invariant. */
  lemma {:induction false} DelaysExtend(complaints: seq<Complaint>, interventions: seq<Intervention>, i: nat, delays: seq<real>)
    requires i < |complaints|
    requires Delays(complaints, interventions) == delays + Delays(complaints[i..], interventions)
    ensures var found := FirstInterventionFor(interventions, complaints[i].id);
      Delays(complaints, interventions)
        == (if found.Some? then delays + [DelayHours(complaints[i], found.value)] else delays) + Delays(complaints[i + 1..], interventions)
  {
    var later := Delays(complaints[i + 1..], interventions);
    DelaysStep(complaints[i..], interventions);
    assert complaints[i..][0] == complaints[i] && complaints[i..][1..] == complaints[i + 1..];
    match FirstInterventionFor(interventions, complaints[i].id)
    case Some(found) =>
      assert delays + ([DelayHours(complaints[i], found)] + later) == delays + [DelayHours(complaints[i], found)] + later;
    case None =>
      assert delays + ([] + later) == delays + later;
  }

  /** The `delais` loop: one search per complaint, keeping the delay of each answered one. */
  method CollectDelays(complaints: seq<Complaint>, interventions: seq<Intervention>) returns (delays: seq<real>)
    ensures delays == Delays(complaints, interventions)
  {
    delays := [];
    var i := 0;
    assert complaints[i..] == complaints;
    while i < |complaints|
      invariant 0 <= i <= |complaints|
      invariant Delays(complaints, interventions) == delays + Delays(complaints[i..], interventions)
    {
      var intervention := SearchFirst(interventions, complaints[i].id);
      DelaysExtend(complaints, interventions, i, delays);
      if intervention.Some? {
        delays := delays + [DelayHours(complaints[i], intervention.value)];
      }
      i := i + 1;
    }
    assert Delays(complaints[i..], interventions) == [];
    assert delays + [] == delays;
  }

  /** The mean delay: collect one delay per answered complaint, then `sum / len`, or 0. */
  method AverageDelay(complaints: seq<Complaint>, interventions: seq<Intervention>) returns (mean: real)
    ensures mean == Mean(Delays(complaints, interventions))
    ensures |Delays(complaints, interventions)| == 0 ==> mean == 0.0
  {
    var delays := CollectDelays(complaints, interventions);
    var total := SumLoop(delays);
    mean := if |delays| > 0 then total / |delays| as real else 0.0;
  }

  /** `sum(delais)`: the running total of a list of reals. */
  method SumLoop(xs: seq<real>) returns (total: real)
    ensures total == Sum(xs, Identity)
  {
    total := 0.0;
    var i := 0;
    while i < |xs|
      invariant 0 <= i <= |xs|
      invariant total + Sum(xs[i..], Identity) == Sum(xs, Identity)
    {
      assert xs[i..][1..] == xs[i + 1..];
      total := total + xs[i];
      i := i + 1;
    }
  }
}
