/**
 * The derived columns of the three reporting views (`pv.installation.report`,
 * `pv.reclamation.report`, `pv.intervention.report`). Each view has one row per
 * installation, complaint or intervention. The columns modelled here are the
 * correlated sub-query counts and sums over the related records, the
 * `'Q' || quarter` label and the constant intervention count.
 */
module Reporting {
  import opened Wrappers
  import opened Folds
  import opened Records
  import Dashboard

  /** `EXTRACT(QUARTER FROM date)`: months 1-3 are quarter 1, and so on. */
  function QuarterOf(month: Month): (q: nat)
    ensures 1 <= q <= 4
    ensures 3 * q - 2 <= month <= 3 * q
  {
    (month - 1) / 3 + 1
  }

  /**
   * `CONCAT('Q', EXTRACT(QUARTER FROM date))`. CONCAT skips a NULL argument, so a
   * row without a date gets the bare label "Q".
   */
  function QuarterLabel(date: Option<Date>): (text: string)
    ensures |text| >= 1 && text[0] == 'Q'
    ensures date.None? <==> |text| == 1
  {
    match date
    case None => "Q"
    case Some(d) => "Q" + ["0123456789"[QuarterOf(d.month)]]
  }

  /** Reads a quarter label back: "Q1" to "Q4" give the quarter, anything else nothing. */
  function ParseQuarter(text: string): (q: Option<nat>)
    ensures q.Some? ==> 1 <= q.value <= 4
  {
    if |text| == 2 && text[0] == 'Q' && '1' <= text[1] <= '4' then Some(text[1] as int - '0' as int)
    else None
  }

  /** The label names the quarter of the date, and a missing date gives no quarter. */
  lemma QuarterLabelRoundTrip(date: Option<Date>)
    ensures ParseQuarter(QuarterLabel(date)) == if date.Some? then Some(QuarterOf(date.value.month)) else None
  {
    if date.Some? {
      var q := QuarterOf(date.value.month);
      assert QuarterLabel(date)[1] == "0123456789"[q];
    }
  }

  /** Dates of the same quarter of any years share the label, and only they do. */
  lemma QuarterLabelSameQuarter(d1: Date, d2: Date)
    ensures QuarterLabel(Some(d1)) == QuarterLabel(Some(d2)) <==> (d1.month - 1) / 3 == (d2.month - 1) / 3
  {
    QuarterLabelRoundTrip(Some(d1));
    QuarterLabelRoundTrip(Some(d2));
  }

  // ---------------------------------------------------------------------------
  // pv.installation.report

  datatype InstallationRow = InstallationRow(
    installation: nat,
    nbModules: nat,     // nb_modules
    nbInverters: nat,   // nb_onduleurs
    quarter: string)

  function LinkKey(l: Link): nat {
    l.installation
  }

  /**
   * The row of one installation: `nb_modules` and `nb_onduleurs` count the
   * relation rows pointing at it; the quarter is that of its commissioning date.
   */
  function InstallationRowOf(i: Installation, moduleLinks: seq<Link>, inverterLinks: seq<Link>): (row: InstallationRow)
    ensures row.installation == i.id
    ensures row.nbModules == |Filter(moduleLinks, KeyIs(LinkKey, i.id))|
    ensures row.nbInverters == |Filter(inverterLinks, KeyIs(LinkKey, i.id))|
    ensures row.nbModules == 0 <==> forall k :: 0 <= k < |moduleLinks| ==> moduleLinks[k].installation != i.id
    ensures row.nbInverters == 0 <==> forall k :: 0 <= k < |inverterLinks| ==> inverterLinks[k].installation != i.id
    ensures row.nbModules <= |moduleLinks| && row.nbInverters <= |inverterLinks|
    ensures ParseQuarter(row.quarter) == if i.commissioned.Some? then Some(QuarterOf(i.commissioned.value.month)) else None
  {
    QuarterLabelRoundTrip(i.commissioned);
    LinksZeroIff(moduleLinks, i.id);
    LinksZeroIff(inverterLinks, i.id);
    InstallationRow(
      i.id,
      Count(moduleLinks, KeyIs(LinkKey, i.id)),
      Count(inverterLinks, KeyIs(LinkKey, i.id)),
      QuarterLabel(i.commissioned))
  }

  /** No relation row points at the installation exactly when the count is 0. */
  lemma LinksZeroIff(links: seq<Link>, id: nat)
    ensures Count(links, KeyIs(LinkKey, id)) == 0 <==> forall k :: 0 <= k < |links| ==> links[k].installation != id
  {
    CountZeroIff(links, KeyIs(LinkKey, id));
    forall k | 0 <= k < |links|
      ensures KeyIs(LinkKey, id)(links[k]) <==> links[k].installation == id
    {
      KeyIsAt(LinkKey, id, links[k]);
    }
  }

  /** The view: one row per installation, archived ones included, in table order. */
  function InstallationView(installations: seq<Installation>, moduleLinks: seq<Link>, inverterLinks: seq<Link>): (rows: seq<InstallationRow>)
    ensures |rows| == |installations|
    ensures forall k :: 0 <= k < |rows| ==> rows[k].installation == installations[k].id
    ensures forall k :: 0 <= k < |rows| ==>
      && rows[k].nbModules == |Filter(moduleLinks, KeyIs(LinkKey, installations[k].id))|
      && rows[k].nbInverters == |Filter(inverterLinks, KeyIs(LinkKey, installations[k].id))|
  {
    seq(|installations|, k requires 0 <= k < |installations| => InstallationRowOf(installations[k], moduleLinks, inverterLinks))
  }

  function InstallationKey(i: Installation): nat {
    i.id
  }

  function Ids(installations: seq<Installation>): seq<nat> {
    KeysOf(installations, InstallationKey)
  }

  function ModuleCount(row: InstallationRow): real {
    row.nbModules as real
  }

  /**
   * Summing `nb_modules` over the view counts every relation row that points at
   * a listed installation exactly once (installation ids are distinct).
   */
  lemma {:induction false} ModuleCountsSumListedLinks(installations: seq<Installation>, moduleLinks: seq<Link>, inverterLinks: seq<Link>)
    requires Distinct(Ids(installations))
    ensures Sum(InstallationView(installations, moduleLinks, inverterLinks), ModuleCount)
      == Sum(moduleLinks, Where(KeyIn(LinkKey, Ids(installations)), One))
  {
    var rows := InstallationView(installations, moduleLinks, inverterLinks);
    var ids := Ids(installations);
    var perId := GroupTotal(moduleLinks, LinkKey, One);
    forall k | 0 <= k < |rows|
      ensures ModuleCount(rows[k]) == perId(ids[k])
    {
      CountIsSum(moduleLinks, KeyIs(LinkKey, ids[k]));
      GroupTotalAt(moduleLinks, LinkKey, One, ids[k]);
    }
    SumCorresponding(rows, ModuleCount, ids, perId);
    SumOfGroupTotals(moduleLinks, LinkKey, One, ids);
  }

  /**
   * When every relation row references a listed installation, the `nb_modules`
   * column sums to the number of relation rows.
   */
  lemma ModuleCountsCoverLinks(installations: seq<Installation>, moduleLinks: seq<Link>, inverterLinks: seq<Link>)
    requires Distinct(Ids(installations))
    requires forall k :: 0 <= k < |moduleLinks| ==> moduleLinks[k].installation in Ids(installations)
    ensures Sum(InstallationView(installations, moduleLinks, inverterLinks), ModuleCount) == |moduleLinks| as real
  {
    ModuleCountsSumListedLinks(installations, moduleLinks, inverterLinks);
    var listed := KeyIn(LinkKey, Ids(installations));
    forall k | 0 <= k < |moduleLinks|
      ensures Where(listed, One)(moduleLinks[k]) == One(moduleLinks[k])
    {
      WhereAt(listed, One, moduleLinks[k]);
      KeyInAt(LinkKey, Ids(installations), moduleLinks[k]);
    }
    SumCorresponding(moduleLinks, Where(listed, One), moduleLinks, One);
    SumOne(moduleLinks);
  }

  // ---------------------------------------------------------------------------
  // pv.reclamation.report

  datatype ComplaintRow = ComplaintRow(
    complaint: nat,
    nbInterventions: nat,  // nb_interventions
    quarter: string)

  function RaisedFrom(complaint: nat): Intervention -> bool {
    (i: Intervention) => i.complaint == Some(complaint)
  }

  function ComplaintRowOf(c: Complaint, interventions: seq<Intervention>): (row: ComplaintRow)
    ensures row.nbInterventions == |Filter(interventions, RaisedFrom(c.id))|
    ensures row.nbInterventions == 0 <==> forall k :: 0 <= k < |interventions| ==> interventions[k].complaint != Some(c.id)
    ensures row.complaint == c.id
    ensures ParseQuarter(row.quarter) == Some(QuarterOf(c.reportedAt.date.month))
  {
    QuarterLabelRoundTrip(Some(c.reportedAt.date));
    CountZeroIff(interventions, RaisedFrom(c.id));
    assert forall k :: 0 <= k < |interventions| ==>
      (RaisedFrom(c.id)(interventions[k]) <==> interventions[k].complaint == Some(c.id));
    ComplaintRow(c.id, Count(interventions, RaisedFrom(c.id)), QuarterLabel(Some(c.reportedAt.date)))
  }

  /**
   * A complaint has interventions in the report exactly when the dashboard finds
   * one for it, so it contributes a delay to the dashboard's mean.
   */
  lemma CountedIffDashboardFindsIntervention(c: Complaint, interventions: seq<Intervention>)
    ensures ComplaintRowOf(c, interventions).nbInterventions > 0 <==> Dashboard.FirstInterventionFor(interventions, c.id).Some?
  {
  }

  // ---------------------------------------------------------------------------
  // pv.intervention.report

  datatype InterventionRow = InterventionRow(
    intervention: nat,
    total: real,     // montant_total
    paid: real,      // montant_paye
    settled: bool,   // est_payee
    quarter: string,
    count: nat)      // nombre_interventions

  function ResponseKey(f: Response): nat {
    f.intervention
  }

  /** A response of the intervention flagged 'non'. */
  function UnpaidOf(intervention: nat): Response -> bool {
    (f: Response) => f.intervention == intervention && f.paid == Some(No)
  }

  /** A response of the intervention flagged 'oui'. */
  function PaidOf(intervention: nat): Response -> bool {
    (f: Response) => f.intervention == intervention && IsPaid(f)
  }

  /**
   * The row of one intervention: the sums over its responses, and `est_payee`
   * from the two `COUNT(*)` sub-queries. An empty sum is 0, as the COALESCE makes it.
   */
  function InterventionRowOf(fi: Intervention, responses: seq<Response>): (row: InterventionRow)
    ensures row.intervention == fi.id && row.count == 1
    ensures row.total == Sum(Filter(responses, KeyIs(ResponseKey, fi.id)), Amount)
    ensures row.paid == Sum(Filter(responses, PaidOf(fi.id)), Amount)
    ensures (forall k :: 0 <= k < |responses| && responses[k].intervention == fi.id ==> !IsPaid(responses[k]))
      ==> row.paid == 0.0
    ensures row.settled <==>
      && (exists k :: 0 <= k < |responses| && responses[k].intervention == fi.id)
      && (forall k :: 0 <= k < |responses| && responses[k].intervention == fi.id ==> responses[k].paid != Some(No))
    ensures ParseQuarter(row.quarter) == Some(QuarterOf(fi.createdAt.date.month))
  {
    var own := KeyIs(ResponseKey, fi.id);
    QuarterLabelRoundTrip(Some(fi.createdAt.date));
    SumFilter(responses, own, Amount);
    PaidSumIsFilteredSum(fi.id, responses);
    NothingFlaggedPaid(fi.id, responses);
    SettledCounts(fi.id, responses);
    InterventionRow(
      fi.id,
      Sum(responses, Where(own, Amount)),
      Sum(responses, Where(own, Where(IsPaid, Amount))),
      Count(responses, UnpaidOf(fi.id)) == 0 && Count(responses, own) > 0,
      QuarterLabel(Some(fi.createdAt.date)),
      1)
  }

  /** The `CASE WHEN est_paye = 'oui'` sum over the intervention's responses sums its 'oui' responses. */
  lemma PaidSumIsFilteredSum(id: nat, responses: seq<Response>)
    ensures Sum(responses, Where(KeyIs(ResponseKey, id), Where(IsPaid, Amount))) == Sum(Filter(responses, PaidOf(id)), Amount)
  {
    var own := KeyIs(ResponseKey, id);
    forall k | 0 <= k < |responses|
      ensures Where(own, Where(IsPaid, Amount))(responses[k]) == Where(PaidOf(id), Amount)(responses[k])
    {
      WhereAt(own, Where(IsPaid, Amount), responses[k]);
      WhereAt(IsPaid, Amount, responses[k]);
      WhereAt(PaidOf(id), Amount, responses[k]);
      KeyIsAt(ResponseKey, id, responses[k]);
    }
    SumCorresponding(responses, Where(own, Where(IsPaid, Amount)), responses, Where(PaidOf(id), Amount));
    SumFilter(responses, PaidOf(id), Amount);
  }

  /** With no response of the intervention flagged 'oui', nothing is paid. */
  lemma NothingFlaggedPaid(id: nat, responses: seq<Response>)
    ensures (forall k :: 0 <= k < |responses| && responses[k].intervention == id ==> !IsPaid(responses[k]))
      ==> Sum(Filter(responses, PaidOf(id)), Amount) == 0.0
  {
    if forall k :: 0 <= k < |responses| && responses[k].intervention == id ==> !IsPaid(responses[k]) {
      forall k | 0 <= k < |responses|
        ensures !PaidOf(id)(responses[k])
      {
      }
      CountZeroIff(responses, PaidOf(id));
      assert Filter(responses, PaidOf(id)) == [];
    }
  }

  /** The two counts of `est_payee`, as "some response, and none flagged 'non'". */
  lemma SettledCounts(id: nat, responses: seq<Response>)
    ensures (Count(responses, UnpaidOf(id)) == 0 && Count(responses, KeyIs(ResponseKey, id)) > 0) <==>
      && (exists k :: 0 <= k < |responses| && responses[k].intervention == id)
      && (forall k :: 0 <= k < |responses| && responses[k].intervention == id ==> responses[k].paid != Some(No))
  {
    CountZeroIff(responses, UnpaidOf(id));
    CountZeroIff(responses, KeyIs(ResponseKey, id));
    forall k | 0 <= k < |responses|
      ensures KeyIs(ResponseKey, id)(responses[k]) <==> responses[k].intervention == id
    {
      KeyIsAt(ResponseKey, id, responses[k]);
    }
  }

  /** An intervention without responses has zero totals and is not paid. */
  lemma NoResponsesNothingOwed(fi: Intervention, responses: seq<Response>)
    requires forall k :: 0 <= k < |responses| ==> responses[k].intervention != fi.id
    ensures var row := InterventionRowOf(fi, responses);
      row.total == 0.0 && row.paid == 0.0 && !row.settled
  {
    var own := KeyIs(ResponseKey, fi.id);
    CountZeroIff(responses, own);
    forall k | 0 <= k < |responses|
      ensures !own(responses[k])
    {
      KeyIsAt(ResponseKey, fi.id, responses[k]);
    }
    assert Filter(responses, own) == [];
  }

  /** The per-response terms of the paid and total sums, and the order between them. */
  lemma PaidTermAtMostTotalTerm(id: nat, f: Response)
    requires f.amount >= 0.0
    ensures 0.0 <= Where(KeyIs(ResponseKey, id), Where(IsPaid, Amount))(f) <= Where(KeyIs(ResponseKey, id), Amount)(f)
    ensures f.intervention == id && !IsPaid(f) ==>
      Where(KeyIs(ResponseKey, id), Where(IsPaid, Amount))(f) == 0.0 && Where(KeyIs(ResponseKey, id), Amount)(f) == f.amount
  {
    WhereAt(KeyIs(ResponseKey, id), Where(IsPaid, Amount), f);
    WhereAt(IsPaid, Amount, f);
    WhereAt(KeyIs(ResponseKey, id), Amount, f);
    KeyIsAt(ResponseKey, id, f);
  }

  /** With non-negative amounts the paid amount lies between 0 and the total. */
  lemma PaidAtMostTotal(fi: Intervention, responses: seq<Response>)
    requires forall k :: 0 <= k < |responses| ==> responses[k].amount >= 0.0
    ensures var row := InterventionRowOf(fi, responses);
      0.0 <= row.paid <= row.total
  {
    var own := KeyIs(ResponseKey, fi.id);
    forall k | 0 <= k < |responses|
      ensures NoAmount(responses[k]) <= Where(own, Where(IsPaid, Amount))(responses[k]) <= Where(own, Amount)(responses[k])
    {
      PaidTermAtMostTotalTerm(fi.id, responses[k]);
    }
    SumMonotone(responses, Where(own, Where(IsPaid, Amount)), Where(own, Amount));
    SumMonotone(responses, NoAmount, Where(own, Where(IsPaid, Amount)));
    SumBounds(responses, NoAmount, 0.0, 0.0);
  }

  /**
   * A paid intervention whose responses all carry a flag has been paid in full.
   * A response with no flag counts neither as paid nor as unpaid, so without the
   * second precondition the paid amount can fall short of the total.
   */
  lemma SettledMeansPaidInFull(fi: Intervention, responses: seq<Response>)
    requires InterventionRowOf(fi, responses).settled
    requires forall k :: 0 <= k < |responses| && responses[k].intervention == fi.id ==> responses[k].paid.Some?
    ensures InterventionRowOf(fi, responses).paid == InterventionRowOf(fi, responses).total
  {
    var own := KeyIs(ResponseKey, fi.id);
    forall k | 0 <= k < |responses|
      ensures Where(own, Where(IsPaid, Amount))(responses[k]) == Where(own, Amount)(responses[k])
    {
      WhereAt(own, Where(IsPaid, Amount), responses[k]);
      WhereAt(IsPaid, Amount, responses[k]);
      WhereAt(own, Amount, responses[k]);
      KeyIsAt(ResponseKey, fi.id, responses[k]);
      if responses[k].intervention == fi.id {
        assert responses[k].paid != Some(No);
        assert responses[k].paid.Some?;
        assert responses[k].paid.value == Yes;
      }
    }
    SumCorresponding(responses, Where(own, Where(IsPaid, Amount)), responses, Where(own, Amount));
  }

  /**
   * A response of the intervention with no flag and a positive amount leaves the
   * paid amount short of the total, whether or not the row reads as paid.
   */
  lemma UnflaggedResponseLeavesPaidShort(fi: Intervention, responses: seq<Response>, j: nat)
    requires forall k :: 0 <= k < |responses| ==> responses[k].amount >= 0.0
    requires j < |responses| && responses[j].intervention == fi.id
    requires responses[j].paid == None && responses[j].amount > 0.0
    ensures var row := InterventionRowOf(fi, responses);
      row.paid < row.total
  {
    var own := KeyIs(ResponseKey, fi.id);
    forall k | 0 <= k < |responses|
      ensures Where(own, Where(IsPaid, Amount))(responses[k]) <= Where(own, Amount)(responses[k])
    {
      PaidTermAtMostTotalTerm(fi.id, responses[k]);
    }
    PaidTermAtMostTotalTerm(fi.id, responses[j]);
    SumStrictlyMonotone(responses, Where(own, Where(IsPaid, Amount)), Where(own, Amount), j);
  }

  /** For instance, one response flagged 'oui' and one with no flag: paid, yet 50 short. */
  lemma SettledYetPaidShortExample()
    ensures var t := DateTime(Date(2024, 1, 1), 0);
      var fi := Intervention(1, t, Closed, None);
      var responses := [Response(1, 1, t, 100.0, Some(Yes)), Response(2, 1, t, 50.0, None)];
      var row := InterventionRowOf(fi, responses);
      row.settled && row.paid == 100.0 && row.total == 150.0
  {
    var t := DateTime(Date(2024, 1, 1), 0);
    var responses := [Response(1, 1, t, 100.0, Some(Yes)), Response(2, 1, t, 50.0, None)];
    var own := KeyIs(ResponseKey, 1);
    var tail := responses[1..];
    assert tail == [responses[1]] && tail[1..] == [];
    assert own(responses[0]) && own(responses[1]);
    assert Count(tail, own) == 1;
    assert Count(responses, UnpaidOf(1)) == 0;
    assert Where(own, Amount)(tail[0]) == 50.0;
    assert Sum(tail, Where(own, Amount)) == 50.0;
    assert Where(own, Where(IsPaid, Amount))(tail[0]) == 0.0;
    assert Sum(tail, Where(own, Where(IsPaid, Amount))) == 0.0;
  }

  /** The view: one row per intervention, in table order. */
  function InterventionView(interventions: seq<Intervention>, responses: seq<Response>): (rows: seq<InterventionRow>)
    ensures |rows| == |interventions|
    ensures forall k :: 0 <= k < |rows| ==> rows[k].intervention == interventions[k].id
    ensures forall k :: 0 <= k < |rows| ==>
      && rows[k].total == Sum(Filter(responses, KeyIs(ResponseKey, interventions[k].id)), Amount)
      && rows[k].paid == Sum(Filter(responses, PaidOf(interventions[k].id)), Amount)
  {
    seq(|interventions|, k requires 0 <= k < |interventions| => InterventionRowOf(interventions[k], responses))
  }

  function RowCount(row: InterventionRow): real {
    row.count as real
  }

  function RowTotal(row: InterventionRow): real {
    row.total
  }

  function InterventionKey(i: Intervention): nat {
    i.id
  }

  function InterventionIds(interventions: seq<Intervention>): seq<nat> {
    KeysOf(interventions, InterventionKey)
  }

  /** Summing `nombre_interventions` over the view counts the interventions. */
  lemma {:induction false} CountColumnCountsInterventions(interventions: seq<Intervention>, responses: seq<Response>)
    ensures Sum(InterventionView(interventions, responses), RowCount) == |interventions| as real
  {
    var rows := InterventionView(interventions, responses);
    SumCorresponding(rows, RowCount, rows, One);
    SumOne(rows);
  }

  /**
   * Summing `montant_total` over the view gives the amount of every response
   * whose intervention is in the view, each counted once (intervention ids are
   * distinct).
   */
  lemma {:induction false} TotalsCoverResponses(interventions: seq<Intervention>, responses: seq<Response>)
    requires Distinct(InterventionIds(interventions))
    ensures Sum(InterventionView(interventions, responses), RowTotal)
      == Sum(responses, Where(KeyIn(ResponseKey, InterventionIds(interventions)), Amount))
  {
    var rows := InterventionView(interventions, responses);
    var ids := InterventionIds(interventions);
    forall k | 0 <= k < |rows|
      ensures RowTotal(rows[k]) == GroupTotal(responses, ResponseKey, Amount)(ids[k])
    {
      SumFilter(responses, KeyIs(ResponseKey, ids[k]), Amount);
      GroupTotalAt(responses, ResponseKey, Amount, ids[k]);
    }
    SumCorresponding(rows, RowTotal, ids, GroupTotal(responses, ResponseKey, Amount));
    SumOfGroupTotals(responses, ResponseKey, Amount, ids);
  }
}
