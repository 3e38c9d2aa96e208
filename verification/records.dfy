/**
 * The records of the PV management module that the dashboard and the reporting
 * views aggregate: installations, complaints, intervention tickets, response
 * (closure and invoice) tickets, and the rows of the installation-module and
 * installation-inverter relation tables. Only the fields the aggregates read
 * are kept.
 */
module Records {
  import opened Wrappers

  type Month = m: int | 1 <= m <= 12 witness 1
  type Day = d: int | 1 <= d <= 31 witness 1
  type SecondOfDay = s: int | 0 <= s < 86400

  /** A calendar date of the proleptic Gregorian calendar. */
  datatype Date = Date(year: int, month: Month, day: Day)

  /** A stored timestamp (the database keeps them in UTC): a date and the second within it. */
  datatype DateTime = DateTime(date: Date, second: SecondOfDay)

  /** Days from 1970-01-01 to `d`, by the usual era-based civil-calendar formula. */
  function EpochDays(d: Date): int {
    var y := if d.month <= 2 then d.year - 1 else d.year;
    var era := y / 400;  // Euclidean division: floor for a positive divisor
    var yearOfEra := y - era * 400;
    var shiftedMonth := if d.month > 2 then d.month - 3 else d.month + 9;
    var dayOfYear := (153 * shiftedMonth + 2) / 5 + d.day - 1;
    var dayOfEra := yearOfEra * 365 + yearOfEra / 4 - yearOfEra / 100 + dayOfYear;
    era * 146097 + dayOfEra - 719468
  }

  /** Seconds from 1970-01-01T00:00:00 to `t`. */
  function EpochSeconds(t: DateTime): int {
    EpochDays(t.date) * 86400 + t.second
  }

  /** `state` of `pv.installation`: 'draft', 'in_progress', 'in_stop'. */
  datatype InstallationState = Draft | InProgress | InStop

  /**
   * A `pv.installation`. Archiving clears `active`: the ORM's searches then skip
   * the record, while SQL over the table still sees it.
   */
  datatype Installation = Installation(
    id: nat,
    active: bool,
    state: InstallationState,
    commissioned: Option<Date>)   // date_mise_en_service, optional

  /** A `reclamation`: its date_heure is required. */
  datatype Complaint = Complaint(id: nat, reportedAt: DateTime)

  /** `state` of `fiche.intervention`: 'draft', 'in_progress', 'closed'. */
  datatype TicketState = Open | Ongoing | Closed

  /** A `fiche.intervention`, possibly raised from a complaint (reclamation_id). */
  datatype Intervention = Intervention(
    id: nat,
    createdAt: DateTime,
    state: TicketState,
    complaint: Option<nat>)

  /** `est_paye` of `fiche.reponse`: 'oui' or 'non'; the column may also be NULL. */
  datatype PaidFlag = Yes | No

  /**
   * A `fiche.reponse` closing an intervention. An unset amount reads as 0.0 in the
   * ORM and is skipped by SQL sums, so it is kept as the amount 0.
   */
  datatype Response = Response(
    id: nat,
    intervention: nat,
    closedAt: DateTime,
    amount: real,
    paid: Option<PaidFlag>)

  /** A row of a many-to-many relation table between installations and modules or inverters. */
  datatype Link = Link(installation: nat, target: nat)

  /** `montant_a_payer` of a response. */
  function Amount(f: Response): real {
    f.amount
  }

  /** The zero amount, for sums that are empty or skip every record. */
  function NoAmount(f: Response): real {
    0.0
  }

  /** `est_paye = 'oui'`: false for 'non' and for an unset flag. */
  predicate IsPaid(f: Response) {
    f.paid == Some(Yes)
  }
}
