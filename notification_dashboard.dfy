/** The notification dashboard: `generateAlerts` classifies breeding and health records into
    urgent, warning and info alerts and sorts them; the summary cards count them. */
module NotificationDashboard {
  import opened Wrappers
  import opened Dates
  import opened Seqs
  import opened FarmTypes
  import StableSort

  datatype AlertType = Urgent | Warning | Info

  datatype Category = Breeding | Health | General

  datatype Alert = Alert(
    id: string,
    kind: AlertType,
    category: Category,
    title: string,
    message: Message,
    dueDate: Time,
    goatTag: Option<string>,
    actionNeeded: string)

  /** The record type in lower case, as `toLowerCase` gives it. */
  function RecordTypeLower(t: RecordType): string {
    match t
    case Vaccination => "vaccination"
    case Treatment => "treatment"
    case Checkup => "checkup"
    case Weight => "weight"
    case Other => "other"
  }

  /** The birth alert for a Confirmed record with a due date, if any. */
  function ConfirmedAlert(r: BreedingRecord, now: Time): (a: Option<Alert>)
    ensures a.Some? ==> r.pregnancyStatus == Confirmed && r.expectedDueDate.Some?
    ensures a.Some? ==> a.value.category == Breeding && a.value.dueDate == r.expectedDueDate.value
                        && a.value.goatTag == DoeTag(r)
  {
    if r.pregnancyStatus == Confirmed && r.expectedDueDate.Some? then
      var due := r.expectedDueDate.value;
      var d := CeilDiv(due - now, MsPerDay);
      if d <= 0 then
        Some(Alert("birth-overdue-" + r.id, Urgent, Breeding, "Birth Overdue", Message(DoeTag(r), None, Abs(d)),
                   due, DoeTag(r), "Check goat immediately and consider veterinary assistance"))
      else if d <= 3 then
        Some(Alert("birth-soon-" + r.id, Warning, Breeding, "Birth Due Soon", Message(DoeTag(r), None, d),
                   due, DoeTag(r), "Prepare birthing area and monitor closely"))
      else if d <= 7 then
        Some(Alert("birth-week-" + r.id, Info, Breeding, "Birth Due This Week", Message(DoeTag(r), None, d),
                   due, DoeTag(r), "Monitor daily and prepare for birth"))
      else None
    else None
  }

  /** The pregnancy-check alert for a Bred record, if any. */
  function BredAlert(r: BreedingRecord, now: Time): (a: Option<Alert>)
    ensures a.Some? ==> r.pregnancyStatus == Bred
    ensures a.Some? ==> a.value.kind == Warning && a.value.category == Breeding && a.value.goatTag == DoeTag(r)
  {
    if r.pregnancyStatus == Bred then
      var daysSinceBred := CeilDiv(now - r.breedingDate, MsPerDay);
      if daysSinceBred >= 30 then
        Some(Alert("pregnancy-check-" + r.id, Warning, Breeding, "Pregnancy Check Needed",
                   Message(DoeTag(r), None, daysSinceBred), DayStart(r.breedingDate + 30 * MsPerDay),
                   DoeTag(r), "Confirm pregnancy status"))
      else None
    else None
  }

  /** The health alert for a record with a next due date, if any. */
  function HealthAlert(r: HealthRecord, goats: seq<Goat>, now: Time): (a: Option<Alert>)
    ensures a.Some? ==> r.nextDueDate.Some?
    ensures a.Some? ==> a.value.category == Health && a.value.dueDate == r.nextDueDate.value
                        && a.value.goatTag == TagOf(goats, r.goatId)
  {
    if r.nextDueDate.Some? then
      var due := r.nextDueDate.value;
      var d := CeilDiv(due - now, MsPerDay);
      var tag := TagOf(goats, r.goatId);
      if d <= 0 then
        Some(Alert("health-overdue-" + r.id, Urgent, Health, RecordTypeName(r.recordType) + " Overdue",
                   Message(tag, Some(r.title), Abs(d)), due, tag,
                   "Schedule " + RecordTypeLower(r.recordType) + " immediately"))
      else if d <= 7 then
        Some(Alert("health-due-" + r.id, Warning, Health, RecordTypeName(r.recordType) + " Due Soon",
                   Message(tag, Some(r.title), d), due, tag,
                   "Schedule " + RecordTypeLower(r.recordType)))
      else None
    else None
  }

  /** The body of the breeding `forEach`: the Confirmed check, then the Bred check. */
  function BreedingFor(now: Time): BreedingRecord -> seq<Alert> {
    r => AsSeq(ConfirmedAlert(r, now)) + AsSeq(BredAlert(r, now))
  }

  function HealthFor(goats: seq<Goat>, now: Time): HealthRecord -> seq<Alert> {
    r => AsSeq(HealthAlert(r, goats, now))
  }

  /** The alerts in the order they are pushed: breeding records, then health records. */
  function Unsorted(goats: seq<Goat>, healthRecords: seq<HealthRecord>, breedingRecords: seq<BreedingRecord>, now: Time): seq<Alert> {
    Gather(breedingRecords, BreedingFor(now)) + Gather(healthRecords, HealthFor(goats, now))
  }

  /** `urgencyOrder`: urgent 3, warning 2, info 1. */
  function UrgencyRank(t: AlertType): int {
    match t
    case Urgent => 3
    case Warning => 2
    case Info => 1
  }

  function Rank(a: Alert): int {
    UrgencyRank(a.kind)
  }

  function Due(a: Alert): int {
    a.dueDate
  }

  /** The comparator passed to `newAlerts.sort`. */
  function Compare(a: Alert, b: Alert): int {
    if UrgencyRank(a.kind) != UrgencyRank(b.kind) then UrgencyRank(b.kind) - UrgencyRank(a.kind)
    else a.dueDate - b.dueDate
  }

  /** The breeding `forEach`. */
  method PushBreedingAlerts(alerts: seq<Alert>, breedingRecords: seq<BreedingRecord>, now: Time)
    returns (pushed: seq<Alert>)
    ensures pushed == alerts + Gather(breedingRecords, BreedingFor(now))
  {
    pushed := alerts;
    var i := 0;
    while i < |breedingRecords|
      invariant i <= |breedingRecords|
      invariant pushed == alerts + Gather(breedingRecords[..i], BreedingFor(now))
    {
      var r := breedingRecords[i];
      ghost var before := pushed;
      var confirmed := ConfirmedAlert(r, now);
      if confirmed.Some? {
        pushed := pushed + [confirmed.value];
      }
      assert pushed == before + AsSeq(confirmed);
      var bred := BredAlert(r, now);
      if bred.Some? {
        pushed := pushed + [bred.value];
      }
      BreedingStep(alerts, breedingRecords, i, now, before, pushed);
      i := i + 1;
    }
    assert breedingRecords[..i] == breedingRecords;
  }

  /** One turn of the breeding `forEach`: pushing the record's birth alert, then its check
      alert, extends the alerts of the records before it by those of the record. */
  lemma BreedingStep(alerts: seq<Alert>, rs: seq<BreedingRecord>, i: nat, now: Time, before: seq<Alert>, after: seq<Alert>)
    requires i < |rs|
    requires before == alerts + Gather(rs[..i], BreedingFor(now))
    requires after == before + AsSeq(ConfirmedAlert(rs[i], now)) + AsSeq(BredAlert(rs[i], now))
    ensures after == alerts + Gather(rs[..i + 1], BreedingFor(now))
  {
    GatherStep(rs, i, BreedingFor(now));
  }

  /** The health `forEach`. */
  method PushHealthAlerts(alerts: seq<Alert>, goats: seq<Goat>, healthRecords: seq<HealthRecord>, now: Time)
    returns (pushed: seq<Alert>)
    ensures pushed == alerts + Gather(healthRecords, HealthFor(goats, now))
  {
    pushed := alerts;
    var i := 0;
    while i < |healthRecords|
      invariant i <= |healthRecords|
      invariant pushed == alerts + Gather(healthRecords[..i], HealthFor(goats, now))
    {
      var r := healthRecords[i];
      GatherStep(healthRecords, i, HealthFor(goats, now));
      var a := HealthAlert(r, goats, now);
      if a.Some? {
        pushed := pushed + [a.value];
      }
      i := i + 1;
    }
    assert healthRecords[..i] == healthRecords;
  }

  /** `generateAlerts`: push the breeding alerts, then the health alerts, and sort them with
      the comparator. */
  method GenerateAlerts(goats: seq<Goat>, healthRecords: seq<HealthRecord>, breedingRecords: seq<BreedingRecord>, now: Time)
    returns (alerts: seq<Alert>)
    ensures alerts == StableSort.Sort(Rank, Due, Unsorted(goats, healthRecords, breedingRecords, now))
    ensures multiset(alerts) == multiset(Unsorted(goats, healthRecords, breedingRecords, now))
    ensures forall i, j :: 0 <= i < j < |alerts| ==> Compare(alerts[i], alerts[j]) <= 0
    ensures |alerts| <= |breedingRecords| + |healthRecords|
  {
    var newAlerts: seq<Alert> := [];
    newAlerts := PushBreedingAlerts(newAlerts, breedingRecords, now);
    assert newAlerts == Gather(breedingRecords, BreedingFor(now));
    newAlerts := PushHealthAlerts(newAlerts, goats, healthRecords, now);
    assert newAlerts == Unsorted(goats, healthRecords, breedingRecords, now);
    alerts := StableSort.Sort(Rank, Due, newAlerts);
    AlertsOrdered(goats, healthRecords, breedingRecords, now);
  }

  /** A breeding record yields at most one alert: Confirmed and Bred exclude each other. */
  lemma BreedingAtMostOne(r: BreedingRecord, now: Time)
    ensures |BreedingFor(now)(r)| <= 1
  {
  }

  /** The sorted alerts are the pushed ones, rearranged into the comparator's order, at most
      one per record. */
  lemma AlertsOrdered(goats: seq<Goat>, healthRecords: seq<HealthRecord>, breedingRecords: seq<BreedingRecord>, now: Time)
    ensures var u := Unsorted(goats, healthRecords, breedingRecords, now);
            var s := StableSort.Sort(Rank, Due, u);
            && multiset(s) == multiset(u)
            && (forall i, j :: 0 <= i < j < |s| ==> Compare(s[i], s[j]) <= 0)
            && |s| <= |breedingRecords| + |healthRecords|
  {
    var u := Unsorted(goats, healthRecords, breedingRecords, now);
    var s := StableSort.Sort(Rank, Due, u);
    forall i, j | 0 <= i < j < |s| ensures Compare(s[i], s[j]) <= 0 {
      assert StableSort.Precedes(Rank, Due, s[i], s[j]);
    }
    forall r ensures |BreedingFor(now)(r)| <= 1 {
      BreedingAtMostOne(r, now);
    }
    GatherAtMostOne(breedingRecords, BreedingFor(now));
    GatherAtMostOne(healthRecords, HealthFor(goats, now));
    StableSort.SortLength(Rank, Due, u);
  }

  predicate IsUrgent(a: Alert) {
    a.kind == Urgent
  }

  predicate IsWarning(a: Alert) {
    a.kind == Warning
  }

  predicate IsInfo(a: Alert) {
    a.kind == Info
  }

  /** `urgentCount`. */
  function UrgentCount(alerts: seq<Alert>): nat {
    Count(alerts, IsUrgent)
  }

  /** `warningCount`. */
  function WarningCount(alerts: seq<Alert>): nat {
    Count(alerts, IsWarning)
  }

  /** The "Urgent Actions" and "Due Soon" cards never add up to more than "Total Alerts"; the
      info alerts make up the difference. */
  lemma CountsWithinTotal(alerts: seq<Alert>)
    ensures UrgentCount(alerts) + WarningCount(alerts) <= |alerts|
    ensures UrgentCount(alerts) + WarningCount(alerts) + Count(alerts, IsInfo) == |alerts|
  {
    CountTwo(alerts, IsUrgent, IsWarning);
    CountThreeCover(alerts);
  }

  lemma {:induction false} CountThreeCover(alerts: seq<Alert>)
    ensures Count(alerts, IsUrgent) + Count(alerts, IsWarning) + Count(alerts, IsInfo) == |alerts|
  {
    if alerts != [] {
      CountThreeCover(alerts[1..]);
    }
  }

  /** A Confirmed record with a due date: urgent once the date has come, warning within three
      days, info within a week, nothing further out. */
  lemma ConfirmedWindows(r: BreedingRecord, now: Time)
    requires r.pregnancyStatus == Confirmed && r.expectedDueDate.Some?
    ensures var due, a := r.expectedDueDate.value, ConfirmedAlert(r, now);
            && (a.Some? && a.value.kind == Urgent <==> due <= now)
            && (a.Some? && a.value.kind == Warning <==> now < due <= now + 3 * MsPerDay)
            && (a.Some? && a.value.kind == Info <==> now + 3 * MsPerDay < due <= now + 7 * MsPerDay)
            && (a.None? <==> now + 7 * MsPerDay < due)
  {
    var due := r.expectedDueDate.value;
    CeilDivAtMost(due - now, MsPerDay, 0);
    CeilDivAtMost(due - now, MsPerDay, 3);
    CeilDivAtMost(due - now, MsPerDay, 7);
  }

  /** A Bred record alerts once more than 29 whole days have passed since the breeding (its
      rounded-up day count reaching 30), with the check due thirty days after the breeding. */
  lemma BredWindow(r: BreedingRecord, now: Time)
    ensures var a := BredAlert(r, now);
            && (a.Some? <==> r.pregnancyStatus == Bred && now - r.breedingDate > 29 * MsPerDay)
            && (a.Some? ==> a.value.dueDate == DayStart(r.breedingDate + 30 * MsPerDay) && a.value.message.days >= 30)
  {
    CeilDivAtMost(now - r.breedingDate, MsPerDay, 29);
  }

  /** A health record with a next due date: urgent once the date has come, warning within a
      week, nothing further out. A record whose goat is missing alerts all the same, with no tag. */
  lemma HealthWindows(r: HealthRecord, goats: seq<Goat>, now: Time)
    requires r.nextDueDate.Some?
    ensures var due, a := r.nextDueDate.value, HealthAlert(r, goats, now);
            && (a.Some? && a.value.kind == Urgent <==> due <= now)
            && (a.Some? && a.value.kind == Warning <==> now < due <= now + 7 * MsPerDay)
            && (a.None? <==> now + 7 * MsPerDay < due)
            && a.Some? == HealthAlert(r, [], now).Some?
            && (a.Some? && (forall g :: g in goats ==> g.id != r.goatId) ==> a.value.goatTag.None?)
  {
    var due := r.nextDueDate.value;
    CeilDivAtMost(due - now, MsPerDay, 0);
    CeilDivAtMost(due - now, MsPerDay, 7);
  }
}
