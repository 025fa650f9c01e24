/** The notification bell: `generateNotifications` turns breeding and health records into
    prioritised notifications, sorts them, and summarises them for the badge. */
module NotificationBell {
  import opened Wrappers
  import opened Dates
  import opened Seqs
  import opened FarmTypes
  import StableSort

  datatype NotificationType = BreedingDue | HealthDue | VaccinationOverdue | CheckupReminder | PregnancyCheck

  datatype Priority = Low | Medium | High | Urgent

  datatype Notification = Notification(
    id: string,
    kind: NotificationType,
    priority: Priority,
    title: string,
    message: Message,
    goatId: Option<string>,
    healthRecordId: Option<string>,
    breedingRecordId: Option<string>,
    dueDate: Time,
    isRead: bool,
    createdAt: Time)

  datatype Summary = Summary(total: nat, urgent: nat, high: nat, unread: nat)

  /** `1000 * 60 * 60 * 1000`, the divisor of the health and pregnancy-check day counts:
      1000 hours, not one day. */
  const HealthUnit: int := 1000 * 60 * 60 * 1000

  /** `30 * 24 * 60 * 60 * 1000`: thirty days in milliseconds. */
  const PregnancyCheckDelay: int := 30 * MsPerDay

  /** The `breeding_due` notification for one record, if any. */
  function BreedingDueAlert(r: BreedingRecord, now: Time): (a: Option<Notification>)
    ensures a.Some? ==> r.pregnancyStatus == Confirmed && r.expectedDueDate.Some?
    ensures a.Some? ==> a.value.kind == BreedingDue && a.value.breedingRecordId == Some(r.id)
                        && a.value.dueDate == r.expectedDueDate.value && !a.value.isRead
  {
    if r.pregnancyStatus == Confirmed && r.expectedDueDate.Some? then
      var due := r.expectedDueDate.value;
      var d := CeilDiv(due - now, MsPerDay);
      if d <= 0 then
        Some(Notification("breeding-overdue-" + r.id, BreedingDue, Urgent, "Birth Overdue!",
                          Message(DoeTag(r), None, Abs(d)), None, None, Some(r.id), due, false, now))
      else if d <= 3 then
        Some(Notification("breeding-due-" + r.id, BreedingDue, High, "Birth Due Soon",
                          Message(DoeTag(r), None, d), None, None, Some(r.id), due, false, now))
      else if d <= 7 then
        Some(Notification("breeding-week-" + r.id, BreedingDue, Medium, "Birth Due This Week",
                          Message(DoeTag(r), None, d), None, None, Some(r.id), due, false, now))
      else None
    else None
  }

  /** The `health_due` notification for one record, with its day count measured in `unit`
      milliseconds; the source measures it in `HealthUnit`. */
  function HealthAlertIn(r: HealthRecord, goats: seq<Goat>, now: Time, unit: int): (a: Option<Notification>)
    requires unit > 0
    ensures a.Some? ==> r.nextDueDate.Some?
    ensures a.Some? ==> a.value.kind == HealthDue && a.value.healthRecordId == Some(r.id)
                        && a.value.goatId == Some(r.goatId) && a.value.dueDate == r.nextDueDate.value
                        && a.value.message.tag == TagOf(goats, r.goatId) && !a.value.isRead
  {
    if r.nextDueDate.Some? then
      var due := r.nextDueDate.value;
      var d := CeilDiv(due - now, unit);
      var tag := TagOf(goats, r.goatId);
      if d <= 0 then
        Some(Notification("health-overdue-" + r.id, HealthDue, Urgent, RecordTypeName(r.recordType) + " Overdue!",
                          Message(tag, Some(r.title), Abs(d)), Some(r.goatId), Some(r.id), None, due, false, now))
      else if d <= 7 then
        Some(Notification("health-due-" + r.id, HealthDue, High, RecordTypeName(r.recordType) + " Due Soon",
                          Message(tag, Some(r.title), d), Some(r.goatId), Some(r.id), None, due, false, now))
      else None
    else None
  }

  /** The health notification as the source computes it. */
  function HealthAlert(r: HealthRecord, goats: seq<Goat>, now: Time): Option<Notification> {
    HealthAlertIn(r, goats, now, HealthUnit)
  }

  /** The health notification with its day count in days, as the other alert list counts it. */
  function HealthAlertCorrected(r: HealthRecord, goats: seq<Goat>, now: Time): Option<Notification> {
    HealthAlertIn(r, goats, now, MsPerDay)
  }

  /** The `pregnancy_check` notification for one record, if any. */
  function PregnancyCheckAlert(r: BreedingRecord, now: Time): (a: Option<Notification>)
    ensures a.Some? ==> r.pregnancyStatus == Bred
    ensures a.Some? ==> a.value.kind == PregnancyCheck && a.value.priority == High
                        && a.value.breedingRecordId == Some(r.id) && !a.value.isRead
  {
    if r.pregnancyStatus == Bred then
      var check := r.breedingDate + PregnancyCheckDelay;
      var d := CeilDiv(check - now, HealthUnit);
      if d <= 0 then
        Some(Notification("pregnancy-check-" + r.id, PregnancyCheck, High, "Pregnancy Check Due",
                          Message(DoeTag(r), None, Abs(d + 30)), None, None, Some(r.id), DayStart(check), false, now))
      else None
    else None
  }

  /** Whole days elapsed since the breeding: thirty minus the day count to the check date. */
  function DaysSinceBred(r: BreedingRecord, now: Time): int {
    30 - DaysUntil(r.breedingDate + PregnancyCheckDelay, now)
  }

  /** The pregnancy-check notification with the message's day count reading the days since
      the breeding. */
  function PregnancyCheckAlertCorrected(r: BreedingRecord, now: Time): Option<Notification> {
    var a := PregnancyCheckAlert(r, now);
    if a.Some? then Some(a.value.(message := a.value.message.(days := DaysSinceBred(r, now)))) else None
  }

  /** Each section's `forEach` body, as a function from record to what it pushes. */
  function BreedingDueFor(now: Time): BreedingRecord -> seq<Notification> {
    r => AsSeq(BreedingDueAlert(r, now))
  }

  function HealthFor(goats: seq<Goat>, now: Time): HealthRecord -> seq<Notification> {
    r => AsSeq(HealthAlert(r, goats, now))
  }

  function PregnancyCheckFor(now: Time): BreedingRecord -> seq<Notification> {
    r => AsSeq(PregnancyCheckAlert(r, now))
  }

  /** The notifications in the order they are pushed: breeding due dates, then health due
      dates, then pregnancy checks. */
  function Unsorted(goats: seq<Goat>, healthRecords: seq<HealthRecord>, breedingRecords: seq<BreedingRecord>, now: Time): seq<Notification> {
    Gather(breedingRecords, BreedingDueFor(now))
    + Gather(healthRecords, HealthFor(goats, now))
    + Gather(breedingRecords, PregnancyCheckFor(now))
  }

  /** `priorityOrder`: urgent 4, high 3, medium 2, low 1. */
  function PriorityRank(p: Priority): int {
    match p
    case Urgent => 4
    case High => 3
    case Medium => 2
    case Low => 1
  }

  function Rank(n: Notification): int {
    PriorityRank(n.priority)
  }

  function Due(n: Notification): int {
    n.dueDate
  }

  /** The comparator passed to `alerts.sort`. */
  function Compare(a: Notification, b: Notification): int {
    if PriorityRank(a.priority) != PriorityRank(b.priority) then PriorityRank(b.priority) - PriorityRank(a.priority)
    else a.dueDate - b.dueDate
  }

  predicate IsUrgent(n: Notification) {
    n.priority == Urgent
  }

  predicate IsHigh(n: Notification) {
    n.priority == High
  }

  /** The summary set beside the notifications. */
  function Summarize(notifications: seq<Notification>): (s: Summary)
    ensures s.total == |notifications| && s.unread == s.total
    ensures s.urgent == Count(notifications, IsUrgent) && s.high == Count(notifications, IsHigh)
    ensures s.urgent + s.high <= s.total
  {
    CountTwo(notifications, IsUrgent, IsHigh);
    Summary(|notifications|, Count(notifications, IsUrgent), Count(notifications, IsHigh), |notifications|)
  }

  datatype Badge = NoBadge | Shows(count: nat) | NinePlus

  /** The badge on the bell: hidden with no notifications, `9+` past nine. */
  function BadgeOf(s: Summary): (b: Badge)
    ensures b.NoBadge? <==> s.total == 0
    ensures b.NinePlus? <==> s.total > 9
    ensures b.Shows? ==> 1 <= b.count <= 9 && b.count == s.total
  {
    if s.total > 0 then (if s.total > 9 then NinePlus else Shows(s.total)) else NoBadge
  }

  function Id(n: Notification): string {
    n.id
  }

  function BreedingId(r: BreedingRecord): string {
    r.id
  }

  function HealthId(r: HealthRecord): string {
    r.id
  }

  /** The first `forEach`: a `breeding_due` notification for each Confirmed record that is
      due within a week or overdue. */
  method PushBreedingDue(alerts: seq<Notification>, breedingRecords: seq<BreedingRecord>, now: Time)
    returns (pushed: seq<Notification>)
    ensures pushed == alerts + Gather(breedingRecords, BreedingDueFor(now))
  {
    pushed := alerts;
    var i := 0;
    while i < |breedingRecords|
      invariant i <= |breedingRecords|
      invariant pushed == alerts + Gather(breedingRecords[..i], BreedingDueFor(now))
    {
      var r := breedingRecords[i];
      GatherStep(breedingRecords, i, BreedingDueFor(now));
      var a := BreedingDueAlert(r, now);
      if a.Some? {
        pushed := pushed + [a.value];
      }
      i := i + 1;
    }
    assert breedingRecords[..i] == breedingRecords;
  }

  /** The second `forEach`: a `health_due` notification for each record with a next due date
      that has passed or falls within seven of `HealthUnit`. */
  method PushHealthDue(alerts: seq<Notification>, goats: seq<Goat>, healthRecords: seq<HealthRecord>, now: Time)
    returns (pushed: seq<Notification>)
    ensures pushed == alerts + Gather(healthRecords, HealthFor(goats, now))
  {
    pushed := alerts;
    var i := 0;
    while i < |healthRecords|
      invariant i <= |healthRecords|
      invariant pushed == alerts + Gather(healthRecords[..i], HealthFor(goats, now))
    {
      var r := healthRecords[i];
      GatherStep(healthRecords, i, HealthFor(goats, now));
      var a := HealthAlert(r, goats, now);
      if a.Some? {
        pushed := pushed + [a.value];
      }
      i := i + 1;
    }
    assert healthRecords[..i] == healthRecords;
  }

  /** The third `forEach`: a `pregnancy_check` notification for each Bred record whose check
      date has come. */
  method PushPregnancyChecks(alerts: seq<Notification>, breedingRecords: seq<BreedingRecord>, now: Time)
    returns (pushed: seq<Notification>)
    ensures pushed == alerts + Gather(breedingRecords, PregnancyCheckFor(now))
  {
    pushed := alerts;
    var i := 0;
    while i < |breedingRecords|
      invariant i <= |breedingRecords|
      invariant pushed == alerts + Gather(breedingRecords[..i], PregnancyCheckFor(now))
    {
      var r := breedingRecords[i];
      GatherStep(breedingRecords, i, PregnancyCheckFor(now));
      var a := PregnancyCheckAlert(r, now);
      if a.Some? {
        pushed := pushed + [a.value];
      }
      i := i + 1;
    }
    assert breedingRecords[..i] == breedingRecords;
  }

  /** `generateNotifications`: push each section's notifications, sort them with the
      comparator, and summarise them. */
  method GenerateNotifications(goats: seq<Goat>, healthRecords: seq<HealthRecord>, breedingRecords: seq<BreedingRecord>, now: Time)
    returns (notifications: seq<Notification>, summary: Summary)
    ensures notifications == StableSort.Sort(Rank, Due, Unsorted(goats, healthRecords, breedingRecords, now))
    ensures multiset(notifications) == multiset(Unsorted(goats, healthRecords, breedingRecords, now))
    ensures forall i, j :: 0 <= i < j < |notifications| ==> Compare(notifications[i], notifications[j]) <= 0
    ensures |notifications| <= |breedingRecords| + |healthRecords|
    ensures summary == Summarize(notifications)
  {
    var alerts: seq<Notification> := [];
    alerts := PushBreedingDue(alerts, breedingRecords, now);
    assert alerts == Gather(breedingRecords, BreedingDueFor(now));
    alerts := PushHealthDue(alerts, goats, healthRecords, now);
    alerts := PushPregnancyChecks(alerts, breedingRecords, now);
    assert alerts == Unsorted(goats, healthRecords, breedingRecords, now);

    notifications := StableSort.Sort(Rank, Due, alerts);
    summary := Summarize(notifications);
    NotificationsOrdered(goats, healthRecords, breedingRecords, now);
  }

  /** The sorted notifications are the pushed ones, rearranged into the comparator's order,
      at most one per record. */
  lemma NotificationsOrdered(goats: seq<Goat>, healthRecords: seq<HealthRecord>, breedingRecords: seq<BreedingRecord>, now: Time)
    ensures var u := Unsorted(goats, healthRecords, breedingRecords, now);
            var s := StableSort.Sort(Rank, Due, u);
            && multiset(s) == multiset(u)
            && (forall i, j :: 0 <= i < j < |s| ==> Compare(s[i], s[j]) <= 0)
            && |s| <= |breedingRecords| + |healthRecords|
  {
    var u := Unsorted(goats, healthRecords, breedingRecords, now);
    SortedByComparator(u);
    BreedingAlertsAtMostOne(breedingRecords, now);
    GatherAtMostOne(healthRecords, HealthFor(goats, now));
    StableSort.SortLength(Rank, Due, u);
  }

  /** Sorting with `Precedes` orders every pair as the comparator asks. */
  lemma SortedByComparator(alerts: seq<Notification>)
    ensures var s := StableSort.Sort(Rank, Due, alerts);
      forall i, j :: 0 <= i < j < |s| ==> Compare(s[i], s[j]) <= 0
  {
    var s := StableSort.Sort(Rank, Due, alerts);
    forall i, j | 0 <= i < j < |s| ensures Compare(s[i], s[j]) <= 0 {
      assert StableSort.Precedes(Rank, Due, s[i], s[j]);
    }
  }

  /** A breeding record yields a due-date notification or a pregnancy-check one, never both. */
  lemma BreedingAlertsAtMostOne(rs: seq<BreedingRecord>, now: Time)
    ensures |Gather(rs, BreedingDueFor(now))| + |Gather(rs, PregnancyCheckFor(now))| <= |rs|
  {
    GatherExclusive(rs, BreedingDueFor(now), PregnancyCheckFor(now));
  }

  /** A Confirmed record with a due date: urgent once the date has come, high within three
      days, medium within a week, and nothing further out. */
  lemma BreedingDueWindows(r: BreedingRecord, now: Time)
    requires r.pregnancyStatus == Confirmed && r.expectedDueDate.Some?
    ensures var due, a := r.expectedDueDate.value, BreedingDueAlert(r, now);
            && (a.Some? && a.value.priority == Urgent <==> due <= now)
            && (a.Some? && a.value.priority == High <==> now < due <= now + 3 * MsPerDay)
            && (a.Some? && a.value.priority == Medium <==> now + 3 * MsPerDay < due <= now + 7 * MsPerDay)
            && (a.None? <==> now + 7 * MsPerDay < due)
  {
    var due := r.expectedDueDate.value;
    CeilDivAtMost(due - now, MsPerDay, 0);
    CeilDivAtMost(due - now, MsPerDay, 3);
    CeilDivAtMost(due - now, MsPerDay, 7);
  }

  /** An overdue birth's message gives the whole days past the due date. */
  lemma BreedingOverdueDays(r: BreedingRecord, now: Time)
    requires r.pregnancyStatus == Confirmed && r.expectedDueDate.Some?
    requires r.expectedDueDate.value <= now
    ensures var a, late := BreedingDueAlert(r, now), now - r.expectedDueDate.value;
            && a.Some? && a.value.priority == Urgent
            && a.value.message.days * MsPerDay <= late < (a.value.message.days + 1) * MsPerDay
  {
    var due := r.expectedDueDate.value;
    CeilDivAtMost(due - now, MsPerDay, 0);
    CeilDivBounds(due - now, MsPerDay);
  }

  /** A birth due two days ago is an urgent notification saying two days. */
  lemma BreedingOverdueTwoDays(r: BreedingRecord, now: Time)
    requires r.pregnancyStatus == Confirmed && r.expectedDueDate == Some(now - 2 * MsPerDay)
    ensures BreedingDueAlert(r, now).Some?
    ensures BreedingDueAlert(r, now).value.priority == Urgent
    ensures BreedingDueAlert(r, now).value.message.days == 2
  {
    BreedingOverdueDays(r, now);
  }

  /** A health record with a next due date: urgent once the date has come, whatever the
      unit; high while it lies within seven units; nothing further out. The goats only
      supply the tag: a record whose goat is missing alerts all the same. */
  lemma HealthWindows(r: HealthRecord, goats: seq<Goat>, now: Time, unit: int)
    requires unit > 0 && r.nextDueDate.Some?
    ensures var due, a := r.nextDueDate.value, HealthAlertIn(r, goats, now, unit);
            && (a.Some? && a.value.priority == Urgent <==> due <= now)
            && (a.Some? && a.value.priority == High <==> now < due <= now + 7 * unit)
            && (a.None? <==> now + 7 * unit < due)
            && a.Some? == HealthAlertIn(r, [], now, unit).Some?
  {
    var due := r.nextDueDate.value;
    CeilDivAtMost(due - now, unit, 0);
    CeilDivAtMost(due - now, unit, 7);
  }

  /** A Bred record yields its pregnancy check exactly when thirty days have passed since the
      breeding, and the check is due on the day they end. */
  lemma PregnancyCheckWindow(r: BreedingRecord, now: Time)
    ensures var a := PregnancyCheckAlert(r, now);
            && (a.Some? <==> r.pregnancyStatus == Bred && r.breedingDate + PregnancyCheckDelay <= now)
            && (a.Some? ==> a.value.dueDate == DayStart(r.breedingDate + PregnancyCheckDelay))
  {
    CeilDivAtMost(r.breedingDate + PregnancyCheckDelay - now, HealthUnit, 0);
  }

  /** Finding, as written: a vaccination due in one hundred days already raises a high
      "due soon" notification, since seven `HealthUnit`s are 7000 hours. */
  lemma HealthHighHundredDaysOut(r: HealthRecord, goats: seq<Goat>, now: Time)
    requires r.nextDueDate == Some(now + 100 * MsPerDay)
    ensures HealthAlert(r, goats, now).Some? && HealthAlert(r, goats, now).value.priority == High
    ensures HealthAlertCorrected(r, goats, now).None?
  {
    HealthWindows(r, goats, now, HealthUnit);
    HealthWindows(r, goats, now, MsPerDay);
  }

  /** Corrected: counted in days, a health record is high exactly while it falls due within
      the coming week, and an overdue one reports the whole days it is late. */
  lemma HealthCorrectedWindows(r: HealthRecord, goats: seq<Goat>, now: Time)
    requires r.nextDueDate.Some?
    ensures var due, a := r.nextDueDate.value, HealthAlertCorrected(r, goats, now);
            && (a.Some? && a.value.priority == High <==> now < due <= now + 7 * MsPerDay)
            && (a.Some? && a.value.priority == Urgent ==>
                  a.value.message.days * MsPerDay <= now - due < (a.value.message.days + 1) * MsPerDay)
  {
    var due := r.nextDueDate.value;
    HealthWindows(r, goats, now, MsPerDay);
    CeilDivBounds(due - now, MsPerDay);
  }

  /** Finding, as written: a doe bred 35 days ago is reported as bred 30 days ago, because
      the count to the check date is in `HealthUnit`s and thirty is added rather than
      subtracted. */
  lemma PregnancyCheckMessageUndercounts(r: BreedingRecord, now: Time)
    requires r.pregnancyStatus == Bred && now == r.breedingDate + 35 * MsPerDay
    ensures PregnancyCheckAlert(r, now).Some? && PregnancyCheckAlert(r, now).value.message.days == 30
    ensures PregnancyCheckAlertCorrected(r, now).value.message.days == 35
  {
    var check := r.breedingDate + PregnancyCheckDelay;
    assert check - now == -5 * MsPerDay;
    assert CeilDiv(check - now, HealthUnit) == 0;
    assert DaysUntil(check, now) == -5;
  }

  /** Corrected: the pregnancy check still fires when thirty days have passed, and its message
      gives the whole days since the breeding, at least thirty. */
  lemma PregnancyCheckCorrectedDays(r: BreedingRecord, now: Time)
    requires r.pregnancyStatus == Bred && r.breedingDate + PregnancyCheckDelay <= now
    ensures var a := PregnancyCheckAlertCorrected(r, now);
            && a.Some? && 30 <= a.value.message.days
            && a.value.message.days * MsPerDay <= now - r.breedingDate < (a.value.message.days + 1) * MsPerDay
  {
    var check := r.breedingDate + PregnancyCheckDelay;
    PregnancyCheckWindow(r, now);
    CeilDivBounds(check - now, MsPerDay);
    CeilDivAtMost(check - now, MsPerDay, 0);
  }

  lemma BreedingDueIdsDetermineRecord(x: BreedingRecord, y: BreedingRecord, now: Time)
    requires BreedingDueAlert(x, now).Some? && BreedingDueAlert(y, now).Some?
    requires BreedingDueAlert(x, now).value.id == BreedingDueAlert(y, now).value.id
    ensures x.id == y.id
  {
    var a, b := BreedingDueAlert(x, now).value, BreedingDueAlert(y, now).value;
    var pa := if a.priority == Urgent then "breeding-overdue-" else if a.priority == High then "breeding-due-" else "breeding-week-";
    var pb := if b.priority == Urgent then "breeding-overdue-" else if b.priority == High then "breeding-due-" else "breeding-week-";
    assert a.id == pa + x.id && b.id == pb + y.id;
    // the character after "breeding-" tells the three prefixes apart
    assert a.id[9] == pa[9] && b.id[9] == pb[9];
    assert pa == pb;
    assert x.id == a.id[|pa|..] && y.id == b.id[|pb|..];
  }

  lemma HealthIdForm(r: HealthRecord, goats: seq<Goat>, now: Time)
    requires HealthAlert(r, goats, now).Some?
    ensures var a := HealthAlert(r, goats, now).value;
            a.id == (if a.priority == Urgent then "health-overdue-" else "health-due-") + r.id
  {
  }

  lemma HealthIdsDetermineRecord(x: HealthRecord, y: HealthRecord, goats: seq<Goat>, now: Time)
    requires HealthAlert(x, goats, now).Some? && HealthAlert(y, goats, now).Some?
    requires HealthAlert(x, goats, now).value.id == HealthAlert(y, goats, now).value.id
    ensures x.id == y.id
  {
    var a, b := HealthAlert(x, goats, now).value, HealthAlert(y, goats, now).value;
    var pa := if a.priority == Urgent then "health-overdue-" else "health-due-";
    var pb := if b.priority == Urgent then "health-overdue-" else "health-due-";
    HealthIdForm(x, goats, now);
    HealthIdForm(y, goats, now);
    // the character after "health-" tells the two prefixes apart
    assert a.id[7] == pa[7] && b.id[7] == pb[7];
    assert pa == pb;
    assert x.id == a.id[|pa|..] && y.id == b.id[|pb|..];
  }

  /** Every id of a section starts with that section's letter: `b`, `h` or `p`. */
  lemma SectionInitials(goats: seq<Goat>, healthRecords: seq<HealthRecord>, breedingRecords: seq<BreedingRecord>, now: Time)
    ensures forall n :: n in Gather(breedingRecords, BreedingDueFor(now)) ==> |n.id| > 0 && n.id[0] == 'b'
    ensures forall n :: n in Gather(healthRecords, HealthFor(goats, now)) ==> |n.id| > 0 && n.id[0] == 'h'
    ensures forall n :: n in Gather(breedingRecords, PregnancyCheckFor(now)) ==> |n.id| > 0 && n.id[0] == 'p'
  {
    forall n | n in Gather(breedingRecords, BreedingDueFor(now)) ensures |n.id| > 0 && n.id[0] == 'b' {
      GatherMembers(breedingRecords, BreedingDueFor(now), n);
    }
    forall n | n in Gather(healthRecords, HealthFor(goats, now)) ensures |n.id| > 0 && n.id[0] == 'h' {
      GatherMembers(healthRecords, HealthFor(goats, now), n);
    }
    forall n | n in Gather(breedingRecords, PregnancyCheckFor(now)) ensures |n.id| > 0 && n.id[0] == 'p' {
      GatherMembers(breedingRecords, PregnancyCheckFor(now), n);
    }
  }

  lemma BreedingDueIdsDistinct(breedingRecords: seq<BreedingRecord>, now: Time)
    requires DistinctBy(BreedingId, breedingRecords)
    ensures DistinctBy(Id, Gather(breedingRecords, BreedingDueFor(now)))
  {
    forall x, y, a, b | a in BreedingDueFor(now)(x) && b in BreedingDueFor(now)(y) && Id(a) == Id(b)
      ensures BreedingId(x) == BreedingId(y)
    {
      BreedingDueIdsDetermineRecord(x, y, now);
    }
    GatherDistinct(breedingRecords, BreedingDueFor(now), BreedingId, Id);
  }

  lemma HealthIdsDistinct(goats: seq<Goat>, healthRecords: seq<HealthRecord>, now: Time)
    requires DistinctBy(HealthId, healthRecords)
    ensures DistinctBy(Id, Gather(healthRecords, HealthFor(goats, now)))
  {
    forall x, y, a, b | a in HealthFor(goats, now)(x) && b in HealthFor(goats, now)(y) && Id(a) == Id(b)
      ensures HealthId(x) == HealthId(y)
    {
      HealthIdsDetermineRecord(x, y, goats, now);
    }
    GatherDistinct(healthRecords, HealthFor(goats, now), HealthId, Id);
  }

  lemma PregnancyCheckIdsDistinct(breedingRecords: seq<BreedingRecord>, now: Time)
    requires DistinctBy(BreedingId, breedingRecords)
    ensures DistinctBy(Id, Gather(breedingRecords, PregnancyCheckFor(now)))
  {
    forall x, y, a, b | a in PregnancyCheckFor(now)(x) && b in PregnancyCheckFor(now)(y) && Id(a) == Id(b)
      ensures BreedingId(x) == BreedingId(y)
    {
      var p := "pregnancy-check-";
      assert x.id == (p + x.id)[|p|..] && y.id == (p + y.id)[|p|..];
    }
    GatherDistinct(breedingRecords, PregnancyCheckFor(now), BreedingId, Id);
  }

  /** With record ids unique within each collection, the notification ids are unique: each is
      its own prefix followed by the record's id. */
  lemma NotificationIdsDistinct(goats: seq<Goat>, healthRecords: seq<HealthRecord>, breedingRecords: seq<BreedingRecord>, now: Time)
    requires DistinctBy(BreedingId, breedingRecords) && DistinctBy(HealthId, healthRecords)
    ensures DistinctBy(Id, StableSort.Sort(Rank, Due, Unsorted(goats, healthRecords, breedingRecords, now)))
  {
    var g1 := Gather(breedingRecords, BreedingDueFor(now));
    var g2 := Gather(healthRecords, HealthFor(goats, now));
    var g3 := Gather(breedingRecords, PregnancyCheckFor(now));
    BreedingDueIdsDistinct(breedingRecords, now);
    HealthIdsDistinct(goats, healthRecords, now);
    PregnancyCheckIdsDistinct(breedingRecords, now);
    SectionInitials(goats, healthRecords, breedingRecords, now);
    DistinctAppend(Id, g1, g2);
    DistinctAppend(Id, g1 + g2, g3);
    StableSort.SortDistinct(Rank, Due, Id, g1 + g2 + g3);
  }
}
