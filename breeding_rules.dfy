/** The breeding rules shared by the breeding card and the breeding modal: which goats each
    select offers, the expected due date, the days-until-due figure, the status buttons and
    how notes are stored. */
module BreedingRules {
  import opened Wrappers
  import opened Dates
  import opened Seqs
  import opened FarmTypes

  /** `does`: the female goats, in herd order. */
  function Does(goats: seq<Goat>): seq<Goat> {
    Filter(goats, IsFemale)
  }

  /** `bucks`: the male goats, in herd order. */
  function Bucks(goats: seq<Goat>): seq<Goat> {
    Filter(goats, IsMale)
  }

  /** The two selects split the herd: each goat is offered in exactly one of them, and each
      keeps the herd's order. */
  lemma DoesBucksPartition(goats: seq<Goat>)
    ensures forall g :: g in Does(goats) <==> g in goats && g.gender == Female
    ensures forall g :: g in Bucks(goats) <==> g in goats && g.gender == Male
    ensures forall g :: g in goats ==> (g in Does(goats)) != (g in Bucks(goats))
    ensures |Does(goats)| + |Bucks(goats)| == |goats|
    ensures IsSubsequence(Does(goats), goats) && IsSubsequence(Bucks(goats), goats)
  {
    CountTwo(goats, IsFemale, IsMale);
    FilterIsSubsequence(goats, IsFemale);
    FilterIsSubsequence(goats, IsMale);
  }

  /** The gestation period the due date assumes. */
  const GestationDays := 150

  /** The due date stored with a new record: the breeding day plus 150 days, cut to its day. */
  function ExpectedDueDate(breedingDate: Time): (d: Time)
    ensures d % MsPerDay == 0
    ensures d <= breedingDate + GestationDays * MsPerDay < d + MsPerDay
  {
    DayStart(breedingDate + GestationDays * MsPerDay)
  }

  /** A breeding date entered as a day gives a due date exactly 150 days later. */
  lemma ExpectedDueDateOfDay(breedingDate: Time)
    requires breedingDate % MsPerDay == 0
    ensures ExpectedDueDate(breedingDate) == breedingDate + GestationDays * MsPerDay
  {
    var t := breedingDate + GestationDays * MsPerDay;
    assert t % MsPerDay == 0 by {
      assert t == breedingDate + 150 * MsPerDay;
    }
  }

  /** `getDaysUntilDue` is `DaysUntil`: zero or negative exactly when the due date has come. */
  lemma DaysUntilDueNonPositive(due: Time, now: Time)
    ensures DaysUntil(due, now) <= 0 <==> due <= now
  {
    CeilDivNonPositive(due - now, MsPerDay);
  }

  /** The figure is exact for a whole number of days ahead. */
  lemma DaysUntilDueWholeDays(now: Time, n: int)
    ensures DaysUntil(now + n * MsPerDay, now) == n
  {
    CeilDivAtMost(n * MsPerDay, MsPerDay, n);
    CeilDivAtMost(n * MsPerDay, MsPerDay, n - 1);
    assert (n - 1) * MsPerDay < n * MsPerDay;
  }

  /** The "(n days)" next to a due date: shown only for a Confirmed record with a due date. */
  function DaysShown(r: BreedingRecord, now: Time): (d: Option<int>)
    ensures d.Some? <==> r.pregnancyStatus == Confirmed && r.expectedDueDate.Some?
    ensures d.Some? ==> d.value == DaysUntil(r.expectedDueDate.value, now)
  {
    if r.expectedDueDate.Some? && r.pregnancyStatus == Confirmed then
      Some(DaysUntil(r.expectedDueDate.value, now))
    else None
  }

  /** The buttons a record's card shows: Confirm and Failed for Bred, Record Birth for
      Confirmed, none otherwise. */
  function OfferedTransitions(s: PregnancyStatus): seq<PregnancyStatus> {
    match s
    case Bred => [Confirmed, Failed]
    case Confirmed => [Birthed]
    case Failed => []
    case Birthed => []
  }

  /** How far along a pregnancy is; Failed and Birthed are both ends. */
  function Stage(s: PregnancyStatus): nat {
    match s
    case Bred => 0
    case Confirmed => 1
    case Failed => 2
    case Birthed => 2
  }

  /** Every offered button moves the record strictly forward, so no record returns to an
      earlier status through the buttons; the end statuses offer nothing. */
  lemma TransitionsMoveForward(s: PregnancyStatus)
    ensures forall t :: t in OfferedTransitions(s) ==> Stage(s) < Stage(t)
    ensures OfferedTransitions(s) == [] <==> Stage(s) == 2
    ensures Bred !in OfferedTransitions(s) && s !in OfferedTransitions(s)
  {
  }

  /** Any run of offered buttons ends after at most two clicks. */
  lemma {:induction false} TransitionRunsAreShort(path: seq<PregnancyStatus>)
    requires |path| > 0
    requires forall i :: 0 < i < |path| ==> path[i] in OfferedTransitions(path[i - 1])
    ensures Stage(path[|path| - 1]) >= |path| - 1 + Stage(path[0])
    ensures |path| <= 3
  {
    if |path| > 1 {
      TransitionRunsAreShort(path[..|path| - 1]);
      TransitionsMoveForward(path[|path| - 2]);
    }
  }

  /** `notes || null`: an empty note is stored as absent. */
  function NotesToStore(notes: string): (n: Option<string>)
    ensures n.None? <==> notes == ""
    ensures n.Some? ==> n.value == notes
  {
    if notes == "" then None else Some(notes)
  }

  /** The breeding form's fields; the breeding date is the day chosen, as a time. */
  datatype BreedingForm = BreedingForm(doeId: string, buckId: string, breedingDate: Time, notes: string)

  /** The row the submit inserts: the form's fields, the computed due date and the notes as
      stored. */
  datatype NewBreeding = NewBreeding(
    doeId: string,
    buckId: string,
    breedingDate: Time,
    expectedDueDate: Time,
    notes: Option<string>)

  function InsertRow(form: BreedingForm): NewBreeding {
    NewBreeding(form.doeId, form.buckId, form.breedingDate, ExpectedDueDate(form.breedingDate),
                NotesToStore(form.notes))
  }
}
