/** The records the components read: goats, health records and breeding records, with each
    date already read into a `Time`. Optional fields of the source are `Option`s. */
module FarmTypes {
  import opened Wrappers
  import opened Dates

  datatype Gender = Male | Female

  datatype HealthStatus = Healthy | Sick | UnderTreatment | Quarantine

  datatype BreedingStatus = Available | Pregnant | Nursing | Retired

  datatype Goat = Goat(
    id: string,
    tagNumber: string,
    ownerName: string,
    gender: Gender,
    weight: Option<real>,
    healthStatus: Option<HealthStatus>,
    breedingStatus: Option<BreedingStatus>,
    sireId: Option<string>,
    damId: Option<string>,
    notes: Option<string>)

  predicate IsMale(g: Goat) {
    g.gender == Male
  }

  predicate IsFemale(g: Goat) {
    g.gender == Female
  }

  datatype RecordType = Vaccination | Treatment | Checkup | Weight | Other

  /** The record type as the source spells it. */
  function RecordTypeName(t: RecordType): string {
    match t
    case Vaccination => "Vaccination"
    case Treatment => "Treatment"
    case Checkup => "Checkup"
    case Weight => "Weight"
    case Other => "Other"
  }

  datatype HealthRecord = HealthRecord(
    id: string,
    goatId: string,
    recordType: RecordType,
    title: string,
    date: Time,
    nextDueDate: Option<Time>,
    cost: Option<real>,
    veterinarian: Option<string>)

  datatype PregnancyStatus = Bred | Confirmed | Failed | Birthed

  /** The doe's or buck's columns the store joins onto a breeding record. */
  datatype GoatRef = GoatRef(tagNumber: string, ownerName: string)

  datatype BreedingRecord = BreedingRecord(
    id: string,
    doeId: string,
    buckId: string,
    breedingDate: Time,
    expectedDueDate: Option<Time>,
    pregnancyStatus: PregnancyStatus,
    numberOfKids: Option<nat>,
    notes: Option<string>,
    doe: Option<GoatRef>,
    buck: Option<GoatRef>)

  /** `record.doe?.tag_number`. */
  function DoeTag(r: BreedingRecord): Option<string> {
    if r.doe.Some? then Some(r.doe.value.tagNumber) else None
  }

  /** `goats.find(g => g.id === id)`: the first goat with that id, if any. */
  function FindGoat(goats: seq<Goat>, id: string): (r: Option<Goat>)
    ensures r.Some? ==> r.value in goats && r.value.id == id
    ensures r.Some? ==> exists i :: 0 <= i < |goats| && goats[i] == r.value
                                    && forall j :: 0 <= j < i ==> goats[j].id != id
    ensures r.None? <==> forall g :: g in goats ==> g.id != id
  {
    if goats == [] then None
    else if goats[0].id == id then Some(goats[0])
    else
      var rest := FindGoat(goats[1..], id);
      if rest.Some? then
        var i :| 0 <= i < |goats[1..]| && goats[1..][i] == rest.value
                 && forall j :: 0 <= j < i ==> goats[1..][j].id != id;
        assert goats[i + 1] == rest.value;
        assert forall j :: 0 <= j < i + 1 ==> goats[j].id != id by {
          forall j | 0 <= j < i + 1 ensures goats[j].id != id {
            if j > 0 {
              assert goats[j] == goats[1..][j - 1];
            }
          }
        }
        rest
      else
        rest
  }

  /** `goats.find(g => g.id === id)?.tag_number`. */
  function TagOf(goats: seq<Goat>, id: string): Option<string> {
    var g := FindGoat(goats, id);
    if g.Some? then Some(g.value.tagNumber) else None
  }

  /** What an alert's message interpolates: the goat's tag (absent renders as `undefined`),
      the health record's title where the message names one, and the day count it shows.
      The fixed wording around them follows from the alert's kind and priority. */
  datatype Message = Message(tag: Option<string>, subject: Option<string>, days: int)
}
