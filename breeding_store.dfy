/** The tables the breeding components write to, held in memory: the goats and the breeding
    records, with a log of the writes in the order they were made. Whether a write fails is
    decided outside the model and passed in. */
module BreedingStore {
  import opened Wrappers
  import opened Dates
  import opened FarmTypes
  import opened BreedingRules

  /** One write to the store. */
  datatype Write =
    | InsertedBreeding(recordId: string)
    | UpdatedGoat(goatId: string, breedingStatus: BreedingStatus)
    | UpdatedPregnancy(recordId: string, pregnancyStatus: PregnancyStatus)

  /** `.update({ breeding_status }).eq('id', goatId)`: every goat with that id gets the new
      status; nothing else about any goat changes. */
  function SetBreedingStatus(goats: seq<Goat>, goatId: string, status: BreedingStatus): (r: seq<Goat>)
    ensures |r| == |goats|
    ensures forall i :: 0 <= i < |goats| && goats[i].id == goatId ==>
              r[i] == goats[i].(breedingStatus := Some(status))
    ensures forall i :: 0 <= i < |goats| && goats[i].id != goatId ==> r[i] == goats[i]
  {
    if goats == [] then []
    else
      [if goats[0].id == goatId then goats[0].(breedingStatus := Some(status)) else goats[0]]
      + SetBreedingStatus(goats[1..], goatId, status)
  }

  /** `.update({ pregnancy_status }).eq('id', recordId)`. */
  function SetPregnancyStatus(records: seq<BreedingRecord>, recordId: string, status: PregnancyStatus): (r: seq<BreedingRecord>)
    ensures |r| == |records|
    ensures forall i :: 0 <= i < |records| && records[i].id == recordId ==>
              r[i] == records[i].(pregnancyStatus := status)
    ensures forall i :: 0 <= i < |records| && records[i].id != recordId ==> r[i] == records[i]
  {
    if records == [] then []
    else
      [if records[0].id == recordId then records[0].(pregnancyStatus := status) else records[0]]
      + SetPregnancyStatus(records[1..], recordId, status)
  }

  /** The record a successful insert stores: it starts out Bred, with no kids and no joined
      goat columns. */
  function StoredRecord(row: NewBreeding, id: string): (r: BreedingRecord)
    ensures r.pregnancyStatus == Bred && r.expectedDueDate == Some(row.expectedDueDate)
  {
    BreedingRecord(id, row.doeId, row.buckId, row.breedingDate, Some(row.expectedDueDate), Bred,
                   None, row.notes, None, None)
  }

  /** `doe:doe_id(tag_number, owner_name)`: the goat's columns joined onto a record. */
  function RefOf(goats: seq<Goat>, id: string): (r: Option<GoatRef>)
    ensures r.None? <==> FindGoat(goats, id).None?
    ensures r.Some? ==> r.value.tagNumber == FindGoat(goats, id).value.tagNumber
  {
    var g := FindGoat(goats, id);
    if g.Some? then Some(GoatRef(g.value.tagNumber, g.value.ownerName)) else None
  }

  /** The breeding records as the select with joins returns them. */
  function Joined(records: seq<BreedingRecord>, goats: seq<Goat>): (r: seq<BreedingRecord>)
    ensures |r| == |records|
    ensures forall i :: 0 <= i < |records| ==>
              r[i] == records[i].(doe := RefOf(goats, records[i].doeId), buck := RefOf(goats, records[i].buckId))
  {
    if records == [] then []
    else
      [records[0].(doe := RefOf(goats, records[0].doeId), buck := RefOf(goats, records[0].buckId))]
      + Joined(records[1..], goats)
  }

  /** Once a doe is marked, every goat with its id reads Pregnant, and marking it again
      changes nothing. */
  lemma SetBreedingStatusMarks(goats: seq<Goat>, goatId: string, status: BreedingStatus)
    ensures forall g :: g in SetBreedingStatus(goats, goatId, status) && g.id == goatId ==>
              g.breedingStatus == Some(status)
    ensures SetBreedingStatus(SetBreedingStatus(goats, goatId, status), goatId, status)
            == SetBreedingStatus(goats, goatId, status)
  {
    var r := SetBreedingStatus(goats, goatId, status);
    forall g | g in r && g.id == goatId ensures g.breedingStatus == Some(status) {
      var i :| 0 <= i < |r| && r[i] == g;
      assert goats[i].id == goatId;
    }
  }

  class Store {
    var goats: seq<Goat>
    var breedingRecords: seq<BreedingRecord>
    var log: seq<Write>

    constructor(goats: seq<Goat>, breedingRecords: seq<BreedingRecord>)
      ensures this.goats == goats && this.breedingRecords == breedingRecords && log == []
    {
      this.goats := goats;
      this.breedingRecords := breedingRecords;
      log := [];
    }

    /** `.from('breeding_records').insert(row)`: on success the row is stored under `newId`;
        a failed insert writes nothing. */
    method InsertBreeding(row: NewBreeding, newId: string, fails: bool) returns (failed: bool)
      modifies this
      ensures failed == fails
      ensures fails ==> breedingRecords == old(breedingRecords) && log == old(log)
      ensures !fails ==> breedingRecords == old(breedingRecords) + [StoredRecord(row, newId)]
                         && log == old(log) + [InsertedBreeding(newId)]
      ensures goats == old(goats)
    {
      failed := fails;
      if !fails {
        breedingRecords := breedingRecords + [StoredRecord(row, newId)];
        log := log + [InsertedBreeding(newId)];
      }
    }

    /** `.from('goats').update({ breeding_status }).eq('id', goatId)`. */
    method UpdateBreedingStatus(goatId: string, status: BreedingStatus, fails: bool) returns (failed: bool)
      modifies this
      ensures failed == fails
      ensures fails ==> goats == old(goats) && log == old(log)
      ensures !fails ==> goats == SetBreedingStatus(old(goats), goatId, status)
                         && log == old(log) + [UpdatedGoat(goatId, status)]
      ensures breedingRecords == old(breedingRecords)
    {
      failed := fails;
      if !fails {
        goats := SetBreedingStatus(goats, goatId, status);
        log := log + [UpdatedGoat(goatId, status)];
      }
    }

    /** `.from('breeding_records').update({ pregnancy_status }).eq('id', recordId)`. */
    method UpdatePregnancyStatus(recordId: string, status: PregnancyStatus, fails: bool) returns (failed: bool)
      modifies this
      ensures failed == fails
      ensures fails ==> breedingRecords == old(breedingRecords) && log == old(log)
      ensures !fails ==> breedingRecords == SetPregnancyStatus(old(breedingRecords), recordId, status)
                         && log == old(log) + [UpdatedPregnancy(recordId, status)]
      ensures goats == old(goats)
    {
      failed := fails;
      if !fails {
        breedingRecords := SetPregnancyStatus(breedingRecords, recordId, status);
        log := log + [UpdatedPregnancy(recordId, status)];
      }
    }

    /** The breeding records with the doe's and buck's columns joined. */
    function FetchBreedingRecords(): (r: seq<BreedingRecord>)
      reads this
      ensures |r| == |breedingRecords|
    {
      Joined(breedingRecords, goats)
    }
  }

  /** The write sequence both breeding forms run on submit: insert the record and, only once
      the insert has succeeded, mark the doe Pregnant. The goat update's own error is not
      looked at, as in the source. */
  method RecordBreeding(store: Store, form: BreedingForm, newId: string, insertFails: bool, updateFails: bool)
    returns (ok: bool)
    modifies store
    ensures ok == !insertFails
    ensures !ok ==> store.goats == old(store.goats) && store.breedingRecords == old(store.breedingRecords)
                    && store.log == old(store.log)
    ensures ok ==> store.breedingRecords == old(store.breedingRecords) + [StoredRecord(InsertRow(form), newId)]
    ensures ok && !updateFails ==>
              store.goats == SetBreedingStatus(old(store.goats), form.doeId, Pregnant)
              && store.log == old(store.log) + [InsertedBreeding(newId), UpdatedGoat(form.doeId, Pregnant)]
    ensures ok && updateFails ==> store.goats == old(store.goats) && store.log == old(store.log) + [InsertedBreeding(newId)]
  {
    var failed := store.InsertBreeding(InsertRow(form), newId, insertFails);
    if failed {
      return false;
    }
    var _ := store.UpdateBreedingStatus(form.doeId, Pregnant, updateFails);
    return true;
  }

  /** A successful submit stores a Bred record due 150 days after the chosen day, and leaves
      every goat other than the doe as it was. */
  lemma RecordedBreeding(goats: seq<Goat>, form: BreedingForm, newId: string)
    requires form.breedingDate % MsPerDay == 0
    ensures var r := StoredRecord(InsertRow(form), newId);
            && r.id == newId && r.doeId == form.doeId && r.buckId == form.buckId
            && r.pregnancyStatus == Bred
            && r.expectedDueDate == Some(form.breedingDate + GestationDays * MsPerDay)
            && (r.notes.None? <==> form.notes == "")
    ensures forall i :: 0 <= i < |goats| && goats[i].id != form.doeId ==>
              SetBreedingStatus(goats, form.doeId, Pregnant)[i] == goats[i]
  {
    ExpectedDueDateOfDay(form.breedingDate);
  }
}
