/** The breeding tab: the list of breeding records with their status buttons, and the form
    that records a new breeding. */
module BreedingCard {
  import opened Wrappers
  import opened Dates
  import opened FarmTypes
  import opened BreedingRules
  import opened BreedingStore

  /** What the component reports to the user or to its parent. */
  datatype Notice = AddFailed | StatusUpdateFailed

  /** The form as it opens and as a successful submit leaves it: nothing chosen, today's date,
      no notes. */
  function EmptyForm(today: Time): (f: BreedingForm)
    ensures f.doeId == "" && f.buckId == "" && f.notes == ""
    ensures f.breedingDate % MsPerDay == 0 && f.breedingDate <= today < f.breedingDate + MsPerDay
  {
    BreedingForm("", "", DayStart(today), "")
  }

  class Card {
    const store: Store
    var breedingRecords: seq<BreedingRecord>
    var showForm: bool
    var formData: BreedingForm
    var loading: bool
    var notices: seq<Notice>
    /** How many times the parent's `onUpdate` was called. */
    var parentUpdates: nat

    constructor(store: Store, today: Time)
      ensures this.store == store
      ensures breedingRecords == [] && !showForm && formData == EmptyForm(today) && !loading
      ensures notices == [] && parentUpdates == 0
    {
      this.store := store;
      breedingRecords := [];
      showForm := false;
      formData := EmptyForm(today);
      loading := false;
      notices := [];
      parentUpdates := 0;
    }

    /** `fetchBreedingRecords`: the records with the doe's and buck's columns. */
    method FetchBreedingRecords()
      modifies this
      ensures breedingRecords == store.FetchBreedingRecords()
      ensures showForm == old(showForm) && formData == old(formData) && loading == old(loading)
      ensures notices == old(notices) && parentUpdates == old(parentUpdates)
    {
      breedingRecords := store.FetchBreedingRecords();
    }

    /** `handleSubmit`: insert the record; only if that succeeds, mark the doe Pregnant, close
        and reset the form, reload the records and tell the parent. A failed insert leaves
        the store, the form and the list as they were and shows an error. */
    method HandleSubmit(newId: string, today: Time, insertFails: bool, updateFails: bool)
      modifies this, store
      ensures !loading
      ensures insertFails ==>
                store.goats == old(store.goats) && store.breedingRecords == old(store.breedingRecords)
                && store.log == old(store.log)
                && formData == old(formData) && showForm == old(showForm)
                && breedingRecords == old(breedingRecords)
                && notices == old(notices) + [AddFailed] && parentUpdates == old(parentUpdates)
      ensures !insertFails ==>
                store.breedingRecords == old(store.breedingRecords) + [StoredRecord(InsertRow(old(formData)), newId)]
                && (updateFails || store.goats == SetBreedingStatus(old(store.goats), old(formData).doeId, Pregnant))
                && (updateFails || store.log == old(store.log) + [InsertedBreeding(newId), UpdatedGoat(old(formData).doeId, Pregnant)])
                && (!updateFails || store.goats == old(store.goats))
                && (!updateFails || store.log == old(store.log) + [InsertedBreeding(newId)])
                && !showForm && formData == EmptyForm(today)
                && breedingRecords == store.FetchBreedingRecords()
                && notices == old(notices) && parentUpdates == old(parentUpdates) + 1
    {
      loading := true;
      var ok := RecordBreeding(store, formData, newId, insertFails, updateFails);
      if ok {
        showForm := false;
        formData := EmptyForm(today);
        breedingRecords := store.FetchBreedingRecords();
        parentUpdates := parentUpdates + 1;
      } else {
        notices := notices + [AddFailed];
      }
      loading := false;
    }

    /** `updatePregnancyStatus`: write the new status and reload the records, or show an
        error and leave everything as it was. */
    method UpdatePregnancyStatus(recordId: string, status: PregnancyStatus, fails: bool)
      modifies this, store
      ensures store.goats == old(store.goats)
      ensures fails ==> store.breedingRecords == old(store.breedingRecords) && store.log == old(store.log)
                        && breedingRecords == old(breedingRecords) && notices == old(notices) + [StatusUpdateFailed]
      ensures !fails ==> store.breedingRecords == SetPregnancyStatus(old(store.breedingRecords), recordId, status)
                         && store.log == old(store.log) + [UpdatedPregnancy(recordId, status)]
                         && breedingRecords == store.FetchBreedingRecords() && notices == old(notices)
      ensures showForm == old(showForm) && formData == old(formData) && loading == old(loading)
      ensures parentUpdates == old(parentUpdates)
    {
      var failed := store.UpdatePregnancyStatus(recordId, status, fails);
      if failed {
        notices := notices + [StatusUpdateFailed];
      } else {
        breedingRecords := store.FetchBreedingRecords();
      }
    }
  }

  /** After a successful submit the doe reads Pregnant and the new record is the last one the
      list holds, Bred and with its due date shown nowhere until it is Confirmed. */
  method SubmitMarksDoe(card: Card, newId: string, today: Time, now: Time)
    modifies card, card.store
    ensures forall g :: g in card.store.goats && g.id == old(card.formData).doeId ==>
              g.breedingStatus == Some(Pregnant)
    ensures |card.breedingRecords| > 0
    ensures var r := card.breedingRecords[|card.breedingRecords| - 1];
            r.id == newId && r.pregnancyStatus == Bred && DaysShown(r, now).None?
  {
    var doeId := card.formData.doeId;
    card.HandleSubmit(newId, today, false, false);
    SetBreedingStatusMarks(old(card.store.goats), doeId, Pregnant);
  }
}
