/** The "Record Breeding" modal opened from a goat's card: the form starts with that goat
    chosen on its own side. */
module BreedingModal {
  import opened Dates
  import opened FarmTypes
  import opened BreedingRules
  import opened BreedingStore

  /** The parent's callbacks. */
  datatype Callback = OnSuccess | OnClose

  /** A call of a parent callback, with the store writes made by the time it ran: the parent
      sees the store as those writes left it. */
  datatype Call = Call(callback: Callback, writesSeen: seq<Write>)

  datatype Notice = AddFailed

  /** The form as the modal opens: the selected goat as the doe if female, as the buck if
      male, the other side empty; today's date; no notes. */
  function InitialForm(selected: Goat, today: Time): (f: BreedingForm)
    ensures selected.gender == Female ==> f.doeId == selected.id && f.buckId == ""
    ensures selected.gender == Male ==> f.buckId == selected.id && f.doeId == ""
    ensures f.notes == "" && f.breedingDate <= today < f.breedingDate + MsPerDay
  {
    BreedingForm(if selected.gender == Female then selected.id else "",
                 if selected.gender == Male then selected.id else "",
                 DayStart(today), "")
  }

  /** For a goat with an id, exactly one side of the form is pre-filled, and it is an option
      the matching select offers. */
  lemma ExactlyOnePrefilled(selected: Goat, goats: seq<Goat>, today: Time)
    requires selected.id != "" && selected in goats
    ensures var f := InitialForm(selected, today);
            && (f.doeId != "") != (f.buckId != "")
            && (f.doeId != "" ==> selected in Does(goats))
            && (f.buckId != "" ==> selected in Bucks(goats))
  {
    DoesBucksPartition(goats);
  }

  class Modal {
    const store: Store
    var formData: BreedingForm
    var loading: bool
    var notices: seq<Notice>
    var callbacks: seq<Call>

    constructor(store: Store, selected: Goat, today: Time)
      ensures this.store == store && formData == InitialForm(selected, today)
      ensures !loading && notices == [] && callbacks == []
    {
      this.store := store;
      formData := InitialForm(selected, today);
      loading := false;
      notices := [];
      callbacks := [];
    }

    /** `handleSubmit`: insert the record, then mark the doe Pregnant, then call `onSuccess`
        and `onClose`, in that order: both calls see the insert and the doe update already
        written. A failed insert shows an error, calls neither and writes nothing. */
    method HandleSubmit(newId: string, insertFails: bool, updateFails: bool)
      modifies this, store
      ensures !loading && formData == old(formData)
      ensures insertFails ==>
                store.goats == old(store.goats) && store.breedingRecords == old(store.breedingRecords)
                && store.log == old(store.log)
                && notices == old(notices) + [AddFailed] && callbacks == old(callbacks)
      ensures !insertFails ==>
                store.breedingRecords == old(store.breedingRecords) + [StoredRecord(InsertRow(formData), newId)]
                && (updateFails || store.log == old(store.log) + [InsertedBreeding(newId), UpdatedGoat(formData.doeId, Pregnant)])
                && (!updateFails || store.log == old(store.log) + [InsertedBreeding(newId)])
                && (updateFails || store.goats == SetBreedingStatus(old(store.goats), formData.doeId, Pregnant))
                && (!updateFails || store.goats == old(store.goats))
                && notices == old(notices)
                && callbacks == old(callbacks) + [Call(OnSuccess, store.log), Call(OnClose, store.log)]
    {
      loading := true;
      var ok := RecordBreeding(store, formData, newId, insertFails, updateFails);
      if ok {
        callbacks := callbacks + [Call(OnSuccess, store.log)];
        callbacks := callbacks + [Call(OnClose, store.log)];
      } else {
        notices := notices + [AddFailed];
      }
      loading := false;
    }
  }
}
