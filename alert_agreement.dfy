/** How the bell and the dashboard, which classify the same records independently, relate. */
module AlertAgreement {
  import opened Dates
  import opened FarmTypes
  import Bell = NotificationBell
  import Dash = NotificationDashboard

  /** The two classify a Confirmed record's birth alike: both alert or neither does, urgent
      matching urgent, high matching warning and medium matching info, with the same day
      count and due date. */
  lemma BirthAlertsAgree(r: BreedingRecord, now: Time)
    ensures var b, d := Bell.BreedingDueAlert(r, now), Dash.ConfirmedAlert(r, now);
            && b.Some? == d.Some?
            && (b.Some? ==>
                  && (b.value.priority == Bell.Urgent <==> d.value.kind == Dash.Urgent)
                  && (b.value.priority == Bell.High <==> d.value.kind == Dash.Warning)
                  && (b.value.priority == Bell.Medium <==> d.value.kind == Dash.Info)
                  && b.value.message == d.value.message
                  && b.value.dueDate == d.value.dueDate)
  {
  }

  /** Whenever the bell asks for a pregnancy check, so does the dashboard. */
  lemma BellCheckImpliesDashboardCheck(r: BreedingRecord, now: Time)
    ensures Bell.PregnancyCheckAlert(r, now).Some? ==> Dash.BredAlert(r, now).Some?
  {
    Bell.PregnancyCheckWindow(r, now);
    Dash.BredWindow(r, now);
  }

  /** The dashboard asks for the check up to a day before the bell: one millisecond past 29
      days after the breeding, it alerts and the bell does not. */
  lemma DashboardCheckDayEarly(r: BreedingRecord, now: Time)
    requires r.pregnancyStatus == Bred && now == r.breedingDate + 29 * MsPerDay + 1
    ensures Dash.BredAlert(r, now).Some? && Dash.BredAlert(r, now).value.message.days == 30
    ensures Bell.PregnancyCheckAlert(r, now).None?
  {
    Bell.PregnancyCheckWindow(r, now);
    Dash.BredWindow(r, now);
    CeilDivAtMost(now - r.breedingDate, MsPerDay, 30);
    CeilDivAtMost(now - r.breedingDate, MsPerDay, 29);
  }

  /** Counted in days, the bell's health notification is the dashboard's health alert under
      another name: both or neither, urgent matching urgent, high matching warning, with the
      same message and due date. As written, the bell's differs (see `HealthHighHundredDaysOut`). */
  lemma CorrectedHealthAlertsAgree(r: HealthRecord, goats: seq<Goat>, now: Time)
    ensures var b, d := Bell.HealthAlertCorrected(r, goats, now), Dash.HealthAlert(r, goats, now);
            && b.Some? == d.Some?
            && (b.Some? ==>
                  && (b.value.priority == Bell.Urgent <==> d.value.kind == Dash.Urgent)
                  && (b.value.priority == Bell.High <==> d.value.kind == Dash.Warning)
                  && b.value.message == d.value.message
                  && b.value.dueDate == d.value.dueDate)
  {
  }

  /** With the corrected count, the day figure of the bell's pregnancy check is the
      dashboard's, or one less when the time since the breeding is not a whole number of days
      (the bell rounds the days remaining up, the dashboard the days elapsed). */
  lemma CorrectedPregnancyDaysAgree(r: BreedingRecord, now: Time)
    requires Bell.PregnancyCheckAlertCorrected(r, now).Some?
    ensures var b, d := Bell.PregnancyCheckAlertCorrected(r, now).value, Dash.BredAlert(r, now);
            && d.Some?
            && (d.value.message.days == b.message.days || d.value.message.days == b.message.days + 1)
            && ((now - r.breedingDate) % MsPerDay == 0 ==> d.value.message.days == b.message.days)
  {
    Bell.PregnancyCheckWindow(r, now);
    Dash.BredWindow(r, now);
    var x := now - r.breedingDate;
    CeilDivBounds(x, MsPerDay);
    CeilDivBounds(x - 30 * MsPerDay, MsPerDay);
    assert CeilDiv(r.breedingDate + Bell.PregnancyCheckDelay - now, MsPerDay) == CeilDiv(-(x - 30 * MsPerDay), MsPerDay);
  }
}
