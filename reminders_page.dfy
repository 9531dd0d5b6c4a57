/** The reminders page (src/pages/Reminders.tsx): the pending/completed
    split, the due-date labels and the Add-Reminder dialog. */
module RemindersPage {
  import opened Wrappers
  import opened Types
  import opened Text
  import opened Seqs
  import opened QueryCache
  import opened ReminderHooks
  import Api

  /** `pendingReminders`. */
  function PendingReminders(reminders: Option<seq<Reminder>>): (r: seq<Reminder>)
    ensures forall i :: 0 <= i < |r| ==> !r[i].completed
  {
    Filter(OrEmpty(reminders), (x: Reminder) => !x.completed)
  }

  /** `completedReminders`. */
  function CompletedReminders(reminders: Option<seq<Reminder>>): (r: seq<Reminder>)
    ensures forall i :: 0 <= i < |r| ==> r[i].completed
  {
    Filter(OrEmpty(reminders), (x: Reminder) => x.completed)
  }

  /** The two lists split the loaded reminders between them: each keeps the
      list's order, a reminder is in exactly the list its flag names, and
      together they hold every reminder as often as the list does. */
  lemma RemindersPartition(reminders: Option<seq<Reminder>>)
    ensures var all, p, c := OrEmpty(reminders), PendingReminders(reminders), CompletedReminders(reminders);
      IsSubsequence(p, all) && IsSubsequence(c, all) &&
      (forall x :: x in p <==> x in all && !x.completed) &&
      (forall x :: x in c <==> x in all && x.completed) &&
      multiset(p) + multiset(c) == multiset(all) &&
      |p| + |c| == |all|
  {
    var all := OrEmpty(reminders);
    var pending := (x: Reminder) => !x.completed;
    var done := (x: Reminder) => x.completed;
    FilterIsSubsequence(all, pending);
    FilterIsSubsequence(all, done);
    FilterMembership(all, pending);
    FilterMembership(all, done);
    FilterPartition(all, pending, done);
  }

  /** The milliseconds in a day, `1000 * 60 * 60 * 24`. */
  const MsPerDay: int := 1000 * 60 * 60 * 24

  /** `Math.ceil(a / m)` for a positive divisor. */
  function CeilDiv(a: int, m: int): (r: int)
    requires m > 0
    ensures (r - 1) * m < a <= r * m
  {
    -((-a) / m)
  }

  /** The local calendar day an instant (milliseconds since the epoch) falls
      on, for a fixed offset of local time from UTC in milliseconds. */
  function DayNumber(t: int, offset: int): int {
    (t - offset) / MsPerDay
  }

  /** `d.setHours(0, 0, 0, 0)`: local midnight of the instant's day. */
  function StartOfDay(t: int, offset: int): (r: int)
    ensures r <= t < r + MsPerDay
    ensures r == DayNumber(t, offset) * MsPerDay + offset
  {
    DayNumber(t, offset) * MsPerDay + offset
  }

  /** `getDaysUntil`: both instants are moved to local midnight, and the
      difference in milliseconds is divided by a day and rounded up. */
  function GetDaysUntil(due: int, now: int, offset: int): int {
    CeilDiv(StartOfDay(due, offset) - StartOfDay(now, offset), MsPerDay)
  }

  lemma CeilDivExact(k: int, m: int)
    requires m > 0
    ensures CeilDiv(k * m, m) == k
  {
    assert -(k * m) == (-k) * m;
  }

  /** The reference count: the days from today to a due day, on day
      numbers. */
  function DaysUntil(dueDay: int, today: int): int {
    dueDay - today
  }

  /** For two instants, and without daylight-saving changes, the rounding
      never matters: the page's millisecond computation is the difference
      of the two local calendar day numbers. Which instant the due-date
      string stands for is the business of `ParseDateOnly` below. */
  lemma GetDaysUntilIsDayDifference(due: int, now: int, offset: int)
    ensures GetDaysUntil(due, now, offset) == DaysUntil(DayNumber(due, offset), DayNumber(now, offset))
  {
    var k := DayNumber(due, offset) - DayNumber(now, offset);
    assert StartOfDay(due, offset) - StartOfDay(now, offset) == k * MsPerDay;
    CeilDivExact(k, MsPerDay);
  }

  /** `new Date(dateStr)` on the date input's "YYYY-MM-DD" string, as the
      day number of that calendar date: ECMAScript reads a date-only string
      as midnight UTC, whatever the local offset. */
  function ParseDateOnly(day: int): (t: int)
    ensures DayNumber(t, 0) == day && t % MsPerDay == 0
  {
    day * MsPerDay
  }

  /** `getDaysUntil(reminder.due_date)` as written: the due date is parsed
      as midnight UTC and then moved to the local midnight of its instant. */
  function GetDaysUntilAsWritten(dueDay: int, now: int, offset: int): int {
    GetDaysUntil(ParseDateOnly(dueDay), now, offset)
  }

  /** West of UTC (the offset, UTC minus local time, is positive) midnight
      UTC falls on the previous local day, so every due date counts one day
      early. */
  lemma AsWrittenWestOfUtc(dueDay: int, now: int, offset: int)
    requires 0 < offset < MsPerDay
    ensures GetDaysUntilAsWritten(dueDay, now, offset) == DaysUntil(dueDay, DayNumber(now, offset)) - 1
  {
    assert ParseDateOnly(dueDay) - offset == (dueDay - 1) * MsPerDay + (MsPerDay - offset);
    assert DayNumber(ParseDateOnly(dueDay), offset) == dueDay - 1;
    GetDaysUntilIsDayDifference(ParseDateOnly(dueDay), now, offset);
  }

  /** At UTC and east of it midnight UTC is on the same local day, and the
      count is right. */
  lemma AsWrittenEastOfUtc(dueDay: int, now: int, offset: int)
    requires -MsPerDay < offset <= 0
    ensures GetDaysUntilAsWritten(dueDay, now, offset) == DaysUntil(dueDay, DayNumber(now, offset))
  {
    assert ParseDateOnly(dueDay) - offset == dueDay * MsPerDay + (-offset);
    assert DayNumber(ParseDateOnly(dueDay), offset) == dueDay;
    GetDaysUntilIsDayDifference(ParseDateOnly(dueDay), now, offset);
  }

  /** A reminder due 2026-10-14 (day 20740), seen at 10:00 that day in
      UTC-4: the page says "1 days overdue" where "Today" is meant. */
  lemma DueTodayShownOverdue()
    ensures var offset, today := 4 * 60 * 60 * 1000, 20740;
      var now := today * MsPerDay + offset + 10 * 60 * 60 * 1000;
      DayNumber(now, offset) == today &&
      DaysUntilLabel(GetDaysUntilAsWritten(today, now, offset)) == "1 days overdue" &&
      DaysUntilLabel(DaysUntil(today, DayNumber(now, offset))) == "Today"
  {
    var offset, today := 4 * 60 * 60 * 1000, 20740;
    var now := today * MsPerDay + offset + 10 * 60 * 60 * 1000;
    assert DayNumber(now, offset) == today;
    AsWrittenWestOfUtc(today, now, offset);
    OneDayOverdue();
  }

  /** The evident intent: the date string names a local calendar day, so
      it is parsed as that day's local midnight (as `new Date(y, m - 1, d)`
      does). */
  function ParseDateOnlyLocal(day: int, offset: int): (t: int)
    ensures DayNumber(t, offset) == day && StartOfDay(t, offset) == t
  {
    day * MsPerDay + offset
  }

  /** `getDaysUntil` with the due date parsed as local midnight: on every
      offset it is the number of local days from today to the due date. */
  function GetDaysUntilLocal(dueDay: int, now: int, offset: int): (d: int)
    ensures d == DaysUntil(dueDay, DayNumber(now, offset))
  {
    GetDaysUntilIsDayDifference(ParseDateOnlyLocal(dueDay, offset), now, offset);
    GetDaysUntil(ParseDateOnlyLocal(dueDay, offset), now, offset)
  }

  /** `getDaysUntilLabel(days)`. */
  function DaysUntilLabel(days: int): (s: string)
    ensures days < 0 ==> s == NatToString(-days) + " days overdue"
    ensures days == 0 ==> s == "Today"
    ensures days == 1 ==> s == "Tomorrow"
    ensures days >= 2 ==> s == "in " + NatToString(days) + " days"
  {
    if days < 0 then NatToString(-days) + " days overdue"
    else if days == 0 then "Today"
    else if days == 1 then "Tomorrow"
    else "in " + NatToString(days) + " days"
  }

  /** One day overdue reads "1 days overdue": the label has no singular. */
  lemma OneDayOverdue()
    ensures DaysUntilLabel(-1) == "1 days overdue"
  {
    assert NatToString(1) == "1";
  }

  /** The four kinds of label, told apart by their first character. */
  lemma LabelFirstChar(days: int)
    ensures var s := DaysUntilLabel(days);
      |s| > 0 &&
      (days < 0 <==> IsDigit(s[0])) &&
      (days == 0 || days == 1 <==> s[0] == 'T') &&
      (days >= 2 <==> s[0] == 'i')
  {
    if days < 0 {
      assert DaysUntilLabel(days)[0] == NatToString(-days)[0];
    }
  }

  lemma OverdueLabelsDistinct(a: int, b: int)
    requires a < 0 && b < 0
    ensures DaysUntilLabel(a) == DaysUntilLabel(b) ==> a == b
  {
    if DaysUntilLabel(a) == DaysUntilLabel(b) {
      var sa, sb, t := NatToString(-a), NatToString(-b), " days overdue";
      assert sa + t == sb + t;
      assert |sa| == |sb|;
      assert (sa + t)[..|sa|] == sa;
      assert (sb + t)[..|sb|] == sb;
      NatToStringInjective(-a, -b);
    }
  }

  lemma FutureLabelsDistinct(a: int, b: int)
    requires a >= 2 && b >= 2 && a != b
    ensures DaysUntilLabel(a) != DaysUntilLabel(b)
  {
    NumberInTextInjective("in ", a, b, " days");
  }

  /** Different day counts get different labels, so the label determines
      the count. */
  lemma DaysUntilLabelInjective(a: int, b: int)
    ensures DaysUntilLabel(a) == DaysUntilLabel(b) <==> a == b
  {
    if a != b {
      if a < 0 && b < 0 {
        OverdueLabelsDistinct(a, b);
      } else if a >= 2 && b >= 2 {
        FutureLabelsDistinct(a, b);
      } else if 0 <= a <= 1 && 0 <= b <= 1 {
        assert |DaysUntilLabel(a)| != |DaysUntilLabel(b)|;
      } else {
        LabelFirstChar(a);
        LabelFirstChar(b);
        assert DaysUntilLabel(a)[0] != DaysUntilLabel(b)[0];
      }
    }
  }

  /** A reminder row is drawn as overdue when its due day is before today,
      counted as `GetDaysUntilLocal` counts. */
  predicate IsOverdue(r: Reminder, today: int) {
    DaysUntil(r.dueDate, today) < 0
  }

  /** An overdue row's label is the "overdue" kind, and only an overdue
      row's. */
  lemma OverdueIffOverdueLabel(r: Reminder, today: int)
    ensures IsOverdue(r, today) <==> IsDigit(DaysUntilLabel(DaysUntil(r.dueDate, today))[0])
  {
    LabelFirstChar(DaysUntil(r.dueDate, today));
  }

  /** `frequencyLabels`, defined for every frequency. */
  function FrequencyLabel(f: ReminderFrequency): (s: string)
    ensures f == NoRepeat <==> s == "One-time"
  {
    match f
    case NoRepeat => "One-time"
    case Weekly => "Weekly"
    case Monthly => "Monthly"
    case Quarterly => "Quarterly"
    case Yearly => "Yearly"
  }

  /** The dialog's initial and reset state. */
  function EmptyReminderForm(): ReminderFormData {
    ReminderFormData("", "", "", NoRepeat)
  }

  /** The validation at the top of `handleAddReminder`. */
  function ReminderFormError(form: ReminderFormData): (r: Option<string>)
    ensures r.Some? <==> form.contact == "" || form.title == "" || form.dueDate == ""
    ensures r.Some? ==> r.value == "Please fill in all required fields"
  {
    if !Truthy(form.contact) || !Truthy(form.title) || !Truthy(form.dueDate) then
      Some("Please fill in all required fields")
    else None
  }

  /** The page's dialog state. */
  class RemindersPageState {
    var isAddDialogOpen: bool
    var formData: ReminderFormData

    constructor ()
      ensures !isAddDialogOpen && formData == EmptyReminderForm()
    {
      isAddDialogOpen := false;
      formData := EmptyReminderForm();
    }

    /** The dialog's `onOpenChange`. */
    method SetAddDialogOpen(open: bool)
      modifies this
      ensures isAddDialogOpen == open && formData == old(formData)
    {
      isAddDialogOpen := open;
    }

    /** An edit of one of the dialog's inputs. */
    method SetFormData(form: ReminderFormData)
      modifies this
      ensures formData == form && isAddDialogOpen == old(isAddDialogOpen)
    {
      formData := form;
    }

    /** `handleAddReminder`, with `createSucceeds` standing for whether
        `createReminder.mutateAsync` resolves. The form is sent as it is. */
    method HandleAddReminder(cache: Cache, createSucceeds: bool)
      returns (sent: Option<ReminderFormData>, toast: Option<Toast>)
      modifies this, cache
      ensures ReminderFormError(old(formData)).Some? ==>
        sent == None && toast == Some(ToastError("Please fill in all required fields")) &&
        isAddDialogOpen == old(isAddDialogOpen) && formData == old(formData) &&
        cache.entries == old(cache.entries)
      ensures ReminderFormError(old(formData)).None? ==>
        sent == Some(old(formData)) &&
        cache.entries == AfterReminderMutation(old(cache.entries), CreateReminder, createSucceeds)
      ensures ReminderFormError(old(formData)).None? && createSucceeds ==>
        !isAddDialogOpen && formData == EmptyReminderForm() &&
        toast == Some(ToastSuccess("Reminder created successfully"))
      ensures ReminderFormError(old(formData)).None? && !createSucceeds ==>
        isAddDialogOpen == old(isAddDialogOpen) && formData == old(formData) && toast == None
    {
      var error := ReminderFormError(formData);
      if error.Some? {
        return None, Some(ToastError(error.value));
      }
      sent := Some(formData);
      SettleReminderMutation(cache, CreateReminder, createSucceeds);
      if !createSucceeds {
        return sent, None;
      }
      isAddDialogOpen := false;
      formData := EmptyReminderForm();
      toast := Some(ToastSuccess("Reminder created successfully"));
    }

    /** `handleDeleteReminder(id)`: the request deletes that reminder. */
    method HandleDeleteReminder(cache: Cache, id: string, deleteSucceeds: bool)
      returns (sent: Api.Endpoint, toast: Option<Toast>)
      modifies cache
      ensures sent == Api.DeleteReminder(id)
      ensures cache.entries == AfterReminderMutation(old(cache.entries), DeleteReminder, deleteSucceeds)
      ensures toast == if deleteSucceeds then Some(ToastSuccess("Reminder deleted")) else None
    {
      sent := Api.DeleteReminder(id);
      SettleReminderMutation(cache, DeleteReminder, deleteSucceeds);
      toast := if deleteSucceeds then Some(ToastSuccess("Reminder deleted")) else None;
    }

    /** `handleCompleteReminder(id)`: the request completes that reminder. */
    method HandleCompleteReminder(cache: Cache, id: string, completeSucceeds: bool)
      returns (sent: Api.Endpoint, toast: Option<Toast>)
      modifies cache
      ensures sent == Api.CompleteReminder(id)
      ensures cache.entries == AfterReminderMutation(old(cache.entries), CompleteReminder, completeSucceeds)
      ensures toast == if completeSucceeds then Some(ToastSuccess("Reminder marked as complete")) else None
    {
      sent := Api.CompleteReminder(id);
      SettleReminderMutation(cache, CompleteReminder, completeSucceeds);
      toast := if completeSucceeds then Some(ToastSuccess("Reminder marked as complete")) else None;
    }
  }
}
