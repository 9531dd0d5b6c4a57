/** The dashboard (src/pages/Dashboard.tsx): the four stat tiles, the
    Log-Meetup dialog and the quick-log button beside each contact that
    needs attention. */
module DashboardPage {
  import opened Wrappers
  import opened Types
  import opened Display
  import opened QueryCache
  import opened ContactHooks
  import Api

  /** A stat tile; the icon is left out. */
  datatype StatItem = StatItem(caption: string, value: int, color: string)

  /** `statItems`: four tiles in a fixed order, each showing its stats field,
      or 0 while the stats have not loaded. */
  function StatItems(stats: Option<DashboardStats>): (r: seq<StatItem>)
    ensures |r| == 4
    ensures r[0].caption == "Total Contacts" && r[1].caption == "Upcoming Reminders" &&
            r[2].caption == "Recent Interactions" && r[3].caption == "Needs Attention"
    ensures stats == None ==> forall i :: 0 <= i < |r| ==> r[i].value == 0
    ensures stats.Some? ==>
      r[0].value == stats.value.totalContacts && r[1].value == stats.value.upcomingReminders &&
      r[2].value == stats.value.recentInteractionsCount && r[3].value == stats.value.needsAttention
  {
    var s := stats.GetOr(DashboardStats(0, 0, 0, 0));
    [StatItem("Total Contacts", s.totalContacts, "primary"),
     StatItem("Upcoming Reminders", s.upcomingReminders, "accent"),
     StatItem("Recent Interactions", s.recentInteractionsCount, "primary"),
     StatItem("Needs Attention", s.needsAttention, "accent")]
  }

  /** The captions serve as the tiles' keys: they are pairwise distinct. */
  lemma StatCaptionsDistinct(stats: Option<DashboardStats>)
    ensures var r := StatItems(stats);
      forall i, j :: 0 <= i < j < |r| ==> r[i].caption != r[j].caption
  {
  }

  /** The "Last contact" line of a contact, both in the Needs Attention list
      and in the Recent Contacts list. */
  function LastContactOf(c: Contact): (r: LastContactLabel)
    ensures r == Never <==> c.lastContact == None || c.lastContact == Some("")
    ensures r.RelativeTo? ==> c.lastContact == Some(r.timestamp)
  {
    FormatLastContact(c.lastContact)
  }

  /** The page's dialog state. */
  class DashboardPageState {
    var isLogMeetupOpen: bool
    var selectedContactId: string

    constructor ()
      ensures !isLogMeetupOpen && selectedContactId == ""
    {
      isLogMeetupOpen := false;
      selectedContactId := "";
    }

    /** The "Log Meetup" button, the dialog's `onOpenChange` and Cancel. */
    method SetLogMeetupOpen(open: bool)
      modifies this
      ensures isLogMeetupOpen == open && selectedContactId == old(selectedContactId)
    {
      isLogMeetupOpen := open;
    }

    /** The contact selector's `onValueChange`. */
    method SelectContact(id: string)
      modifies this
      ensures selectedContactId == id && isLogMeetupOpen == old(isLogMeetupOpen)
    {
      selectedContactId := id;
    }

    /** `handleLogMeetup`, with `logSucceeds` standing for whether
        `logInteraction.mutateAsync` resolves. Returns the id it logs for
        (None when nothing is sent) and the toast it shows. */
    method HandleLogMeetup(cache: Cache, logSucceeds: bool)
      returns (sent: Option<string>, toast: Option<Toast>)
      modifies this, cache
      ensures old(selectedContactId) == "" ==>
        sent == None && toast == Some(ToastError("Please select a contact")) &&
        isLogMeetupOpen == old(isLogMeetupOpen) && selectedContactId == "" &&
        cache.entries == old(cache.entries)
      ensures old(selectedContactId) != "" ==>
        sent == Some(old(selectedContactId)) &&
        cache.entries == AfterContactMutation(old(cache.entries), LogInteraction, logSucceeds)
      ensures old(selectedContactId) != "" && logSucceeds ==>
        toast == Some(ToastSuccess("Meetup logged successfully!")) &&
        !isLogMeetupOpen && selectedContactId == ""
      ensures old(selectedContactId) != "" && !logSucceeds ==>
        toast == None && isLogMeetupOpen == old(isLogMeetupOpen) &&
        selectedContactId == old(selectedContactId)
    {
      if selectedContactId == "" {
        return None, Some(ToastError("Please select a contact"));
      }
      sent := Some(selectedContactId);
      SettleContactMutation(cache, LogInteraction, logSucceeds);
      if !logSucceeds {
        return sent, None;
      }
      toast := Some(ToastSuccess("Meetup logged successfully!"));
      isLogMeetupOpen := false;
      selectedContactId := "";
    }

    /** The quick-log button of a contact that needs attention: it logs an
        interaction for that contact without a toast and leaves the dialog
        alone. */
    method QuickLog(cache: Cache, contactId: string, logSucceeds: bool) returns (sent: Api.Endpoint)
      modifies cache
      ensures sent == Api.LogInteraction(contactId)
      ensures cache.entries == AfterContactMutation(old(cache.entries), LogInteraction, logSucceeds)
    {
      sent := Api.LogInteraction(contactId);
      SettleContactMutation(cache, LogInteraction, logSucceeds);
    }
  }
}
