/** The dashboard queries' keys (src/hooks/use-dashboard.ts). */
module DashboardHooks {
  import opened QueryCache

  function DashboardStatsKey(): QueryKey { ["dashboard", "stats"] }
  function StaleContactsKey(): QueryKey { ["dashboard", "stale"] }
  function RecentContactsKey(): QueryKey { ["dashboard", "recent"] }

  /** The prefix the mutations invalidate; it covers all three keys. */
  function DashboardRoot(): (p: QueryKey)
    ensures HasPrefix(p, DashboardStatsKey())
    ensures HasPrefix(p, StaleContactsKey())
    ensures HasPrefix(p, RecentContactsKey())
  {
    ["dashboard"]
  }
}

/** The contact queries and mutations (src/hooks/use-contacts.ts). */
module ContactHooks {
  import opened QueryCache
  import opened DashboardHooks

  /** `useContacts()`'s key, also the prefix the mutations invalidate. */
  function ContactsKey(): QueryKey { ["contacts"] }

  /** `useContact(id)`'s key: under the list's key. */
  function ContactKey(id: string): (k: QueryKey)
    ensures HasPrefix(ContactsKey(), k) && k != ContactsKey()
  {
    ["contacts", id]
  }

  /** `enabled: !!id`. */
  function ContactQueryEnabled(id: string): bool {
    id != ""
  }

  datatype ContactMutation = CreateContact | UpdateContact | DeleteContact | LogInteraction

  /** The prefixes each mutation's `onSuccess` passes to
      `invalidateQueries`, in order. */
  function ContactInvalidations(m: ContactMutation): (ps: seq<QueryKey>)
    ensures |ps| >= 1 && ps[0] == ContactsKey()
    ensures DashboardRoot() in ps <==> m != UpdateContact
  {
    match m
    case UpdateContact => [ContactsKey()]
    case _ => [ContactsKey(), DashboardRoot()]
  }

  /** The cache after a contact mutation settles: `onSuccess` runs only when
      the mutation succeeded. */
  function AfterContactMutation(entries: Entries, m: ContactMutation, succeeded: bool): (r: Entries)
    ensures r.Keys == entries.Keys
    ensures forall k :: k in r && HasPrefix(ContactsKey(), k) ==> r[k] == (if succeeded then Stale else entries[k])
  {
    if succeeded then InvalidateAll(entries, ContactInvalidations(m)) else entries
  }

  /** A settled contact mutation. */
  method SettleContactMutation(cache: Cache, m: ContactMutation, succeeded: bool)
    modifies cache
    ensures cache.entries == AfterContactMutation(old(cache.entries), m, succeeded)
  {
    if succeeded {
      cache.InvalidateQueries(ContactsKey());
      InvalidateAllCons(old(cache.entries), ContactsKey(), []);
      if m != UpdateContact {
        cache.InvalidateQueries(DashboardRoot());
        InvalidateAllCons(old(cache.entries), ContactsKey(), [DashboardRoot()]);
        InvalidateAllCons(Invalidate(old(cache.entries), ContactsKey()), DashboardRoot(), []);
      }
    }
  }

  /** `useContact(id)` renders: an empty id fetches nothing and changes
      nothing. */
  method UseContact(cache: Cache, id: string) returns (fetched: bool)
    modifies cache
    ensures id == "" ==> !fetched && cache.entries == old(cache.entries)
    ensures id != "" ==> fetched == ShouldFetch(old(cache.entries), ContactKey(id), true)
    ensures cache.entries == if fetched then old(cache.entries)[ContactKey(id) := Fresh] else old(cache.entries)
  {
    fetched := cache.Read(ContactKey(id), ContactQueryEnabled(id));
  }

  /** Create, delete and log-interaction leave every held contact and
      dashboard key stale, and change no other key. */
  lemma ContactMutationInvalidates(entries: Entries, m: ContactMutation)
    requires m != UpdateContact
    ensures var r := AfterContactMutation(entries, m, true);
      r.Keys == entries.Keys &&
      (forall k :: k in r && (HasPrefix(ContactsKey(), k) || HasPrefix(DashboardRoot(), k)) ==> r[k] == Stale) &&
      (forall k :: k in r && !HasPrefix(ContactsKey(), k) && !HasPrefix(DashboardRoot(), k) ==> r[k] == entries[k])
  {
    var ps := ContactInvalidations(m);
    forall k ensures HasAnyPrefix(ps, k) <==> HasPrefix(ContactsKey(), k) || HasPrefix(DashboardRoot(), k) {
      if HasPrefix(DashboardRoot(), k) {
        assert HasPrefix(ps[1], k);
      }
      if HasPrefix(ContactsKey(), k) {
        assert HasPrefix(ps[0], k);
      }
    }
  }

  /** In particular the three dashboard queries refetch on their next read. */
  lemma ContactMutationRefreshesDashboard(entries: Entries, m: ContactMutation)
    requires m != UpdateContact
    ensures forall k :: k in {DashboardStatsKey(), StaleContactsKey(), RecentContactsKey()} ==>
      ShouldFetch(AfterContactMutation(entries, m, true), k, true)
  {
    ContactMutationInvalidates(entries, m);
  }

  /** An update leaves the dashboard keys as they were. */
  lemma UpdateSparesDashboard(entries: Entries)
    ensures var r := AfterContactMutation(entries, UpdateContact, true);
      r.Keys == entries.Keys &&
      (forall k :: k in r && HasPrefix(ContactsKey(), k) ==> r[k] == Stale) &&
      (forall k :: k in r && HasPrefix(DashboardRoot(), k) ==> r[k] == entries[k])
  {
    var ps := ContactInvalidations(UpdateContact);
    forall k | HasPrefix(DashboardRoot(), k) ensures !HasAnyPrefix(ps, k) {
      DisjointRoots("contacts", "dashboard", k);
    }
    forall k | HasPrefix(ContactsKey(), k) ensures HasAnyPrefix(ps, k) {
      assert HasPrefix(ps[0], k);
    }
  }

  /** No contact mutation, successful or not, touches a reminders key. */
  lemma ContactMutationSparesReminders(entries: Entries, m: ContactMutation, succeeded: bool)
    ensures var r := AfterContactMutation(entries, m, succeeded);
      r.Keys == entries.Keys &&
      forall k :: k in r && HasPrefix(["reminders"], k) ==> r[k] == entries[k]
  {
    var ps := ContactInvalidations(m);
    forall k | HasPrefix(["reminders"], k) ensures !HasAnyPrefix(ps, k) {
      DisjointRoots("contacts", "reminders", k);
      DisjointRoots("dashboard", "reminders", k);
    }
  }

  /** A failed mutation changes no entry. */
  lemma FailedContactMutationChangesNothing(entries: Entries, m: ContactMutation)
    ensures AfterContactMutation(entries, m, false) == entries
  {
  }
}

/** The reminder queries and mutations (src/hooks/use-reminders.ts). */
module ReminderHooks {
  import opened QueryCache
  import opened DashboardHooks

  /** `useReminders()`'s key, also the prefix the mutations invalidate. */
  function RemindersKey(): QueryKey { ["reminders"] }

  /** `useUpcomingReminders()`'s key. */
  function UpcomingRemindersKey(): (k: QueryKey)
    ensures HasPrefix(RemindersKey(), k)
  {
    ["reminders", "upcoming"]
  }

  /** `useReminder(id)`'s key. It coincides with the upcoming list's key
      only for the id "upcoming". */
  function ReminderKey(id: string): (k: QueryKey)
    ensures HasPrefix(RemindersKey(), k) && k != RemindersKey()
    ensures k == UpcomingRemindersKey() <==> id == "upcoming"
  {
    ["reminders", id]
  }

  /** `enabled: !!id`. */
  function ReminderQueryEnabled(id: string): bool {
    id != ""
  }

  datatype ReminderMutation = CreateReminder | UpdateReminder | DeleteReminder | CompleteReminder

  /** The prefixes each mutation's `onSuccess` passes to
      `invalidateQueries`, in order. */
  function ReminderInvalidations(m: ReminderMutation): (ps: seq<QueryKey>)
    ensures |ps| >= 1 && ps[0] == RemindersKey()
    ensures DashboardRoot() in ps <==> m != UpdateReminder
  {
    match m
    case UpdateReminder => [RemindersKey()]
    case _ => [RemindersKey(), DashboardRoot()]
  }

  function AfterReminderMutation(entries: Entries, m: ReminderMutation, succeeded: bool): (r: Entries)
    ensures r.Keys == entries.Keys
    ensures forall k :: k in r && HasPrefix(RemindersKey(), k) ==> r[k] == (if succeeded then Stale else entries[k])
  {
    if succeeded then InvalidateAll(entries, ReminderInvalidations(m)) else entries
  }

  /** A settled reminder mutation. */
  method SettleReminderMutation(cache: Cache, m: ReminderMutation, succeeded: bool)
    modifies cache
    ensures cache.entries == AfterReminderMutation(old(cache.entries), m, succeeded)
  {
    if succeeded {
      cache.InvalidateQueries(RemindersKey());
      InvalidateAllCons(old(cache.entries), RemindersKey(), []);
      if m != UpdateReminder {
        cache.InvalidateQueries(DashboardRoot());
        InvalidateAllCons(old(cache.entries), RemindersKey(), [DashboardRoot()]);
        InvalidateAllCons(Invalidate(old(cache.entries), RemindersKey()), DashboardRoot(), []);
      }
    }
  }

  /** `useReminder(id)` renders: an empty id fetches nothing and changes
      nothing. */
  method UseReminder(cache: Cache, id: string) returns (fetched: bool)
    modifies cache
    ensures id == "" ==> !fetched && cache.entries == old(cache.entries)
    ensures id != "" ==> fetched == ShouldFetch(old(cache.entries), ReminderKey(id), true)
    ensures cache.entries == if fetched then old(cache.entries)[ReminderKey(id) := Fresh] else old(cache.entries)
  {
    fetched := cache.Read(ReminderKey(id), ReminderQueryEnabled(id));
  }

  /** Create, delete and complete leave every held reminders key (the
      upcoming list's included) and every dashboard key stale, and change no
      other key. */
  lemma ReminderMutationInvalidates(entries: Entries, m: ReminderMutation)
    requires m != UpdateReminder
    ensures var r := AfterReminderMutation(entries, m, true);
      r.Keys == entries.Keys &&
      (forall k :: k in r && (HasPrefix(RemindersKey(), k) || HasPrefix(DashboardRoot(), k)) ==> r[k] == Stale) &&
      (forall k :: k in r && !HasPrefix(RemindersKey(), k) && !HasPrefix(DashboardRoot(), k) ==> r[k] == entries[k])
  {
    var ps := ReminderInvalidations(m);
    forall k ensures HasAnyPrefix(ps, k) <==> HasPrefix(RemindersKey(), k) || HasPrefix(DashboardRoot(), k) {
      if HasPrefix(DashboardRoot(), k) {
        assert HasPrefix(ps[1], k);
      }
      if HasPrefix(RemindersKey(), k) {
        assert HasPrefix(ps[0], k);
      }
    }
  }

  /** In particular the upcoming list and the stats refetch on their next
      read. */
  lemma ReminderMutationRefreshesUpcoming(entries: Entries, m: ReminderMutation)
    requires m != UpdateReminder
    ensures ShouldFetch(AfterReminderMutation(entries, m, true), UpcomingRemindersKey(), true)
    ensures ShouldFetch(AfterReminderMutation(entries, m, true), DashboardStatsKey(), true)
  {
    ReminderMutationInvalidates(entries, m);
  }

  /** An update leaves the dashboard keys as they were. */
  lemma UpdateReminderSparesDashboard(entries: Entries)
    ensures var r := AfterReminderMutation(entries, UpdateReminder, true);
      r.Keys == entries.Keys &&
      (forall k :: k in r && HasPrefix(RemindersKey(), k) ==> r[k] == Stale) &&
      (forall k :: k in r && HasPrefix(DashboardRoot(), k) ==> r[k] == entries[k])
  {
    var ps := ReminderInvalidations(UpdateReminder);
    forall k | HasPrefix(DashboardRoot(), k) ensures !HasAnyPrefix(ps, k) {
      DisjointRoots("reminders", "dashboard", k);
    }
    forall k | HasPrefix(RemindersKey(), k) ensures HasAnyPrefix(ps, k) {
      assert HasPrefix(ps[0], k);
    }
  }

  /** No reminder mutation, successful or not, touches a contacts key. */
  lemma ReminderMutationSparesContacts(entries: Entries, m: ReminderMutation, succeeded: bool)
    ensures var r := AfterReminderMutation(entries, m, succeeded);
      r.Keys == entries.Keys &&
      forall k :: k in r && HasPrefix(["contacts"], k) ==> r[k] == entries[k]
  {
    var ps := ReminderInvalidations(m);
    forall k | HasPrefix(["contacts"], k) ensures !HasAnyPrefix(ps, k) {
      DisjointRoots("reminders", "contacts", k);
      DisjointRoots("dashboard", "contacts", k);
    }
  }

  /** A failed mutation changes no entry. */
  lemma FailedReminderMutationChangesNothing(entries: Entries, m: ReminderMutation)
    ensures AfterReminderMutation(entries, m, false) == entries
  {
  }
}
