/** The record shapes the client exchanges with the server
    (src/types/friendforce.ts). They carry no behaviour. */
module Types {
  import opened Wrappers

  datatype ContactType = Friend | Professional | Mentor

  /** The string literal a `ContactType` is in the source. */
  function ContactTypeName(t: ContactType): (name: string)
    ensures name != "all"
  {
    match t
    case Friend => "friend"
    case Professional => "professional"
    case Mentor => "mentor"
  }

  lemma ContactTypeNameInjective(s: ContactType, t: ContactType)
    ensures ContactTypeName(s) == ContactTypeName(t) <==> s == t
  {
  }

  /** A contact as the server returns it. `birthday` and `lastContact` are
      nullable strings; timestamps stay uninterpreted text. */
  datatype Contact = Contact(
    id: string,
    name: string,
    email: string,
    phone: string,
    contactType: ContactType,
    birthday: Option<string>,
    lastContact: Option<string>,
    notes: string,
    needsAttention: bool,
    createdAt: string,
    updatedAt: string)

  datatype ReminderFrequency = NoRepeat | Weekly | Monthly | Quarterly | Yearly

  /** A reminder as the server returns it; `dueDate` is a day number
      (days since an arbitrary epoch) instead of a date string. */
  datatype Reminder = Reminder(
    id: string,
    contact: string,
    contactName: string,
    title: string,
    dueDate: int,
    frequency: ReminderFrequency,
    completed: bool,
    createdAt: string,
    updatedAt: string)

  datatype DashboardStats = DashboardStats(
    totalContacts: int,
    upcomingReminders: int,
    recentInteractionsCount: int,
    needsAttention: int)

  /** The create/update payload for a contact and also the Add-Contact
      dialog's form state: every field but `name` and `contactType` is
      optional. */
  datatype ContactFormData = ContactFormData(
    name: string,
    email: Option<string>,
    phone: Option<string>,
    contactType: ContactType,
    birthday: Option<string>,
    notes: Option<string>)

  /** The create payload for a reminder and the Add-Reminder dialog's form
      state; `dueDate` is the date input's raw text. */
  datatype ReminderFormData = ReminderFormData(
    contact: string,
    title: string,
    dueDate: string,
    frequency: ReminderFrequency)

  /** A toast notification, the pages' only user-visible output that is not
      markup. */
  datatype Toast = ToastSuccess(text: string) | ToastError(text: string)
}
