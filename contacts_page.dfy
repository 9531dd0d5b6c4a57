/** The contacts page (src/pages/Contacts.tsx): the search and type filter,
    the per-type counts and the Add-Contact dialog. */
module ContactsPage {
  import opened Wrappers
  import opened Types
  import opened Text
  import opened Seqs
  import opened QueryCache
  import opened ContactHooks
  import Api

  /** The case-insensitive search: the search text occurs in the name or in
      the email. */
  predicate MatchesSearch(c: Contact, search: string) {
    Contains(Lower(c.name), Lower(search)) || Contains(Lower(c.email), Lower(search))
  }

  /** The type selector: "all", or the contact's own type name. */
  predicate MatchesType(c: Contact, selectedType: string) {
    selectedType == "all" || ContactTypeName(c.contactType) == selectedType
  }

  predicate Matches(c: Contact, search: string, selectedType: string) {
    MatchesSearch(c, search) && MatchesType(c, selectedType)
  }

  /** `filteredContacts`: the loaded contacts that match both controls, or
      nothing while the list is still loading. */
  function FilteredContacts(contacts: Option<seq<Contact>>, search: string, selectedType: string): (r: seq<Contact>)
    ensures contacts == None ==> r == []
    ensures forall i :: 0 <= i < |r| ==>
      (Contains(Lower(r[i].name), Lower(search)) || Contains(Lower(r[i].email), Lower(search))) &&
      (selectedType == "all" || ContactTypeName(r[i].contactType) == selectedType)
  {
    Filter(OrEmpty(contacts), c => Matches(c, search, selectedType))
  }

  /** The filtered list keeps the contacts' order. */
  lemma FilteredIsSubsequence(contacts: Option<seq<Contact>>, search: string, selectedType: string)
    ensures IsSubsequence(FilteredContacts(contacts, search, selectedType), OrEmpty(contacts))
  {
    FilterIsSubsequence(OrEmpty(contacts), c => Matches(c, search, selectedType));
  }

  /** No matching contact is dropped, and each is kept as often as it occurs. */
  lemma FilteredIsComplete(contacts: Option<seq<Contact>>, search: string, selectedType: string)
    ensures forall c :: multiset(FilteredContacts(contacts, search, selectedType))[c] ==
                        (if Matches(c, search, selectedType) then multiset(OrEmpty(contacts))[c] else 0)
  {
    FilterMultiset(OrEmpty(contacts), c => Matches(c, search, selectedType));
  }

  /** Filtering the filtered list again with the same controls changes
      nothing. */
  lemma FilteredIdempotent(contacts: Option<seq<Contact>>, search: string, selectedType: string)
    ensures FilteredContacts(Some(FilteredContacts(contacts, search, selectedType)), search, selectedType) ==
      FilteredContacts(contacts, search, selectedType)
  {
    FilterIdempotent(OrEmpty(contacts), c => Matches(c, search, selectedType));
  }

  lemma ContainsEmpty(hay: string)
    ensures Contains(hay, "")
  {
    assert IsPrefix("", hay);
  }

  /** With an empty search and the type "all" every contact is shown. */
  lemma UnfilteredShowsAll(contacts: seq<Contact>)
    ensures FilteredContacts(Some(contacts), "", "all") == contacts
  {
    forall i | 0 <= i < |contacts| ensures Matches(contacts[i], "", "all") {
      ContainsEmpty(Lower(contacts[i].name));
    }
    FilterKeepsAll(contacts, c => Matches(c, "", "all"));
  }

  /** `contactsByType`: the three counts. */
  datatype TypeCounts = TypeCounts(friend: nat, professional: nat, mentor: nat)

  function CountOfType(contacts: seq<Contact>, t: ContactType): nat {
    |Filter(contacts, (c: Contact) => c.contactType == t)|
  }

  /** The counts per type, over the whole loaded list; the search and the
      type selector play no part. A list not yet loaded counts zero of
      each. */
  function ContactsByType(contacts: Option<seq<Contact>>): (r: TypeCounts)
    ensures contacts == None ==> r == TypeCounts(0, 0, 0)
  {
    var cs := OrEmpty(contacts);
    TypeCounts(CountOfType(cs, Friend), CountOfType(cs, Professional), CountOfType(cs, Mentor))
  }

  /** Every contact has exactly one of the three types, so the counts add up
      to the list's length. */
  lemma {:induction false} CountsCoverAll(contacts: seq<Contact>)
    ensures var r := ContactsByType(Some(contacts));
      r.friend + r.professional + r.mentor == |contacts|
  {
    if contacts != [] {
      CountsCoverAll(contacts[1..]);
    }
  }

  /** Each count is the size of the list the page shows for that type with
      an empty search. */
  lemma CountIsUnsearchedFilter(contacts: seq<Contact>, t: ContactType)
    ensures CountOfType(contacts, t) == |FilteredContacts(Some(contacts), "", ContactTypeName(t))|
  {
    forall c: Contact ensures (c.contactType == t) == Matches(c, "", ContactTypeName(t)) {
      ContainsEmpty(Lower(c.name));
      ContactTypeNameInjective(c.contactType, t);
    }
    FilterCongruent(contacts, (c: Contact) => c.contactType == t, c => Matches(c, "", ContactTypeName(t)));
  }

  /** The dialog's initial and reset state: every text field empty, type
      "friend". */
  function EmptyContactForm(): ContactFormData {
    ContactFormData("", Some(""), Some(""), Friend, Some(""), Some(""))
  }

  /** `formData.x && { x: formData.x }`: an optional field is sent only when
      it holds a non-empty string. */
  function KeepTruthy(field: Option<string>): (r: Option<string>)
    ensures r.Some? <==> field.Some? && field.value != ""
    ensures r.Some? ==> r == field
  {
    if field.Some? && Truthy(field.value) then field else None
  }

  /** The create payload built from the form. */
  function BuildContactPayload(form: ContactFormData): (r: ContactFormData)
    ensures r.name == form.name && r.contactType == form.contactType
    ensures r.email.Some? <==> form.email.Some? && form.email.value != ""
    ensures r.phone.Some? <==> form.phone.Some? && form.phone.value != ""
    ensures r.birthday.Some? <==> form.birthday.Some? && form.birthday.value != ""
    ensures r.notes.Some? <==> form.notes.Some? && form.notes.value != ""
    ensures r.email.Some? ==> r.email == form.email
    ensures r.phone.Some? ==> r.phone == form.phone
    ensures r.birthday.Some? ==> r.birthday == form.birthday
    ensures r.notes.Some? ==> r.notes == form.notes
  {
    ContactFormData(form.name, KeepTruthy(form.email), KeepTruthy(form.phone), form.contactType,
      KeepTruthy(form.birthday), KeepTruthy(form.notes))
  }

  /** A payload never carries an empty optional field, so building it twice
      is building it once. */
  lemma PayloadIdempotent(form: ContactFormData)
    ensures BuildContactPayload(BuildContactPayload(form)) == BuildContactPayload(form)
  {
  }

  /** The reset form yields a payload with only the name and the type. */
  lemma EmptyFormPayload()
    ensures BuildContactPayload(EmptyContactForm()) == ContactFormData("", None, None, Friend, None, None)
  {
  }

  /** The validation at the top of `handleAddContact`. */
  function ContactFormError(form: ContactFormData): (r: Option<string>)
    ensures r.Some? <==> form.name == ""
    ensures r.Some? ==> r.value == "Name is required"
  {
    if !Truthy(form.name) then Some("Name is required") else None
  }

  /** The page's dialog state. */
  class ContactsPageState {
    var isAddDialogOpen: bool
    var formData: ContactFormData

    constructor ()
      ensures !isAddDialogOpen && formData == EmptyContactForm()
    {
      isAddDialogOpen := false;
      formData := EmptyContactForm();
    }

    /** The dialog's `onOpenChange`: the trigger, Cancel and the close button. */
    method SetAddDialogOpen(open: bool)
      modifies this
      ensures isAddDialogOpen == open && formData == old(formData)
    {
      isAddDialogOpen := open;
    }

    /** An edit of one of the dialog's inputs. */
    method SetFormData(form: ContactFormData)
      modifies this
      ensures formData == form && isAddDialogOpen == old(isAddDialogOpen)
    {
      formData := form;
    }

    /** `handleAddContact`, with `createSucceeds` standing for whether
        `createContact.mutateAsync` resolves. Returns the payload it sends
        (None when nothing is sent) and the toast it shows. A rejected
        create throws out of the handler before the dialog is touched. */
    method HandleAddContact(cache: Cache, createSucceeds: bool)
      returns (sent: Option<ContactFormData>, toast: Option<Toast>)
      modifies this, cache
      ensures old(formData.name) == "" ==>
        sent == None && toast == Some(ToastError("Name is required")) &&
        isAddDialogOpen == old(isAddDialogOpen) && formData == old(formData) &&
        cache.entries == old(cache.entries)
      ensures old(formData.name) != "" ==>
        sent == Some(BuildContactPayload(old(formData))) &&
        cache.entries == AfterContactMutation(old(cache.entries), CreateContact, createSucceeds)
      ensures old(formData.name) != "" && createSucceeds ==>
        !isAddDialogOpen && formData == EmptyContactForm() &&
        toast == Some(ToastSuccess("Contact added successfully"))
      ensures old(formData.name) != "" && !createSucceeds ==>
        isAddDialogOpen == old(isAddDialogOpen) && formData == old(formData) && toast == None
    {
      var error := ContactFormError(formData);
      if error.Some? {
        return None, Some(ToastError(error.value));
      }
      sent := Some(BuildContactPayload(formData));
      SettleContactMutation(cache, CreateContact, createSucceeds);
      if !createSucceeds {
        return sent, None;
      }
      isAddDialogOpen := false;
      formData := EmptyContactForm();
      toast := Some(ToastSuccess("Contact added successfully"));
    }

    /** `handleDeleteContact(id)`: the request deletes that contact; the
        dialog state is untouched. */
    method HandleDeleteContact(cache: Cache, id: string, deleteSucceeds: bool)
      returns (sent: Api.Endpoint, toast: Option<Toast>)
      modifies cache
      ensures sent == Api.DeleteContact(id)
      ensures cache.entries == AfterContactMutation(old(cache.entries), DeleteContact, deleteSucceeds)
      ensures toast == if deleteSucceeds then Some(ToastSuccess("Contact deleted")) else None
    {
      sent := Api.DeleteContact(id);
      SettleContactMutation(cache, DeleteContact, deleteSucceeds);
      toast := if deleteSucceeds then Some(ToastSuccess("Contact deleted")) else None;
    }
  }
}
