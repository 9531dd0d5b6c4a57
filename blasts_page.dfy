/** The blast composer (src/pages/Blasts.tsx): the recipients, the two
    checks before the preview, and the preview/send steps. Sending only
    shows a toast; no request is made. */
module BlastsPage {
  import opened Wrappers
  import opened Types
  import opened Text
  import opened Seqs

  /** `contactsWithEmail`: the loaded contacts whose email is not empty. */
  function ContactsWithEmail(contacts: Option<seq<Contact>>): (r: seq<Contact>)
    ensures contacts == None ==> r == []
    ensures forall i :: 0 <= i < |r| ==> r[i].email != ""
  {
    Filter(OrEmpty(contacts), (c: Contact) => Truthy(c.email))
  }

  /** The recipients are exactly the contacts with an email, in list order
      and with their multiplicities. */
  lemma RecipientsAreContactsWithEmail(contacts: Option<seq<Contact>>)
    ensures var all, r := OrEmpty(contacts), ContactsWithEmail(contacts);
      IsSubsequence(r, all) &&
      (forall c :: c in r <==> c in all && c.email != "") &&
      (forall c :: multiset(r)[c] == if c.email != "" then multiset(all)[c] else 0)
  {
    var all := OrEmpty(contacts);
    var p := (c: Contact) => Truthy(c.email);
    FilterIsSubsequence(all, p);
    FilterMembership(all, p);
    FilterMultiset(all, p);
  }

  /** The checks of `handleSave`, in their order: a blank message first,
      then an empty recipient list. */
  function BlastSaveError(message: string, recipientCount: nat): (r: Option<string>)
    ensures IsBlank(message) ==> r == Some("Please enter a message")
    ensures !IsBlank(message) && recipientCount == 0 ==> r == Some("No contacts with email addresses")
    ensures !IsBlank(message) && recipientCount > 0 ==> r == None
  {
    TrimEmptyIffBlank(message);
    if !Truthy(Trim(message)) then Some("Please enter a message")
    else if recipientCount == 0 then Some("No contacts with email addresses")
    else None
  }

  /** The success toast of `handleSend`. */
  function BlastSentText(count: nat): string {
    "Blast ready to send to " + NatToString(count) + " contacts!"
  }

  /** The toast names the recipient count unambiguously. */
  lemma BlastSentTextInjective(m: nat, n: nat)
    ensures BlastSentText(m) == BlastSentText(n) <==> m == n
  {
    NumberInTextInjective("Blast ready to send to ", m, n, " contacts!");
  }

  /** The composer's state. */
  class BlastComposer {
    var message: string
    var isPreviewOpen: bool

    constructor ()
      ensures message == "" && !isPreviewOpen
    {
      message := "";
      isPreviewOpen := false;
    }

    /** The textarea's `onChange`. */
    method EditMessage(text: string)
      modifies this
      ensures message == text && isPreviewOpen == old(isPreviewOpen)
    {
      message := text;
    }

    /** The preview dialog's `onOpenChange` and its Cancel button. */
    method SetPreviewOpen(open: bool)
      modifies this
      ensures isPreviewOpen == open && message == old(message)
    {
      isPreviewOpen := open;
    }

    /** `handleSave`: a failed check shows its error and changes nothing;
        otherwise the preview opens. The message is never touched. */
    method HandleSave(contacts: Option<seq<Contact>>) returns (toast: Option<Toast>)
      modifies this
      ensures message == old(message)
      ensures IsBlank(old(message)) ==>
        toast == Some(ToastError("Please enter a message")) && isPreviewOpen == old(isPreviewOpen)
      ensures !IsBlank(old(message)) && |ContactsWithEmail(contacts)| == 0 ==>
        toast == Some(ToastError("No contacts with email addresses")) && isPreviewOpen == old(isPreviewOpen)
      ensures !IsBlank(old(message)) && |ContactsWithEmail(contacts)| > 0 ==>
        toast == None && isPreviewOpen
    {
      var error := BlastSaveError(message, |ContactsWithEmail(contacts)|);
      if error.Some? {
        return Some(ToastError(error.value));
      }
      isPreviewOpen := true;
      toast := None;
    }

    /** `handleSend`: reports the recipient count, closes the preview and
        clears the message. */
    method HandleSend(contacts: Option<seq<Contact>>) returns (toast: Toast)
      modifies this
      ensures toast == ToastSuccess(BlastSentText(|ContactsWithEmail(contacts)|))
      ensures !isPreviewOpen && message == ""
    {
      toast := ToastSuccess(BlastSentText(|ContactsWithEmail(contacts)|));
      isPreviewOpen := false;
      message := "";
    }
  }
}
