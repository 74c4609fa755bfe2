/** Which contact of a company an email goes to. */
module Recipient {
  import opened Text

  datatype Contact = Contact(id: int, firstName: string, lastName: string, email: string, isPrimary: bool)

  datatype Recipient = Recipient(id: int, firstName: string, lastName: string, email: string)

  const NOBODY := Recipient(0, "", "", "")

  /** The contact's name and number, and the address without the white space around it. */
  predicate IsOf(r: Recipient, c: Contact) {
    r.id == c.id && r.firstName == c.firstName && r.lastName == c.lastName && r.email == TrimSpace(c.email)
  }

  /** What a contact may be looked for by. */
  datatype Want = ById(id: int) | PrimaryWithEmail | AnyWithEmail

  predicate HasEmail(c: Contact) {
    TrimSpace(c.email) != ""
  }

  predicate Fits(want: Want, c: Contact) {
    match want
    case ById(id) => c.id == id
    case PrimaryWithEmail => c.isPrimary && HasEmail(c)
    case AnyWithEmail => HasEmail(c)
  }

  predicate IsFirst(contacts: seq<Contact>, want: Want, i: nat) {
    i < |contacts| && Fits(want, contacts[i]) && forall j :: 0 <= j < i ==> !Fits(want, contacts[j])
  }

  predicate IsLast(contacts: seq<Contact>, want: Want, i: nat) {
    i < |contacts| && Fits(want, contacts[i]) && forall j :: i < j < |contacts| ==> !Fits(want, contacts[j])
  }

  predicate NoneFits(contacts: seq<Contact>, want: Want) {
    forall j :: 0 <= j < |contacts| ==> !Fits(want, contacts[j])
  }

  /** The rule: the first contact asked for by id, good only if it has an email; with nobody asked for, the last
      primary contact with an email, else the first contact with an email, else nobody. */
  ghost predicate Chosen(contacts: seq<Contact>, requested: int, r: Recipient, ok: bool) {
    if requested > 0 then
      || (NoneFits(contacts, ById(requested)) && r == NOBODY && !ok)
      || exists i: nat ::
           IsFirst(contacts, ById(requested), i) && IsOf(r, contacts[i]) && ok == HasEmail(contacts[i])
    else
      || (exists i: nat :: IsLast(contacts, PrimaryWithEmail, i) && IsOf(r, contacts[i]) && ok)
      || (NoneFits(contacts, PrimaryWithEmail)
          && exists i: nat :: IsFirst(contacts, AnyWithEmail, i) && IsOf(r, contacts[i]) && ok)
      || (NoneFits(contacts, AnyWithEmail) && r == NOBODY && !ok)
  }

  /** Nothing found yet. */
  predicate Held(contacts: seq<Contact>, want: Want, r: Recipient) {
    r == NOBODY && NoneFits(contacts, want)
  }

  predicate Last(contacts: seq<Contact>, r: Recipient, i: nat) {
    IsLast(contacts, PrimaryWithEmail, i) && IsOf(r, contacts[i])
  }

  predicate First(contacts: seq<Contact>, r: Recipient, i: nat) {
    IsFirst(contacts, AnyWithEmail, i) && IsOf(r, contacts[i])
  }

  lemma FirstById(contacts: seq<Contact>, requested: int, k: nat)
    requires k < |contacts| && contacts[k].id == requested && NoneFits(contacts[..k], ById(requested))
    ensures IsFirst(contacts, ById(requested), k)
  {
  }

  method CompanyEmailRecipient(contacts: seq<Contact>, requested: int) returns (recipient: Recipient, ok: bool)
    ensures Chosen(contacts, requested, recipient, ok)
  {
    var primary, firstWithEmail := NOBODY, NOBODY;
    ghost var p: nat, f: nat := 0, 0;
    for k := 0 to |contacts|
      invariant requested > 0 ==> NoneFits(contacts[..k], ById(requested))
      invariant Held(contacts[..k], PrimaryWithEmail, primary) || Last(contacts[..k], primary, p)
      invariant Held(contacts[..k], AnyWithEmail, firstWithEmail) || First(contacts[..k], firstWithEmail, f)
    {
      var contact := contacts[k];
      recipient := Recipient(contact.id, contact.firstName, contact.lastName, TrimSpace(contact.email));
      if requested > 0 && contact.id == requested {
        ok := recipient.email != "";
        FirstById(contacts, requested, k);
        return;
      }
      assert contacts[..k + 1] == contacts[..k] + [contact];
      if recipient.email == "" {
        continue;
      }
      if contact.isPrimary {
        primary, p := recipient, k;
      }
      if firstWithEmail.email == "" {
        firstWithEmail, f := recipient, k;
      }
    }
    assert contacts[..|contacts|] == contacts;
    if requested > 0 {
      return NOBODY, false;
    }
    if primary.email != "" {
      return primary, true;
    }
    recipient, ok := firstWithEmail, firstWithEmail.email != "";
  }

  /** The rule leaves no choice: for every list and request there is exactly one answer. */
  lemma ChoiceIsUnique(contacts: seq<Contact>, requested: int, r: Recipient, ok: bool, r': Recipient, ok': bool)
    requires Chosen(contacts, requested, r, ok) && Chosen(contacts, requested, r', ok')
    ensures r == r' && ok == ok'
  {
  }
}
