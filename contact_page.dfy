/** The admin contact page: the shop's phone, WhatsApp number and email,
    edited in a form and saved to the store after two checks. */
module ContactPage {
  import opened Js
  import opened Text

  /** The stored contact record; a missing field reads as the empty string. */
  datatype ContactData = ContactData(phone: string, whatsapp: string, email: string)

  /** The three inputs, by their `name` attribute. */
  datatype Field = Phone | Whatsapp | Email

  function EmptyContact(): ContactData {
    ContactData("", "", "")
  }

  /** `{ ...contactData, [name]: value }`. */
  function SetField(d: ContactData, field: Field, value: string): (r: ContactData)
    ensures field == Phone ==> r == d.(phone := value)
    ensures field == Whatsapp ==> r == d.(whatsapp := value)
    ensures field == Email ==> r == d.(email := value)
  {
    match field
      case Phone => d.(phone := value)
      case Whatsapp => d.(whatsapp := value)
      case Email => d.(email := value)
  }

  function Get(d: ContactData, field: Field): string {
    match field
      case Phone => d.phone
      case Whatsapp => d.whatsapp
      case Email => d.email
  }

  /** An input change sets the named field and leaves the other two alone. */
  lemma SetFieldOnlyThatField(d: ContactData, field: Field, value: string, other: Field)
    ensures Get(SetField(d, field, value), field) == value
    ensures other != field ==> Get(SetField(d, field, value), other) == Get(d, other)
  {
  }

  const FillAllAlert := "Please fill in all fields"
  const InvalidEmailAlert := "Please enter a valid email address"
  const SavedAlert := "Contact information updated successfully!"
  const FailedAlert := "Failed to update contact information. Please try again."

  // ---------------------------------------------------------------------------
  // The email pattern `^[^\s@]+@[^\s@]+\.[^\s@]+$`

  /** A character of the class `[^\s@]`. */
  predicate EmailChar(c: char) {
    !IsWhitespace(c) && c != '@'
  }

  /** `[^\s@]+`: one or more such characters. */
  predicate Run(x: string) {
    |x| > 0 && forall i :: 0 <= i < |x| ==> EmailChar(x[i])
  }

  /** A match of the pattern: `s` splits at an '@' (index `p`) and a later '.'
      (index `q`) into three runs of `[^\s@]+`. */
  ghost predicate MatchesEmailPattern(s: string) {
    exists p, q :: 0 <= p < q < |s| && s[p] == '@' && s[q] == '.'
      && Run(s[..p]) && Run(s[p + 1..q]) && Run(s[q + 1..])
  }

  /** Every '@' of `s` is at index `p`. */
  predicate OnlyAtAt(s: string, p: nat) {
    forall i :: 0 <= i < |s| && s[i] == '@' ==> i == p
  }

  /** The domain has a '.' that is neither its first nor its last character. */
  predicate InnerDot(domain: string) {
    exists j :: 0 < j < |domain| - 1 && domain[j] == '.'
  }

  /** The address as the page accepts it, described without the pattern: no
      whitespace, exactly one '@', a non-empty name before it, and a domain
      after it holding an inner '.'. */
  predicate ValidEmail(s: string) {
    var p := IndexOf(s, '@');
    NoWhitespace(s) && p < |s| && OnlyAtAt(s, p) && p > 0 && InnerDot(s[p + 1..])
  }

  /** The pattern matches exactly the addresses `ValidEmail` describes. */
  lemma EmailPatternIff(s: string)
    ensures MatchesEmailPattern(s) <==> ValidEmail(s)
  {
    if MatchesEmailPattern(s) {
      MatchIsValid(s);
    }
    if ValidEmail(s) {
      ValidIsMatch(s);
    }
  }

  /** Every character of a run taken from `s[lo..hi]` is an email character. */
  lemma RunChars(s: string, lo: nat, hi: nat)
    requires lo <= hi <= |s| && Run(s[lo..hi])
    ensures forall i :: lo <= i < hi ==> EmailChar(s[i])
  {
    forall i | lo <= i < hi ensures EmailChar(s[i]) {
      assert s[lo..hi][i - lo] == s[i];
    }
  }

  /** The three runs of a match at `p` and `q` cover every other index with
      email characters. */
  lemma SplitChars(s: string, p: nat, q: nat)
    requires 0 <= p < q < |s| && Run(s[..p]) && Run(s[p + 1..q]) && Run(s[q + 1..])
    ensures forall i :: 0 <= i < |s| && i != p && i != q ==> EmailChar(s[i])
  {
    assert s[..p] == s[0..p] && s[q + 1..] == s[q + 1..|s|];
    RunChars(s, 0, p);
    RunChars(s, p + 1, q);
    RunChars(s, q + 1, |s|);
  }

  lemma MatchIsValid(s: string)
    requires MatchesEmailPattern(s)
    ensures ValidEmail(s)
  {
    var p, q :| 0 <= p < q < |s| && s[p] == '@' && s[q] == '.'
      && Run(s[..p]) && Run(s[p + 1..q]) && Run(s[q + 1..]);
    SplitChars(s, p, q);
    assert IndexOf(s, '@') == p;
    assert s[p + 1..][q - p - 1] == '.';
  }

  lemma ValidIsMatch(s: string)
    requires ValidEmail(s)
    ensures MatchesEmailPattern(s)
  {
    var p := IndexOf(s, '@');
    var domain := s[p + 1..];
    var j :| 0 < j < |domain| - 1 && domain[j] == '.';
    var q := p + 1 + j;
    assert s[q] == '.';
    forall i | 0 <= i < |s| && i != p
      ensures EmailChar(s[i])
    {
    }
    assert Run(s[..p]) by {
      assert forall i :: 0 <= i < p ==> s[..p][i] == s[i];
    }
    var b, c := s[p + 1..q], s[q + 1..];
    forall i | 0 <= i < |b| ensures EmailChar(b[i]) {
      assert b[i] == s[p + 1 + i];
    }
    forall i | 0 <= i < |c| ensures EmailChar(c[i]) {
      assert c[i] == s[q + 1 + i];
    }
  }

  /** The two checks of `handleSave`, in order: the alert that stops the save,
      or None when the record is written. */
  function Rejection(d: ContactData): (r: Option<string>)
    ensures r == Some(FillAllAlert) <==> d.phone == "" || d.whatsapp == "" || d.email == ""
    ensures r.None? <==> d.phone != "" && d.whatsapp != "" && d.email != "" && ValidEmail(d.email)
    ensures r.Some? ==> r.value == FillAllAlert || r.value == InvalidEmailAlert
  {
    if d.phone == "" || d.whatsapp == "" || d.email == "" then Some(FillAllAlert)
    else if !ValidEmail(d.email) then Some(InvalidEmailAlert)
    else None
  }

  /** A record that passes both checks matches the email pattern, so a write
      never carries an empty field or a malformed address. */
  lemma WrittenRecordIsWellFormed(d: ContactData)
    requires Rejection(d).None?
    ensures d.phone != "" && d.whatsapp != "" && MatchesEmailPattern(d.email)
  {
    EmailPatternIff(d.email);
  }

  class Contact {
    var data: ContactData
    var loading: bool
    var saving: bool

    /** The form starts empty, loading, and not saving. */
    constructor ()
      ensures data == EmptyContact() && loading && !saving
    {
      data := EmptyContact();
      loading := true;
      saving := false;
    }

    /** The `getContact` subscription delivers a record. */
    method ReceiveContact(d: ContactData)
      modifies this
      ensures data == d && !loading && saving == old(saving)
    {
      data := d;
      loading := false;
    }

    method HandleInputChange(field: Field, value: string)
      modifies this
      ensures data == SetField(old(data), field, value)
      ensures loading == old(loading) && saving == old(saving)
    {
      data := SetField(data, field, value);
    }

    /** `handleSave`: the alert shown and the record written, if any. The
        store's answer is `writeOk`. A rejected record changes nothing; after
        an attempted write `saving` is false whatever the answer. */
    method HandleSave(writeOk: bool) returns (alert: string, written: Option<ContactData>)
      modifies this
      ensures Rejection(old(data)).Some? ==>
        alert == Rejection(old(data)).value && written.None? && saving == old(saving)
      ensures Rejection(old(data)).None? ==>
        written == Some(old(data)) && !saving && alert == (if writeOk then SavedAlert else FailedAlert)
      ensures data == old(data) && loading == old(loading)
    {
      var rejected := Rejection(data);
      if rejected.Some? {
        return rejected.value, None;
      }
      saving := true;
      written := Some(data);
      alert := if writeOk then SavedAlert else FailedAlert;
      saving := false;
    }
  }
}
