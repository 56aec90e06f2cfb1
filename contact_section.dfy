/**
 * The contact form (client/src/components/pages/Contact/ContactSection.tsx):
 * the rules each field is checked against before the form submits, and the
 * reset after a submit. A field left untouched is "". Lengths count
 * characters.
 */
module ContactSection {
  import opened Text

  datatype ContactForm = ContactForm(name: string, email: string, phone: string, subject: string, message: string)

  /** What `resetFields` restores. */
  const EmptyContact: ContactForm := ContactForm("", "", "", "", "")

  /** `[0-9+\-\s()]`. */
  predicate PhoneChar(c: char) {
    IsDigit(c) || c == '+' || c == '-' || IsSpace(c) || c == '(' || c == ')'
  }

  /** `/^[0-9+\-\s()]*$/`. */
  predicate PhonePattern(s: string) {
    forall i :: 0 <= i < |s| ==> PhoneChar(s[i])
  }

  /**
   * A required field with a minimum length: an empty value reports only the
   * required message (the length rule skips empty values), a short one only
   * the length message.
   */
  function RequiredMin(v: string, min: nat, requiredMessage: string, minMessage: string): seq<string> {
    if v == "" then [requiredMessage]
    else if |v| < min then [minMessage]
    else []
  }

  function NameErrors(v: string): seq<string> {
    RequiredMin(v, 2, "Please enter your full name", "Name must be at least 2 characters")
  }

  /** Required; the e-mail format check is antd's own and is not part of this model. */
  function EmailErrors(v: string): seq<string> {
    if v == "" then ["Please enter your email"] else []
  }

  /** Optional: only a non-empty value is matched against the pattern. */
  function PhoneErrors(v: string): seq<string> {
    if v != "" && !PhonePattern(v) then ["Please enter a valid phone number"] else []
  }

  function SubjectErrors(v: string): seq<string> {
    RequiredMin(v, 5, "Please enter a subject", "Subject must be at least 5 characters")
  }

  /** Required, at least 10 and at most 1000 characters. */
  function MessageErrors(v: string): seq<string> {
    RequiredMin(v, 10, "Please enter your message", "Message must be at least 10 characters")
    + (if |v| > 1000 then ["Message cannot exceed 1000 characters"] else [])
  }

  /** All messages, field by field in form order. */
  function ContactErrors(f: ContactForm): seq<string> {
    NameErrors(f.name) + EmailErrors(f.email) + PhoneErrors(f.phone) + SubjectErrors(f.subject) + MessageErrors(f.message)
  }

  /**
   * The form submits exactly when the name has at least 2 characters, the
   * e-mail is given, the phone is empty or uses only digits, '+', '-', white
   * space and parentheses, the subject has at least 5 characters and the
   * message between 10 and 1000.
   */
  lemma ContactErrorsSpec(f: ContactForm)
    ensures ContactErrors(f) == [] <==>
      && |f.name| >= 2
      && f.email != ""
      && PhonePattern(f.phone)
      && |f.subject| >= 5
      && 10 <= |f.message| <= 1000
  {
    assert |ContactErrors(f)| == |NameErrors(f.name)| + |EmailErrors(f.email)| + |PhoneErrors(f.phone)|
      + |SubjectErrors(f.subject)| + |MessageErrors(f.message)|;
  }

  /** Each field reports at most one message; the message field's two length rules never fail together. */
  lemma OneMessagePerField(f: ContactForm)
    ensures |NameErrors(f.name)| <= 1 && |EmailErrors(f.email)| <= 1 && |PhoneErrors(f.phone)| <= 1
    ensures |SubjectErrors(f.subject)| <= 1 && |MessageErrors(f.message)| <= 1
    ensures |ContactErrors(f)| <= 5
  {
  }

  /** The empty form reports the four required fields and nothing about the optional phone. */
  lemma EmptyContactErrors()
    ensures ContactErrors(EmptyContact) ==
      ["Please enter your full name", "Please enter your email", "Please enter a subject", "Please enter your message"]
  {
  }

  /** Edge lengths: a 1-character name and a 1001-character message are refused, 2 and 1000 pass. */
  lemma LengthBoundaries(f: ContactForm)
    requires f.email != "" && f.phone == "" && |f.subject| >= 5
    ensures |f.name| == 1 ==> NameErrors(f.name) == ["Name must be at least 2 characters"]
    ensures |f.name| == 2 && |f.message| == 1000 ==> ContactErrors(f) == []
    ensures |f.message| == 1001 ==> MessageErrors(f.message) == ["Message cannot exceed 1000 characters"]
  {
    ContactErrorsSpec(f);
  }

  /** The form the contact section holds. */
  class ContactFormState {
    var values: ContactForm

    constructor ()
      ensures values == EmptyContact
    {
      values := EmptyContact;
    }

    /** Typing into the fields. */
    method Edit(f: ContactForm)
      modifies this
      ensures values == f
    {
      values := f;
    }

    /**
     * Pressing send: with errors the values stay and nothing is submitted;
     * otherwise `handleSubmit` runs and resets every field.
     */
    method Submit() returns (submitted: bool)
      modifies this
      ensures submitted <==> ContactErrors(old(values)) == []
      ensures submitted ==> values == EmptyContact
      ensures !submitted ==> values == old(values)
    {
      submitted := ContactErrors(values) == [];
      if submitted {
        values := EmptyContact;
      }
    }
  }
}
