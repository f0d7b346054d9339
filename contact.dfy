/** The contact section (components/sections/Contact.tsx): the form's
    validation rules, the WhatsApp message and link it builds, and the
    submit handler's status cells. */
module Contact {
  import opened Types
  import Data
  import opened Numerals

  // ---------------------------------------------------------------------
  // The WhatsApp number: every character outside '0'..'9' is removed.

  /** `whatsapp.replace(/[^0-9]/g, '')`: the digits of `s`, in order. */
  function DigitsOnly(s: string): (r: string)
    ensures AllDigits(r)
    ensures |r| <= |s|
    ensures forall i :: 0 <= i < |r| ==> r[i] in s
  {
    if s == [] then
      []
    else
      (if IsDigit(s[0]) then [s[0]] else []) + DigitsOnly(s[1..])
  }

  /** Filtering distributes over concatenation, so the result is exactly the
      input's digits in their original order. */
  lemma {:induction false} DigitsOnlyAppend(a: string, b: string)
    ensures DigitsOnly(a + b) == DigitsOnly(a) + DigitsOnly(b)
  {
    if a == [] {
      assert a + b == b;
    } else {
      assert (a + b)[1..] == a[1..] + b;
      DigitsOnlyAppend(a[1..], b);
    }
  }

  /** A string of digits passes through unchanged. */
  lemma {:induction false} DigitsOnlyKeepsDigits(s: string)
    requires AllDigits(s)
    ensures DigitsOnly(s) == s
  {
    if s != [] {
      DigitsOnlyKeepsDigits(s[1..]);
    }
  }

  /** A string without digits vanishes. */
  lemma {:induction false} DigitsOnlyDropsOthers(s: string)
    requires forall i :: 0 <= i < |s| ==> !IsDigit(s[i])
    ensures DigitsOnly(s) == []
  {
    if s != [] {
      DigitsOnlyDropsOthers(s[1..]);
    }
  }

  /** Sanitising twice is sanitising once. */
  lemma DigitsOnlyIdempotent(s: string)
    ensures DigitsOnly(DigitsOnly(s)) == DigitsOnly(s)
  {
    DigitsOnlyKeepsDigits(DigitsOnly(s));
  }

  /** The site's own number loses only its leading '+'. */
  lemma SiteNumberDigits()
    ensures DigitsOnly(Data.contactInfo.whatsapp) == "573135399868"
  {
    var w := Data.contactInfo.whatsapp;
    assert w[0] == '+' && w[1..] == "573135399868";
    DigitsOnlyKeepsDigits(w[1..]);
  }

  // ---------------------------------------------------------------------
  // The form's schema.

  datatype FormData = FormData(name: string, email: string, message: string)

  datatype Field = Name | Email | Message

  /** A rejected field with the text shown under it. */
  datatype FieldError = FieldError(field: Field, text: string)

  const NameMinLength: nat := 2
  const MessageMinLength: nat := 10

  /** The schema's findings, in field order. Whether a string is an e-mail
      address is decided by the validation library and is a parameter here. */
  function ValidationErrors(data: FormData, isEmail: string -> bool): (errs: seq<FieldError>)
    ensures errs == [] <==> |data.name| >= 2 && isEmail(data.email) && |data.message| >= 10
    ensures FieldError(Name, "El nombre debe tener al menos 2 caracteres") in errs <==> |data.name| < 2
    ensures FieldError(Email, "Email inválido") in errs <==> !isEmail(data.email)
    ensures FieldError(Message, "El mensaje debe tener al menos 10 caracteres") in errs <==> |data.message| < 10
    ensures |errs| <= 3
  {
    (if |data.name| < NameMinLength then [FieldError(Name, "El nombre debe tener al menos 2 caracteres")] else [])
    + (if !isEmail(data.email) then [FieldError(Email, "Email inválido")] else [])
    + (if |data.message| < MessageMinLength then [FieldError(Message, "El mensaje debe tener al menos 10 caracteres")] else [])
  }

  // ---------------------------------------------------------------------
  // The WhatsApp message and link.

  const MessageHeader: string := "*Mensaje desde portafolio web*\n\n*Nombre:* "
  const EmailLabel: string := "\n*Email:* "
  const MessageLabel: string := "\n*Mensaje:*\n"

  /** The pre-filled chat text: a fixed header, then the three fields, each
      after its fixed label. */
  function ComposeMessage(data: FormData): (r: string)
    ensures |r| == |MessageHeader| + |data.name| + |EmailLabel| + |data.email| + |MessageLabel| + |data.message|
    ensures r[..|MessageHeader|] == MessageHeader
    ensures r[|r| - |data.message|..] == data.message
  {
    MessageHeader + data.name + EmailLabel + data.email + MessageLabel + data.message
  }

  /** After a newline-free `a`, the first newline is the one that follows it. */
  lemma FirstNewline(a: string, x: string)
    requires '\n' !in a
    ensures (a + ("\n" + x))[|a|] == '\n'
    ensures forall i :: 0 <= i < |a| ==> (a + ("\n" + x))[i] != '\n'
  {
    forall i | 0 <= i < |a| ensures (a + ("\n" + x))[i] != '\n' {
      assert (a + ("\n" + x))[i] == a[i];
    }
  }

  /** If `a` and `b` hold no newline, a newline-led suffix splits the string
      at the same place. */
  lemma SplitAtNewline(a: string, x: string, b: string, y: string)
    requires '\n' !in a && '\n' !in b
    requires a + ("\n" + x) == b + ("\n" + y)
    ensures a == b && x == y
  {
    var s := a + ("\n" + x);
    FirstNewline(a, x);
    FirstNewline(b, y);
    assert a == s[..|a|];
    assert b == (b + ("\n" + y))[..|b|];
    assert x == s[|a| + 1..];
    assert y == (b + ("\n" + y))[|b| + 1..];
  }

  /** A common prefix cancels. */
  lemma PrefixCancel(p: string, x: string, y: string)
    requires p + x == p + y
    ensures x == y
  {
    assert x == (p + x)[|p|..];
    assert y == (p + y)[|p|..];
  }

  /** The composed message with its newlines brought to the front of each
      part, so that the fields can be split off one at a time. */
  lemma ComposeMessageShape(d: FormData)
    ensures ComposeMessage(d) == MessageHeader + (d.name + ("\n" + ("*Email:* " + (d.email + ("\n" + ("*Mensaje:*\n" + d.message))))))
  {
  }

  /** A name and an address on one line each can be read back from the
      composed message, and so can the message itself. */
  lemma ComposeMessageInjective(d1: FormData, d2: FormData)
    requires '\n' !in d1.name && '\n' !in d2.name
    requires '\n' !in d1.email && '\n' !in d2.email
    requires ComposeMessage(d1) == ComposeMessage(d2)
    ensures d1 == d2
  {
    ComposeMessageShape(d1);
    ComposeMessageShape(d2);
    var m1, m2 := "*Mensaje:*\n" + d1.message, "*Mensaje:*\n" + d2.message;
    var e1, e2 := d1.email + ("\n" + m1), d2.email + ("\n" + m2);
    var u1, u2 := "*Email:* " + e1, "*Email:* " + e2;
    PrefixCancel(MessageHeader, d1.name + ("\n" + u1), d2.name + ("\n" + u2));
    SplitAtNewline(d1.name, u1, d2.name, u2);
    PrefixCancel("*Email:* ", e1, e2);
    SplitAtNewline(d1.email, m1, d2.email, m2);
    PrefixCancel("*Mensaje:*\n", d1.message, d2.message);
  }

  const WhatsAppBase: string := "https://wa.me/"

  /** The contact card's link (line 134): the base URL and the number's digits. */
  function WhatsAppLink(whatsapp: string): (r: string)
    ensures |r| == |WhatsAppBase| + |DigitsOnly(whatsapp)|
    ensures r[..|WhatsAppBase|] == WhatsAppBase
    ensures r[|WhatsAppBase|..] == DigitsOnly(whatsapp)
  {
    WhatsAppBase + DigitsOnly(whatsapp)
  }

  /** The chat link the form opens: the contact link followed by the encoded
      message as its `text` query parameter. `encoded` is what
      `encodeURIComponent` returned for the composed message. */
  function WhatsAppUrl(whatsapp: string, encoded: string): (r: string)
    ensures |r| == |WhatsAppLink(whatsapp)| + 6 + |encoded|
    ensures r[..|WhatsAppLink(whatsapp)|] == WhatsAppLink(whatsapp)
    ensures r[|WhatsAppLink(whatsapp)|..] == "?text=" + encoded
  {
    WhatsAppLink(whatsapp) + "?text=" + encoded
  }

  /** The number in a chat link ends at the first '?': it is the digits of
      the contact number and nothing else. */
  lemma UrlNumberEndsAtQuery(whatsapp: string, encoded: string)
    ensures var url := WhatsAppUrl(whatsapp, encoded);
      var n := |WhatsAppBase| + |DigitsOnly(whatsapp)|;
      n < |url| && url[n] == '?' && url[|WhatsAppBase|..n] == DigitsOnly(whatsapp)
      && forall i :: |WhatsAppBase| <= i < n ==> url[i] != '?'
  {
    var url := WhatsAppUrl(whatsapp, encoded);
    var d := DigitsOnly(whatsapp);
    assert url == WhatsAppBase + d + "?text=" + encoded;
    forall i | |WhatsAppBase| <= i < |WhatsAppBase| + |d|
      ensures url[i] != '?'
    {
      assert url[i] == d[i - |WhatsAppBase|];
      assert IsDigit(d[i - |WhatsAppBase|]);
    }
  }

  // ---------------------------------------------------------------------
  // Submission.

  datatype SubmitStatus = Success | Error

  /** The two state cells the submit handler sets, as one snapshot. */
  datatype Snapshot = Snapshot(isSubmitting: bool, submitStatus: Option<SubmitStatus>)

  /** The browser's constraint check on the `type="email"` input of a form
      without `noValidate`: the field is not `required`, so an empty value
      passes, and any other value must be an address the browser accepts. */
  predicate BrowserAllows(email: string, browserEmail: string -> bool) {
    email == "" || browserEmail(email)
  }

  /** The form's empty field values, which `reset()` restores. */
  const EmptyForm := FormData("", "", "")

  /** What a submit produces, given whether `encodeURIComponent` returned
      (it throws on unpaired surrogates) and whether `window.open` returned. */
  function SubmitOutcome(encoded: Option<string>, openReturned: bool): (r: SubmitStatus)
    ensures r == Success <==> encoded.Some? && openReturned
  {
    if encoded.Some? && openReturned then Success else Error
  }

  /** What the form shows: the button and the status line under it. */
  datatype FormView = FormView(buttonDisabled: bool, buttonSending: bool, successShown: bool, errorShown: bool)

  function View(isSubmitting: bool, submitStatus: Option<SubmitStatus>): (r: FormView)
    ensures r.buttonDisabled <==> isSubmitting
    ensures r.buttonSending <==> isSubmitting
    ensures r.successShown <==> submitStatus == Some(Success)
    ensures r.errorShown <==> submitStatus == Some(Error)
    ensures !(r.successShown && r.errorShown)
    ensures submitStatus == None ==> !r.successShown && !r.errorShown
  {
    FormView(isSubmitting, isSubmitting, submitStatus == Some(Success), submitStatus == Some(Error))
  }

  /** The contact form component: its two state cells, the field values the
      form library holds, and the links handed to `window.open`. */
  class ContactForm {
    var isSubmitting: bool
    var submitStatus: Option<SubmitStatus>
    var values: FormData
    var openedLinks: seq<string>
    /** Every state the two cells pass through, in order. */
    ghost var history: seq<Snapshot>

    /** Between events nothing is being submitted: the handler has no `await`
        and always clears the flag before it returns. */
    predicate Idle()
      reads this
    {
      !isSubmitting
    }

    constructor ()
      ensures Idle() && submitStatus == None && values == EmptyForm && openedLinks == []
      ensures history == [Snapshot(false, None)]
    {
      isSubmitting := false;
      submitStatus := None;
      values := EmptyForm;
      openedLinks := [];
      history := [Snapshot(false, None)];
    }

    /** `onSubmit`: marks the form busy and clears the status, opens the chat
        link, and ends busy-free with a status that is never empty. The fields
        are cleared only on success. `encode` stands for `encodeURIComponent`
        (`None` when it throws) and `openReturned` says whether `window.open`
        returned normally. */
    method OnSubmit(data: FormData, encode: string -> Option<string>, openReturned: bool)
      modifies this
      ensures Idle()
      ensures submitStatus == Some(SubmitOutcome(encode(ComposeMessage(data)), openReturned))
      ensures values == if submitStatus == Some(Success) then EmptyForm else old(values)
      ensures openedLinks == if encode(ComposeMessage(data)).Some?
                             then old(openedLinks) + [WhatsAppUrl(Data.contactInfo.whatsapp, encode(ComposeMessage(data)).value)]
                             else old(openedLinks)
      ensures history == old(history) + [Snapshot(true, old(submitStatus))] + [Snapshot(true, None)]
                         + [Snapshot(true, submitStatus)] + [Snapshot(false, submitStatus)]
    {
      isSubmitting := true;
      history := history + [Snapshot(isSubmitting, submitStatus)];
      submitStatus := None;
      history := history + [Snapshot(isSubmitting, submitStatus)];
      var encoded := encode(ComposeMessage(data));
      var status := OpenChat(encoded, openReturned);
      submitStatus := Some(status);
      history := history + [Snapshot(isSubmitting, submitStatus)];
      isSubmitting := false;
      history := history + [Snapshot(isSubmitting, submitStatus)];
    }

    /** The handler's `try` block once the message is encoded: open the chat
        link and clear the fields, or report the error the block caught. */
    method OpenChat(encoded: Option<string>, openReturned: bool) returns (status: SubmitStatus)
      modifies this`openedLinks, this`values
      ensures status == SubmitOutcome(encoded, openReturned)
      ensures values == if status == Success then EmptyForm else old(values)
      ensures openedLinks == if encoded.Some? then old(openedLinks) + [WhatsAppUrl(Data.contactInfo.whatsapp, encoded.value)]
                             else old(openedLinks)
    {
      status := Error;
      if encoded.Some? {
        openedLinks := openedLinks + [WhatsAppUrl(Data.contactInfo.whatsapp, encoded.value)];
        if openReturned {
          status := Success;
          values := EmptyForm;
        }
      }
    }

    /** Typing into the three registered inputs: the form library now holds
        what the user typed. */
    method Edit(d: FormData)
      modifies this`values
      ensures values == d
    {
      values := d;
    }

    /** The form's submit, on what the inputs hold: the browser's own check
        of the address field comes first, and when it stops the submit no
        handler runs and no schema message shows. Otherwise the schema runs,
        and `onSubmit` runs only when it finds nothing; with errors they are
        shown and the state is left alone. `browserEmail` stands for the
        browser's address syntax. */
    method Submit(browserEmail: string -> bool, isEmail: string -> bool,
                  encode: string -> Option<string>, openReturned: bool)
      returns (reached: bool, errs: seq<FieldError>)
      requires Idle()
      modifies this
      ensures reached <==> BrowserAllows(old(values).email, browserEmail)
      ensures errs == if reached then ValidationErrors(old(values), isEmail) else []
      ensures Idle()
      ensures !reached || errs != [] ==> submitStatus == old(submitStatus) && values == old(values) && openedLinks == old(openedLinks)
      ensures !reached || errs != [] ==> history == old(history)
      ensures reached && errs == [] ==> submitStatus == Some(SubmitOutcome(encode(ComposeMessage(old(values))), openReturned))
      ensures reached && errs == [] ==> values == if submitStatus == Some(Success) then EmptyForm else old(values)
      ensures reached && errs == [] ==> openedLinks == if encode(ComposeMessage(old(values))).Some?
                                                       then old(openedLinks) + [WhatsAppUrl(Data.contactInfo.whatsapp, encode(ComposeMessage(old(values))).value)]
                                                       else old(openedLinks)
      ensures reached && errs == [] ==> history == old(history) + [Snapshot(true, old(submitStatus))] + [Snapshot(true, None)]
                                                   + [Snapshot(true, submitStatus)] + [Snapshot(false, submitStatus)]
    {
      var data := values;
      reached := BrowserAllows(data.email, browserEmail);
      errs := [];
      if reached {
        errs := ValidationErrors(data, isEmail);
        if errs == [] {
          OnSubmit(data, encode, openReturned);
        }
      }
    }
  }
}
