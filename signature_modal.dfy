/** The electronic signature dialog of signature-modal.js: opening it for
    an action, the reason character counter, validating the password and
    reason fields, and submitting the signature request.

    The dialog's elements are fields of the class. The text the browser
    gives the current time is a parameter of opening, and the server's
    answer to the request is a parameter of submitting. */
module SignatureModal {
  import opened Common

  /** The reason field's maxlength. */
  const ReasonMaxLength: nat := 500
  /** The shortest reason accepted, after trimming. */
  const ReasonMinLength: nat := 10

  const PasswordRequired: string := "Password is required to verify your identity"
  const ReasonRequired: string := "Reason for signing is required per 21 CFR Part 11"
  const ReasonTooShort: string := "Please provide a more detailed reason (minimum 10 characters)"
  const IncorrectPassword: string := "Incorrect password. Please try again."
  const DefaultFailure: string := "Failed to create signature"
  const IpPlaceholder: string := "Will be captured automatically"
  const NoAction: string := "No action specified"
  const AnyUser: string := "Current User"

  /** What the caller of show passes. An empty action or username is
      falsy, as a missing one is. */
  datatype Config = Config(action: string, username: string, eventId: int, eventType: string, hasOnSuccess: bool)

  /** The JSON body posted to the signature endpoint. */
  datatype Request = Request(eventId: int, eventType: string, action: string, reason: string, password: string)

  /** What came back: a parsed answer, or an exception from the network
      or from reading the body. An empty message is falsy. */
  datatype Reply =
    | Answered(ok: bool, success: bool, message: string, signature: string, recordedAt: string)
    | Thrown(message: string)

  datatype ToastKind = SuccessToast | ErrorToast
  datatype Toast = Toast(kind: ToastKind, title: string, message: string)

  /** The two inputs, the reason counter and the two error markers with
      their messages. */
  datatype Form = Form(
    password: string,
    reason: string,
    charCount: nat,
    passwordInvalid: bool,
    reasonInvalid: bool,
    passwordError: string,
    reasonError: string)

  /** The rest of the dialog: what it signs, the description lines, and
      whether it, the spinner and the two buttons are shown or enabled. */
  datatype Panel = Panel(
    config: Option<Config>,
    actionText: string,
    userText: string,
    timestampText: string,
    ipText: string,
    visible: bool,
    loading: bool,
    submitDisabled: bool,
    cancelDisabled: bool)

  /** What left the dialog: requests posted, toasts raised, and the
      signatures handed to the success callback. */
  datatype Log = Log(requests: seq<Request>, toasts: seq<Toast>, delivered: seq<string>)

  datatype Dialog = Dialog(form: Form, panel: Panel, log: Log)

  /** The dialog as created: hidden, empty, spinner hidden, buttons enabled. */
  function Created(): Dialog {
    Dialog(Form("", "", 0, false, false, "", ""),
           Panel(None, "", "", "", "", false, false, false, false),
           Log([], [], []))
  }

  function OrElse(text: string, fallback: string): (r: string)
    ensures r != [] <== fallback != []
  {
    if text != [] then text else fallback
  }

  /** The inputs, the counter and the markers as show leaves them. The
      messages under the markers are not cleared. */
  function Cleared(f: Form): Form {
    f.(password := "", reason := "", charCount := 0, passwordInvalid := false, reasonInvalid := false)
  }

  function Opened(p: Panel, c: Config, nowText: string): Panel {
    p.(config := Some(c), actionText := OrElse(c.action, NoAction),
       userText := OrElse(c.username, AnyUser), timestampText := nowText, ipText := IpPlaceholder,
       visible := true)
  }

  /** show(config): fills the description, clears both inputs and the
      counter, removes both error markers and opens the dialog. */
  function ShowSpec(d: Dialog, c: Config, nowText: string): (r: Dialog)
    ensures r.log == d.log && r.panel.visible && r.panel.config == Some(c)
  {
    Dialog(Cleared(d.form), Opened(d.panel, c, nowText), d.log)
  }

  /** The input listener of the reason field: typing is capped by the
      field's maxlength, and the counter shows the length. */
  function TypeReasonSpec(f: Form, typed: string): Form {
    var kept := if |typed| <= ReasonMaxLength then typed else typed[..ReasonMaxLength];
    f.(reason := kept, charCount := |kept|)
  }

  predicate PasswordAcceptable(password: string) {
    Trim(password) != []
  }

  predicate ReasonAcceptable(reason: string) {
    |Trim(reason)| >= ReasonMinLength
  }

  /** The password check of validateForm. */
  function CheckPassword(f: Form): Form {
    if !PasswordAcceptable(f.password) then f.(passwordInvalid := true, passwordError := PasswordRequired)
    else f.(passwordInvalid := false)
  }

  /** The reason check of validateForm. */
  function CheckReason(f: Form): Form {
    if Trim(f.reason) == [] then f.(reasonInvalid := true, reasonError := ReasonRequired)
    else if !ReasonAcceptable(f.reason) then f.(reasonInvalid := true, reasonError := ReasonTooShort)
    else f.(reasonInvalid := false)
  }

  /** validateForm: both fields are checked and marked, whatever the
      first one gave. */
  function ValidateSpec(f: Form): (Form, bool) {
    (CheckReason(CheckPassword(f)), PasswordAcceptable(f.password) && ReasonAcceptable(f.reason))
  }

  /** The body of the request for the current inputs: the untrimmed
      password and reason. */
  function RequestFor(c: Config, f: Form): Request {
    Request(c.eventId, c.eventType, c.action, f.reason, f.password)
  }

  /** The message an unsuccessful reply is reported with. */
  function FailureMessage(reply: Reply): string {
    match reply
    case Thrown(m) => m
    case Answered(_, _, m, _, _) => OrElse(m, DefaultFailure)
  }

  predicate Succeeded(reply: Reply) {
    reply.Answered? && reply.ok && reply.success
  }

  function SuccessToastFor(reply: Reply): Toast
    requires reply.Answered?
  {
    Toast(SuccessToast, "Electronic Signature Created", "Signature recorded at " + reply.recordedAt)
  }

  /** What the try and catch blocks of submitSignature leave. */
  function Outcome(d: Dialog, reply: Reply): Dialog {
    if Succeeded(reply) then
      var delivered := if d.panel.config.Some? && d.panel.config.value.hasOnSuccess
                       then d.log.delivered + [reply.signature] else d.log.delivered;
      Dialog(d.form, d.panel.(visible := false),
             d.log.(toasts := d.log.toasts + [SuccessToastFor(reply)], delivered := delivered))
    else
      var m := FailureMessage(reply);
      if Contains(m, "password") then d.(form := d.form.(passwordInvalid := true, passwordError := IncorrectPassword))
      else d.(log := d.log.(toasts := d.log.toasts + [Toast(ErrorToast, "Signature Failed", m)]))
  }

  /** The spinner shown and both buttons disabled, or the reverse. */
  function Busy(p: Panel, busy: bool): Panel {
    p.(loading := busy, submitDisabled := busy, cancelDisabled := busy)
  }

  /** submitSignature: nothing is sent for an invalid form; otherwise one
      request is posted, the reply handled, and the finally block hides the
      spinner and enables both buttons again. */
  function SubmitSpec(d: Dialog, reply: Reply): (r: Dialog)
    requires d.panel.config.Some?
    ensures |d.log.requests| <= |r.log.requests| <= |d.log.requests| + 1
    ensures r.log.requests[..|d.log.requests|] == d.log.requests
    ensures |r.log.toasts| <= |d.log.toasts| + 1
  {
    var (f, ok) := ValidateSpec(d.form);
    if !ok then d.(form := f)
    else
      var sent := Dialog(f, Busy(d.panel, true), d.log.(requests := d.log.requests + [RequestFor(d.panel.config.value, f)]));
      var r := Outcome(sent, reply);
      r.(panel := Busy(r.panel, false))
  }

  // =====================================================================
  // Properties

  /** The form is accepted exactly when the password holds a character
      that is not whitespace and the trimmed reason has at least ten
      characters. Each field is marked invalid exactly when it fails its
      own rule, whatever the other field holds, so both are checked and
      marked on every call; the inputs themselves are left as typed. */
  lemma ValidateIff(f: Form)
    ensures var (r, ok) := ValidateSpec(f);
      && (ok <==> (exists i :: 0 <= i < |f.password| && !IsSpace(f.password[i])) && |Trim(f.reason)| >= 10)
      && (r.passwordInvalid <==> forall i :: 0 <= i < |f.password| ==> IsSpace(f.password[i]))
      && (r.reasonInvalid <==> |Trim(f.reason)| < 10)
      && (ok <==> !r.passwordInvalid && !r.reasonInvalid)
      && (r.passwordInvalid ==> r.passwordError == PasswordRequired)
      && (r.reasonInvalid ==> r.reasonError == if Trim(f.reason) == [] then ReasonRequired else ReasonTooShort)
      && r.password == f.password && r.reason == f.reason && r.charCount == f.charCount
  {
    TrimAllSpace(f.password);
  }

  /** A freshly opened dialog is refused, with both fields marked and
      both "required" messages shown. */
  lemma ShowThenValidateRefuses(d: Dialog, c: Config, nowText: string)
    ensures var (r, ok) := ValidateSpec(ShowSpec(d, c, nowText).form);
      !ok && r.passwordInvalid && r.reasonInvalid && r.passwordError == PasswordRequired
      && r.reasonError == ReasonRequired
  {
    assert Trim("") == [];
  }

  /** Opening the dialog clears what the last signing left behind and
      sends nothing. */
  lemma ShowClears(d: Dialog, c: Config, nowText: string)
    ensures var r := ShowSpec(d, c, nowText);
      && r.panel.visible && r.form.password == [] && r.form.reason == [] && r.form.charCount == 0
      && !r.form.passwordInvalid && !r.form.reasonInvalid && r.panel.config == Some(c)
      && r.panel.actionText != [] && r.panel.userText != [] && r.log == d.log
  {
  }

  /** The counter always shows the length of the reason, which is what
      was typed up to the maxlength. */
  lemma CounterMatches(f: Form, typed: string)
    ensures var r := TypeReasonSpec(f, typed);
      r.charCount == |r.reason| <= ReasonMaxLength && r.reason <= typed
      && (|typed| <= ReasonMaxLength ==> r.reason == typed)
  {
  }

  /** An invalid form sends nothing and changes nothing but the form's
      markers: no request, no toast, the spinner and buttons untouched. */
  lemma InvalidSendsNothing(d: Dialog, reply: Reply)
    requires d.panel.config.Some?
    requires !ValidateSpec(d.form).1
    ensures var r := SubmitSpec(d, reply);
      r.log == d.log && r.panel == d.panel && r.form == ValidateSpec(d.form).0
  {
  }

  /** A valid form posts exactly one request, with the untrimmed inputs,
      and however the request ends the spinner is hidden and both buttons
      are enabled again; the dialog closes only on success. */
  lemma ValidSendsOnce(d: Dialog, reply: Reply)
    requires d.panel.config.Some?
    requires ValidateSpec(d.form).1
    ensures var r := SubmitSpec(d, reply);
      var c := d.panel.config.value;
      && r.log.requests == d.log.requests + [Request(c.eventId, c.eventType, c.action, d.form.reason, d.form.password)]
      && !r.panel.loading && !r.panel.submitDisabled && !r.panel.cancelDisabled
      && (r.panel.visible <==> d.panel.visible && !Succeeded(reply))
      && r.form.password == d.form.password && r.form.reason == d.form.reason
  {
    var f := ValidateSpec(d.form).0;
    var sent := Dialog(f, Busy(d.panel, true), d.log.(requests := d.log.requests + [RequestFor(d.panel.config.value, f)]));
    OutcomeKeepsRequests(sent, reply);
  }

  /** Handling a reply posts nothing, keeps the inputs, and closes the
      dialog only on success. */
  lemma OutcomeKeepsRequests(d: Dialog, reply: Reply)
    ensures var r := Outcome(d, reply);
      && r.log.requests == d.log.requests && r.form.password == d.form.password && r.form.reason == d.form.reason
      && (r.panel.visible <==> d.panel.visible && !Succeeded(reply))
  {
  }

  /** On success one success toast appears and the signature reaches the
      callback exactly when there is one; on failure nothing is delivered,
      a message mentioning the password marks the password field instead
      of raising a toast, and any other message raises one error toast. */
  lemma ReplyHandling(d: Dialog, reply: Reply)
    requires d.panel.config.Some?
    requires ValidateSpec(d.form).1
    ensures var r := SubmitSpec(d, reply);
      && (Succeeded(reply) ==>
            && r.log.toasts == d.log.toasts + [SuccessToastFor(reply)]
            && (r.log.delivered == d.log.delivered + [reply.signature] <==> d.panel.config.value.hasOnSuccess))
      && (!Succeeded(reply) ==> r.log.delivered == d.log.delivered)
      && (!Succeeded(reply) && Contains(FailureMessage(reply), "password") ==>
            r.log.toasts == d.log.toasts && r.form.passwordInvalid && r.form.passwordError == IncorrectPassword)
      && (!Succeeded(reply) && !Contains(FailureMessage(reply), "password") ==>
            r.log.toasts == d.log.toasts + [Toast(ErrorToast, "Signature Failed", FailureMessage(reply))])
  {
    if Succeeded(reply) && !d.panel.config.value.hasOnSuccess {
      assert |SubmitSpec(d, reply).log.delivered| == |d.log.delivered|;
    }
  }

  /** A refusal that carries no message is reported with the default
      text, in a toast, since that text does not mention the password. */
  lemma SilentRefusalUsesDefault(d: Dialog, ok: bool, success: bool, signature: string, recordedAt: string)
    requires d.panel.config.Some? && ValidateSpec(d.form).1 && !(ok && success)
    ensures SubmitSpec(d, Answered(ok, success, "", signature, recordedAt)).log.toasts
      == d.log.toasts + [Toast(ErrorToast, "Signature Failed", DefaultFailure)]
  {
    DefaultFailureIsSilentOnPassword();
  }

  lemma DefaultFailureIsSilentOnPassword()
    ensures !Contains(DefaultFailure, "password")
  {
    if Contains(DefaultFailure, "password") {
      ContainsFirst(DefaultFailure, "password");
      NoPInDefault();
      assert false;
    }
  }

  lemma NoPInDefault()
    ensures 'p' !in DefaultFailure
  {
  }

  // =====================================================================
  // The dialog

  class SignatureDialog {
    /** The two inputs, the counter and the markers. */
    var form: Form
    /** The configuration passed to show, the description lines, and the
        dialog, spinner and buttons. */
    var panel: Panel
    /** Requests posted, toasts raised, signatures delivered. */
    var log: Log

    function Current(): Dialog
      reads this
    {
      Dialog(form, panel, log)
    }

    constructor ()
      ensures Current() == Created()
    {
      form := Form("", "", 0, false, false, "", "");
      panel := Panel(None, "", "", "", "", false, false, false, false);
      log := Log([], [], []);
    }

    /** show: the description lines, then the cleared inputs. */
    method Show(c: Config, nowText: string)
      modifies this
      ensures Current() == ShowSpec(old(Current()), c, nowText)
    {
      panel := panel.(config := Some(c));
      panel := panel.(actionText := OrElse(c.action, NoAction), userText := OrElse(c.username, AnyUser));
      panel := panel.(timestampText := nowText, ipText := IpPlaceholder);
      form := form.(password := "", reason := "", charCount := 0);
      form := form.(passwordInvalid := false, reasonInvalid := false);
      panel := panel.(visible := true);
    }

    /** The reason field's input listener. */
    method TypeReason(typed: string)
      modifies this
      ensures Current() == old(Current()).(form := TypeReasonSpec(old(form), typed))
    {
      var kept := if |typed| <= ReasonMaxLength then typed else typed[..ReasonMaxLength];
      form := form.(reason := kept, charCount := |kept|);
    }

    method TypePassword(typed: string)
      modifies this
      ensures Current() == old(Current()).(form := old(form).(password := typed))
    {
      form := form.(password := typed);
    }

    /** validateForm: the password is checked and marked, then the reason,
        whatever the password check found. */
    method ValidateForm() returns (isValid: bool)
      modifies this
      ensures Current() == old(Current()).(form := ValidateSpec(old(form)).0)
      ensures isValid == ValidateSpec(old(form)).1
    {
      isValid := true;
      var p := Trim(form.password);
      if p == [] {
        form := form.(passwordInvalid := true, passwordError := PasswordRequired);
        isValid := false;
      } else {
        form := form.(passwordInvalid := false);
      }
      assert form == CheckPassword(old(form));
      var r := Trim(form.reason);
      if r == [] {
        form := form.(reasonInvalid := true, reasonError := ReasonRequired);
        isValid := false;
      } else if |r| < ReasonMinLength {
        form := form.(reasonInvalid := true, reasonError := ReasonTooShort);
        isValid := false;
      } else {
        form := form.(reasonInvalid := false);
      }
    }

    /** The try and catch blocks of submitSignature. */
    method HandleReply(reply: Reply)
      modifies this
      ensures Current() == Outcome(old(Current()), reply)
    {
      if reply.Answered? && reply.ok && reply.success {
        panel := panel.(visible := false);
        log := log.(toasts := log.toasts + [SuccessToastFor(reply)]);
        if panel.config.Some? && panel.config.value.hasOnSuccess {
          log := log.(delivered := log.delivered + [reply.signature]);
        }
      } else {
        var m := FailureMessage(reply);
        if Contains(m, "password") {
          form := form.(passwordInvalid := true, passwordError := IncorrectPassword);
        } else {
          log := log.(toasts := log.toasts + [Toast(ErrorToast, "Signature Failed", m)]);
        }
      }
    }

    /** submitSignature: validation, the spinner and disabled buttons, the
        request, the reply, and the finally block. */
    method SubmitSignature(reply: Reply)
      requires panel.config.Some?
      modifies this
      ensures Current() == SubmitSpec(old(Current()), reply)
    {
      var ok := ValidateForm();
      if !ok {
        return;
      }
      panel := Busy(panel, true);
      log := log.(requests := log.requests + [RequestFor(panel.config.value, form)]);
      HandleReply(reply);
      panel := Busy(panel, false);
    }
  }
}
