/**
 * The email composer: the four message templates, the reset on opening, the template choice,
 * and sending with its validation and outcome. The backend call is given as its outcome.
 */
module EmailComposerModal {
  import opened Basics
  import opened Text
  import opened Types

  datatype Template = UnactivatedAccount | InactiveUser | CheckIn | Feedback

  const CustomKey := "custom"

  /** `emailTemplates[key]` for the template keys; any other key has no template. */
  function Lookup(key: string): (t: Option<Template>)
    ensures t.Some? ==> key != CustomKey
  {
    if key == "unactivated_account" then Some(UnactivatedAccount)
    else if key == "inactive_user" then Some(InactiveUser)
    else if key == "check_in" then Some(CheckIn)
    else if key == "feedback" then Some(Feedback)
    else None
  }

  /** The template's `name`, the caption of its dropdown entry. */
  function Name(t: Template): string {
    match t
    case UnactivatedAccount => "Unactivated Account"
    case InactiveUser => "Inactive User"
    case CheckIn => "Check-in"
    case Feedback => "Feedback"
  }

  /** No two templates share a caption in the dropdown. */
  lemma {:induction false} NamesDistinct(a: Template, b: Template)
    ensures Name(a) == Name(b) <==> a == b
  {
    if Name(a) == Name(b) {
      assert Name(a)[0] == Name(b)[0];
    }
  }

  function Subject(t: Template, userName: string): string {
    match t
    case UnactivatedAccount => "Activate Your Perspectives Account - " + userName
    case InactiveUser => "We Miss You! - Perspectives - " + userName
    case CheckIn => "Checking In From Perspectives - " + userName
    case Feedback => "Your Feedback Matters! - Perspectives - " + userName
  }

  /** The links a body may use; a missing or empty one is replaced by a bracketed placeholder. */
  datatype Links = Links(activationLink: Option<string>, loginLink: Option<string>, feedbackLink: Option<string>)

  /** The link a template uses, if it uses one. */
  function LinkOf(t: Template, links: Option<Links>): Option<string> {
    if links.None? then None
    else match t
      case UnactivatedAccount => links.value.activationLink
      case InactiveUser => links.value.loginLink
      case CheckIn => None
      case Feedback => links.value.feedbackLink
  }

  function Placeholder(t: Template): string {
    match t
    case UnactivatedAccount => "[Activation Link]"
    case InactiveUser => "[Login Link]"
    case CheckIn => ""
    case Feedback => "[Feedback Link]"
  }

  /** `links?.x || '[Placeholder]'`. */
  function LinkText(t: Template, links: Option<Links>): string {
    if t == CheckIn then ""
    else if Truthy(LinkOf(t, links)) then LinkOf(t, links).value
    else Placeholder(t)
  }

  function Greeting(t: Template): string {
    if t == CheckIn then "Hello " else "Hi "
  }

  const Signature := "\n\nBest regards,\nThe Perspectives Team"

  function BeforeLink(t: Template): string {
    match t
    case UnactivatedAccount =>
      "Thank you for signing up. To get started and explore all the features of Perspectives, please activate your account by clicking the link below:\n\n"
    case InactiveUser =>
      "It looks like you haven't been back to Perspectives in a while. We hope everything is going well!\n\n"
      + "We've been working hard to improve the platform and add new features. We'd love to see you back.\n\n"
    case CheckIn =>
      "Just checking in to see how you're doing and if you need any assistance with Perspectives.\n\n"
      + "We're always here to help you get the most out of the platform.\n\n"
      + "If you have any questions, suggestions, or just want to say hi, feel free to reply to this email!"
    case Feedback =>
      "We're constantly striving to improve Perspectives and your input is invaluable.\n\n"
      + "Would you be willing to share your thoughts on your experience so far? It only takes a few minutes!\n\n"
  }

  function AfterLink(t: Template): string {
    match t
    case UnactivatedAccount => "\n\nIf you have any questions or need assistance, feel free to reply to this email."
    case InactiveUser => "\n\nIf you have any questions or feedback, please don't hesitate to reach out."
    case CheckIn => ""
    case Feedback => "\n\nThank you for helping us make Perspectives even better."
  }

  function Opening(t: Template, userName: string): string {
    Greeting(t) + userName + "," + "\n\n"
  }

  function Closing(t: Template): string {
    AfterLink(t) + Signature
  }

  function Body(t: Template, userName: string, links: Option<Links>): string {
    Opening(t, userName) + BeforeLink(t) + LinkText(t, links) + Closing(t)
  }

  lemma {:induction false} PrefixOfConcat(a: string, b: string, c: string, d: string, e: string)
    ensures StartsWith(a + b + c + d + e, a)
  {
    assert (a + b + c + d + e)[..|a|] == a;
  }

  lemma {:induction false} ContainsMiddle(a: string, b: string, c: string)
    ensures Contains(a + b + c, b)
  {
    assert (a + b + c)[|a|..|a| + |b|] == b;
    ContainsAt(a + b + c, b, |a|);
  }

  /** Every subject ends by naming the user. */
  lemma {:induction false} SubjectNamesUser(t: Template, userName: string)
    ensures EndsWith(Subject(t, userName), " - " + userName)
  {
    var s := Subject(t, userName);
    var front := s[..|s| - |userName| - 3];
    assert s == front + (" - " + userName);
  }

  /** Every body opens by greeting the user by name. */
  lemma {:induction false} BodyGreetsUser(t: Template, userName: string, links: Option<Links>)
    ensures StartsWith(Body(t, userName, links), Greeting(t) + userName + ",")
  {
    PrefixOfConcat(Greeting(t) + userName + ",", "\n\n", BeforeLink(t), LinkText(t, links), Closing(t));
  }

  /**
   * A template with a link shows the supplied link when it is present and not empty, and its
   * bracketed placeholder otherwise.
   */
  lemma {:induction false} BodyShowsLink(t: Template, userName: string, links: Option<Links>)
    requires t != CheckIn
    ensures Truthy(LinkOf(t, links)) ==> Contains(Body(t, userName, links), LinkOf(t, links).value)
    ensures !Truthy(LinkOf(t, links)) ==> Contains(Body(t, userName, links), Placeholder(t))
  {
    ContainsMiddle(Opening(t, userName) + BeforeLink(t), LinkText(t, links), Closing(t));
  }

  /** The check-in message has no link: it is the same whatever links are supplied. */
  lemma {:induction false} CheckInIgnoresLinks(userName: string, a: Option<Links>, b: Option<Links>)
    ensures Body(CheckIn, userName, a) == Body(CheckIn, userName, b)
  {
  }

  /** The links the composer supplies when a template is chosen: never missing, so no placeholder is used. */
  const ComposerLinks := Links(Some("[Your Activation Link Here]"), Some("[Your Login Link Here]"), Some("[Your Feedback Link Here]"))

  /** The template argument of the send call: none for a custom message. */
  function TemplateArgument(selected: string): (arg: Option<string>)
    ensures arg.None? <==> selected == CustomKey
    ensures arg.Some? ==> arg.value == selected
  {
    if selected == CustomKey then None else Some(selected)
  }

  datatype EmailRequest = EmailRequest(to: string, subject: string, body: string, template: Option<string>)

  const MissingInfoToast := Toast("Missing Information", "Please enter both a subject and a body for the email.", true)

  function SentToast(userEmail: string): Toast {
    Toast("Email Sent!", "Successfully sent email to " + userEmail + ".", false)
  }

  function SendFailedToast(userEmail: string): Toast {
    Toast("Email Send Failed", "There was an error sending the email to " + userEmail + ". Please try again.", true)
  }

  /** The composer's state for one recipient. */
  class Composer {
    const userEmail: string
    const userName: string
    var subject: string
    var body: string
    var selectedTemplate: string
    var isSending: bool
    /** The notifications shown so far, oldest first. */
    var toasts: seq<Toast>
    /** The send calls made so far, oldest first. */
    var requests: seq<EmailRequest>
    /** How many times the composer asked to be closed. */
    var closeRequests: nat

    constructor(userEmail: string, userName: string)
      ensures this.userEmail == userEmail && this.userName == userName
      ensures subject == "" && body == "" && selectedTemplate == CustomKey && !isSending
      ensures toasts == [] && requests == [] && closeRequests == 0
    {
      this.userEmail, this.userName := userEmail, userName;
      subject, body, selectedTemplate, isSending := "", "", CustomKey, false;
      toasts, requests, closeRequests := [], [], 0;
    }

    /** Opening the composer starts a fresh custom message. */
    method Open()
      modifies this
      ensures subject == "" && body == "" && selectedTemplate == CustomKey
      ensures isSending == old(isSending) && toasts == old(toasts) && requests == old(requests)
      ensures closeRequests == old(closeRequests)
    {
      subject, body, selectedTemplate := "", "", CustomKey;
    }

    /**
     * `handleTemplateChange`: the choice is recorded; `custom` clears the message, a template
     * fills it in for this user, and an unknown key leaves it as it was.
     */
    method ChangeTemplate(key: string)
      modifies this
      ensures selectedTemplate == key
      ensures key == CustomKey ==> subject == "" && body == ""
      ensures Lookup(key).Some? ==>
        subject == Subject(Lookup(key).value, userName) && body == Body(Lookup(key).value, userName, Some(ComposerLinks))
      ensures key != CustomKey && Lookup(key).None? ==> subject == old(subject) && body == old(body)
      ensures isSending == old(isSending) && toasts == old(toasts) && requests == old(requests)
      ensures closeRequests == old(closeRequests)
    {
      selectedTemplate := key;
      if key == CustomKey {
        subject, body := "", "";
      } else {
        var template := Lookup(key);
        if template.Some? {
          subject := Subject(template.value, userName);
          body := Body(template.value, userName, Some(ComposerLinks));
        }
      }
    }

    method EditSubject(value: string)
      modifies this
      ensures subject == value
      ensures body == old(body) && selectedTemplate == old(selectedTemplate) && isSending == old(isSending)
      ensures toasts == old(toasts) && requests == old(requests) && closeRequests == old(closeRequests)
    {
      subject := value;
    }

    method EditBody(value: string)
      modifies this
      ensures body == value
      ensures subject == old(subject) && selectedTemplate == old(selectedTemplate) && isSending == old(isSending)
      ensures toasts == old(toasts) && requests == old(requests) && closeRequests == old(closeRequests)
    {
      body := value;
    }

    /**
     * `handleSendEmail`: an empty subject or body is refused with a destructive notice and no
     * call; otherwise one call is made, and only its success closes the composer. Sending ends
     * either way, and the message itself is kept.
     */
    method SendEmail(outcome: Result<Unit, string>)
      modifies this
      ensures old(subject) == "" || old(body) == "" ==>
        requests == old(requests) && toasts == old(toasts) + [MissingInfoToast] && closeRequests == old(closeRequests)
      ensures old(subject) != "" && old(body) != "" ==>
        requests == old(requests) + [EmailRequest(userEmail, old(subject), old(body), TemplateArgument(old(selectedTemplate)))]
      ensures old(subject) != "" && old(body) != "" && outcome.Ok? ==>
        toasts == old(toasts) + [SentToast(userEmail)] && closeRequests == old(closeRequests) + 1
      ensures old(subject) != "" && old(body) != "" && outcome.Err? ==>
        toasts == old(toasts) + [SendFailedToast(userEmail)] && closeRequests == old(closeRequests)
      ensures !isSending || isSending == old(isSending)
      ensures old(subject) != "" && old(body) != "" ==> !isSending
      ensures subject == old(subject) && body == old(body) && selectedTemplate == old(selectedTemplate)
    {
      if subject == "" || body == "" {
        toasts := toasts + [MissingInfoToast];
        return;
      }
      isSending := true;
      requests := requests + [EmailRequest(userEmail, subject, body, TemplateArgument(selectedTemplate))];
      if outcome.Ok? {
        toasts := toasts + [SentToast(userEmail)];
        closeRequests := closeRequests + 1;
      } else {
        toasts := toasts + [SendFailedToast(userEmail)];
      }
      isSending := false;
    }
  }
}
