/** The mail transport (`services/email/emailService.ts`): a message is either
    delivered, and then recorded in the outbox, or the send throws. */
module Mail {
  import opened Common

  datatype EmailKind = Verification | PasswordReset

  /** What a message carries: recipient, the name it greets, its kind and its token. */
  datatype Email = Email(to: string, username: Option<string>, kind: EmailKind, token: string)

  function Subject(kind: EmailKind): string {
    match kind
    case Verification => "Verify Your Email Address"
    case PasswordReset => "Reset Your Password"
  }

  class Mailer {
    /** Messages delivered so far, oldest first. */
    var outbox: seq<Email>
    /** Whether the SMTP server accepts messages; when it does not, `sendMail` throws. */
    var up: bool

    constructor (up: bool)
      ensures outbox == [] && this.up == up
    {
      outbox := [];
      this.up := up;
    }

    /** `sendEmail`: true when delivered; false stands for the rethrown error. */
    method Send(e: Email) returns (sent: bool)
      modifies this`outbox
      ensures sent == up
      ensures outbox == if up then old(outbox) + [e] else old(outbox)
    {
      if up {
        outbox := outbox + [e];
      }
      sent := up;
    }
  }
}
