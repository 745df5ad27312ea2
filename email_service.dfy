/** Composition of the two kinds of email and their hand-over to the mail
    transport, which may fail. */
module Mail {
  import opened Outcomes

  /** A plain mail message; a field no setter has written is null. */
  datatype MailMessage = MailMessage(
    from: Option<string>, to: Option<string>, subject: Option<string>, text: Option<string>)

  const VerificationSubject: string := "Verify your email to active your account."
  /* The verifier reads the characters of a string literal only up to a
     length of about forty, so the two long texts below are written in
     pieces; each joins, with no character added, into one sentence. */
  const VerificationIntro: string :=
    "Please follow the link below " + "to verify your email " + "to active your account.\n"
  const VerifyPath: string := "/auth/verify?token="

  const ResetSubject: string := "Your password reset request link."
  const ResetIntro: string :=
    "You requested a password reset " + "on our website. Please " +
    "find the link below " + "to be able to reset your password.\n"
  const ResetPath: string := "/auth/reset?token="

  /** What follows `prefix` in `text`, the way a reader of the email gets
      the token back out of the link; `None` if `text` does not start so. */
  function TokenAfter(text: string, prefix: string): Option<string>
  {
    if prefix <= text then Some(text[|prefix|..]) else None
  }

  class EmailService {
    const fromAddress: string
    /** The front-end address the links point to. */
    const url: string
    /** Every message the transport has accepted, oldest first. */
    var outbox: seq<MailMessage>

    constructor (fromAddress: string, url: string)
      ensures this.fromAddress == fromAddress && this.url == url && outbox == []
    {
      this.fromAddress := fromAddress;
      this.url := url;
      outbox := [];
    }

    /** A fresh message with only the sender filled in. */
    function MakeMailMessage(): (m: MailMessage)
      ensures m.from == Some(fromAddress)
      ensures m.to == None && m.subject == None && m.text == None
    {
      MailMessage(Some(fromAddress), None, None, None)
    }

    function VerificationEmail(to: string, token: string): (m: MailMessage)
      ensures m.from == Some(fromAddress) && m.to == Some(to)
      ensures m.subject == Some(VerificationSubject) && m.text.Some?
      ensures TokenAfter(m.text.value, VerificationIntro + url + VerifyPath) == Some(token)
    {
      MakeMailMessage().(
        to := Some(to),
        subject := Some(VerificationSubject),
        text := Some(VerificationIntro + url + VerifyPath + token))
    }

    function PasswordResetEmail(to: string, token: string): (m: MailMessage)
      ensures m.from == Some(fromAddress) && m.to == Some(to)
      ensures m.subject == Some(ResetSubject) && m.text.Some?
      ensures TokenAfter(m.text.value, ResetIntro + url + ResetPath) == Some(token)
    {
      MakeMailMessage().(
        to := Some(to),
        subject := Some(ResetSubject),
        text := Some(ResetIntro + url + ResetPath + token))
    }

    /** A verification email never reads as a reset link, nor the other way
        round, whatever the tokens and the address. */
    lemma LinksAreNotInterchangeable(to: string, token: string)
      ensures TokenAfter(VerificationEmail(to, token).text.value, ResetIntro + url + ResetPath) == None
      ensures TokenAfter(PasswordResetEmail(to, token).text.value, VerificationIntro + url + VerifyPath) == None
    {
      var v := VerificationEmail(to, token).text.value;
      var r := PasswordResetEmail(to, token).text.value;
      assert VerificationIntro[0] == 'P' && ResetIntro[0] == 'Y';
      assert v == VerificationIntro + (url + VerifyPath + token);
      assert r == ResetIntro + (url + ResetPath + token);
      var resetPrefix := ResetIntro + url + ResetPath;
      var verifyPrefix := VerificationIntro + url + VerifyPath;
      assert resetPrefix == ResetIntro + (url + ResetPath);
      assert verifyPrefix == VerificationIntro + (url + VerifyPath);
      assert v[0] != resetPrefix[0] && r[0] != verifyPrefix[0];
      assert !(resetPrefix <= v) && !(verifyPrefix <= r);
    }

    /** The transport: it accepts the message, which joins the outbox, or it
        throws and the call fails with `EmailFailure`. Which one happens is
        not up to the service. */
    method Deliver(m: MailMessage) returns (r: Outcome)
      modifies this`outbox
      ensures r == Pass ==> outbox == old(outbox) + [m]
      ensures r != Pass ==> r == Fail(EmailFailure) && outbox == old(outbox)
    {
      var accepted: bool :| true;
      if accepted {
        outbox := outbox + [m];
        r := Pass;
      } else {
        r := Fail(EmailFailure);
      }
    }

    method SendVerificationEmail(to: string, token: string) returns (r: Outcome)
      modifies this`outbox
      ensures r == Pass ==> outbox == old(outbox) + [VerificationEmail(to, token)]
      ensures r != Pass ==> r == Fail(EmailFailure) && outbox == old(outbox)
    {
      r := Deliver(VerificationEmail(to, token));
    }

    method SendPasswordResetEmail(to: string, token: string) returns (r: Outcome)
      modifies this`outbox
      ensures r == Pass ==> outbox == old(outbox) + [PasswordResetEmail(to, token)]
      ensures r != Pass ==> r == Fail(EmailFailure) && outbox == old(outbox)
    {
      r := Deliver(PasswordResetEmail(to, token));
    }
  }
}
