/**
 * What the two contact relays (the Netlify function and the Express server)
 * share: the submitted fields and their validation, the environment settings,
 * the SMTP port rule, and the composition of the outgoing mail.
 */
module Inquiry {
  import opened Wrappers
  import opened JsText

  /** The four fields destructured from the request body; None stands for a
      field that is absent (`undefined`). */
  datatype Fields = Fields(name: Option<string>, email: Option<string>,
                           subject: Option<string>, message: Option<string>)

  /** The fields of the empty object `{}`. */
  const NoFields: Fields := Fields(None, None, None, None)

  /** The check `name && email && subject && message`: every field is a non-empty string. */
  predicate Complete(f: Fields)
  {
    Truthy(f.name) && Truthy(f.email) && Truthy(f.subject) && Truthy(f.message)
  }

  /** The environment variables both relays read. `smtpPort` is the value of
      `Number(process.env.SMTP_PORT)`, with None for NaN (an unset or
      unparsable variable); an empty variable converts to Some(0). */
  datatype Env = Env(smtpHost: Option<string>, smtpPort: Option<int>,
                     smtpUser: Option<string>, smtpPass: Option<string>,
                     contactRecipient: Option<string>, contactSender: Option<string>)

  const DefaultPort: int := 587
  const ImplicitTlsPort: int := 465

  /** `Number(process.env.SMTP_PORT) || 587`: a non-zero number is kept, zero and NaN give 587. */
  function SmtpPort(n: Option<int>): (port: int)
    ensures port != 0
    ensures n.Some? && n.value != 0 ==> port == n.value
    ensures port == DefaultPort <==> n.None? || n.value == 0 || n.value == DefaultPort
  {
    if n.Some? && n.value != 0 then n.value else DefaultPort
  }

  /** The mail's sender, `CONTACT_SENDER || CONTACT_RECIPIENT` in both relays:
      CONTACT_SENDER when it is set and non-empty, CONTACT_RECIPIENT otherwise. */
  function Sender(env: Env): Option<string>
  {
    Or(env.contactSender, env.contactRecipient)
  }

  /** The options handed to `nodemailer.createTransport`; None marks an option
      that is not given (or given as `undefined`). */
  datatype Transport = Transport(
    host: Option<string>, port: int, secure: bool,
    user: Option<string>, pass: Option<string>,
    requireTLS: Option<bool>,
    connectionTimeoutMs: Option<int>, greetingTimeoutMs: Option<int>, socketTimeoutMs: Option<int>,
    rejectUnauthorized: Option<bool>)

  /** The mail handed to `sendMail`. `from` and `to` come straight from the
      environment and may be `undefined`. */
  datatype MailOptions = MailOptions(from: Option<string>, to: Option<string>, replyTo: string,
                                     subject: string, text: string, html: string)

  /** What a relay tries to send: the transport it sends through and the mail. */
  datatype Delivery = Delivery(transport: Transport, mail: MailOptions)

  /** The indentation of a relay's template literals: what follows the message
      in the text template (a line feed and the indentation of its closing
      backtick), the indentation of each HTML line, and what follows the last
      `</p>` of the HTML template (again a line feed and the closing indentation). */
  datatype Layout = Layout(textClose: string, htmlIndent: string, htmlClose: string)

  /** The JSON object a relay answers with. */
  datatype Reply = ErrorReply(error: string) | SuccessReply(success: bool, message: string) | EmptyReply

  const SubjectPrefix: string := "[Optimus Website] "
  const MissingFields: string := "All fields are required."
  const SentMessage: string := "Inquiry sent successfully."

  /** The text body before the message. */
  function TextHead(name: string, email: string, subject: string): string
  {
    "Name: " + name + "\nEmail: " + email + "\nSubject: " + subject + "\n\nMessage:\n"
  }

  /** The plain-text body: the template literal, trimmed. */
  function TextBody(name: string, email: string, subject: string, message: string, layout: Layout): string
  {
    Trim("\n" + TextHead(name, email, subject) + message + layout.textClose)
  }

  /** The HTML body: the template literal with the message's line feeds replaced by `<br />`. */
  function HtmlBody(name: string, email: string, subject: string, message: string, layout: Layout): string
  {
    var i := layout.htmlIndent;
    "\n" + i + "<h2>New Inquiry from Optimus Website</h2>\n"
    + i + "<p><strong>Name:</strong> " + name + "</p>\n"
    + i + "<p><strong>Email:</strong> " + email + "</p>\n"
    + i + "<p><strong>Subject:</strong> " + subject + "</p>\n"
    + i + "<p><strong>Message:</strong></p>\n"
    + i + "<p>" + ReplaceNewlines(message) + "</p>" + layout.htmlClose
  }

  /** The `mailOptions` object both relays build from the submitted fields. */
  function ComposeMail(from: Option<string>, to: Option<string>, f: Fields, layout: Layout): (m: MailOptions)
    requires Complete(f)
  {
    var name, email, subject, message := f.name.value, f.email.value, f.subject.value, f.message.value;
    MailOptions(from, to, email, SubjectPrefix + subject,
                TextBody(name, email, subject, message, layout),
                HtmlBody(name, email, subject, message, layout))
  }

  /** The closing whitespace of a text template is dropped by trim(): the text
      body is the head and message with trailing whitespace removed. */
  lemma TextBodyIsTrimmedHead(name: string, email: string, subject: string, message: string, layout: Layout)
    requires AllWhitespace(layout.textClose)
    ensures TextBody(name, email, subject, message, layout) == TrimEnd(TextHead(name, email, subject) + message)
  {
    var body := TextHead(name, email, subject) + message;
    assert "\n" + TextHead(name, email, subject) + message + layout.textClose == "\n" + body + layout.textClose;
    assert body[0] == 'N';
    TrimFramed(body, layout.textClose);
  }

  /** A message that does not end in whitespace is copied into the text body unchanged. */
  lemma TextBodyKeepsMessage(name: string, email: string, subject: string, message: string, layout: Layout)
    requires AllWhitespace(layout.textClose)
    requires message != [] && !IsWhitespace(message[|message| - 1])
    ensures TextBody(name, email, subject, message, layout) == TextHead(name, email, subject) + message
  {
    TextBodyIsTrimmedHead(name, email, subject, message, layout);
    var body := TextHead(name, email, subject) + message;
    assert body[|body| - 1] == message[|message| - 1];
  }

  /** The text body of a composed mail is the field summary followed by the
      message without trailing whitespace, so a message that does not end in
      whitespace is copied unchanged. */
  lemma ComposedText(from: Option<string>, to: Option<string>, f: Fields, layout: Layout)
    requires Complete(f) && AllWhitespace(layout.textClose)
    ensures var head := TextHead(f.name.value, f.email.value, f.subject.value);
      var msg := f.message.value;
      var text := ComposeMail(from, to, f, layout).text;
      text == TrimEnd(head + msg)
      && (!IsWhitespace(msg[|msg| - 1]) ==> text == head + msg)
  {
    var name, email, subject, msg := f.name.value, f.email.value, f.subject.value, f.message.value;
    assert ComposeMail(from, to, f, layout).text == TextBody(name, email, subject, msg, layout);
    TextBodyIsTrimmedHead(name, email, subject, msg, layout);
    if !IsWhitespace(msg[|msg| - 1]) {
      TextBodyKeepsMessage(name, email, subject, msg, layout);
    }
  }

  /** Two layouts whose text templates close with whitespace only give the same text body. */
  lemma TextBodyIgnoresLayout(name: string, email: string, subject: string, message: string, l1: Layout, l2: Layout)
    requires AllWhitespace(l1.textClose) && AllWhitespace(l2.textClose)
    ensures TextBody(name, email, subject, message, l1) == TextBody(name, email, subject, message, l2)
  {
    TextBodyIsTrimmedHead(name, email, subject, message, l1);
    TextBodyIsTrimmedHead(name, email, subject, message, l2);
  }

  /** The HTML body is the literal's last line, the message paragraph, followed
      directly by the closing line feed and indentation. */
  lemma HtmlBodyEnds(name: string, email: string, subject: string, message: string, layout: Layout)
    ensures var h := HtmlBody(name, email, subject, message, layout);
      var tail := "</p>" + layout.htmlClose;
      |tail| <= |h| && h[|h| - |tail|..] == tail
  {
    var h := HtmlBody(name, email, subject, message, layout);
    var i := layout.htmlIndent;
    var pre := "\n" + i + "<h2>New Inquiry from Optimus Website</h2>\n"
      + i + "<p><strong>Name:</strong> " + name + "</p>\n"
      + i + "<p><strong>Email:</strong> " + email + "</p>\n"
      + i + "<p><strong>Subject:</strong> " + subject + "</p>\n"
      + i + "<p><strong>Message:</strong></p>\n" + i + "<p>" + ReplaceNewlines(message);
    var tail := "</p>" + layout.htmlClose;
    assert h == pre + tail;
    assert h[|pre|..] == tail;
  }

  /** The HTML body carries the message, with its line feeds replaced, as one paragraph. */
  lemma HtmlBodyHoldsMessage(name: string, email: string, subject: string, message: string, layout: Layout)
    ensures Contains(HtmlBody(name, email, subject, message, layout), "<p>" + ReplaceNewlines(message) + "</p>")
  {
    var h := HtmlBody(name, email, subject, message, layout);
    var i := layout.htmlIndent;
    var pre := "\n" + i + "<h2>New Inquiry from Optimus Website</h2>\n"
      + i + "<p><strong>Name:</strong> " + name + "</p>\n"
      + i + "<p><strong>Email:</strong> " + email + "</p>\n"
      + i + "<p><strong>Subject:</strong> " + subject + "</p>\n"
      + i + "<p><strong>Message:</strong></p>\n" + i;
    var para := "<p>" + ReplaceNewlines(message) + "</p>";
    assert h == pre + para + layout.htmlClose;
    assert para <= h[|pre|..];
  }
}
