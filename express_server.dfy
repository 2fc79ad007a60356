/**
 * The self-hosted relay: the Express server's `/api/contact` route with its
 * module-level transporter, and the `/Profile/:filename` download route with
 * its path-traversal guard.
 */
module ExpressServer {
  import opened Wrappers
  import opened JsText
  import opened Inquiry
  import opened PosixPath
  import NetlifyContact

  // ---------------------------------------------------------------------------
  // /api/contact

  datatype Response = Response(status: int, reply: Reply)

  /** The response, and the delivery the route attempted on the way (if any). */
  datatype Outcome = Outcome(response: Response, delivery: Option<Delivery>)

  const RetryLater: string := "Failed to send inquiry. Please try again later."

  /** The template layout of this relay: text closes with four spaces, HTML lines
      are indented by six and the HTML closes with four. */
  const ExpressLayout: Layout := Layout("\n    ", "      ", "\n    ")

  /** The transporter created once at start-up. Here `secure` compares the raw
      `Number(SMTP_PORT)` with 465, not the port after the 587 default. */
  function ModuleTransport(env: Env): (t: Transport)
    ensures t.port == SmtpPort(env.smtpPort)
    ensures t.secure <==> t.port == ImplicitTlsPort
    ensures t.requireTLS.None? && t.rejectUnauthorized.None?
  {
    Transport(env.smtpHost, SmtpPort(env.smtpPort), env.smtpPort == Some(ImplicitTlsPort),
              env.smtpUser, env.smtpPass, None, None, None, None, None)
  }

  /** The `/api/contact` handler. `body` is `req.body` (None when undefined)
      and `sendOk` whether `transporter.sendMail` resolves. */
  function Contact(body: Option<Fields>, env: Env, sendOk: bool): Outcome
  {
    var f := if body.Some? then body.value else NoFields;
    if !Complete(f) then
      Outcome(Response(400, ErrorReply(MissingFields)), None)
    else
      var d := Delivery(ModuleTransport(env),
                        ComposeMail(Sender(env), env.contactRecipient, f, ExpressLayout));
      if sendOk then Outcome(Response(200, SuccessReply(true, SentMessage)), Some(d))
      else Outcome(Response(500, ErrorReply(RetryLater)), Some(d))
  }

  /** A body lacking a field (or an absent body, read as `{}`) is answered 400 and nothing is sent. */
  lemma ContactMissingFieldIsRejected(body: Option<Fields>, env: Env, sendOk: bool)
    requires body.None? || !Complete(body.value)
    ensures Contact(body, env, sendOk) == Outcome(Response(400, ErrorReply(MissingFields)), None)
  {
  }

  /** With all four fields a mail is always attempted, configured or not, and it
      is addressed as the relay promises; the answer is 200 with `success: true`
      when it is sent and 500 otherwise. */
  lemma ContactDelivery(f: Fields, env: Env, sendOk: bool)
    requires Complete(f)
    ensures var o := Contact(Some(f), env, sendOk);
      o.delivery.Some?
      && o.delivery.value.mail.from == (if Truthy(env.contactSender) then env.contactSender else env.contactRecipient)
      && o.delivery.value.mail.to == env.contactRecipient
      && o.delivery.value.mail.replyTo == f.email.value
      && o.delivery.value.mail.subject == SubjectPrefix + f.subject.value
      && Contains(o.delivery.value.mail.html, "<p>" + ReplaceNewlines(f.message.value) + "</p>")
      && (sendOk ==> o.response == Response(200, SuccessReply(true, SentMessage)))
      && (!sendOk ==> o.response == Response(500, ErrorReply(RetryLater)))
  {
    HtmlBodyHoldsMessage(f.name.value, f.email.value, f.subject.value, f.message.value, ExpressLayout);
  }

  /** This route has no configuration check: it never answers with the
      configuration error, and its statuses are 200, 400 and 500. */
  lemma ContactHasNoConfigurationCheck(body: Option<Fields>, env: Env, sendOk: bool)
    ensures var r := Contact(body, env, sendOk).response;
      r.reply != ErrorReply(NetlifyContact.ConfigurationError) && r.status in {200, 400, 500}
  {
  }

  /** Where both relays send, they send the same mail up to the indentation of
      the HTML: same addresses, subject and text body, the same message
      paragraph, and the same port and `secure` flag. */
  lemma RelaysAgree(event: NetlifyContact.Event, env: Env, parse: string -> NetlifyContact.Parsed, sendOk: bool, f: Fields)
    requires event.httpMethod == "POST" && parse(NetlifyContact.BodyText(event.body)) == NetlifyContact.Parsed(f)
    requires Complete(f) && NetlifyContact.Configured(env)
    ensures NetlifyContact.Handle(event, env, parse, sendOk).delivery.Some?
    ensures var n := NetlifyContact.Handle(event, env, parse, sendOk).delivery.value;
      var e := Contact(Some(f), env, sendOk).delivery.value;
      e.mail.from == n.mail.from && e.mail.to == n.mail.to && e.mail.replyTo == n.mail.replyTo
      && e.mail.subject == n.mail.subject && e.mail.text == n.mail.text
      && e.mail.html == HtmlBody(f.name.value, f.email.value, f.subject.value, f.message.value, ExpressLayout)
      && n.mail.html == HtmlBody(f.name.value, f.email.value, f.subject.value, f.message.value, NetlifyContact.NetlifyLayout)
      && e.transport.port == n.transport.port && e.transport.secure == n.transport.secure
      && (Contact(Some(f), env, sendOk).response.status == 200
          <==> NetlifyContact.Handle(event, env, parse, sendOk).response.statusCode == 200)
  {
    NetlifyContact.HandleDelivery(event, env, parse, sendOk, f);
    MailsAgree(f, env);
  }

  /** The two relays' mails for the same fields and environment. */
  lemma MailsAgree(f: Fields, env: Env)
    requires Complete(f)
    ensures var n := ComposeMail(Sender(env), env.contactRecipient, f, NetlifyContact.NetlifyLayout);
      var e := ComposeMail(Sender(env), env.contactRecipient, f, ExpressLayout);
      e.from == n.from && e.to == n.to && e.replyTo == n.replyTo && e.subject == n.subject && e.text == n.text
  {
    assert AllWhitespace(ExpressLayout.textClose) && AllWhitespace(NetlifyContact.NetlifyLayout.textClose);
    TextBodyIgnoresLayout(f.name.value, f.email.value, f.subject.value, f.message.value,
                          ExpressLayout, NetlifyContact.NetlifyLayout);
  }

  // ---------------------------------------------------------------------------
  // /Profile/:filename

  datatype ProfileReply =
    | DecodeFailed              // decodeURIComponent threw; Express answers with its error handler
    | BadRequest(text: string)
    | Forbidden(text: string)
    | SendFile(path: string)    // res.download is called with this path

  const InvalidFilename: string := "Invalid filename"
  const AccessDenied: string := "Access denied"

  /** The path-traversal guard: the name contains "..", "/" or "\". */
  predicate Traverses(name: string)
  {
    Contains(name, "..") || Contains(name, "/") || Contains(name, "\\")
  }

  /** The download route. `appDir` is the server's directory (`__dirname`) as
      segments, `raw` the route parameter and `decode` stands for
      `decodeURIComponent` (None when it throws). */
  function ProfileDownload(appDir: Segments, raw: string, decode: string -> Option<string>): ProfileReply
  {
    match decode(raw)
    case None => DecodeFailed
    case Some(name) =>
      if Traverses(name) then BadRequest(InvalidFilename)
      else
        var profileDir := appDir + ["Profile"];
        var resolved := Resolve(profileDir, name);
        if !StartsWith(Text(resolved), Text(profileDir)) then Forbidden(AccessDenied)
        else SendFile(Text(resolved))
  }

  /** The 400 answer is given exactly for a decoded name holding "..", "/" or "\". */
  lemma GuardRejectsExactly(appDir: Segments, raw: string, decode: string -> Option<string>)
    requires decode(raw).Some?
    ensures var name := decode(raw).value;
      ProfileDownload(appDir, raw, decode) == BadRequest(InvalidFilename)
      <==> Contains(name, "..") || '/' in name || '\\' in name
  {
    var name := decode(raw).value;
    ContainsChar(name, '/');
    ContainsChar(name, '\\');
    assert "/" == ['/'] && "\\" == ['\\'];
  }

  /** A name that passes the guard resolves inside the Profile directory, so the
      403 answer is never given, and the file sent is that directory's entry
      of that name (or the directory itself for "" and "."). */
  lemma GuardKeepsInsideProfile(appDir: Segments, raw: string, decode: string -> Option<string>)
    requires decode(raw).Some? && !Traverses(decode(raw).value)
    ensures var name := decode(raw).value;
      var profileDir := appDir + ["Profile"];
      Inside(profileDir, Resolve(profileDir, name))
      && ProfileDownload(appDir, raw, decode)
         == SendFile(if name == "" || name == "." then Text(profileDir) else Text(profileDir) + "/" + name)
  {
    var name := decode(raw).value;
    var profileDir := appDir + ["Profile"];
    ContainsChar(name, '/');
    assert "/" == ['/'];
    SplitWithoutSeparator(name, '/');
    ContainsSelf("..");
    assert name != "..";
    var resolved := Resolve(profileDir, name);
    var single: seq<string> := [name];
    assert single[1..] == [];
    assert Walk(profileDir, single) == Walk(Step(profileDir, name), single[1..]);
    assert resolved == Step(profileDir, name);
    WalkWithoutParentStaysInside(profileDir, [name]);
    InsideHasTextPrefix(profileDir, resolved);
    if !(name == "" || name == ".") {
      SlashedAppend(profileDir, [name]);
    }
  }

  /** Whatever the name, the route never answers 403. */
  lemma ForbiddenIsUnreachable(appDir: Segments, raw: string, decode: string -> Option<string>)
    ensures !ProfileDownload(appDir, raw, decode).Forbidden?
  {
    if decode(raw).Some? && !Traverses(decode(raw).value) {
      GuardKeepsInsideProfile(appDir, raw, decode);
    }
  }

  /** The prefix test alone would not keep a name inside the directory:
      "../ProfileX" leaves /srv/Profile for /srv/ProfileX, whose text still
      starts with "/srv/Profile". Only the 400 guard stops it. */
  lemma PrefixTestAloneIsWeak()
    ensures var profileDir := ["srv", "Profile"];
      var resolved := Resolve(profileDir, "../ProfileX");
      resolved == ["srv", "ProfileX"]
      && StartsWith(Text(resolved), Text(profileDir))
      && !Inside(profileDir, resolved)
      && Traverses("../ProfileX")
  {
    SplitParentThen("ProfileX");
    assert "../ProfileX" == "../" + "ProfileX";
    WalkToSibling();
    SiblingTextHasPrefix();
    ContainsParent("../ProfileX");
  }

  /** "/srv/ProfileX" starts with "/srv/Profile" as text. */
  lemma SiblingTextHasPrefix()
    ensures StartsWith(Text(["srv", "ProfileX"]), Text(["srv", "Profile"]))
  {
    var dir: Segments := ["srv", "Profile"];
    var sib: Segments := ["srv", "ProfileX"];
    assert sib[1..][1..] == [] && dir[1..][1..] == [];
    assert Text(sib) == "/" + "srv" + ("/" + "ProfileX");
    assert Text(dir) == "/" + "srv" + ("/" + "Profile");
    assert "ProfileX" == "Profile" + "X";
  }

  /** From /srv/Profile, ".." then "ProfileX" reaches /srv/ProfileX. */
  lemma WalkToSibling()
    ensures Walk(["srv", "Profile"], ["..", "ProfileX"]) == ["srv", "ProfileX"]
  {
    var parts := ["..", "ProfileX"];
    assert parts[1..] == ["ProfileX"];
    assert Step(["srv", "Profile"], "..") == ["srv"];
    assert Walk(["srv"], ["ProfileX"]) == Walk(["srv", "ProfileX"], []);
  }

  /** A name starting with ".." trips the guard. */
  lemma ContainsParent(s: string)
    requires |s| >= 2 && s[0] == '.' && s[1] == '.'
    ensures Traverses(s)
  {
    assert ".." <= s[0..];
  }

  /** "../" followed by a name without "/" splits into a parent step and that name. */
  lemma SplitParentThen(name: string)
    requires '/' !in name
    ensures Split("../" + name, '/') == ["..", name]
  {
    SplitWithoutSeparator(name, '/');
    SplitSeparatorFirst(name, '/');
    var r1 := Split(['/'] + name, '/');
    assert r1 == [[], name];
    SplitOtherFirst('.', ['/'] + name, '/');
    var r2 := Split(['.'] + (['/'] + name), '/');
    assert r2 == [['.'] + r1[0]] + r1[1..];
    assert r1[0] == [] && r1[1..] == [name];
    assert ['.'] + r1[0] == ".";
    assert r2 == [".", name];
    SplitOtherFirst('.', ['.'] + (['/'] + name), '/');
    var r3 := Split(['.'] + (['.'] + (['/'] + name)), '/');
    assert r3 == [['.'] + r2[0]] + r2[1..];
    assert r2[0] == "." && r2[1..] == [name];
    assert ['.'] + r2[0] == "..";
    assert "../" + name == ['.'] + (['.'] + (['/'] + name));
  }
}
