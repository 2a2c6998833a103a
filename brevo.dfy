/** Email through Brevo's transactional API: a plain send with an optional text part, and the
    welcome email to a new lead.

    The API key is a parameter ("" when it is not set). What Brevo answers is the `EmailReply`
    parameter. */
module Brevo {
  import opened Common

  const NOT_CONFIGURED := "Email service not configured. Please set BREVO_API_KEY in backend environment variables."
  const SEND_FAILED := "Failed to send email: "
  const SENDING_FAILED := "Email sending failed: "
  const SENDER_NAME := "Cafoli Connect"
  const SENDER_EMAIL := "welcome@mail.skinticals.com"
  const WELCOME_SUBJECT := "Welcome to Cafoli Connect - We've Received Your Inquiry"

  /** `s.replace(/<[^>]*>/g, "")`: every `<` that has a `>` after it is removed together with
      everything up to the first such `>`; a `<` with no `>` after it stays. */
  function StripTags(s: string): (r: string)
    ensures |r| <= |s|
    decreases |s|
  {
    if s == [] then []
    else if s[0] == '<' && '>' in s[1..] then StripTags(s[FirstGt(s[1..]) + 2..])
    else [s[0]] + StripTags(s[1..])
  }

  /** The position of the first `>`. */
  function FirstGt(s: string): (k: nat)
    requires '>' in s
    ensures k < |s| && s[k] == '>' && '>' !in s[..k]
  {
    if s[0] == '>' then 0 else FirstGt(s[1..]) + 1
  }

  /** No `<` has a `>` after it: the text holds no tag. */
  predicate NoTag(s: string) {
    forall i, j :: 0 <= i < j < |s| && s[i] == '<' ==> s[j] != '>'
  }

  /** What is left has no tag in it. */
  lemma {:induction false} StripTagsLeavesNoTag(s: string)
    ensures NoTag(StripTags(s))
    decreases |s|
  {
    if s == [] {
    } else if s[0] == '<' && '>' in s[1..] {
      StripTagsLeavesNoTag(s[FirstGt(s[1..]) + 2..]);
    } else {
      var rest := StripTags(s[1..]);
      StripTagsLeavesNoTag(s[1..]);
      StripTagsKeepsOnlyItsChars(s[1..]);
      var r := [s[0]] + rest;
      forall i, j | 0 <= i < j < |r| && r[i] == '<'
        ensures r[j] != '>'
      {
        if i == 0 {
          assert r[j] == rest[j - 1] && rest[j - 1] in rest;
        } else {
          assert r[i] == rest[i - 1] && r[j] == rest[j - 1];
        }
      }
    }
  }

  /** Every character left was in the text. */
  lemma {:induction false} StripTagsKeepsOnlyItsChars(s: string)
    ensures forall c :: c in StripTags(s) ==> c in s
    decreases |s|
  {
    if s == [] {
    } else if s[0] == '<' && '>' in s[1..] {
      var t := s[FirstGt(s[1..]) + 2..];
      StripTagsKeepsOnlyItsChars(t);
      assert forall c :: c in t ==> c in s;
    } else {
      StripTagsKeepsOnlyItsChars(s[1..]);
      assert forall c :: c in s[1..] ==> c in s;
    }
  }

  /** Text without tags comes back unchanged. */
  lemma {:induction false} StripTagsKeepsPlainText(s: string)
    requires NoTag(s)
    ensures StripTags(s) == s
    decreases |s|
  {
    if s != [] {
      if s[0] == '<' {
        forall c | c in s[1..]
          ensures c != '>'
        {
          var k :| 0 <= k < |s[1..]| && s[1..][k] == c;
          assert s[k + 1] == c;
        }
      }
      assert NoTag(s[1..]) by {
        forall i, j | 0 <= i < j < |s[1..]| && s[1..][i] == '<'
          ensures s[1..][j] != '>'
        {
          assert s[i + 1] == '<';
        }
      }
      StripTagsKeepsPlainText(s[1..]);
    }
  }

  /** Stripping twice strips nothing more. */
  lemma StripTagsIdempotent(s: string)
    ensures StripTags(StripTags(s)) == StripTags(s)
  {
    StripTagsLeavesNoTag(s);
    StripTagsKeepsPlainText(StripTags(s));
  }

  /** Text before which there is no `<` is kept as it is. */
  lemma {:induction false} StripTagsPlainPrefix(a: string, b: string)
    requires '<' !in a
    ensures StripTags(a + b) == a + StripTags(b)
    decreases |a|
  {
    if a != [] {
      assert (a + b)[0] == a[0] && (a + b)[1..] == a[1..] + b;
      assert a[0] in a;
      assert forall c :: c in a[1..] ==> c in a;
      StripTagsPlainPrefix(a[1..], b);
      assert StripTags(a + b) == [a[0]] + StripTags(a[1..] + b);
      assert StripTags(a + b) == [a[0]] + (a[1..] + StripTags(b));
      assert [a[0]] + (a[1..] + StripTags(b)) == a + StripTags(b);
    } else {
      assert a + b == b;
    }
  }

  /** The first `>` after text without one is the one that follows it. */
  lemma {:induction false} FirstGtAfter(t: string, b: string)
    requires '>' !in t
    ensures '>' in t + ">" + b && FirstGt(t + ">" + b) == |t|
    decreases |t|
  {
    var u := t + ">" + b;
    assert u[|t|] == '>';
    if t != [] {
      assert u[0] == t[0] && t[0] in t;
      assert u[1..] == t[1..] + ">" + b;
      FirstGtAfter(t[1..], b);
    }
  }

  /** A tag is removed whole. */
  lemma StripTagsDropsTag(t: string, b: string)
    requires '>' !in t
    ensures StripTags("<" + t + ">" + b) == StripTags(b)
  {
    var s := "<" + t + ">" + b;
    assert s[1..] == t + ">" + b;
    FirstGtAfter(t, b);
    assert s[|t| + 2..] == b;
  }

  /** The `textContent` sent: the given text, or else the HTML with its tags removed. */
  function TextContent(textContent: string, htmlContent: string): (t: string)
    ensures textContent != "" ==> t == textContent
    ensures textContent == "" ==> NoTag(t) && |t| <= |htmlContent|
  {
    StripTagsLeavesNoTag(htmlContent);
    if textContent != "" then textContent else StripTags(htmlContent)
  }

  /** The body of the request to `/v3/smtp/email`. */
  datatype EmailRequest = EmailRequest(senderName: string, senderEmail: string, toEmail: string, toName: string,
                                       subject: string, htmlContent: string, textContent: string)

  /** Brevo's answer: accepted with a message id, refused with a non-ok status (its JSON body),
      or a failed request with its error message. */
  datatype EmailReply = Delivered(messageId: string) | Refused(body: string) | Unreachable(message: string)

  /** The request made, if any, and the message id or the error thrown. */
  datatype EmailSend = EmailSend(request: Option<EmailRequest>, result: Result<string>)

  /** The outcome of the request, as both actions report it: a refusal is thrown inside the
      `try` and wrapped again by the `catch`. */
  function Deliver(request: EmailRequest, reply: EmailReply): (r: EmailSend)
    ensures r.request == Some(request)
    ensures r.result.Ok? <==> reply.Delivered?
    ensures reply.Refused? ==> r.result == Err(SENDING_FAILED + SEND_FAILED + reply.body)
  {
    match reply
    case Delivered(id) => EmailSend(Some(request), Ok(id))
    case Refused(body) => EmailSend(Some(request), Err(SENDING_FAILED + (SEND_FAILED + body)))
    case Unreachable(m) => EmailSend(Some(request), Err(SENDING_FAILED + m))
  }

  /** `sendEmail`. */
  function SendEmail(apiKey: string, to: string, toName: string, subject: string, htmlContent: string,
                     textContent: string, reply: EmailReply): (r: EmailSend)
    ensures apiKey == "" <==> r.request.None?
    ensures apiKey == "" ==> r.result == Err(NOT_CONFIGURED)
    ensures apiKey != "" ==> (r.result.Ok? <==> reply.Delivered?)
    ensures r.request.Some? ==>
      r.request.value.toEmail == to && r.request.value.toName == toName && r.request.value.subject == subject
      && r.request.value.htmlContent == htmlContent && r.request.value.textContent == TextContent(textContent, htmlContent)
      && r.request.value.senderName == SENDER_NAME && r.request.value.senderEmail == SENDER_EMAIL
  {
    if apiKey == "" then EmailSend(None, Err(NOT_CONFIGURED))
    else
      Deliver(EmailRequest(SENDER_NAME, SENDER_EMAIL, to, toName, subject, htmlContent,
                           TextContent(textContent, htmlContent)), reply)
  }

  /** An HTML-only email is sent with a tag-free text part no longer than the HTML. */
  lemma HtmlOnlyEmailHasPlainText(apiKey: string, to: string, toName: string, subject: string, htmlContent: string,
                                  reply: EmailReply)
    requires apiKey != ""
    ensures var r := SendEmail(apiKey, to, toName, subject, htmlContent, "", reply);
      r.request.Some? && NoTag(r.request.value.textContent) && |r.request.value.textContent| <= |htmlContent|
      && (NoTag(htmlContent) ==> r.request.value.textContent == htmlContent)
  {
    StripTagsLeavesNoTag(htmlContent);
    if NoTag(htmlContent) {
      StripTagsKeepsPlainText(htmlContent);
    }
  }

  /** The welcome page of `sendWelcomeEmail`, cut where the lead's name, the source of the
      inquiry and the year go in: the page up to the greeting paragraph, then the markup up
      to the source, up to the year, and to the end. */
  const WELCOME_HEAD := "\n      <!DOCTYPE html>\n      <html>\n        <head>\n          <meta charset=\"utf-8\">\n          <style>\n            body { font-family: Arial, sans-serif; line-height: 1.6; color: #333; }\n            .container { max-width: 600px; margin: 0 auto; padding: 20px; }\n            .header { background: linear-gradient(135deg, #667eea 0%, #764ba2 100%); color: white; padding: 30px; text-align: center; border-radius: 10px 10px 0 0; }\n            .content { background: #f9f9f9; padding: 30px; border-radius: 0 0 10px 10px; }\n            .button { display: inline-block; padding: 12px 30px; background: #667eea; color: white; text-decoration: none; border-radius: 5px; margin: 20px 0; }\n            .footer { text-align: center; margin-top: 30px; color: #666; font-size: 12px; }\n          </style>\n        </head>\n        <body>\n          <div class=\"container\">\n            <div class=\"header\">\n              <h1>Welcome to Cafoli Connect!</h1>\n            </div>\n            <div class=\"content\">\n              "
  const WELCOME_MIDDLE := "\n              \n              <p>Thank you for your interest! We've received your inquiry through <strong>"
  const WELCOME_BODY := "</strong> and our team is excited to connect with you.</p>\n              \n              <p>Our dedicated team will review your requirements and reach out to you shortly with personalized solutions tailored to your needs.</p>\n              \n              <p><strong>What happens next?</strong></p>\n              <ul>\n                <li>Our team will review your inquiry within 24 hours</li>\n                <li>A dedicated representative will contact you to discuss your requirements</li>\n                <li>We'll provide you with customized solutions and pricing</li>\n              </ul>\n              \n              <p>If you have any immediate questions, feel free to reply to this email or contact us directly.</p>\n              \n              <p>Best regards,<br>\n              <strong>The Cafoli Connect Team</strong></p>\n            </div>\n            <div class=\"footer\">\n              <p>This is an automated message from Cafoli Connect CRM</p>\n              <p>\U{A9} "
  const WELCOME_TAIL := " Cafoli Connect. All rights reserved.</p>\n            </div>\n          </div>\n        </body>\n      </html>\n    "

  /** The greeting line of the welcome email. */
  function Greeting(leadName: string): string {
    "Dear " + leadName + ","
  }

  /** The page after the greeting paragraph, with the source of the inquiry and the year
      (`new Date().getFullYear()`, a parameter) put in. */
  function WelcomeRest(source: string, year: nat): string {
    WELCOME_MIDDLE + source + WELCOME_BODY + NatToString(year) + WELCOME_TAIL
  }

  /** The welcome email's HTML: the page with the greeting paragraph `<p>Dear …,</p>`. */
  function WelcomeHtml(leadName: string, source: string, year: nat): string {
    WELCOME_HEAD + "<p>" + Greeting(leadName) + "</p>" + WelcomeRest(source, year)
  }

  /** `sendWelcomeEmail`: the page sent as HTML, and the same page without its tags as text. */
  function SendWelcomeEmail(apiKey: string, leadName: string, leadEmail: string, source: string, year: nat,
                            reply: EmailReply): (r: EmailSend)
    ensures apiKey == "" <==> r.request.None?
    ensures apiKey == "" ==> r.result == Err(NOT_CONFIGURED)
    ensures apiKey != "" ==> (r.result.Ok? <==> reply.Delivered?)
    ensures r.request.Some? ==>
      r.request.value.toEmail == leadEmail && r.request.value.toName == leadName
      && r.request.value.senderName == SENDER_NAME && r.request.value.senderEmail == SENDER_EMAIL
      && r.request.value.subject == WELCOME_SUBJECT && r.request.value.textContent == StripTags(r.request.value.htmlContent)
  {
    if apiKey == "" then EmailSend(None, Err(NOT_CONFIGURED))
    else
      var htmlContent := WelcomeHtml(leadName, source, year);
      Deliver(EmailRequest(SENDER_NAME, SENDER_EMAIL, leadEmail, leadName, WELCOME_SUBJECT, htmlContent,
                           StripTags(htmlContent)), reply)
  }

  /** The greeting is "Dear ", the lead's name and a comma: the name can be read back. */
  lemma GreetingNamesLead(leadName: string)
    ensures var g := Greeting(leadName);
      |g| == |leadName| + 6 && g[..5] == "Dear " && g[5..|g| - 1] == leadName && g[|g| - 1] == ','
  {
  }

  lemma ContainsMiddle(a: string, x: string, b: string)
    ensures Contains(a + x + b, x)
  {
    ContainsPrefixOf(x + b, x);
    ContainsInSuffix(a, x + b, x);
    assert a + x + b == a + (x + b);
  }

  /** The welcome page holds the greeting and the source of the inquiry. */
  lemma WelcomeHtmlShowsLead(leadName: string, source: string, year: nat)
    ensures Contains(WelcomeHtml(leadName, source, year), Greeting(leadName))
    ensures Contains(WelcomeHtml(leadName, source, year), source)
  {
    ParagraphContains(WELCOME_HEAD, Greeting(leadName), WelcomeRest(source, year));
    FifthContains(WELCOME_MIDDLE, source, WELCOME_BODY, NatToString(year), WELCOME_TAIL);
    ContainsInSuffix(WELCOME_HEAD + "<p>" + Greeting(leadName) + "</p>", WelcomeRest(source, year), source);
  }

  lemma ParagraphContains(head: string, x: string, rest: string)
    ensures Contains(head + "<p>" + x + "</p>" + rest, x)
  {
    ContainsMiddle(head + "<p>", x, "</p>" + rest);
    assert head + "<p>" + x + "</p>" + rest == head + "<p>" + x + ("</p>" + rest);
  }

  lemma FifthContains(a: string, y: string, b: string, c: string, d: string)
    ensures Contains(a + y + b + c + d, y)
  {
    ContainsMiddle(a, y, b + c + d);
    assert a + y + b + c + d == a + y + (b + c + d);
  }

  lemma GreetingHasNoLt(leadName: string)
    requires '<' !in leadName
    ensures '<' !in Greeting(leadName)
  {
    var greeting := Greeting(leadName);
    forall c | c in greeting
      ensures c != '<'
    {
      assert c in "Dear " || c in leadName || c == ',';
    }
  }

  /** `u` ends with `v`. */
  predicate EndsWith(u: string, v: string) {
    |v| <= |u| && u[|u| - |v|..] == v
  }

  /** The first `>` of a text that has one is also the first of any longer text. */
  lemma {:induction false} FirstGtPrefix(a: string, b: string)
    requires '>' in a
    ensures '>' in a + b && FirstGt(a + b) == FirstGt(a)
    decreases |a|
  {
    assert (a + b)[0] == a[0];
    if a[0] != '>' {
      assert a[1..] + b == (a + b)[1..];
      assert '>' in a[1..] by {
        var k :| 0 <= k < |a| && a[k] == '>';
        assert a[1..][k - 1] == '>';
      }
      FirstGtPrefix(a[1..], b);
    }
  }

  /** A text that ends with `v` still does after one more character in front. */
  lemma EndsWithCons(c: char, u: string, v: string)
    requires EndsWith(u, v)
    ensures EndsWith([c] + u, v)
  {
    assert ([c] + u)[|[c] + u| - |v|..] == u[|u| - |v|..];
  }

  /** Whatever markup comes before it, a tag `<t>` ends every tag opened before it, so the
      text after it is stripped as if it stood alone. */
  lemma {:induction false} StripTagsAfterTag(x: string, t: string, y: string)
    requires '>' !in t
    ensures EndsWith(StripTags(x + ("<" + t + ">" + y)), StripTags(y))
    decreases |x|
  {
    var z := "<" + t + ">" + y;
    var s := x + z;
    if x == [] {
      assert s == z;
      StripTagsDropsTag(t, y);
    } else if x[0] == '<' {
      assert s[0] == '<' && s[1..] == x[1..] + z;
      if '>' in x[1..] {
        StripTagsSkipsOpenTag(x, z);
        StripTagsAfterTag(x[FirstGt(x[1..]) + 2..], t, y);
      } else {
        StripTagsOpenedBefore(x, t, y);
      }
    } else {
      assert s[0] == x[0] && s[1..] == x[1..] + z;
      StripTagsAfterTag(x[1..], t, y);
      EndsWithCons(x[0], StripTags(x[1..] + z), StripTags(y));
    }
  }

  /** A tag that opens and closes inside `x` is skipped as it would be without `z`. */
  lemma StripTagsSkipsOpenTag(x: string, z: string)
    requires x != [] && x[0] == '<' && '>' in x[1..]
    ensures StripTags(x + z) == StripTags(x[FirstGt(x[1..]) + 2..] + z)
  {
    var s := x + z;
    assert s[0] == '<' && s[1..] == x[1..] + z;
    FirstGtPrefix(x[1..], z);
    var k := FirstGt(x[1..]);
    assert s[k + 2..] == x[k + 2..] + z;
  }

  /** `<`, then text without `>`, then `>`: all of it is one tag. */
  lemma StripTagsOpenedBefore(x: string, t: string, y: string)
    requires x != [] && x[0] == '<' && '>' !in x[1..] && '>' !in t
    ensures StripTags(x + ("<" + t + ">" + y)) == StripTags(y)
  {
    var u := x[1..] + "<" + t;
    assert '>' !in u;
    OpenTagSplits(x, t, y);
    StripTagsDropsTag(u, y);
  }

  /** The markup seen from the `<` that opens `x`. */
  lemma OpenTagSplits(x: string, t: string, y: string)
    requires x != [] && x[0] == '<'
    ensures x + ("<" + t + ">" + y) == "<" + (x[1..] + "<" + t) + ">" + y
  {
    assert x == "<" + x[1..];
  }

  /** After any markup, the paragraph `<p>Dear …,</p>` leaves the greeting, followed by the text
      of what comes after it, at the end of the text, when the name holds no `<`. */
  lemma GreetingParagraphStripped(head: string, leadName: string, rest: string)
    requires '<' !in leadName
    ensures EndsWith(StripTags(head + "<p>" + Greeting(leadName) + "</p>" + rest), Greeting(leadName) + StripTags(rest))
  {
    var greeting := Greeting(leadName);
    var y := greeting + ("</p>" + rest);
    ParagraphSplits(head, greeting, rest);
    StripTagsAfterTag(head, "p", y);
    GreetingHasNoLt(leadName);
    StripTagsPlainPrefix(greeting, "</p>" + rest);
    assert "</p>" + rest == "<" + "/p" + ">" + rest;
    StripTagsDropsTag("/p", rest);
  }

  /** A paragraph seen as its opening tag followed by what comes after it. */
  lemma ParagraphSplits(head: string, g: string, rest: string)
    ensures head + "<p>" + g + "</p>" + rest == head + ("<" + "p" + ">" + (g + ("</p>" + rest)))
  {
  }

  /** The text of the welcome page ends with the greeting, followed by the text of the rest
      of the page, when the name holds no `<`: the tags of the page's head and style sheet do
      not swallow it. */
  lemma WelcomeHtmlStripped(leadName: string, source: string, year: nat)
    requires '<' !in leadName
    ensures EndsWith(StripTags(WelcomeHtml(leadName, source, year)), Greeting(leadName) + StripTags(WelcomeRest(source, year)))
  {
    GreetingParagraphStripped(WELCOME_HEAD, leadName, WelcomeRest(source, year));
  }

  /** The welcome's text part greets the lead by name, when the name holds no `<`. */
  lemma WelcomeTextGreetsLead(apiKey: string, leadName: string, leadEmail: string, source: string, year: nat,
                              reply: EmailReply)
    requires apiKey != "" && '<' !in leadName
    ensures var r := SendWelcomeEmail(apiKey, leadName, leadEmail, source, year, reply);
      r.request.Some? && EndsWith(r.request.value.textContent, Greeting(leadName) + StripTags(WelcomeRest(source, year)))
  {
    WelcomeHtmlStripped(leadName, source, year);
  }
}
