/** The completed-greet webhook (src/bonjoro/bonjoro.controller.ts): the
    field-service customer id is read off the greet's automation address,
    the video link is moved to the company's own host, and the customer is
    sent an SMS made from a template. The answers of the customer lookup
    and of the template fetch are parameters; the calls themselves are
    recorded. */
module BonjoroController {
  import opened Wrappers
  import opened Strings
  import opened PestRoutesTypes

  const EMAIL_PREFIX := "automation+"
  const EMAIL_SUFFIX := "@atlaspest.com"
  const BONJORO_HOST := "https://www.bonjoro.com"
  const VIDEO_HOST := "https://video.atlaspest.com"
  const NBSP := "&nbsp;"
  const FIRST_NAME_PLACEHOLDER := "{{customer.first_name}}"
  const LINK_PLACEHOLDER := "{{link}}"
  /** The id of the SMS template the handler fetches. */
  const SMS_TEMPLATE := "rsp_mtjrm"
  const SMS_CHANNEL := "cha_ap76a"

  /** The characters `\s` matches in a JavaScript regular expression. */
  predicate IsJsSpace(ch: char)
  {
    || ch == '\t' || ch == '\n' || ch == '\U{000B}' || ch == '\U{000C}' || ch == '\r' || ch == ' '
    || ch == '\U{00A0}' || ch == '\U{1680}' || ('\U{2000}' <= ch <= '\U{200A}')
    || ch == '\U{2028}' || ch == '\U{2029}' || ch == '\U{202F}' || ch == '\U{205F}'
    || ch == '\U{3000}' || ch == '\U{FEFF}'
  }

  /** What the capture group `([^\s@]+)` accepts. */
  predicate ValidId(id: string)
  {
    |id| > 0 && forall k :: 0 <= k < |id| ==> !IsJsSpace(id[k]) && id[k] != '@'
  }

  /** The match of `^automation\+([^\s@]+)@atlaspest\.com$`: the captured
      group, or `None` when the address does not match. */
  function ParseCustomerId(email: string): (r: Option<string>)
    ensures r.Some? ==> ValidId(r.value) && email == EMAIL_PREFIX + r.value + EMAIL_SUFFIX
  {
    if |email| >= |EMAIL_PREFIX| + |EMAIL_SUFFIX| && StartsWith(email, EMAIL_PREFIX) && EndsWith(email, EMAIL_SUFFIX) then
      var id := email[|EMAIL_PREFIX|..|email| - |EMAIL_SUFFIX|];
      assert email == email[..|EMAIL_PREFIX|] + id + email[|email| - |EMAIL_SUFFIX|..];
      if ValidId(id) then Some(id) else None
    else None
  }

  /** Every automation address of a valid id parses back to that id. */
  lemma ParseCustomerIdComplete(id: string)
    requires ValidId(id)
    ensures ParseCustomerId(EMAIL_PREFIX + id + EMAIL_SUFFIX) == Some(id)
  {
    var email := EMAIL_PREFIX + id + EMAIL_SUFFIX;
    assert email[..|EMAIL_PREFIX|] == EMAIL_PREFIX;
    assert email[|email| - |EMAIL_SUFFIX|..] == EMAIL_SUFFIX;
    assert email[|EMAIL_PREFIX|..|email| - |EMAIL_SUFFIX|] == id;
  }

  /** The id is extracted exactly when the address is the automation
      address of a valid id, and it is that id. */
  lemma ParseCustomerIdIff(email: string, id: string)
    ensures ParseCustomerId(email) == Some(id) <==> ValidId(id) && email == EMAIL_PREFIX + id + EMAIL_SUFFIX
  {
    if ValidId(id) && email == EMAIL_PREFIX + id + EMAIL_SUFFIX {
      ParseCustomerIdComplete(id);
    }
  }

  /** The video link on the company's host: the first occurrence of the
      Bonjoro host is replaced. */
  function VideoUrl(url: string): (r: string)
    ensures !Contains(url, BONJORO_HOST) ==> r == url
    ensures StartsWith(url, BONJORO_HOST) ==> r == VIDEO_HOST + url[|BONJORO_HOST|..]
  {
    if StartsWith(url, BONJORO_HOST) then
      assert OccursAt(url, BONJORO_HOST, 0);
      assert FirstOccurrence(url, BONJORO_HOST, 0);
      ReplaceFirst(url, BONJORO_HOST, VIDEO_HOST)
    else ReplaceFirst(url, BONJORO_HOST, VIDEO_HOST)
  }

  /** A link on the Bonjoro host moves to the company's host; the rest of
      the link is kept as it is, even where it names the Bonjoro host
      again. */
  lemma VideoUrlSwapsHost(rest: string)
    ensures VideoUrl(BONJORO_HOST + rest) == VIDEO_HOST + rest
  {
    var url := BONJORO_HOST + rest;
    assert OccursAt(url, BONJORO_HOST, 0);
    assert FirstOccurrence(url, BONJORO_HOST, 0);
    assert url[|BONJORO_HOST|..] == rest;
  }

  /** The SMS text: tags stripped, every `&nbsp;` turned into a blank line,
      then the first first-name placeholder and the first link placeholder
      filled in. */
  function SmsBody(template: string, firstName: string, videoUrl: string): (r: string)
    ensures ('<' !in template && '&' !in template &&
             !Contains(template, FIRST_NAME_PLACEHOLDER) && !Contains(template, LINK_PLACEHOLDER)) ==> r == template
  {
    PlainTemplateExpands(template);
    var expanded := ReplaceAll(StripTags(template), NBSP, "\n\n");
    ReplaceFirst(ReplaceFirst(expanded, FIRST_NAME_PLACEHOLDER, firstName), LINK_PLACEHOLDER, videoUrl)
  }

  /** Before the placeholders are filled in, the text holds no tag and no
      `&nbsp;`. */
  lemma ExpandedTemplateIsPlain(template: string)
    ensures !HasTag(StripTags(template))
    ensures !Contains(ReplaceAll(StripTags(template), NBSP, "\n\n"), NBSP)
  {
    ReplaceAllRemovesPattern(StripTags(template), NBSP, "\n\n");
  }

  /** A template without '<' and '&' is left as it is by the first two
      rewrites. */
  lemma PlainTemplateExpands(t: string)
    ensures '<' !in t && '&' !in t ==> ReplaceAll(StripTags(t), NBSP, "\n\n") == t
  {
    if '<' !in t && '&' !in t {
      StripTagsPlain(t);
      ReplaceAllAbsent(t, NBSP, "\n\n");
    }
  }

  /** On a template without markup, only the first link placeholder is
      replaced: a later `{{link}}` in `after` stays as it is. */
  lemma {:induction false} OnlyFirstLinkFilled(before: string, after: string, firstName: string, videoUrl: string)
    requires '<' !in before && '<' !in after && '&' !in before && '&' !in after
    requires '{' !in before
    requires !Contains(before + LINK_PLACEHOLDER + after, FIRST_NAME_PLACEHOLDER)
    ensures SmsBody(before + LINK_PLACEHOLDER + after, firstName, videoUrl) == before + videoUrl + after
  {
    var t := before + LINK_PLACEHOLDER + after;
    assert '<' !in t && '&' !in t by {
      assert '<' !in LINK_PLACEHOLDER && '&' !in LINK_PLACEHOLDER;
    }
    PlainTemplateExpands(t);
    assert ReplaceFirst(t, FIRST_NAME_PLACEHOLDER, firstName) == t;
    FirstOccurrenceAfter(before, LINK_PLACEHOLDER, after);
    var p := |before|;
    assert t[..p] == before && t[p + |LINK_PLACEHOLDER|..] == after;
  }

  /** On a template without markup, only the first first-name
      placeholder is filled in: a later one in `after` stays as it is. */
  lemma {:induction false} OnlyFirstNameFilled(before: string, after: string, firstName: string, videoUrl: string)
    requires '<' !in before && '<' !in after && '&' !in before && '&' !in after
    requires '{' !in before
    requires !Contains(before + firstName + after, LINK_PLACEHOLDER)
    ensures SmsBody(before + FIRST_NAME_PLACEHOLDER + after, firstName, videoUrl) == before + firstName + after
  {
    var t := before + FIRST_NAME_PLACEHOLDER + after;
    assert '<' !in t && '&' !in t by {
      assert '<' !in FIRST_NAME_PLACEHOLDER && '&' !in FIRST_NAME_PLACEHOLDER;
    }
    PlainTemplateExpands(t);
    FirstOccurrenceAfter(before, FIRST_NAME_PLACEHOLDER, after);
    var p := |before|;
    assert t[..p] == before && t[p + |FIRST_NAME_PLACEHOLDER|..] == after;
  }

  /** A two-paragraph HTML template: the line `line`, then `&nbsp;`,
      then a line holding only the link placeholder. */
  function HtmlTemplate(line: string): string
  {
    "<p>" + (line + ("</p>" + (NBSP + ("<p>" + (LINK_PLACEHOLDER + "</p>")))))
  }

  /** The template's four tags are removed and the text between them kept. */
  lemma {:induction false} HtmlTemplateStripped(line: string)
    requires '<' !in line
    ensures StripTags(HtmlTemplate(line)) == line + (NBSP + LINK_PLACEHOLDER)
  {
    assert IsTag("<p>") && IsTag("</p>");
    assert "</p>" + "" == "</p>";
    StripTagsRemovesTag(LINK_PLACEHOLDER, "</p>", "");
    StripTagsRemovesTag(NBSP, "<p>", LINK_PLACEHOLDER + "</p>");
    StripTagsRemovesTag(line, "</p>", NBSP + ("<p>" + (LINK_PLACEHOLDER + "</p>")));
    StripTagsLeadingTag("<p>", line + ("</p>" + (NBSP + ("<p>" + (LINK_PLACEHOLDER + "</p>")))));
  }

  /** The one `&nbsp;` between the paragraphs becomes a blank line. */
  lemma {:induction false} HtmlTemplateExpanded(line: string)
    requires '&' !in line
    ensures ReplaceAll(line + (NBSP + LINK_PLACEHOLDER), NBSP, "\n\n") == line + "\n\n" + LINK_PLACEHOLDER
  {
    var stripped := line + NBSP + LINK_PLACEHOLDER;
    AppendAssoc(line, NBSP, LINK_PLACEHOLDER);
    FirstOccurrenceAfter(line, NBSP, LINK_PLACEHOLDER);
    ReplaceAllAtFirst(stripped, NBSP, "\n\n", |line|);
    assert stripped[..|line|] == line && stripped[|line| + |NBSP|..] == LINK_PLACEHOLDER;
    ReplaceAllAbsent(LINK_PLACEHOLDER, NBSP, "\n\n");
  }

  /** A two-paragraph HTML template, a greeting line holding the first-name
      placeholder and a line holding the link, separated by `&nbsp;`,
      becomes the greeting with the name filled in, a blank line, and the
      video link. */
  lemma {:induction false} HtmlTemplateFilled(greeting: string, closing: string, firstName: string, videoUrl: string)
    requires '<' !in greeting && '&' !in greeting && '{' !in greeting
    requires '<' !in closing && '&' !in closing && '{' !in closing
    requires '{' !in firstName
    ensures SmsBody(HtmlTemplate(greeting + FIRST_NAME_PLACEHOLDER + closing), firstName, videoUrl)
            == greeting + firstName + closing + "\n\n" + videoUrl
  {
    var line := greeting + FIRST_NAME_PLACEHOLDER + closing;
    assert '<' !in line && '&' !in line by {
      assert '<' !in FIRST_NAME_PLACEHOLDER && '&' !in FIRST_NAME_PLACEHOLDER;
    }
    HtmlTemplateStripped(line);
    HtmlTemplateExpanded(line);
    var stripped := StripTags(HtmlTemplate(line));
    var expanded := ReplaceAll(stripped, NBSP, "\n\n");
    assert expanded == line + "\n\n" + LINK_PLACEHOLDER;
    var tail := closing + "\n\n" + LINK_PLACEHOLDER;
    var opening := greeting + FIRST_NAME_PLACEHOLDER;
    AppendAssoc(line, "\n\n", LINK_PLACEHOLDER);
    AppendAssoc(opening, closing, "\n\n" + LINK_PLACEHOLDER);
    AppendAssoc(closing, "\n\n", LINK_PLACEHOLDER);
    assert expanded == opening + tail;
    ReplaceFirstAfter(greeting, FIRST_NAME_PLACEHOLDER, tail, firstName);
    var greeted := greeting + firstName;
    var withName := ReplaceFirst(expanded, FIRST_NAME_PLACEHOLDER, firstName);
    assert withName == greeted + tail;
    var named := greeted + closing + "\n\n";
    AppendAssoc(greeted, closing + "\n\n", LINK_PLACEHOLDER);
    AppendAssoc(greeted, closing, "\n\n");
    assert withName == named + LINK_PLACEHOLDER + "";
    assert '{' !in named;
    ReplaceFirstAfter(named, LINK_PLACEHOLDER, "", videoUrl);
    assert SmsBody(HtmlTemplate(line), firstName, videoUrl) == ReplaceFirst(withName, LINK_PLACEHOLDER, videoUrl);
    assert named + videoUrl + "" == named + videoUrl;
  }

  datatype Sms = Sms(to: string, body: string, channelId: string)

  /** The handler's outside calls, in order: the customer lookup, the
      template fetch and the SMS. */
  datatype ControllerCall = GetCustomer(customerId: string) | GetTemplate(templateId: string) | SendSms(sms: Sms)

  /** `greetCompleted`: `customerOf` answers the customer lookup and
      `template` is the text the template fetch returns. A non-matching
      address makes no call at all. */
  function GreetCompleted(email: string, url: string, customerOf: string -> Customer, template: string)
    : (calls: seq<ControllerCall>)
    ensures calls == [] <==> ParseCustomerId(email).None?
    ensures calls != [] ==> && |calls| == 3
                            && calls[0] == GetCustomer(ParseCustomerId(email).value)
                            && calls[1] == GetTemplate(SMS_TEMPLATE)
                            && calls[2].SendSms?
                            && calls[2].sms.to == customerOf(ParseCustomerId(email).value).phone1
                            && calls[2].sms.channelId == SMS_CHANNEL
  {
    match ParseCustomerId(email)
    case None => []
    case Some(id) =>
      var customer := customerOf(id);
      [GetCustomer(id), GetTemplate(SMS_TEMPLATE),
       SendSms(Sms(customer.phone1, SmsBody(template, customer.fname, VideoUrl(url)), SMS_CHANNEL))]
  }

  /** Calls are made exactly for an automation address of a valid id: that
      customer is looked up, the template fetched, and the rewritten
      template sent to the customer's first phone on the SMS channel. Any
      other address is neither looked up nor answered. */
  lemma GreetCompletedSends(email: string, url: string, customerOf: string -> Customer, template: string)
    ensures GreetCompleted(email, url, customerOf, template) != [] <==>
              exists id :: ValidId(id) && email == EMAIL_PREFIX + id + EMAIL_SUFFIX
    ensures forall id :: ValidId(id) && email == EMAIL_PREFIX + id + EMAIL_SUFFIX ==>
              GreetCompleted(email, url, customerOf, template) ==
                [GetCustomer(id), GetTemplate(SMS_TEMPLATE),
                 SendSms(Sms(customerOf(id).phone1, SmsBody(template, customerOf(id).fname, VideoUrl(url)), SMS_CHANNEL))]
  {
    forall id | ValidId(id) && email == EMAIL_PREFIX + id + EMAIL_SUFFIX
      ensures ParseCustomerId(email) == Some(id)
    {
      ParseCustomerIdComplete(id);
    }
  }
}
