/**
 * The contact form of the landing page: five text fields, a message that is
 * filled in automatically from the chosen service and package, pre-filling
 * from the pricing tables, and submission as a formatted inquiry text for a
 * messaging deep link.
 */
module Contact {

  datatype ContactForm = ContactForm(name: string, email: string, service: string, package: string, message: string)

  /** The state the form starts in and is reset to after each submission. */
  const EmptyForm: ContactForm := ContactForm("", "", "", "", "")

  /** The six service titles of the pricing tables, in table order. */
  const PricingServices: seq<string> := [
    "Branding & Identity",
    "Social Media Design",
    "Print Design",
    "Product & Packaging",
    "Web Design & Development",
    "Marketing & Other Services"]

  /** The package tiers offered for every service. */
  const PackageTiers: seq<string> := ["Basic", "Advanced", "Premium"]

  /** The option values of the service drop-down, in option order. */
  const ServiceOptions: seq<string> := [
    "branding_&_identity",
    "social_media_design",
    "print_design",
    "product_&_packaging",
    "web_design_&_development",
    "marketing_&_other_services"]

  /** The lookup table from service key to service title. */
  const ServiceNames: map<string, string> := map[
    "branding_&_identity" := "Branding & Identity",
    "social_media_design" := "Social Media Design",
    "print_design" := "Print Design",
    "product_&_packaging" := "Product & Packaging",
    "web_design_&_development" := "Web Design & Development",
    "marketing_&_other_services" := "Marketing & Other Services"]

  // ---------------------------------------------------------------------------
  // The service-key rule: lower-case, runs of white space to '_', first '/' to '_'

  predicate IsAsciiUpper(c: char) { 'A' <= c <= 'Z' }

  function LowerChar(c: char): char {
    if IsAsciiUpper(c) then (c as int + 32) as char else c
  }

  function ToLowerCase(s: string): (r: string)
    ensures |r| == |s|
  {
    if s == [] then [] else [LowerChar(s[0])] + ToLowerCase(s[1..])
  }

  /** The characters the regular-expression class `\s` matches. */
  predicate IsWhiteSpace(c: char) {
    c == ' ' || c == '\t' || c == '\n' || c == '\r' || c == '\U{000B}' || c == '\U{000C}' ||
    c == '\U{00A0}' || c == '\U{1680}' || ('\U{2000}' <= c <= '\U{200A}') ||
    c == '\U{2028}' || c == '\U{2029}' || c == '\U{202F}' || c == '\U{205F}' ||
    c == '\U{3000}' || c == '\U{FEFF}'
  }

  /** `replace(/\s+/g, '_')`; `inRun` says that the previous character was white space. */
  function ReplaceWhiteSpaceRuns(s: string, inRun: bool): (r: string)
    ensures |r| <= |s|
    ensures !inRun && s != [] ==> r != []
  {
    if s == [] then []
    else if IsWhiteSpace(s[0]) then
      (if inRun then [] else "_") + ReplaceWhiteSpaceRuns(s[1..], true)
    else [s[0]] + ReplaceWhiteSpaceRuns(s[1..], false)
  }

  /** `replace(from, to)` with a one-character string pattern: only the first occurrence changes. */
  function ReplaceFirst(s: string, from: char, to: char): (r: string)
    ensures |r| == |s|
  {
    if s == [] then []
    else if s[0] == from then [to] + s[1..]
    else [s[0]] + ReplaceFirst(s[1..], from, to)
  }

  /** The form key that a pricing-table button derives from a service title. */
  function ServiceKey(serviceName: string): (r: string)
    ensures |r| <= |serviceName|
    ensures r == "" <==> serviceName == ""
  {
    ReplaceFirst(ReplaceWhiteSpaceRuns(ToLowerCase(serviceName), false), '/', '_')
  }

  /** No two white-space characters are adjacent in `s`. */
  predicate SingleSpaced(s: string) {
    forall i :: 0 <= i < |s| - 1 ==> !(IsWhiteSpace(s[i]) && IsWhiteSpace(s[i + 1]))
  }

  /** The key character for one title character, when runs never exceed one character. */
  function KeyChar(c: char): char {
    if IsWhiteSpace(c) then '_' else LowerChar(c)
  }

  lemma {:induction false} ToLowerCaseAt(s: string, i: nat)
    requires i < |s|
    ensures ToLowerCase(s)[i] == LowerChar(s[i])
    decreases |s|
  {
    if i > 0 {
      ToLowerCaseAt(s[1..], i - 1);
    }
  }

  lemma {:induction false} SingleRunsAreMapped(s: string, inRun: bool)
    requires SingleSpaced(s)
    requires inRun && s != [] ==> !IsWhiteSpace(s[0])
    ensures ReplaceWhiteSpaceRuns(s, inRun) == seq(|s|, i requires 0 <= i < |s| => if IsWhiteSpace(s[i]) then '_' else s[i])
    decreases |s|
  {
    if s != [] {
      assert SingleSpaced(s[1..]) by {
        forall i | 0 <= i < |s[1..]| - 1 ensures !(IsWhiteSpace(s[1..][i]) && IsWhiteSpace(s[1..][i + 1])) {
          assert s[1..][i] == s[i + 1] && s[1..][i + 1] == s[i + 2];
        }
      }
      SingleRunsAreMapped(s[1..], IsWhiteSpace(s[0]));
    }
  }

  lemma {:induction false} ReplaceFirstAbsent(s: string, from: char, to: char)
    requires from !in s
    ensures ReplaceFirst(s, from, to) == s
    decreases |s|
  {
    if s != [] {
      ReplaceFirstAbsent(s[1..], from, to);
    }
  }

  /**
   * For a title without '/' and without adjacent white space, the key is the
   * title with ASCII capitals lowered and each white-space character turned into '_'.
   */
  lemma PlainTitleKey(t: string)
    requires SingleSpaced(t) && '/' !in t
    ensures ServiceKey(t) == seq(|t|, i requires 0 <= i < |t| => KeyChar(t[i]))
  {
    var lower := ToLowerCase(t);
    forall i | 0 <= i < |t| ensures lower[i] == LowerChar(t[i]) {
      ToLowerCaseAt(t, i);
    }
    assert SingleSpaced(lower);
    SingleRunsAreMapped(lower, false);
    var spaced := ReplaceWhiteSpaceRuns(lower, false);
    assert '/' !in spaced;
    ReplaceFirstAbsent(spaced, '/', '_');
  }

  /** The characters the six service titles are spelled with. */
  predicate IsTitleChar(c: char) { 'A' <= c <= 'Z' || 'a' <= c <= 'z' || c == '&' || c == ' ' }

  /** For a title of letters, '&' and single spaces, the key is computed character by character. */
  lemma KeyOfSpacedTitle(t: string, key: string)
    requires forall i :: 0 <= i < |t| ==> IsTitleChar(t[i])
    requires forall i :: 0 <= i < |t| - 1 ==> !(t[i] == ' ' && t[i + 1] == ' ')
    requires |key| == |t|
    requires forall i :: 0 <= i < |t| ==> key[i] == if t[i] == ' ' then '_' else LowerChar(t[i])
    ensures ServiceKey(t) == key
  {
    assert SingleSpaced(t);
    assert '/' !in t;
    PlainTitleKey(t);
    assert seq(|t|, i requires 0 <= i < |t| => KeyChar(t[i])) == key;
  }

  // One lemma per title: a single proof over all six literal titles is beyond the solver's budget,
  // so each title's character-by-character check stays in an obligation of its own.
  lemma BrandingKey(t: string)
    requires t == "Branding & Identity"
    ensures ServiceKey(t) == "branding_&_identity"
  {
    KeyOfSpacedTitle(t, "branding_&_identity");
  }

  lemma SocialMediaKey(t: string)
    requires t == "Social Media Design"
    ensures ServiceKey(t) == "social_media_design"
  {
    KeyOfSpacedTitle(t, "social_media_design");
  }

  lemma PrintKey(t: string)
    requires t == "Print Design"
    ensures ServiceKey(t) == "print_design"
  {
    KeyOfSpacedTitle(t, "print_design");
  }

  lemma PackagingKey(t: string)
    requires t == "Product & Packaging"
    ensures ServiceKey(t) == "product_&_packaging"
  {
    KeyOfSpacedTitle(t, "product_&_packaging");
  }

  lemma WebKey(t: string)
    requires t == "Web Design & Development"
    ensures ServiceKey(t) == "web_design_&_development"
  {
    KeyOfSpacedTitle(t, "web_design_&_development");
  }

  lemma MarketingKey(t: string)
    requires t == "Marketing & Other Services"
    ensures ServiceKey(t) == "marketing_&_other_services"
  {
    KeyOfSpacedTitle(t, "marketing_&_other_services");
  }

  /** The drop-down options are the keys of the lookup table, option `i` naming pricing title `i`. */
  lemma ServiceNamesTable(i: nat)
    requires i < |ServiceOptions|
    ensures ServiceOptions[i] in ServiceNames && ServiceNames[ServiceOptions[i]] == PricingServices[i]
  {
  }

  /**
   * Each pricing-table title turns into the drop-down option at the same
   * position, a key of the lookup table that maps back to that same title.
   */
  lemma ServiceKeyRoundTrip(i: nat)
    requires i < |PricingServices|
    ensures ServiceKey(PricingServices[i]) == ServiceOptions[i]
    ensures ServiceKey(PricingServices[i]) in ServiceNames
    ensures ServiceNames[ServiceKey(PricingServices[i])] == PricingServices[i]
  {
    ServiceNamesTable(i);
    var title := PricingServices[i];
    if i == 0 { BrandingKey(title); }
    else if i == 1 { SocialMediaKey(title); }
    else if i == 2 { PrintKey(title); }
    else if i == 3 { PackagingKey(title); }
    else if i == 4 { WebKey(title); }
    else { MarketingKey(title); }
    assert ServiceKey(title) == ServiceOptions[i];
  }

  lemma {:induction false} ToLowerCaseHasNoCapital(s: string)
    ensures forall i :: 0 <= i < |ToLowerCase(s)| ==> !IsAsciiUpper(ToLowerCase(s)[i])
    ensures forall i :: 0 <= i < |ToLowerCase(s)| ==> (IsWhiteSpace(ToLowerCase(s)[i]) <==> IsWhiteSpace(s[i]))
    decreases |s|
  {
    if s != [] {
      ToLowerCaseHasNoCapital(s[1..]);
      forall i | 0 <= i < |s| ensures ToLowerCase(s)[i] == LowerChar(s[i]) {
        ToLowerCaseAt(s, i);
      }
    }
  }

  lemma {:induction false} RunsLeaveNoWhiteSpace(s: string, inRun: bool)
    requires forall i :: 0 <= i < |s| ==> !IsAsciiUpper(s[i])
    ensures forall i :: 0 <= i < |ReplaceWhiteSpaceRuns(s, inRun)| ==>
              !IsWhiteSpace(ReplaceWhiteSpaceRuns(s, inRun)[i]) && !IsAsciiUpper(ReplaceWhiteSpaceRuns(s, inRun)[i])
    decreases |s|
  {
    if s != [] {
      RunsLeaveNoWhiteSpace(s[1..], IsWhiteSpace(s[0]));
    }
  }

  lemma {:induction false} ReplaceFirstKeepsShape(s: string)
    requires forall i :: 0 <= i < |s| ==> !IsWhiteSpace(s[i]) && !IsAsciiUpper(s[i])
    ensures forall i :: 0 <= i < |ReplaceFirst(s, '/', '_')| ==>
              !IsWhiteSpace(ReplaceFirst(s, '/', '_')[i]) && !IsAsciiUpper(ReplaceFirst(s, '/', '_')[i])
    decreases |s|
  {
    if s != [] && s[0] != '/' {
      ReplaceFirstKeepsShape(s[1..]);
    }
  }

  /** Whatever the title, its key holds no white space and no ASCII capital. */
  lemma ServiceKeyShape(serviceName: string)
    ensures forall i :: 0 <= i < |ServiceKey(serviceName)| ==>
              !IsWhiteSpace(ServiceKey(serviceName)[i]) && !IsAsciiUpper(ServiceKey(serviceName)[i])
  {
    ToLowerCaseHasNoCapital(serviceName);
    RunsLeaveNoWhiteSpace(ToLowerCase(serviceName), false);
    ReplaceFirstKeepsShape(ReplaceWhiteSpaceRuns(ToLowerCase(serviceName), false));
  }

  // ---------------------------------------------------------------------------
  // The automatic message

  /** `serviceNames[key] || key`: the title for a known key, the key itself otherwise. */
  function ServiceLabel(key: string): (r: string)
    ensures forall i :: 0 <= i < |ServiceOptions| && key == ServiceOptions[i] ==> r == PricingServices[i]
    ensures key !in ServiceNames ==> r == key
    ensures r == "" <==> key == ""
  {
    assert "" !in ServiceNames;
    if key in ServiceNames then ServiceNames[key] else key
  }

  /** The request text naming a package tier and a service. */
  function InterestMessage(packageLevel: string, serviceName: string): (r: string)
    ensures |r| > |InterestPrefix| + |packageLevel| + |serviceName|
    ensures r[..|InterestPrefix|] == InterestPrefix
    ensures r[|InterestPrefix|..|InterestPrefix| + |packageLevel|] == packageLevel
  {
    var r := InterestPrefix + packageLevel + " package for " + serviceName + ". Please provide more details.";
    assert r[..|InterestPrefix|] == InterestPrefix;
    assert r[|InterestPrefix|..|InterestPrefix| + |packageLevel|] == packageLevel;
    r
  }

  const InterestPrefix: string := "I'm interested in the "

  /** generateAutoMessage: the request text once both a service and a package are chosen, '' before. */
  function GenerateAutoMessage(service: string, packageLevel: string): (r: string)
    ensures r == "" <==> service == "" || packageLevel == ""
    ensures r != "" ==> r == InterestMessage(packageLevel, ServiceLabel(service))
    ensures r != "" && service in ServiceNames ==> r == InterestMessage(packageLevel, ServiceNames[service])
    ensures r != "" && service !in ServiceNames ==> r == InterestMessage(packageLevel, service)
  {
    if service != "" && packageLevel != "" then
      var m := InterestMessage(packageLevel, ServiceLabel(service));
      assert |m| > 0 by { assert m[0] == 'I'; }
      m
    else ""
  }

  /** handleServiceChange: set the service; an automatic message replaces the typed one only when it is non-empty. */
  function WithService(f: ContactForm, service: string): (r: ContactForm)
    ensures r.service == service
    ensures r.name == f.name && r.email == f.email && r.package == f.package
    ensures service == "" || f.package == "" ==> r.message == f.message
    ensures service != "" && f.package != "" ==> r.message == InterestMessage(f.package, ServiceLabel(service))
  {
    var auto := GenerateAutoMessage(service, f.package);
    f.(service := service, message := if auto != "" then auto else f.message)
  }

  /** handlePackageChange: set the package; an automatic message replaces the typed one only when it is non-empty. */
  function WithPackage(f: ContactForm, packageLevel: string): (r: ContactForm)
    ensures r.package == packageLevel
    ensures r.name == f.name && r.email == f.email && r.service == f.service
    ensures f.service == "" || packageLevel == "" ==> r.message == f.message
    ensures f.service != "" && packageLevel != "" ==> r.message == InterestMessage(packageLevel, ServiceLabel(f.service))
  {
    var auto := GenerateAutoMessage(f.service, packageLevel);
    f.(package := packageLevel, message := if auto != "" then auto else f.message)
  }

  /** handleServiceSelection: a pricing-table button fills in service key, package and message. */
  function WithSelection(f: ContactForm, serviceName: string, packageName: string): (r: ContactForm)
    ensures r.name == f.name && r.email == f.email
    ensures r.service == ServiceKey(serviceName) && r.package == packageName
    ensures r.message == InterestMessage(packageName, serviceName)
  {
    f.(service := ServiceKey(serviceName), package := packageName,
       message := InterestMessage(packageName, serviceName))
  }

  /**
   * A pricing-table selection writes the message the drop-downs would write
   * for the same service and package, so choosing that service again in the
   * drop-down leaves the form as it is.
   */
  lemma SelectionAgreesWithDropDowns(f: ContactForm, i: nat, packageName: string)
    requires i < |PricingServices| && packageName != ""
    ensures WithSelection(f, PricingServices[i], packageName).message ==
            GenerateAutoMessage(ServiceOptions[i], packageName)
    ensures WithService(WithSelection(f, PricingServices[i], packageName), ServiceOptions[i]) ==
            WithSelection(f, PricingServices[i], packageName)
    ensures WithPackage(WithSelection(f, PricingServices[i], packageName), packageName) ==
            WithSelection(f, PricingServices[i], packageName)
  {
    ServiceKeyRoundTrip(i);
  }

  /**
   * Choosing a service and then a tier in the drop-downs gives the same form
   * as the pricing-table button for that service and tier.
   */
  lemma DropDownsMatchSelection(f: ContactForm, i: nat, tier: string)
    requires i < |ServiceOptions| && tier in PackageTiers
    ensures WithPackage(WithService(f, ServiceOptions[i]), tier) == WithSelection(f, PricingServices[i], tier)
  {
    ServiceKeyRoundTrip(i);
    DropDownsMatchKey(f, ServiceOptions[i], PricingServices[i], tier);
  }

  lemma DropDownsMatchKey(f: ContactForm, key: string, title: string, tier: string)
    requires ServiceKey(title) == key && key in ServiceNames && ServiceNames[key] == title && tier != ""
    ensures WithPackage(WithService(f, key), tier) == WithSelection(f, title, tier)
  {
    assert key != "" by { assert "" !in ServiceNames; }
  }

  // ---------------------------------------------------------------------------
  // Submission

  /** The values an inquiry reports, after the defaults for empty fields are filled in. */
  datatype Inquiry = Inquiry(name: string, email: string, service: string, package: string, message: string)

  /** The field or, when it is empty, its default text (`field || default`). */
  function OrDefault(field: string, default: string): string {
    if field != "" then field else default
  }

  /** handleSubmit's field values: the service through the lookup table, defaults for empty fields. */
  function ResolveInquiry(f: ContactForm): (q: Inquiry)
    ensures q.name != "" && q.email != "" && q.service != "" && q.package != "" && q.message != ""
    ensures f.name != "" ==> q.name == f.name
    ensures f.name == "" ==> q.name == "Not provided"
    ensures f.email != "" ==> q.email == f.email
    ensures f.email == "" ==> q.email == "Not provided"
    ensures f.service in ServiceNames ==> q.service == ServiceNames[f.service]
    ensures f.service !in ServiceNames && f.service != "" ==> q.service == f.service
    ensures f.service == "" ==> q.service == "Not specified"
    ensures f.package != "" ==> q.package == f.package
    ensures f.package == "" ==> q.package == "Not specified"
    ensures f.message != "" ==> q.message == f.message
    ensures f.message == "" ==> q.message == "No additional message"
  {
    assert "" !in ServiceNames;
    Inquiry(
      OrDefault(f.name, "Not provided"),
      OrDefault(f.email, "Not provided"),
      if f.service in ServiceNames then ServiceNames[f.service] else OrDefault(f.service, "Not specified"),
      OrDefault(f.package, "Not specified"),
      OrDefault(f.message, "No additional message"))
  }

  /**
   * After a pricing-table selection on an otherwise empty form, the inquiry
   * reports the chosen title and tier: the key goes through the lookup table
   * and comes back as the title.
   */
  lemma SelectionRoundTripsOnSubmit(i: nat, packageName: string)
    requires i < |PricingServices| && packageName != ""
    ensures ResolveInquiry(WithSelection(EmptyForm, PricingServices[i], packageName)) ==
            Inquiry("Not provided", "Not provided", PricingServices[i], packageName,
                    InterestMessage(packageName, PricingServices[i]))
  {
    ServiceKeyRoundTrip(i);
    assert |InterestMessage(packageName, PricingServices[i])| > 0 by {
      assert InterestMessage(packageName, PricingServices[i])[0] == 'I';
    }
  }

  /** The browser's own check before submit: the name, e-mail, service and message inputs are `required`. */
  predicate RequiredFilled(f: ContactForm): (r: bool)
    ensures !r ==> ResolveInquiry(f).name == "Not provided" || ResolveInquiry(f).email == "Not provided" ||
                   ResolveInquiry(f).service == "Not specified" || ResolveInquiry(f).message == "No additional message"
  {
    f.name != "" && f.email != "" && f.service != "" && f.message != ""
  }

  /**
   * Once the browser lets a submission through, the inquiry reports the typed
   * name, e-mail and message; only the optional package can fall back to its
   * default, and a drop-down service is reported by its title.
   */
  lemma ValidatedSubmission(f: ContactForm, i: nat)
    requires RequiredFilled(f)
    ensures ResolveInquiry(f).name == f.name && ResolveInquiry(f).email == f.email
    ensures ResolveInquiry(f).message == f.message
    ensures ResolveInquiry(f).package == OrDefault(f.package, "Not specified")
    ensures i < |ServiceOptions| && f.service == ServiceOptions[i] ==> ResolveInquiry(f).service == PricingServices[i]
  {
    if i < |ServiceOptions| && f.service == ServiceOptions[i] {
      ServiceNamesTable(i);
    }
  }

  /** The lines of the inquiry text, each introduced by a pictograph. */
  datatype InquiryLine = NameLine | EmailLine | ServiceLine | PackageLine | MessageLine | DateLine | TimeLine

  /** The pictograph each line is meant to start with: one emoji code point per line. */
  function Marker(line: InquiryLine): char {
    match line
    case NameLine => '\U{1F464}'
    case EmailLine => '\U{1F4E7}'
    case ServiceLine => '\U{1F3A8}'
    case PackageLine => '\U{1F4E6}'
    case MessageLine => '\U{1F4AC}'
    case DateLine => '\U{1F4C5}'
    case TimeLine => '\U{23F0}'
  }

  /**
   * The characters the template literal actually holds where each pictograph
   * belongs: the emoji's UTF-8 bytes read as Mac Roman text.
   */
  function MarkerAsWritten(line: InquiryLine): string {
    match line
    case NameLine => "\U{F8FF}\U{00FC}\U{00EB}\U{00A7}"
    case EmailLine => "\U{F8FF}\U{00FC}\U{00EC}\U{00DF}"
    case ServiceLine => "\U{F8FF}\U{00FC}\U{00E9}\U{00AE}"
    case PackageLine => "\U{F8FF}\U{00FC}\U{00EC}\U{00B6}"
    case MessageLine => "\U{F8FF}\U{00FC}\U{00ED}\U{00A8}"
    case DateLine => "\U{F8FF}\U{00FC}\U{00EC}\U{00D6}"
    case TimeLine => "\U{201A}\U{00E8}\U{221E}"
  }

  const InquiryHeader: string := "*New Project Inquiry*\n\n"

  /** The inquiry template, with the text that introduces each line as a parameter. */
  function InquiryTemplate(marker: InquiryLine -> string, q: Inquiry, date: string, time: string): (r: string)
    ensures |r| > |InquiryHeader| + |marker(NameLine)|
    ensures r[..|InquiryHeader|] == InquiryHeader
    ensures r[|InquiryHeader|..|InquiryHeader| + |marker(NameLine)|] == marker(NameLine)
  {
    var rest :=
      " *Name:* " + q.name + "\n" +
      marker(EmailLine) + " *Email:* " + q.email + "\n" +
      marker(ServiceLine) + " *Service:* " + q.service + "\n" +
      marker(PackageLine) + " *Package:* " + q.package + "\n" +
      marker(MessageLine) + " *Message:* " + q.message + "\n\n" +
      marker(DateLine) + " *Date:* " + date + "\n" +
      marker(TimeLine) + " *Time:* " + time;
    assert |rest| > 0 by { assert rest[0] == ' '; }
    var r := InquiryHeader + marker(NameLine) + rest;
    assert r[..|InquiryHeader|] == InquiryHeader;
    assert r[|InquiryHeader|..|InquiryHeader| + |marker(NameLine)|] == marker(NameLine);
    r
  }

  /** The text for the messaging link; the date and time are the caller's locale-formatted clock readings. */
  function InquiryText(q: Inquiry, date: string, time: string): (r: string)
    ensures |r| > |InquiryHeader| && r[..|InquiryHeader|] == InquiryHeader && r[|InquiryHeader|] == Marker(NameLine)
  {
    var r := InquiryTemplate(line => [Marker(line)], q, date, time);
    assert r[|InquiryHeader|..|InquiryHeader| + 1][0] == r[|InquiryHeader|];
    r
  }

  /** The text as the template literal spells it. */
  function InquiryTextAsWritten(q: Inquiry, date: string, time: string): (r: string)
    ensures |r| > |InquiryHeader| && r[..|InquiryHeader|] == InquiryHeader && r[|InquiryHeader|] == '\U{F8FF}'
  {
    var r := InquiryTemplate(MarkerAsWritten, q, date, time);
    assert r[|InquiryHeader|..|InquiryHeader| + 4][0] == r[|InquiryHeader|];
    r
  }

  /** Every inquiry, whatever its fields, is sent with a garbled first pictograph. */
  lemma AsWrittenDiffers(q: Inquiry, date: string, time: string)
    ensures InquiryTextAsWritten(q, date, time) != InquiryText(q, date, time)
  {
    assert InquiryTextAsWritten(q, date, time)[|InquiryHeader|] != InquiryText(q, date, time)[|InquiryHeader|];
  }

  /** UTF-8, the encoding of the source file: the bytes of one code point. */
  function Utf8(c: char): (r: seq<int>)
    ensures 1 <= |r| <= 4
    ensures forall i :: 0 <= i < |r| ==> 0 <= r[i] < 256
  {
    var n := c as int;
    if n < 0x80 then [n]
    else if n < 0x800 then [0xC0 + n / 64, 0x80 + n % 64]
    else if n < 0x10000 then [0xE0 + n / 4096, 0x80 + n / 64 % 64, 0x80 + n % 64]
    else [0xF0 + n / 262144, 0x80 + n / 4096 % 64, 0x80 + n / 64 % 64, 0x80 + n % 64]
  }

  /** The Mac Roman characters of the bytes that occur in the pictographs' encodings. */
  const MacRoman: map<int, char> := map[
    0x85 := '\U{00D6}', 0x8E := '\U{00E9}', 0x8F := '\U{00E8}', 0x91 := '\U{00EB}',
    0x92 := '\U{00ED}', 0x93 := '\U{00EC}', 0x9F := '\U{00FC}', 0xA4 := '\U{00A7}',
    0xA6 := '\U{00B6}', 0xA7 := '\U{00DF}', 0xA8 := '\U{00AE}', 0xAC := '\U{00A8}',
    0xB0 := '\U{221E}', 0xE2 := '\U{201A}', 0xF0 := '\U{F8FF}']

  function ReadAsMacRoman(bytes: seq<int>): string
    requires forall i :: 0 <= i < |bytes| ==> bytes[i] in MacRoman
  {
    seq(|bytes|, i requires 0 <= i < |bytes| => MacRoman[bytes[i]])
  }

  /** The characters in the template are exactly each intended pictograph, encoded as UTF-8 and decoded as Mac Roman. */
  lemma MarkersAreMisdecodedEmoji(line: InquiryLine)
    ensures forall i :: 0 <= i < |Utf8(Marker(line))| ==> Utf8(Marker(line))[i] in MacRoman
    ensures ReadAsMacRoman(Utf8(Marker(line))) == MarkerAsWritten(line)
  {
  }

  /** In the corrected template each line starts with one pictograph of its own, none of them plain text. */
  lemma MarkersAreDistinctEmoji(a: InquiryLine, b: InquiryLine)
    ensures |Utf8(Marker(a))| >= 3
    ensures a != b ==> Marker(a) != Marker(b)
  {
  }

  // ---------------------------------------------------------------------------
  // Component state

  /** The contact section's form state; `sent` holds the texts handed to the messaging link. */
  class ContactSection {
    var formData: ContactForm
    var sent: seq<string>

    constructor ()
      ensures formData == EmptyForm && sent == []
    {
      formData := EmptyForm;
      sent := [];
    }

    /** Typing into the name, e-mail or message field replaces that field only. */
    method EditName(value: string)
      modifies this
      ensures formData == old(formData).(name := value) && sent == old(sent)
    {
      formData := formData.(name := value);
    }

    method EditEmail(value: string)
      modifies this
      ensures formData == old(formData).(email := value) && sent == old(sent)
    {
      formData := formData.(email := value);
    }

    method EditMessage(value: string)
      modifies this
      ensures formData == old(formData).(message := value) && sent == old(sent)
    {
      formData := formData.(message := value);
    }

    method HandleServiceChange(service: string)
      modifies this
      ensures formData == WithService(old(formData), service) && sent == old(sent)
    {
      formData := WithService(formData, service);
    }

    method HandlePackageChange(packageLevel: string)
      modifies this
      ensures formData == WithPackage(old(formData), packageLevel) && sent == old(sent)
    {
      formData := WithPackage(formData, packageLevel);
    }

    /** The handler the pricing tables call (through a global in the source). */
    method HandleServiceSelection(serviceName: string, packageName: string)
      modifies this
      ensures formData == WithSelection(old(formData), serviceName, packageName) && sent == old(sent)
    {
      formData := WithSelection(formData, serviceName, packageName);
    }

    /** handleSubmit: send the inquiry text, then reset every field to ''. */
    method HandleSubmit(date: string, time: string) returns (text: string)
      modifies this
      ensures text == InquiryText(ResolveInquiry(old(formData)), date, time)
      ensures sent == old(sent) + [text]
      ensures formData == EmptyForm
    {
      text := InquiryText(ResolveInquiry(formData), date, time);
      sent := sent + [text];
      formData := EmptyForm;
    }
  }
}
