/** The template form of the WhatsApp templates dialog: the components sent to create a
    template, the form reset after a create, and the formatting buttons that wrap the selected
    body text in WhatsApp's markers. What the create action answers is the parameter `created`. */
module TemplatesDialog {
  import opened Common

  const REQUIRED := "Template name and body are required"

  datatype Form = Form(name: string, language: string, category: string, headerType: string,
                       headerText: string, bodyText: string, footerText: string)

  /** The form as it opens and as it is reset. */
  const DEFAULT_FORM := Form("", "en_US", "MARKETING", "TEXT", "", "", "")

  /** One entry of `components`; a HEADER's text is missing unless its format is TEXT. */
  datatype Component =
    | Header(format: string, headerText: Option<string>)
    | Body(bodyText: string)
    | Footer(footerText: string)

  datatype CreateRequest = CreateRequest(name: string, language: string, category: string, components: seq<Component>)

  /** The components built from the form. */
  function Components(f: Form): (cs: seq<Component>)
    ensures 1 <= |cs| <= 3
    ensures (f.headerType != "NONE" && f.headerText != "") <==> cs[0].Header?
    ensures cs[0].Header? ==> cs[0] == Header(f.headerType, if f.headerType == "TEXT" then Some(f.headerText) else None)
    ensures var b := if cs[0].Header? then 1 else 0; b < |cs| && cs[b] == Body(f.bodyText)
    ensures (f.footerText != "") <==> cs[|cs| - 1].Footer?
    ensures cs[|cs| - 1].Footer? ==> cs[|cs| - 1] == Footer(f.footerText)
    ensures forall k :: 0 <= k < |cs| && cs[k].Body? ==> cs[k] == Body(f.bodyText)
    ensures forall k :: 0 < k < |cs| ==> !cs[k].Header?
    ensures forall k :: 0 <= k < |cs| - 1 ==> !cs[k].Footer?
  {
    var header := if f.headerType != "NONE" && f.headerText != "" then
        [Header(f.headerType, if f.headerType == "TEXT" then Some(f.headerText) else None)]
      else [];
    var footer := if f.footerText != "" then [Footer(f.footerText)] else [];
    header + [Body(f.bodyText)] + footer
  }

  /** The pushes of `handleCreate` onto its local `components` list. */
  method BuildComponents(f: Form) returns (components: seq<Component>)
    ensures components == Components(f)
  {
    components := [];
    if f.headerType != "NONE" && f.headerText != "" {
      components := components + [Header(f.headerType, if f.headerType == "TEXT" then Some(f.headerText) else None)];
    }
    components := components + [Body(f.bodyText)];
    if f.footerText != "" {
      components := components + [Footer(f.footerText)];
    }
  }

  /** The form contents, the request made if any, and the message shown. */
  datatype CreateOutcome = CreateOutcome(form: Form, request: Option<CreateRequest>, result: Result<()>)

  /** `handleCreate`: a form without a name or a body is refused before any request; otherwise
      the request is made and the form is reset only when it succeeds. */
  function HandleCreate(f: Form, created: Result<()>): (r: CreateOutcome)
    ensures (f.name == "" || f.bodyText == "") <==> r.request.None?
    ensures r.request.None? ==> r.form == f && r.result == Err(REQUIRED)
    ensures r.request.Some? ==> r.request.value == CreateRequest(f.name, f.language, f.category, Components(f))
    ensures r.request.Some? && created.Ok? ==> r.form == DEFAULT_FORM && r.result == Ok(())
    ensures r.form != f ==> r.request.Some? && created.Ok?
    ensures r.request.Some? && created.Err? ==> r.form == f && r.result == created
  {
    if f.name == "" || f.bodyText == "" then CreateOutcome(f, None, Err(REQUIRED))
    else
      var request := CreateRequest(f.name, f.language, f.category, Components(f));
      if created.Ok? then CreateOutcome(DEFAULT_FORM, Some(request), Ok(()))
      else CreateOutcome(f, Some(request), created)
  }

  /** A failed create keeps everything typed, so it can be sent again unchanged. */
  lemma RetryAfterFailureSendsSameRequest(f: Form, failure: string, created: Result<()>)
    requires HandleCreate(f, Err(failure)).request.Some?
    ensures HandleCreate(HandleCreate(f, Err(failure)).form, created).request == HandleCreate(f, Err(failure)).request
  {
  }

  /** JavaScript's `s.substring(a, b)`: both ends are clamped to the text and swapped when out of
      order. */
  function Substring(s: string, a: int, b: int): (r: string)
    ensures |r| <= |s|
    ensures 0 <= a <= b <= |s| ==> r == s[a..b]
    ensures 0 <= b <= a <= |s| ==> r == s[b..a]
    ensures a <= 0 && |s| <= b ==> r == s
    ensures |s| <= a && |s| <= b ==> r == []
  {
    var lo := if a < 0 then 0 else if a > |s| then |s| else a;
    var hi := if b < 0 then 0 else if b > |s| then |s| else b;
    if lo <= hi then s[lo..hi] else s[hi..lo]
  }

  /** The four formatting buttons ("bold", "italic", "strikethrough", "monospace"). */
  datatype Format = Bold | Italic | Strikethrough | Monospace

  /** The marker a format puts on each side of the selection. */
  function Marker(format: Format): string {
    match format
    case Bold => "*"
    case Italic => "_"
    case Strikethrough => "~"
    case Monospace => "```"
  }

  /** What a button inserts when nothing is selected. */
  function Placeholder(format: Format): string {
    match format
    case Bold => "bold text"
    case Italic => "italic text"
    case Strikethrough => "strikethrough text"
    case Monospace => "monospace text"
  }

  /** The selection, or the placeholder when it is empty, between two markers. */
  function Wrap(format: Format, selectedText: string): string {
    Marker(format) + (if selectedText != "" then selectedText else Placeholder(format)) + Marker(format)
  }

  /** `insertFormatting` on the body and the textarea's selection. */
  function InsertFormatting(bodyText: string, format: Format, start: int, end: int): (newText: string)
  {
    var selectedText := Substring(bodyText, start, end);
    Substring(bodyText, 0, start) + Wrap(format, selectedText) + Substring(bodyText, end, |bodyText|)
  }

  /** For a selection inside the body, the text before and after it is kept and the selection
      (or the placeholder, when nothing is selected) sits between the two markers. */
  lemma InsertFormattingWraps(bodyText: string, format: Format, start: nat, end: nat)
    requires start <= end <= |bodyText|
    ensures var newText := InsertFormatting(bodyText, format, start, end);
      var m := Marker(format);
      var inner := if start < end then bodyText[start..end] else Placeholder(format);
      newText == bodyText[..start] + m + inner + m + bodyText[end..]
  {
    var m := Marker(format);
    var inner := if start < end then bodyText[start..end] else Placeholder(format);
    SelectionParts(bodyText, format, start, end);
    WrapSelection(bodyText, format, start, end);
    Regrouped(bodyText[..start], m, inner, bodyText[end..]);
  }

  /** Where the brackets fall in a concatenation does not matter. */
  lemma Regrouped(before: string, m: string, inner: string, after: string)
    ensures before + (m + inner + m) + after == before + m + inner + m + after
  {
  }

  /** The three pieces `insertFormatting` cuts from a selection inside the body. */
  lemma SelectionParts(bodyText: string, format: Format, start: nat, end: nat)
    requires start <= end <= |bodyText|
    ensures InsertFormatting(bodyText, format, start, end)
      == bodyText[..start] + Wrap(format, bodyText[start..end]) + bodyText[end..]
  {
    assert Substring(bodyText, start, end) == bodyText[start..end];
    assert Substring(bodyText, 0, start) == bodyText[..start];
    assert Substring(bodyText, end, |bodyText|) == bodyText[end..];
  }

  /** An empty selection is wrapped as the placeholder. */
  lemma WrapSelection(bodyText: string, format: Format, start: nat, end: nat)
    requires start <= end <= |bodyText|
    ensures Wrap(format, bodyText[start..end])
      == Marker(format) + (if start < end then bodyText[start..end] else Placeholder(format)) + Marker(format)
  {
    if start == end {
      assert bodyText[start..end] == "";
    } else {
      assert |bodyText[start..end]| > 0;
    }
  }

  /** Taking the markers off again gives back the body as it was. */
  lemma InsertFormattingUndone(bodyText: string, format: Format, start: nat, end: nat)
    requires start < end <= |bodyText|
    ensures var newText := InsertFormatting(bodyText, format, start, end);
      var m := |Marker(format)|;
      |newText| == |bodyText| + 2 * m
      && newText[..start] + newText[start + m..end + m] + newText[end + 2 * m..] == bodyText
  {
    var m := Marker(format);
    InsertFormattingWraps(bodyText, format, start, end);
    assert InsertFormatting(bodyText, format, start, end)
      == bodyText[..start] + m + bodyText[start..end] + m + bodyText[end..];
    Unwrapped(bodyText, m, start, end);
  }

  /** A text cut at `start` and `end`, with `m` put in at both cuts, loses `m` again by dropping
      the two copies. */
  lemma Unwrapped(bodyText: string, m: string, start: nat, end: nat)
    requires start <= end <= |bodyText|
    ensures var t := bodyText[..start] + m + bodyText[start..end] + m + bodyText[end..];
      |t| == |bodyText| + 2 * |m|
      && t[..start] + t[start + |m|..end + |m|] + t[end + 2 * |m|..] == bodyText
  {
    var before, inner, after := bodyText[..start], bodyText[start..end], bodyText[end..];
    var t := before + m + inner + m + after;
    assert t[..start] == before;
    assert t[start + |m|..end + |m|] == inner;
    assert t[end + 2 * |m|..] == after;
    assert before + inner + after == bodyText by {
      assert bodyText == before + bodyText[start..];
      assert bodyText[start..] == inner + after;
    }
  }
}
