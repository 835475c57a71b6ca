/**
 * The biography generator (pdp_biogen/generator.py): a prompt is chosen by
 * style and filled with the person's details, sent to a chat client, and the
 * client's failures are re-raised as plain exceptions with fixed messages.
 * The client is a parameter.
 */
module BioPrompt {
  import opened Wrappers
  import opened Text

  /** The details a biography is written from. */
  datatype Profile = Profile(name: string, role: string, institution: string, expertise: string)

  /** The values interpolated into every template, in order. */
  function Fields(p: Profile): (vals: seq<string>)
    ensures |vals| == 4
  {
    [p.name, p.role, p.institution, p.expertise]
  }

  // -------------------------------------------------------- interpolation

  /** An f-string: the literal parts with the values between them. */
  function Interpolate(parts: seq<string>, vals: seq<string>): string
    requires |parts| == |vals| + 1
  {
    if vals == [] then parts[0]
    else Interpolate(parts[..|parts| - 1], vals[..|vals| - 1]) + vals[|vals| - 1] + parts[|parts| - 1]
  }

  /** Every value appears in the interpolated text, between what precedes and follows it. */
  lemma {:induction false} ValueSplits(parts: seq<string>, vals: seq<string>, k: nat) returns (before: string, after: string)
    requires |parts| == |vals| + 1 && k < |vals|
    ensures Interpolate(parts, vals) == before + vals[k] + after
  {
    var init, last := vals[..|vals| - 1], vals[|vals| - 1];
    var rest := Interpolate(parts[..|parts| - 1], init);
    if k == |vals| - 1 {
      before, after := rest, parts[|parts| - 1];
    } else {
      var b, a := ValueSplits(parts[..|parts| - 1], init, k);
      assert init[k] == vals[k];
      before, after := b, a + last + parts[|parts| - 1];
    }
  }

  /** Every value is a substring of the interpolated text. */
  lemma ValueOccurs(parts: seq<string>, vals: seq<string>, k: nat)
    requires |parts| == |vals| + 1 && k < |vals|
    ensures IsSubstring(vals[k], Interpolate(parts, vals))
  {
    var before, after := ValueSplits(parts, vals, k);
    var s := Interpolate(parts, vals);
    assert s[|before|..|before| + |vals[k]|] == vals[k];
    assert OccursAt(vals[k], s, |before|);
  }

  /** A non-empty first literal part starts the text, a non-empty last one ends it. */
  lemma {:induction false} InterpolateEnds(parts: seq<string>, vals: seq<string>)
    requires |parts| == |vals| + 1
    requires parts[0] != [] && parts[|parts| - 1] != []
    ensures Interpolate(parts, vals) != []
    ensures Interpolate(parts, vals)[0] == parts[0][0]
    ensures Interpolate(parts, vals)[|Interpolate(parts, vals)| - 1] == parts[|parts| - 1][|parts[|parts| - 1]| - 1]
  {
    if vals != [] {
      var init := parts[..|parts| - 1];
      if |init| > 1 {
        assert init[|init| - 1] == parts[|parts| - 2];
      }
      assert init[0] == parts[0];
      FirstPart(init, vals[..|vals| - 1]);
    }
  }

  /** A non-empty first literal part starts the text. */
  lemma {:induction false} FirstPart(parts: seq<string>, vals: seq<string>)
    requires |parts| == |vals| + 1 && parts[0] != []
    ensures Interpolate(parts, vals) != [] && Interpolate(parts, vals)[0] == parts[0][0]
  {
    if vals != [] {
      assert parts[..|parts| - 1][0] == parts[0];
      FirstPart(parts[..|parts| - 1], vals[..|vals| - 1]);
    }
  }

  // ------------------------------------------------------------ templates

  /** The CLI's `--style` choices (pdp_biogen/cli.py). */
  const CliStyles: seq<string> := ["academic", "corporate", "short"]

  /** The word every template starts with. */
  const Write: string := "Write"

  const AcademicParts: seq<string> := [
    Write + " a professional academic biography for ", ", a ", " at ",
    ". \nTheir expertise includes ",
    ". \n\nPlease include:\n- Their professional background and current role\n- Key research interests and expertise  \n- Academic achievements and contributions\n- Professional narrative in third person\n\nWrite in a formal, scholarly tone appropriate for university profiles."
  ]

  const CorporateParts: seq<string> := [
    Write + " a professional corporate biography for ", ", the ", " at ",
    ".\nTheir expertise includes ",
    ".\n\nPlease include:\n- Professional background and current position\n- Key skills and areas of expertise\n- Career achievements and accomplishments\n- Business-focused narrative\n\nWrite in a professional, business-appropriate tone."
  ]

  const ShortParts: seq<string> := [
    Write + " a concise professional bio for ", ", ", " at ",
    ".\nExpertise: ",
    ".\n\nKeep it brief (2-3 sentences), impactful, and professional."
  ]

  /** The newline after the opening quotes of each template. */
  const Opening: string := "\n"
  /** The newline and indentation before the closing quotes of each template. */
  const Closing: string := "\n            "

  /** The literal parts of the template for a style, if there is one. */
  function PartsFor(style: string): Option<seq<string>> {
    if style == "academic" then Some(AcademicParts)
    else if style == "corporate" then Some(CorporateParts)
    else if style == "short" then Some(ShortParts)
    else None
  }

  /** A template filled in for the profile, before stripping. */
  function Template(parts: seq<string>, p: Profile): string
    requires |parts| == 5
  {
    Opening + Interpolate(parts, Fields(p)) + Closing
  }

  /** `_build_prompt`: the style's template, or the academic one for an unknown style, stripped. */
  function BuildPrompt(p: Profile, style: string): string {
    var parts := PartsFor(style).GetOr(AcademicParts);
    Strip(Template(parts, p))
  }

  /** The template keys are exactly the CLI's style choices. */
  lemma TemplateKeys(style: string)
    ensures PartsFor(style).Some? <==> style in CliStyles
  {
  }

  /** An unknown style gets the academic prompt. */
  lemma UnknownStyleIsAcademic(p: Profile, style: string)
    requires style !in CliStyles
    ensures BuildPrompt(p, style) == BuildPrompt(p, "academic")
  {
    assert PartsFor(style) == None;
    assert PartsFor("academic").GetOr(AcademicParts) == AcademicParts;
  }

  /** Stripping removes exactly the template's surrounding newline and indentation. */
  lemma {:induction false} TemplateStripped(parts: seq<string>, p: Profile)
    requires |parts| == 5 && parts[0] != [] && parts[4] != []
    requires !IsSpace(parts[0][0]) && !IsSpace(parts[4][|parts[4]| - 1])
    ensures Strip(Template(parts, p)) == Interpolate(parts, Fields(p))
  {
    InterpolateEnds(parts, Fields(p));
    assert AllSpace(Opening) && AllSpace(Closing);
    StripPadded(Opening, Interpolate(parts, Fields(p)), Closing);
  }

  /**
   * The prompt is the chosen template's text with the details filled in,
   * with nothing before its first word or after its final full stop.
   */
  lemma PromptText(p: Profile, style: string)
    ensures BuildPrompt(p, style) == Interpolate(PartsFor(style).GetOr(AcademicParts), Fields(p))
  {
    var parts := PartsFor(style).GetOr(AcademicParts);
    if parts == AcademicParts {
      assert AcademicParts[0][0] == 'W' && AcademicParts[4][|AcademicParts[4]| - 1] == '.';
    } else if parts == CorporateParts {
      assert CorporateParts[0][0] == 'W' && CorporateParts[4][|CorporateParts[4]| - 1] == '.';
    } else {
      assert parts == ShortParts;
      assert ShortParts[0][0] == 'W' && ShortParts[4][|ShortParts[4]| - 1] == '.';
    }
    TemplateStripped(parts, p);
  }

  /** Whatever the style, the prompt contains the name, role, institution and expertise. */
  lemma PromptMentionsProfile(p: Profile, style: string)
    ensures IsSubstring(p.name, BuildPrompt(p, style))
    ensures IsSubstring(p.role, BuildPrompt(p, style))
    ensures IsSubstring(p.institution, BuildPrompt(p, style))
    ensures IsSubstring(p.expertise, BuildPrompt(p, style))
  {
    var parts := PartsFor(style).GetOr(AcademicParts);
    var vals := Fields(p);
    PromptText(p, style);
    assert vals[0] == p.name && vals[1] == p.role && vals[2] == p.institution && vals[3] == p.expertise;
    assert |parts| == 5;
    ValueOccurs(parts, Fields(p), 0);
    ValueOccurs(parts, Fields(p), 1);
    ValueOccurs(parts, Fields(p), 2);
    ValueOccurs(parts, Fields(p), 3);
  }

  // ------------------------------------------------------------- generate

  /** What the chat client does with a request. */
  datatype Reply =
    | Completion(choices: seq<Option<string>>)  // the reply's choices; a message content may be None
    | RateLimitError                            // `openai.RateLimitError`
    | ApiError(text: string)                    // another `openai.APIError`, and its text
    | OtherError(text: string)                  // any other exception, and its text

  /** The chat client: the reply to a prompt. */
  type Client = string -> Reply

  const RateLimitMessage: string := "Rate limit exceeded. Please wait before making more requests."
  const ApiErrorPrefix: string := "OpenAI API error: "
  const UnexpectedPrefix: string := "Unexpected error: "
  /** The text of the `IndexError` for an empty choice list. */
  const NoChoiceText: string := "list index out of range"
  /** The text of the `AttributeError` for a missing message content. */
  const NoContentText: string := "'NoneType' object has no attribute 'strip'"

  /** What `generate` does with the reply: the stripped content, or the message of the exception it raises. */
  function Outcome(reply: Reply): Result<string, string> {
    match reply
    case Completion(choices) =>
      if choices == [] then Failure(UnexpectedPrefix + NoChoiceText)
      else if choices[0].None? then Failure(UnexpectedPrefix + NoContentText)
      else Success(Strip(choices[0].value))
    case RateLimitError => Failure(RateLimitMessage)
    case ApiError(text) => Failure(ApiErrorPrefix + text)
    case OtherError(text) => Failure(UnexpectedPrefix + text)
  }

  /** `BiographyGenerator.generate`: the prompt for the style goes to the client. */
  function Generate(client: Client, p: Profile, style: string): Result<string, string> {
    Outcome(client(BuildPrompt(p, style)))
  }

  /**
   * `generate` succeeds exactly when the client's first choice has content,
   * and then returns that content stripped.
   */
  lemma GenerateSucceeds(client: Client, p: Profile, style: string)
    ensures var reply := client(BuildPrompt(p, style));
            Generate(client, p, style).Success? <==>
              reply.Completion? && reply.choices != [] && reply.choices[0].Some?
    ensures Generate(client, p, style).Success? ==>
              var s := Generate(client, p, style).value;
              s == Strip(client(BuildPrompt(p, style)).choices[0].value) && Strip(s) == s
  {
    var reply := client(BuildPrompt(p, style));
    if reply.Completion? && reply.choices != [] && reply.choices[0].Some? {
      StripIdempotent(reply.choices[0].value);
    }
  }

  /**
   * Each kind of failure is wrapped by kind: a rate limit gets a fixed
   * message, other API errors keep their text after "OpenAI API error: ",
   * and everything else, including a malformed reply, keeps its text after
   * "Unexpected error: ".
   */
  lemma FailuresWrapped(reply: Reply)
    ensures reply.RateLimitError? ==> Outcome(reply) == Failure(RateLimitMessage)
    ensures reply.ApiError? ==> Outcome(reply).Failure? && Outcome(reply).error[..|ApiErrorPrefix|] == ApiErrorPrefix
                                && Outcome(reply).error[|ApiErrorPrefix|..] == reply.text
    ensures reply.OtherError? || (reply.Completion? && (reply.choices == [] || reply.choices[0].None?)) ==>
              Outcome(reply).Failure? && Outcome(reply).error[..|UnexpectedPrefix|] == UnexpectedPrefix
  {
  }
}
