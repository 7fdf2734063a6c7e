/** The prompt builder of services/geminiService.ts: the instruction text sent
    with each generation request. The fixed passages of prose (persona,
    methodology, output rules, the style guidance and link sentences) are named
    constants whose text is abbreviated here; what is modelled exactly is how
    the user's inputs and the branches on them are placed among those
    passages. */
module Prompts {
  import opened Text

  /** The two content styles the single-plan form offers. */
  datatype ContentStyle = WithFace | Faceless

  /** The style as the form spells it, inserted verbatim into the prompt. */
  function StyleName(style: ContentStyle): string {
    match style
    case WithFace => "with-face"
    case Faceless => "faceless"
  }

  const FacelessGuidance: string :=
    "Visual ideas must NOT show a face: B-roll, products, screens, text, hands."

  const OnCameraGuidance: string :=
    "Visual ideas include a person on camera."

  /** `styleGuidance`: the guidance sentence for the chosen style. */
  function StyleGuidance(style: ContentStyle): string {
    if style == Faceless then FacelessGuidance else OnCameraGuidance
  }

  /** The no-face guidance is given exactly for the faceless style, the
      on-camera guidance exactly for the other. */
  lemma StyleGuidanceFollowsStyle(style: ContentStyle)
    ensures StyleGuidance(style) == FacelessGuidance <==> style == Faceless
    ensures StyleGuidance(style) == OnCameraGuidance <==> style != Faceless
  {
    assert |FacelessGuidance| != |OnCameraGuidance|;
  }

  const LinkGuidanceLead: string :=
    "Match the personal brand of the profile at: "

  const LinkGuidanceTail: string := ". For tone and style only."

  /** `linkGuidance`: the link wrapped in the inspiration sentence, or
      nothing when no link was given (the empty string is falsy). */
  function LinkGuidance(socialMediaLink: string): string {
    if socialMediaLink == "" then "" else LinkGuidanceLead + socialMediaLink + LinkGuidanceTail
  }

  /** The guidance is empty exactly when the link is, and otherwise quotes
      the link verbatim after the lead-in. */
  lemma LinkGuidanceQuotesLink(socialMediaLink: string)
    ensures LinkGuidance(socialMediaLink) == "" <==> socialMediaLink == ""
    ensures socialMediaLink != "" ==>
      OccursAt(LinkGuidance(socialMediaLink), socialMediaLink, |LinkGuidanceLead|)
  {
    if socialMediaLink != "" {
      OccursBetween(LinkGuidanceLead, socialMediaLink, LinkGuidanceTail);
    }
  }

  const Quote: string := "\""
  const MainTopicLabel: string := "- **Main Topic:** "
  const ContentStyleLabel: string := "\n- **Content Style:** "
  const ProfileInspirationLabel: string := "- **Profile Inspiration:** "

  /** A user value as the prompts quote it. */
  function Quoted(value: string): (r: string)
    ensures |r| == |value| + 2 && r[1..|r| - 1] == value
  {
    Quote + value + Quote
  }

  /** Stand-ins for the fixed prose of the single-plan prompt. */
  const SinglePlanPersona: string := "<persona>\n**USER'S DETAILS:**\n"
  const SinglePlanMethodology: string := "\n<methodology>\n**Content Style** ("
  const SinglePlanClosing: string := ").\n<output format>\n"

  /** The `Content Style` line: the style value followed by its guidance. */
  function StyleLine(style: ContentStyle): string {
    ContentStyleLabel + StyleName(style) + ". " + StyleGuidance(style)
  }

  /** The part of the single-plan prompt before the optional link line. */
  function UserDetails(topic: string, style: ContentStyle): string {
    SinglePlanPersona + MainTopicLabel + Quoted(topic) + StyleLine(style) + "\n"
  }

  /** The optional `Profile Inspiration` line. */
  function LinkLine(socialMediaLink: string): string {
    var guidance := LinkGuidance(socialMediaLink);
    if guidance != "" then ProfileInspirationLabel + guidance else ""
  }

  /** The part of the single-plan prompt after the optional link line. */
  function Instructions(style: ContentStyle): string {
    SinglePlanMethodology + StyleName(style) + SinglePlanClosing
  }

  /** The prompt of `generateContentPlanStream`. */
  function SinglePlanPrompt(topic: string, socialMediaLink: string, style: ContentStyle): string {
    UserDetails(topic, style) + LinkLine(socialMediaLink) + Instructions(style)
  }

  /** The topic appears verbatim between double quotes after its label, and
      the style line (style value, then its guidance) follows it. */
  lemma SinglePlanPromptQuotesTopicAndStyle(topic: string, socialMediaLink: string, style: ContentStyle)
    ensures var p := SinglePlanPrompt(topic, socialMediaLink, style);
      var at := |SinglePlanPersona| + |MainTopicLabel|;
      OccursAt(p, Quoted(topic), at) && OccursAt(p, StyleLine(style), at + |topic| + 2)
  {
    var head := SinglePlanPersona + MainTopicLabel;
    var rest := LinkLine(socialMediaLink) + Instructions(style);
    OccursAtEnd(head, Quoted(topic));
    OccursBeforeSuffix(head + Quoted(topic), Quoted(topic), |head|, StyleLine(style));
    OccursBeforeSuffix(head + Quoted(topic) + StyleLine(style), Quoted(topic), |head|, "\n");
    OccursBeforeSuffix(UserDetails(topic, style), Quoted(topic), |head|, LinkLine(socialMediaLink));
    OccursBeforeSuffix(UserDetails(topic, style) + LinkLine(socialMediaLink), Quoted(topic), |head|, Instructions(style));
    OccursAtEnd(head + Quoted(topic), StyleLine(style));
    OccursBeforeSuffix(head + Quoted(topic) + StyleLine(style), StyleLine(style), |head + Quoted(topic)|, "\n");
    OccursBeforeSuffix(UserDetails(topic, style), StyleLine(style), |head + Quoted(topic)|, LinkLine(socialMediaLink));
    OccursBeforeSuffix(UserDetails(topic, style) + LinkLine(socialMediaLink), StyleLine(style), |head + Quoted(topic)|, Instructions(style));
  }

  /** The style value appears again inside the visuals instruction, after
      the user details, the link line and the methodology prose. */
  lemma SinglePlanPromptRepeatsStyle(topic: string, socialMediaLink: string, style: ContentStyle)
    ensures OccursAt(SinglePlanPrompt(topic, socialMediaLink, style), StyleName(style),
                     |UserDetails(topic, style) + LinkLine(socialMediaLink)| + |SinglePlanMethodology|)
  {
    OccursInFramedTail(SinglePlanPrompt(topic, socialMediaLink, style),
                       UserDetails(topic, style) + LinkLine(socialMediaLink),
                       SinglePlanMethodology, StyleName(style), SinglePlanClosing);
  }

  /** Text framed by two others and appended to a front part occurs after the
      front part and the leading frame. */
  lemma OccursInFramedTail(s: string, front: string, lead: string, middle: string, trail: string)
    requires s == front + (lead + middle + trail)
    ensures OccursAt(s, middle, |front| + |lead|)
  {
    OccursAtEnd(lead, middle);
    OccursBeforeSuffix(lead + middle, middle, |lead|, trail);
    OccursAfterPrefix(front, lead + middle + trail, middle, |lead|);
  }

  /** Without a link there is no link line: the prompt is the user details
      followed directly by the instructions. */
  lemma SinglePlanPromptWithoutLink(topic: string, style: ContentStyle)
    ensures SinglePlanPrompt(topic, "", style) == UserDetails(topic, style) + Instructions(style)
  {
    var line := LinkLine("");
    assert line == "";
    DropEmptyMiddle(UserDetails(topic, style), line, Instructions(style));
  }

  /** An empty text between two others contributes nothing. */
  lemma DropEmptyMiddle(front: string, middle: string, back: string)
    requires middle == ""
    ensures front + middle + back == front + back
  {
  }

  /** With a link, the `Profile Inspiration` label follows the user details
      and the link itself follows the label and the lead-in sentence. */
  lemma SinglePlanPromptWithLink(topic: string, socialMediaLink: string, style: ContentStyle)
    requires socialMediaLink != ""
    ensures var p := SinglePlanPrompt(topic, socialMediaLink, style);
      var at := |UserDetails(topic, style)|;
      OccursAt(p, ProfileInspirationLabel, at)
      && OccursAt(p, socialMediaLink, at + |ProfileInspirationLabel| + |LinkGuidanceLead|)
  {
    var details := UserDetails(topic, style);
    var instructions := Instructions(style);
    var guidance := LinkGuidance(socialMediaLink);
    LinkGuidanceQuotesLink(socialMediaLink);
    assert LinkLine(socialMediaLink) == ProfileInspirationLabel + guidance;
    LabelledInsert(SinglePlanPrompt(topic, socialMediaLink, style), details, ProfileInspirationLabel,
                   guidance, instructions, socialMediaLink, |LinkGuidanceLead|);
  }

  /** A line with a heading inserted between two texts: the heading sits
      right after the text before it, and whatever occurs in the line's body
      is shifted by that text and the heading. */
  lemma LabelledInsert(s: string, before: string, heading: string, body: string, after: string,
                       sub: string, i: int)
    requires s == before + (heading + body) + after
    requires OccursAt(body, sub, i)
    ensures OccursAt(s, heading, |before|)
    ensures OccursAt(s, sub, |before| + |heading| + i)
  {
    assert s[|before|..|before| + |heading|] == heading;
    OccursAfterPrefix(heading, body, sub, i);
    OccursAfterPrefix(before, heading + body, sub, |heading| + i);
    OccursBeforeSuffix(before + (heading + body), sub, |before| + |heading| + i, after);
  }

  /** Stand-ins for the fixed prose of the 30-day prompt. */
  const ThirtyDayPersona: string := "<persona>\n**USER'S DETAILS:**\n"
  const ThirtyDayStrategyLead: string := "\n<strategy>\n**Your Task:** Analyze "
  const ThirtyDayClosing: string := ", determine its real business.\n<per-day framework and output rules>\n"

  /** The prompt of `generateThirtyDayPlan`; it depends on the topic alone. */
  function ThirtyDayPrompt(topic: string): string {
    ThirtyDayPersona + MainTopicLabel + Quoted(topic) + ThirtyDayStrategyLead + Quoted(topic) + ThirtyDayClosing
  }

  /** The topic appears verbatim twice, each time between double quotes. */
  lemma ThirtyDayPromptQuotesTopic(topic: string)
    ensures var p := ThirtyDayPrompt(topic);
      var first := |ThirtyDayPersona| + |MainTopicLabel|;
      var second := first + |topic| + 2 + |ThirtyDayStrategyLead|;
      OccursAt(p, Quoted(topic), first) && OccursAt(p, Quoted(topic), second)
  {
    var q := Quoted(topic);
    var head := ThirtyDayPersona + MainTopicLabel;
    OccursAtEnd(head, q);
    OccursBeforeSuffix(head + q, q, |head|, ThirtyDayStrategyLead);
    OccursBeforeSuffix(head + q + ThirtyDayStrategyLead, q, |head|, q);
    OccursBeforeSuffix(head + q + ThirtyDayStrategyLead + q, q, |head|, ThirtyDayClosing);
    OccursAtEnd(head + q + ThirtyDayStrategyLead, q);
    OccursBeforeSuffix(head + q + ThirtyDayStrategyLead + q, q, |head + q + ThirtyDayStrategyLead|, ThirtyDayClosing);
  }

  /** Different topics give different 30-day prompts: the topic can be read
      back from the prompt. */
  lemma ThirtyDayPromptDeterminesTopic(t1: string, t2: string)
    requires ThirtyDayPrompt(t1) == ThirtyDayPrompt(t2)
    ensures t1 == t2
  {
    var at := |ThirtyDayPersona| + |MainTopicLabel|;
    ThirtyDayPromptQuotesTopic(t1);
    ThirtyDayPromptQuotesTopic(t2);
    assert |t1| == |t2|;
    assert Quoted(t1) == Quoted(t2);
  }
}
