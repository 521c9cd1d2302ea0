/**
 * `getYouTubePrompt`: a fixed few-shot prefix of two worked examples, then a final block
 * with the caller's topics, adjectives and age demographic for the model to complete.
 */
module Prompt {
  import opened Wrappers
  import opened Strings
  import opened Schema

  /**
   * The lines of the template before its final block: the instruction line and the two
   * exemplar blocks, verbatim with their indentation. The second exemplar's description
   * contains a `\n` escape, which the template literal turns into a real line break.
   */
  const ExampleLines: seq<string> := [
    "Random YouTube videos from different channels",
    "",
    "  Topics: Technology, Review",
    "  Adjectives: Exciting, Informative",
    "  Age Demographic: 18-28",
    "  Response:",
    "  {\"videoTitle\":\"Ditch Your Favorite Programming Paradigm | Prime Reacts\", "
      + "\"videoDescription\":\"Hey there, fellow coders! Get ready to shake things up in "
      + "the latest episode of Prime Reacts! We're daring you to ditch your all-time "
      + "favorite programming paradigm and dive headfirst into the exciting realm of "
      + "coding possibilities. From functional to object-oriented and everything in "
      + "between, we're exploring it all! Brace yourself for mind-blowing discussions, "
      + "epic insights, and loads of laughs as we challenge ourselves to think "
      + "differently and break free from our comfort zones. Who knows, you might just "
      + "stumble upon a new coding love affair! Don't miss this exhilarating journey "
      + "that could reshape your programming path. Subscribe to PrimeTime right now, "
      + "because trust us, you don't want to miss out on this wild and enlightening "
      + "ride! Let's code like there's no tomorrow!\", \"channelName\":\"ThePrimeTime\"}",
    "",
    "  Topics: Gaming, How-To",
    "  Adjectives: Exciting, Informative",
    "  Age Demographic: 4-10",
    "  Response:",
    "  {\"videoTitle\":\"BEGINNERS guide to SPEEDRUNNING MINECRAFT\", "
      + "\"videoDescription\":\"In this tutorial will show you how to SpeedRun Minecraft as "
      + "Fast as Possible. I will teach you everything you need to know and some tips "
      + "and tricks that even the most experienced Minecraft speedrunners will learn "
      + "something from.",
    " I've had a bunch of people recently ask me about how to start speedrunning "
      + "Minecraft so I figured I'd make a comprehensive video tutorial to answer all of "
      + "the frequently asked questions. The video was already to long so ive missed out "
      + "plenty of minecraft tips. If you want to see this tips in a separate video let "
      + "me know in the comments down below.\", \"channelName\":\"LiquidCandy\"}",
    ""
  ]

  const FewShotPrefix: string := Join(ExampleLines, "\n") + "\n"

  const TopicsLabel: string := "  Topics: "
  const AdjectivesLabel: string := "\n  Adjectives: "
  const DemographicLabel: string := "\n  Age Demographic: "
  const Closing: string := "\n  Last Response:\n  "

  /** One line of the final block: its caption, the interpolated value, then what follows. */
  function Line(caption: string, value: string, rest: string): string {
    caption + value + rest
  }

  /** The template with its fixed prefix left open: the prefix, then the final block. */
  function Render(prefix: string, topics: seq<string>, adjectives: seq<string>, demographic: string): string {
    Line(prefix + TopicsLabel, Join(topics, ListSeparator),
      Line(AdjectivesLabel, Join(adjectives, ListSeparator),
        Line(DemographicLabel, demographic, Closing)))
  }

  /** The prompt sent to the text-completion endpoint. */
  function YouTubePrompt(topics: seq<string>, adjectives: seq<string>, demographic: string): (p: string)
    ensures FewShotPrefix <= p
  {
    var p := Render(FewShotPrefix, topics, adjectives, demographic);
    LineStartsWithLabel(FewShotPrefix + TopicsLabel, Join(topics, ListSeparator),
      Line(AdjectivesLabel, Join(adjectives, ListSeparator), Line(DemographicLabel, demographic, Closing)));
    p
  }

  lemma LineStartsWithLabel(caption: string, value: string, rest: string)
    ensures caption <= Line(caption, value, rest)
    ensures Line(caption, value, rest)[|caption|..] == value + rest
  {
  }

  /** The prompt for a validated input. */
  function PromptFor(input: Input): string {
    YouTubePrompt(input.topics, input.adjectives, input.demographic)
  }

  /** The three values interpolated into the final block, as they appear there. */
  datatype FinalBlock = FinalBlock(topicsLine: string, adjectivesLine: string, demographicLine: string)

  /** Reads the value after `caption` up to the next line break; `None` if `s` does not start with `caption`. */
  function ReadLine(s: string, caption: string): Option<(string, string)> {
    if caption <= s then Some(Cut(s[|caption|..], '\n')) else None
  }

  /** A line whose value has no line break and which is followed by one is read back exactly. */
  lemma ReadLineAt(caption: string, value: string, rest: string)
    requires '\n' !in value
    requires |rest| > 0 && rest[0] == '\n'
    ensures ReadLine(Line(caption, value, rest), caption) == Some((value, rest))
  {
    LineStartsWithLabel(caption, value, rest);
    CutAt(value, rest, '\n');
  }

  /** Reads the interpolated values back out of a prompt built on `prefix`, if it has the template's shape. */
  function ReadFinalBlock(prefix: string, p: string): Option<FinalBlock> {
    match ReadLine(p, prefix + TopicsLabel)
    case None => None
    case Some(topicsCut) =>
      match ReadLine(topicsCut.1, AdjectivesLabel)
      case None => None
      case Some(adjectivesCut) =>
        match ReadLine(adjectivesCut.1, DemographicLabel)
        case None => None
        case Some(demographicCut) =>
          if demographicCut.1 != Closing then None
          else Some(FinalBlock(topicsCut.0, adjectivesCut.0, demographicCut.0))
  }

  /** Recovers the selection a prompt was built from. */
  function DecodePrompt(p: string): Option<Input> {
    match ReadFinalBlock(FewShotPrefix, p)
    case None => None
    case Some(b) => Some(Input(SplitList(b.topicsLine), SplitList(b.adjectivesLine), b.demographicLine))
  }

  /** Values without line breaks are read back exactly from the final block, whatever the prefix. */
  lemma ReadFinalBlockRoundTrip(prefix: string, topics: seq<string>, adjectives: seq<string>, demographic: string)
    requires '\n' !in Join(topics, ListSeparator)
    requires '\n' !in Join(adjectives, ListSeparator)
    requires '\n' !in demographic
    ensures ReadFinalBlock(prefix, Render(prefix, topics, adjectives, demographic))
         == Some(FinalBlock(Join(topics, ListSeparator), Join(adjectives, ListSeparator), demographic))
  {
    var t := Join(topics, ListSeparator);
    var a := Join(adjectives, ListSeparator);
    var r2 := Line(DemographicLabel, demographic, Closing);
    var r1 := Line(AdjectivesLabel, a, r2);
    assert r1[0] == '\n' && r2[0] == '\n' && Closing[0] == '\n';
    ReadLineAt(prefix + TopicsLabel, t, r1);
    ReadLineAt(AdjectivesLabel, a, r2);
    ReadLineAt(DemographicLabel, demographic, Closing);
  }

  /** A list without line breaks joins to a string without line breaks. */
  lemma {:induction false} JoinNoLineBreak(xs: seq<string>)
    requires forall i :: 0 <= i < |xs| ==> '\n' !in xs[i]
    ensures '\n' !in Join(xs, ListSeparator)
  {
    if '\n' in Join(xs, ListSeparator) {
      JoinChars(xs, ListSeparator, '\n');
    }
  }

  /** Entries free of commas and line breaks make the prompt decodable: it determines the selection. */
  lemma DecodePromptRoundTrip(input: Input)
    requires |input.topics| > 0 && |input.adjectives| > 0
    requires forall i :: 0 <= i < |input.topics| ==> ',' !in input.topics[i] && '\n' !in input.topics[i]
    requires forall i :: 0 <= i < |input.adjectives| ==> ',' !in input.adjectives[i] && '\n' !in input.adjectives[i]
    requires '\n' !in input.demographic
    ensures DecodePrompt(PromptFor(input)) == Some(input)
  {
    JoinNoLineBreak(input.topics);
    JoinNoLineBreak(input.adjectives);
    ReadFinalBlockRoundTrip(FewShotPrefix, input.topics, input.adjectives, input.demographic);
    SplitJoin(input.topics);
    SplitJoin(input.adjectives);
  }

  /** A worked example (two topics, one adjective): both exemplars verbatim, then its values, joined, in the final block. */
  lemma ExamplePrompt()
    ensures FewShotPrefix <= YouTubePrompt(["Technology", "Review"], ["Exciting"], "18-28")
    ensures ReadFinalBlock(FewShotPrefix, YouTubePrompt(["Technology", "Review"], ["Exciting"], "18-28"))
         == Some(FinalBlock("Technology, Review", "Exciting", "18-28"))
  {
    ExampleFinalBlock(FewShotPrefix);
  }

  lemma ExampleFinalBlock(prefix: string)
    ensures ReadFinalBlock(prefix, Render(prefix, ["Technology", "Review"], ["Exciting"], "18-28"))
         == Some(FinalBlock("Technology, Review", "Exciting", "18-28"))
  {
    JoinAppend(["Technology"], "Review", ListSeparator);
    assert ["Technology"] + ["Review"] == ["Technology", "Review"];
    assert "Technology" + ListSeparator + "Review" == "Technology, Review";
    ReadFinalBlockRoundTrip(prefix, ["Technology", "Review"], ["Exciting"], "18-28");
  }
}
