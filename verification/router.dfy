/**
 * The `generate` procedure of the YouTube router: validate the input, ask the text endpoint
 * for an idea, parse it, ask the image endpoint for a thumbnail of its title, and combine.
 * The provider is a parameter: its answers are whatever the given functions return.
 */
module Router {
  import opened Wrappers
  import opened Schema
  import opened Prompt

  /** The record the completion text is read as. */
  datatype OpenAITextResponse = OpenAITextResponse(videoTitle: string, videoDescription: string, channelName: string)

  /** The procedure's result: the parsed record plus the thumbnail link. */
  datatype YouTubeIdea = YouTubeIdea(
    videoTitle: string, videoDescription: string, channelName: string, videoThumbnailURL: string)

  /**
   * The external collaborators. `createCompletion` gives the `text` of each returned choice and
   * `createImage` the `url` of each returned image, each possibly absent; `None` means the awaited
   * request rejected. `parse` stands for `JSON.parse` followed by the unchecked cast: `None` when it throws,
   * or when reading `.videoTitle` or turning it into a string for the image prompt throws
   * (`null`, `{"videoTitle":{"toString":0}}`), which happens before the image request.
   */
  datatype Provider = Provider(
    createCompletion: string -> Option<seq<Option<string>>>,
    parse: string -> Option<OpenAITextResponse>,
    createImage: string -> Option<seq<Option<string>>>)

  /** An outbound request, with the prompt it carries. */
  datatype Call = CompletionCall(prompt: string) | ImageCall(prompt: string)

  /** What the caller sees: the idea, the input validation failure, or the generic internal error. */
  datatype Response = Idea(idea: YouTubeIdea) | BadRequest(fieldErrors: set<Field>) | InternalServerError

  /** The response together with the outbound requests made, in order. */
  datatype Outcome = Outcome(response: Response, calls: seq<Call>)

  /** `xs.at(0)`, flattened with the optional field read after it. */
  function First(xs: seq<Option<string>>): Option<string> {
    if |xs| == 0 then None else xs[0]
  }

  /** JavaScript truthiness of a possibly undefined string: present and not empty. */
  predicate Truthy(s: Option<string>) {
    s.Some? && s.value != ""
  }

  /** The first completion text, absent also when the request rejected. */
  function CompletionText(p: Provider, prompt: string): Option<string> {
    match p.createCompletion(prompt)
    case None => None
    case Some(choices) => First(choices)
  }

  /** The first image URL, absent also when the request rejected. */
  function ImageUrl(p: Provider, prompt: string): Option<string> {
    match p.createImage(prompt)
    case None => None
    case Some(images) => First(images)
  }

  /** The image prompt: the parsed title in quotes after a fixed phrase. */
  function ImagePrompt(title: string): (r: string)
    ensures |r| == |title| + 30
    ensures r[..29] == "Youtube Thumbnail for video \"" && r[|r| - 1] == '"'
    ensures r[29..|r| - 1] == title
  {
    "Youtube Thumbnail for video \"" + title + "\""
  }

  /** Different titles give different image prompts, and the prompt holds nothing but the title. */
  lemma ImagePromptInjective(t1: string, t2: string)
    requires ImagePrompt(t1) == ImagePrompt(t2)
    ensures t1 == t2
  {
  }

  /** The `generate` mutation, including the input validation the procedure declares. */
  function Generate(p: Provider, input: Input): (o: Outcome)
    ensures !Valid(input) ==> o.response == BadRequest(ErrorFields(input)) && o.calls == []
    ensures Valid(input) ==> 1 <= |o.calls| <= 2 && o.calls[0] == CompletionCall(PromptFor(input))
    ensures (Valid(input) && !Truthy(CompletionText(p, PromptFor(input))))
              ==> o == Outcome(InternalServerError, [CompletionCall(PromptFor(input))])
    ensures (&& Valid(input)
             && Truthy(CompletionText(p, PromptFor(input)))
             && p.parse(CompletionText(p, PromptFor(input)).value).None?)
              ==> o == Outcome(InternalServerError, [CompletionCall(PromptFor(input))])
    ensures (&& Valid(input)
             && Truthy(CompletionText(p, PromptFor(input)))
             && p.parse(CompletionText(p, PromptFor(input)).value).Some?)
              ==> |o.calls| == 2
    ensures |o.calls| == 2 ==>
              && Truthy(CompletionText(p, PromptFor(input)))
              && p.parse(CompletionText(p, PromptFor(input)).value).Some?
              && o.calls[1] == ImageCall(ImagePrompt(p.parse(CompletionText(p, PromptFor(input)).value).value.videoTitle))
    ensures o.response.Idea? ==> |o.calls| == 2 && Truthy(ImageUrl(p, o.calls[1].prompt))
    ensures |o.calls| == 2 && !Truthy(ImageUrl(p, o.calls[1].prompt)) ==> o.response == InternalServerError
  {
    if !Valid(input) then Outcome(BadRequest(ErrorFields(input)), [])
    else
      var prompt := PromptFor(input);
      var textCalls := [CompletionCall(prompt)];
      var returnText := CompletionText(p, prompt);
      if !Truthy(returnText) then Outcome(InternalServerError, textCalls)
      else
        match p.parse(returnText.value)
        case None => Outcome(InternalServerError, textCalls)
        case Some(returnObj) =>
          var imagePrompt := ImagePrompt(returnObj.videoTitle);
          var calls := textCalls + [ImageCall(imagePrompt)];
          var returnURL := ImageUrl(p, imagePrompt);
          if !Truthy(returnURL) then Outcome(InternalServerError, calls)
          else Outcome(Idea(YouTubeIdea(
                 returnObj.videoTitle, returnObj.videoDescription, returnObj.channelName, returnURL.value)), calls)
  }

  /** Every stage succeeded: a non-empty text that parses, and a non-empty URL for its title's thumbnail. */
  predicate AllStagesSucceed(p: Provider, input: Input) {
    && Valid(input)
    && Truthy(CompletionText(p, PromptFor(input)))
    && p.parse(CompletionText(p, PromptFor(input)).value).Some?
    && Truthy(ImageUrl(p, ImagePrompt(p.parse(CompletionText(p, PromptFor(input)).value).value.videoTitle)))
  }

  /** An idea comes back exactly when every stage succeeds, and it is the parsed record plus the returned URL. */
  lemma GenerateIdeaIff(p: Provider, input: Input)
    ensures Generate(p, input).response.Idea? <==> AllStagesSucceed(p, input)
    ensures AllStagesSucceed(p, input) ==>
      var obj := p.parse(CompletionText(p, PromptFor(input)).value).value;
      Generate(p, input).response.idea
        == YouTubeIdea(obj.videoTitle, obj.videoDescription, obj.channelName,
                       ImageUrl(p, ImagePrompt(obj.videoTitle)).value)
  {
  }

  /** Two runs whose parsed records share a title make the same image request. */
  lemma ImageCallDependsOnlyOnTitle(p1: Provider, input1: Input, p2: Provider, input2: Input)
    requires |Generate(p1, input1).calls| == 2 && |Generate(p2, input2).calls| == 2
    requires p1.parse(CompletionText(p1, PromptFor(input1)).value).value.videoTitle
          == p2.parse(CompletionText(p2, PromptFor(input2)).value).value.videoTitle
    ensures Generate(p1, input1).calls[1] == Generate(p2, input2).calls[1]
  {
  }

  /** A provider that gives the same answers whatever it is asked. */
  ghost predicate AnswersFixed(p: Provider, text: string, obj: OpenAITextResponse, url: string) {
    && (forall prompt :: p.createCompletion(prompt) == Some([Some(text)]))
    && p.parse(text) == Some(obj)
    && (forall prompt :: p.createImage(prompt) == Some([Some(url)]))
  }

  /** With fixed non-empty answers, a valid input yields exactly the parsed record plus the URL. */
  lemma FixedAnswersIdea(p: Provider, input: Input, text: string, obj: OpenAITextResponse, url: string)
    requires Valid(input)
    requires AnswersFixed(p, text, obj, url)
    requires text != "" && url != ""
    ensures Generate(p, input).response
         == Idea(YouTubeIdea(obj.videoTitle, obj.videoDescription, obj.channelName, url))
  {
  }

  /** A worked example with mocked provider answers: the idea is exactly the mocked record plus the mocked URL. */
  lemma MockedGenerate(input: Input)
    requires Valid(input)
    ensures
      var json := "{\"videoTitle\":\"T\",\"videoDescription\":\"D\",\"channelName\":\"C\"}";
      var p := Provider(
        prompt => Some([Some(json)]),
        text => if text == json then Some(OpenAITextResponse("T", "D", "C")) else None,
        prompt => Some([Some("https://example/img.png")]));
      Generate(p, input).response == Idea(YouTubeIdea("T", "D", "C", "https://example/img.png"))
  {
  }
}
