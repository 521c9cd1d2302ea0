/** Properties that connect the page, the shared schema, the prompt and the procedure. */
module EndToEnd {
  import opened Wrappers
  import opened Catalogue
  import opened Schema
  import opened Form
  import opened Prompt
  import opened Router
  import opened Page

  /**
   * A selection reached by clicking, with a topic, an adjective and a demographic chosen, is
   * submitted unchanged, and the procedure accepts it and sends its prompt.
   */
  lemma ReachableSubmitReachesProvider(cs: seq<Click>, errors: set<Field>, shown: Option<YouTubeIdea>, p: Provider)
    requires AllOnPage(cs)
    requires |Run(Initial, cs).topics| >= 1 && |Run(Initial, cs).adjectives| >= 1
    requires Run(Initial, cs).demographic != ""
    ensures OnSubmit(Page(Run(Initial, cs), errors, shown)).mutated == Some(Run(Initial, cs).ToInput())
    ensures Generate(p, Run(Initial, cs).ToInput()).calls[0] == CompletionCall(PromptFor(Run(Initial, cs).ToInput()))
  {
    var f := Run(Initial, cs);
    ReachableInv(cs);
    ReachableValid(f);
  }

  /** The prompt of a valid reachable selection can be decoded back into that selection. */
  lemma ReachablePromptDecodes(f: Form)
    requires Inv(f) && Valid(f.ToInput())
    ensures DecodePrompt(PromptFor(f.ToInput())) == Some(f.ToInput())
  {
    forall i | 0 <= i < |f.topics| ensures ',' !in f.topics[i] && '\n' !in f.topics[i] {
      EntriesPlain(f.topics[i]);
    }
    forall i | 0 <= i < |f.adjectives| ensures ',' !in f.adjectives[i] && '\n' !in f.adjectives[i] {
      EntriesPlain(f.adjectives[i]);
    }
    DemographicsPlain(f.demographic);
    DecodePromptRoundTrip(f.ToInput());
  }

  /** Distinct valid reachable selections are sent as distinct prompts. */
  lemma PromptDeterminesSelection(f1: Form, f2: Form)
    requires Inv(f1) && Valid(f1.ToInput())
    requires Inv(f2) && Valid(f2.ToInput())
    requires PromptFor(f1.ToInput()) == PromptFor(f2.ToInput())
    ensures f1 == f2
  {
    ReachablePromptDecodes(f1);
    ReachablePromptDecodes(f2);
  }

  /** A successful generation for a submitted selection puts the parsed record and the thumbnail URL on display. */
  lemma SubmitThenShowIdea(page: Page, p: Provider)
    requires Inv(page.form)
    requires AllStagesSucceed(p, page.form.ToInput())
    ensures
      var sub := OnSubmit(page);
      var obj := p.parse(CompletionText(p, PromptFor(page.form.ToInput())).value).value;
      && sub.mutated == Some(page.form.ToInput())
      && Generate(p, sub.mutated.value).response.Idea?
      && OnSuccess(sub.page, Generate(p, sub.mutated.value).response.idea).videoIdea
           == Some(YouTubeIdea(obj.videoTitle, obj.videoDescription, obj.channelName,
                               ImageUrl(p, ImagePrompt(obj.videoTitle)).value))
  {
  }
}
