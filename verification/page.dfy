/**
 * The page around the selection: the field errors it shows, the idea on display, and the
 * submit handler that validates the selection before starting the mutation.
 */
module Page {
  import opened Wrappers
  import opened Schema
  import opened Form
  import opened Router

  /** The page's state: the selection, the keys of the field errors shown, the idea on display. */
  datatype Page = Page(form: Form, errors: set<Field>, videoIdea: Option<YouTubeIdea>)

  /** Nothing selected, no errors, no idea. */
  const InitialPage: Page := Page(Initial, {}, None)

  /** The page after a submit, and the input handed to the mutation if one was started. */
  datatype Submission = Submission(page: Page, mutated: Option<Input>)

  /** `handleSubmit`: on valid input clear the errors and the old idea and start the mutation; otherwise show the field errors. */
  function HandleSubmit(page: Page, input: Input): (r: Submission)
    ensures r.page.form == page.form
    ensures (1 <= |input.topics| <= 3 && 1 <= |input.adjectives| <= 3 && 1 <= |input.demographic| <= 5)
              ==> r.mutated == Some(input) && r.page.errors == {} && r.page.videoIdea == None
    ensures !(1 <= |input.topics| <= 3 && 1 <= |input.adjectives| <= 3 && 1 <= |input.demographic| <= 5) ==> (
              && r.mutated == None
              && r.page.videoIdea == page.videoIdea
              && r.page.errors != {}
              && (forall f :: f in r.page.errors <==> !FieldOk(input, f)))
  {
    match SafeParse(input)
    case Success(_) => Submission(page.(errors := {}, videoIdea := None), Some(input))
    case Failure(fieldErrors) => Submission(page.(errors := fieldErrors), None)
  }

  /** The form's submit event: the current selection goes to `HandleSubmit`. */
  function OnSubmit(page: Page): (r: Submission)
    ensures r.page.form == page.form
    ensures Valid(page.form.ToInput()) <==> r.mutated.Some?
    ensures r.mutated.Some? ==>
              && r.mutated.value == Input(page.form.topics, page.form.adjectives, page.form.demographic)
              && r.page.errors == {} && r.page.videoIdea == None
    ensures r.mutated.None? ==> r.page.errors == ErrorFields(page.form.ToInput()) && r.page.videoIdea == page.videoIdea
  {
    HandleSubmit(page, page.form.ToInput())
  }

  /** A click on a topic, adjective or demographic button changes only the selection. */
  function OnClick(page: Page, c: Click): (r: Page)
    ensures r.errors == page.errors && r.videoIdea == page.videoIdea
  {
    page.(form := Step(page.form, c))
  }

  /** The mutation's success callback puts the returned idea on display. */
  function OnSuccess(page: Page, idea: YouTubeIdea): (r: Page)
    ensures r.videoIdea == Some(idea)
    ensures r.form == page.form && r.errors == page.errors
  {
    page.(videoIdea := Some(idea))
  }

  /** The page after a sequence of button clicks, each handled after the previous one has rendered. */
  function ClickAll(page: Page, cs: seq<Click>): Page
    decreases |cs|
  {
    if |cs| == 0 then page else ClickAll(OnClick(page, cs[0]), cs[1..])
  }

  /**
   * Clicking changes only the selection, exactly as `Form.Run` does; from the page's start
   * no errors and no idea are shown, whatever was clicked.
   */
  lemma {:induction false} ClickAllOnlySelects(page: Page, cs: seq<Click>)
    ensures ClickAll(page, cs) == page.(form := Run(page.form, cs))
    ensures page == InitialPage ==> ClickAll(page, cs) == Page(Run(Initial, cs), {}, None)
    decreases |cs|
  {
    if |cs| > 0 {
      ClickAllOnlySelects(OnClick(page, cs[0]), cs[1..]);
    }
  }
}
