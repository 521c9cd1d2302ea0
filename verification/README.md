# YouTube idea generator — a Dafny model

The application lets a user pick up to three video topics, up to three adjectives and one
age demographic on a web page, then asks a hosted AI service for a fictitious YouTube
video idea (title, description, channel name) and a thumbnail image for it. This project
models the sequential logic around those calls:

- the shared input schema `youtubeIdeaSchema` and the page's `handleSubmit`
  (module `Schema`, module `Page`);
- the page's selection state and its click handlers, as a state machine over clicks on
  catalogue buttons (modules `Catalogue`, `Form`);
- the prompt template `getYouTubePrompt`, with a decoder that reads the selection back out
  of a prompt (modules `Strings`, `Prompt`);
- the `generate` procedure, with the AI provider passed in as three functions and every
  outbound request recorded, so that short-circuiting is visible (module `Router`);
- lemmas that connect the page, the schema, the prompt and the procedure (module `EndToEnd`).

Strings are `seq<char>`. The provider's answers are uninterpreted: `createCompletion` and
`createImage` give the list of returned choices or images (each text or URL possibly
absent), or `None` when the awaited request rejects; `parse` stands for `JSON.parse`
followed by the unchecked `as` cast, `None` when `JSON.parse` throws, or when reading
`.videoTitle` or turning it into a string at src/server/api/routers/youtube.ts:63 throws before
the image request (`null`, `{"videoTitle":{"toString":0}}`).

Facts about the code that the model keeps:

- the thumbnail prompt is built from the parsed title only (src/server/api/routers/youtube.ts:63);
- the completion text goes through `JSON.parse` and an unchecked `as` cast, so text that parses
  as JSON is rejected for its shape only when reading its title or turning the title into a
  string throws (`null`, `{"videoTitle":{"toString":0}}`). The model's `parse` returns a record
  with three string fields, so it covers parses that yield such a record, those throwing cases,
  and text that does not parse (see "## Left out" for the rest);
- validation failures are reported as the set of offending keys, and the message texts are not modelled.

## Model

| member | source | states |
|---|---|---|
| Schema.SafeParse | src/pages/index.tsx:27-31 | Succeeds exactly when 1 ≤ topics ≤ 3, 1 ≤ adjectives ≤ 3 and 1 ≤ demographic length ≤ 5; on success the data is the input unchanged; on failure the error keys are non-empty and are exactly the offending fields |
| Schema.ErrorFields | src/pages/index.tsx:28-30 | Each key is present exactly when that field's count or length lies outside its interval |
| Page.HandleSubmit | src/pages/index.tsx:62-71 | Valid input: the errors are cleared, the shown idea is cleared and the mutation receives the input unchanged. Invalid input: no mutation, the shown idea is kept, and the error keys are exactly the offending fields. The selection is never touched |
| Page.OnClick | src/pages/index.tsx:111-173 | A button click changes neither the shown errors nor the shown idea |
| Page.OnSubmit | src/pages/index.tsx:89-96 | The current selection is submitted as the input: the mutation starts with exactly the selected topics, adjectives and demographic when it is valid, otherwise the error keys are exactly the offending fields and the shown idea is kept. The selection is never touched |
| Page.OnSuccess | src/pages/index.tsx:56-60 | The returned idea is put on display; the selection and the shown errors are unchanged |
| Page.ClickAllOnlySelects | src/pages/index.tsx:45-173 | Any sequence of button clicks changes only the selection, which ends as `Form.Run` computes it; from the page's start (empty selection, no errors, no idea) no errors and no idea are shown after any clicks |
| Form.Without | src/pages/index.tsx:113 | The filtered selection holds exactly the old members other than the clicked one; it is unchanged if that item was absent and strictly shorter if it was present |
| Form.WithoutAt | src/pages/index.tsx:112-113 | In a duplicate-free selection, removing the item at position i closes the gap and keeps the others in order |
| Form.WithoutNoDuplicates | src/pages/index.tsx:113 | Filtering keeps a selection duplicate-free |
| Form.Toggle | src/pages/index.tsx:111-117 | A selected item is removed and everything else stays. An unselected item is appended at the end when fewer than 3 are selected. At 3 the selection is unchanged |
| Form.ToggleUndo | src/pages/index.tsx:112-115 | Clicking an item twice, starting when it is unselected and there is room, restores the selection |
| Form.Step | src/pages/index.tsx:111-173 | A topic click toggles only the topics, an adjective click only the adjectives. A demographic click replaces the demographic with the clicked entry and changes nothing else |
| Form.TogglePreservesGoodPicks | src/pages/index.tsx:111-117 | Toggling an offered item keeps the selection duplicate-free, at most 3 long and drawn from the catalogue |
| Form.StepPreservesInv | src/pages/index.tsx:102-173 | Any click on a button of the page preserves the invariant |
| Form.RunPreservesInv | src/pages/index.tsx:102-173 | Any sequence of clicks preserves the invariant |
| Form.ReachableInv | src/pages/index.tsx:47-49 | From the empty start, every sequence of button clicks yields selections that are duplicate-free, at most 3 long, drawn from the catalogues, with the demographic empty or a catalogue entry |
| Form.RunOrigins | src/pages/index.tsx:102-173 | `Form.Run` handles clicks one after another. After any sequence of clicks, every selected topic or adjective was selected before or was clicked, the demographic is the old one or a clicked one, and selections of at most 3 stay at most 3 |
| Form.RunAppend | src/pages/index.tsx:102-173 | Handling two click sequences one after the other is handling their concatenation |
| Form.RunClicks | src/pages/index.tsx:114-115 | Clicking fresh items in order while there is room appends them in click order |
| Form.InvReachable | src/pages/index.tsx:47-173 | Every form satisfying the invariant is reached from the empty start by clicks on the page, so the invariant is exactly reachability |
| Form.ReachableValid | src/pages/index.tsx:28-30 | On a reachable form the schema accepts exactly when at least one topic, one adjective and a demographic are chosen |
| Catalogue.DemographicsLength | src/pages/index.tsx:25 | Every demographic on offer has length between 1 and 5, so choosing one satisfies the demographic check |
| Catalogue.EntriesPlain | src/pages/index.tsx:10-23 | No topic or adjective contains a comma or a line break |
| Catalogue.DemographicsPlain | src/pages/index.tsx:25 | No demographic contains a line break |
| Strings.JoinAppend | src/server/api/routers/youtube.ts:31-32 | `Strings.Join` models `join`: joining a singleton gives the element; joining one more element at the end adds one separator and that element |
| Strings.JoinChars | src/server/api/routers/youtube.ts:31-32 | Every character of a join comes from the separator or from an element |
| Strings.JoinSplit | src/server/api/routers/youtube.ts:31-32 | Splitting at ", " and joining back with ", " returns the original string |
| Strings.SplitJoin | src/server/api/routers/youtube.ts:31-32 | A non-empty list of comma-free strings joined with ", " splits back into the same list |
| Strings.CutAt | src/server/api/routers/youtube.ts:31-34 | Cutting at the first line break of x + y splits exactly between x and y when x has no line break and y starts with one |
| Prompt.YouTubePrompt | src/server/api/routers/youtube.ts:16-30 | Every prompt begins with the fixed instruction and both exemplar blocks verbatim, whatever the inputs |
| Prompt.ReadLineAt | src/server/api/routers/youtube.ts:31-34 | A final-block line is read back as its value and the text after it |
| Prompt.ReadFinalBlockRoundTrip | src/server/api/routers/youtube.ts:31-35 | The final block holds "Topics: " + topics joined with ", ", then "Adjectives: " + adjectives joined, then "Age Demographic: " + demographic, then "Last Response:". Values without line breaks are read back exactly |
| Prompt.DecodePromptRoundTrip | src/server/api/routers/youtube.ts:16-35 | For non-empty lists of entries without commas or line breaks, decoding the prompt gives back the input |
| Prompt.ExamplePrompt | src/server/api/routers/youtube.ts:16-35 | For topics Technology and Review, adjective Exciting and demographic 18-28, the prompt holds both exemplars and then "Technology, Review", "Exciting" and "18-28" in the final block |
| Router.ImagePrompt | src/server/api/routers/youtube.ts:63 | The image prompt is `Youtube Thumbnail for video "`, then the title, then a closing quote |
| Router.ImagePromptInjective | src/server/api/routers/youtube.ts:63 | Different titles give different image prompts |
| Router.Generate | src/server/api/routers/youtube.ts:38-75 | Invalid input gets the field errors and no request. Valid input first requests a completion for its prompt. Absent or empty text, or text that fails to parse, ends with an internal error and no image request. Text that parses always leads to the image request, which carries the prompt for the parsed title. An absent or empty URL gives an internal error. An idea comes only after both requests and with a non-empty URL |
| Router.GenerateIdeaIff | src/server/api/routers/youtube.ts:52-74 | An idea is returned exactly when every stage succeeds. It is then the parsed title, description and channel name plus the returned URL |
| Router.ImageCallDependsOnlyOnTitle | src/server/api/routers/youtube.ts:60-65 | Two runs whose parsed records share a title send the same image request |
| Router.FixedAnswersIdea | src/server/api/routers/youtube.ts:45-74 | A provider that answers every request with the same non-empty text and URL yields the parsed record plus that URL |
| Router.MockedGenerate | src/server/api/routers/youtube.ts:38-75 | Mocked answers {"videoTitle":"T","videoDescription":"D","channelName":"C"} and https://example/img.png give exactly the idea T, D, C with that URL |
| EndToEnd.ReachableSubmitReachesProvider | src/pages/index.tsx:89-96 | A clicked-together selection with a topic, an adjective and a demographic is submitted unchanged. The procedure accepts it and sends its prompt |
| EndToEnd.ReachablePromptDecodes | src/server/api/routers/youtube.ts:31-33 | The prompt of a valid reachable selection decodes back to that selection |
| EndToEnd.PromptDeterminesSelection | src/server/api/routers/youtube.ts:31-33 | Two valid reachable selections with the same prompt are the same selection |
| EndToEnd.SubmitThenShowIdea | src/pages/index.tsx:56-67 | When every stage succeeds, submitting a reachable selection ends with the parsed record and the thumbnail URL on display |

## Left out

- JSX rendering, CSS classes, the `Head` and `Image` components and the loading state, including the disabled submit button while a request is pending: presentation only.
- The OpenAI client construction, the API key, the model name, `max_tokens`, `temperature` and the image size: configuration of the foreign calls. The calls themselves are the `Provider` functions.
- `JSON.parse`: a library call, modelled as the abstract `parse` function. The object spread in the result keeps any extra parsed keys; the model's record has exactly the four fields.
- `JSON.parse` results that are not a record with string fields `videoTitle`, `videoDescription` and `channelName`, and whose title can be read and turned into a string (`{}`, `{"videoTitle":5}`, an array): they lie outside the model's record type. For them the code puts the title's string form in the image prompt (`undefined` for `{}`, `5` for `{"videoTitle":5}`) and returns an idea with missing or non-string keys; neither is modelled.
- zod's `flatten()` message texts and the `console.log` of the errors: library formatting and logging. Errors are modelled as the set of keys present.
- The element type check of `z.array(z.string())`: the Dafny types already guarantee it.
- The tRPC transport, `async`/`await` and the error envelope. Every thrown error becomes `InternalServerError`, and input validation becomes `BadRequest`.
- Schema.SafeParse: string length is counted in Dafny characters, whereas zod counts UTF-16 code units. Every catalogue entry is ASCII, so the two agree on reachable input.
- Form.Run: clicks are handled one at a time, each seeing the state rendered after the previous one. React's batching and stale closures within a single render are not modelled.
- next.config.mjs: build and image-host configuration.
- The commented-out sample response in the page: dead code.
