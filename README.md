# Heart Travel Map — a Dafny model of its logic

The app is a three-stage single-page quiz. A visitor answers five questions,
each option votes for one of three traveller archetypes (HEALER, ADVENTURER,
SCAVENGER), and the winning archetype opens a result view. That view asks a
generative service for recommended places, then enriches the places one at a
time with a day and a night image. This project models the logic behind that
flow and proves what it guarantees:

- `quiz.dfy` — the quiz component as a class (`QuizSession`) with the step
  index, the per-archetype tally and the guard flag that ignores clicks during
  the transition. The delayed transition is an explicit second step
  (`TimerFires`). The winner is the `reduce` fold over the keys in the order
  HEALER, ADVENTURER, SCAVENGER. Because the fold compares with strict `>`,
  a tie goes to the LATER key, and the model proves exactly that.
- `constants.dfy` — the archetype table and the five questions, as data.
- `gemini_service.dfy` — the post-processing of both service calls: the
  synthetic ids `ARCHETYPE-index` (proved pairwise distinct), the parse
  failure path, the style chosen per variant, and the scan for the first
  inline image part with its placeholder-address fallback.
- `dashboard.dfy` — the result view as a class: the spot list, the
  `imageLoading` and `timeValues` maps, the per-spot loop, the id-matched
  update and the day/night image selector.
- `app.dfy` — the stage machine INTRO → QUIZ → RESULT with reset, and which
  view each state renders.
- `types.dfy`, `wrappers.dfy` — the shared records and `Option`/`Result`.

The two service calls and `JSON.parse` are parameters. A recommendation
request maps an archetype id to the response text or a thrown error. An image
request maps (place name, location, style) to a response or a thrown error.
The parser maps text to an array, another JSON value or a syntax error.

In a few places the code does something other than what a reader of the
app's description would expect. The model follows the code:

- Tie-break: "the highest score wins" leaves ties open, and a reader would
  expect the first archetype in key order to keep a tie. The code keeps the
  later key on a tie, so {HEALER 2, ADVENTURER 2, SCAVENGER 1} gives
  ADVENTURER (`Quiz.TieGoesToLaterKey`).
- A failed recommendation request is meant to give an empty list of places.
  In the code the request sits outside the `try`, so the error escapes
  `fetchSpots` after `loading` was set. The view stays in its loading state
  and nothing else changes (`Dashboard.Dashboard.FetchSpots`). Only a parse
  failure gives the empty list.
- A failed image request is meant to be replaced by a placeholder address.
  In the code the placeholder address is used only when a response has no
  inline image part. A thrown error reaches the view's `catch`, and the spot
  stays without images.
- A place without a day image is meant to show the loading placeholder. In
  the code the placeholder is shown only while the spot's `imageLoading` flag
  is set; afterwards an image element with no source is rendered
  (`Dashboard.PlaceholderIffLoading`).
- The "4 places" count is only requested in the prompt text. Nothing
  enforces it, and the model allows any length.

## Model

| member | source | states |
|---|---|---|
| `Constants.ArchetypesKeyedById` | constants.tsx:4-50 | every archetype has an entry in the table, and the entry's id is its own key |
| `Constants.QuestionCountIsFive` | constants.tsx:52-98 | there are exactly five questions |
| `Constants.QuestionsWellFormed` | constants.tsx:52-98 | question ids are 1..5 in order; each question has three options mapping to HEALER, ADVENTURER, SCAVENGER in that order |
| `Quiz.InitialTally` | components/Quiz.tsx:12-16 | the empty answer list gives every tally 0 |
| `Quiz.TallyAppend` | components/Quiz.tsx:28 | accepting an answer adds 1 to that archetype's tally and leaves the other two unchanged |
| `Quiz.TallySum` | components/Quiz.tsx:28 | the three tallies add up to the number of accepted answers |
| `Quiz.ReduceIsLastMax` | components/Quiz.tsx:36-38 | the fold with strict `>` returns the element at the last position holding the maximum |
| `Quiz.WinnerIsLastMaximum` | components/Quiz.tsx:36-38 | the winner is exactly the archetype that holds the maximum and is last among those holding it, in the order HEALER, ADVENTURER, SCAVENGER (both directions) |
| `Quiz.WinnerIsMaximal` | components/Quiz.tsx:36-38 | the winner's tally is at least every other tally |
| `Quiz.TieGoesToLaterKey` | components/Quiz.tsx:36-38 | {HEALER 2, ADVENTURER 2, SCAVENGER 1} gives ADVENTURER |
| `Quiz.FiveAnswerTieShape` | components/Quiz.tsx:32-38 | with five answers, a tie for the maximum can only be 2/2/1 |
| `Quiz.QuizSession.constructor` | components/Quiz.tsx:11-17 | the quiz starts at step 0 with all tallies 0 and the guard cleared |
| `Quiz.QuizSession.HandleSelect` | components/Quiz.tsx:24-31 | while the guard is set nothing changes; otherwise the guard is set, exactly the chosen tally grows by 1 and the transition is scheduled |
| `Quiz.QuizSession.TimerFires` | components/Quiz.tsx:31-41 | before the last question the step advances by exactly 1 and the guard is cleared; on the last one the winner of the tallies is reported, after exactly QuestionCount accepted answers, and the guard stays set |
| `Quiz.AcceptClick` | components/Quiz.tsx:24-29 | a click with no transition pending, before the last transition has run, is accepted and becomes the next answer |
| `Quiz.IgnoreClick` | components/Quiz.tsx:25 | a click while a transition is pending, or after the last one, is ignored |
| `Quiz.FireTick` | components/Quiz.tsx:31-41 | a timer expiry while a transition is pending ends that transition |
| `Quiz.IgnoreTick` | components/Quiz.tsx:31 | a timer expiry with no transition pending changes nothing (no timer was set) |
| `Quiz.PositionsAgree` | components/Quiz.tsx:24-41 | two readings of the same events that both follow the acceptance rule agree on the k-th accepted click and the k-th transition |
| `Quiz.ShorterIsImpossible` | components/Quiz.tsx:24-41 | a reading that follows the acceptance rule cannot take fewer clicks or transitions than another one of the same events |
| `Quiz.PositionsUnique` | components/Quiz.tsx:24-41 | the events determine which clicks are accepted and which expiries end a transition: only one reading follows the acceptance rule |
| `Quiz.Deliver` | components/Quiz.tsx:24-41 | delivering one event to the quiz keeps the state in step with the accepted clicks and transitions of the events so far; it reports completion exactly when the QuestionCount-th transition runs, with the winner of the accepted clicks |
| `Quiz.Run` | components/Quiz.tsx:24-42 | for any sequence of clicks and timer expiries, clicks during the 500 ms transition included: the accepted clicks are exactly those the acceptance rule picks out of the events (the first click; after each transition, the first click after the expiry that ends it; at most QuestionCount); completion is reported exactly when QuestionCount transitions have run, so at most once, with the winner of the accepted clicks |
| `Quiz.InTurnPositions` | components/Quiz.tsx:24-41 | when each click is followed by its timer expiry, the first QuestionCount clicks are the accepted ones, each followed by its transition |
| `Quiz.Play` | components/Quiz.tsx:24-42 | in the schedule where each click's transition runs before the next click: completion is reported exactly when QuestionCount answers are in, with the winner of the first QuestionCount answers; later clicks change nothing |
| `Quiz.Tally` | components/Quiz.tsx:12-28 | the score record after the accepted answers; its contract says only that all three keys are present. Its meaning is fixed by `Quiz.InitialTally`, `Quiz.TallyAppend` and `Quiz.TallySum` |
| `Quiz.Pick` | components/Quiz.tsx:37 | no contract; its meaning is fixed by `Quiz.ReduceIsLastMax` |
| `Quiz.Reduce` | components/Quiz.tsx:36-38 | no contract; its meaning is fixed by `Quiz.ReduceIsLastMax` |
| `Quiz.Winner` | components/Quiz.tsx:12-38 | no contract; folds over the constant `Quiz.KeyOrder`, [HEALER, ADVENTURER, SCAVENGER], the order in which `Object.keys` lists the score record built by the initialiser; its meaning is fixed by `Quiz.WinnerIsLastMaximum` |
| `GeminiService.SpotId` | services/geminiService.ts:59 | no contract; its meaning is fixed by `GeminiService.SpotIdInjective` |
| `GeminiService.ResponseText` | services/geminiService.ts:56 | no contract; its meaning is fixed by `GeminiService.EmptyTextGivesNoSpots` |
| `GeminiService.NatToString` | services/geminiService.ts:59 | the decimal writing of the index, never empty; its meaning is fixed by `GeminiService.NatToStringInjective` and `GeminiService.SpotIdInjective` |
| `GeminiService.NatToStringInjective` | services/geminiService.ts:59 | two different indexes are written as two different decimal strings |
| `GeminiService.SpotIdInjective` | services/geminiService.ts:59 | two positions never get the same `${archetypeId}-${index}` id |
| `GeminiService.AssignIds` | services/geminiService.ts:57-60 | the list keeps the items' length and order; item i gets id `archetypeId-i`, replacing any id it had, and keeps every other field; all ids are distinct |
| `GeminiService.GetTravelRecommendations` | services/geminiService.ts:7-65 | any list it returns has pairwise distinct ids |
| `GeminiService.RecommendationsFromArray` | services/geminiService.ts:55-60 | a successful parse gives one spot per parsed item, in order, with the synthetic ids |
| `GeminiService.ParseFailureGivesNoSpots` | services/geminiService.ts:61-64 | a syntax error, or a parsed value that is not an array, gives the empty list |
| `GeminiService.EmptyTextGivesNoSpots` | services/geminiService.ts:56 | a missing or empty response text is parsed as `[]` and gives the empty list |
| `GeminiService.RequestErrorPropagates` | services/geminiService.ts:19-53 | an error thrown by the request is not caught and reaches the caller |
| `GeminiService.NightStyleOnlyForNight` | services/geminiService.ts:69-75 | the night style is chosen for NIGHT and only for NIGHT; every other variant gets the day style |
| `GeminiService.StylePrompt` | services/geminiService.ts:68-75 | no contract; its meaning is fixed by `GeminiService.NightStyleOnlyForNight` |
| `GeminiService.ResponseParts` | services/geminiService.ts:86 | no contract; the first candidate's parts, or none when a level is missing. Its effect is fixed by `GeminiService.ImageUrlFallback` |
| `GeminiService.TemplateString` | services/geminiService.ts:88 | no contract; a missing string is written "undefined"; its meaning is fixed by `GeminiService.ImageUrlFirstInline` |
| `GeminiService.DataUrl` | services/geminiService.ts:88 | no contract; its meaning is fixed by `GeminiService.ImageUrlFirstInline` |
| `GeminiService.VariantName` | services/geminiService.ts:67 | no contract; its meaning is fixed by `GeminiService.ImageUrlFallback` |
| `GeminiService.FallbackUrl` | services/geminiService.ts:92 | no contract; its meaning is fixed by `GeminiService.ImageUrlFallback` |
| `GeminiService.ImageUrl` | services/geminiService.ts:86-92 | no contract; its meaning is fixed by `GeminiService.ImageUrlFirstInline`, `GeminiService.ImageUrlFallback` and `GeminiService.ImageUrlNonEmpty` |
| `GeminiService.ImageVariant` | services/geminiService.ts:67-93 | no contract; its meaning is fixed by `GeminiService.GenerateSpotImageVariant` and `GeminiService.ImageVariantNonEmpty` |
| `GeminiService.ImageVariantNonEmpty` | services/geminiService.ts:67-93 | a URL produced without a thrown error is never empty |
| `GeminiService.ImageUrlFirstInline` | services/geminiService.ts:86-90 | the first part carrying inline data gives `data:image/png;base64,` plus its data; later parts are ignored |
| `GeminiService.ImageUrlFallback` | services/geminiService.ts:86-92 | when no part carries inline data (no candidates, no content or no parts included) the placeholder address `https://picsum.photos/seed/{name}-{variant}/1080/1920` is returned |
| `GeminiService.ImageUrlNonEmpty` | services/geminiService.ts:86-92 | the returned address is never empty |
| `GeminiService.ScanParts` | services/geminiService.ts:86-92 | the loop with early return computes the first-inline-part address or the fallback |
| `GeminiService.GenerateSpotImageVariant` | services/geminiService.ts:67-93 | a thrown request propagates; otherwise the result is the scanned address, which is never empty |
| `Dashboard.WithImages` | components/Dashboard.tsx:41-45 | no contract; its meaning is fixed by `Dashboard.UpdateById` |
| `Dashboard.UpdateById` | components/Dashboard.tsx:41-45 | length and order are kept; a spot whose id matches gets both image URLs and keeps every other field; every other spot is unchanged |
| `Dashboard.InitialLoading` | components/Dashboard.tsx:27-29 | the loading map has exactly one entry per spot id, each true |
| `Dashboard.ImagePair` | components/Dashboard.tsx:36-39 | no contract; both URLs, or nothing when either request throws; its meaning is fixed by `Dashboard.EnrichUpToSpec` and `Dashboard.EnrichedSpotFollowsSlider` |
| `Dashboard.ApplyPair` | components/Dashboard.tsx:35-47 | no contract; its meaning is fixed by `Dashboard.Dashboard.EnrichSpot` and `Dashboard.EnrichUpToSpec` |
| `Dashboard.EnrichUpTo` | components/Dashboard.tsx:32-51 | no contract; the list after the first k turns of the loop; its meaning is fixed by `Dashboard.EnrichUpToSpec` |
| `Dashboard.ApplyPairStep` | components/Dashboard.tsx:35-47 | with distinct ids, one more turn of the loop enriches exactly the next spot by its own pair and leaves every other spot as it was |
| `Dashboard.EnrichUpToSpec` | components/Dashboard.tsx:32-51 | with distinct ids, processing the first k spots in order gives exactly those k spots their own images (when their pair succeeded) and leaves the rest unchanged |
| `Dashboard.FetchedSpotsAreEnriched` | components/Dashboard.tsx:22-51 | after a successful fetch each spot, in place, carries images exactly when its own day/night pair succeeded |
| `Dashboard.CardsAfterEnrichment` | components/Dashboard.tsx:32-59 | after the loop no card shows the placeholder; every card shows its day image, which is the generated one when its pair succeeded |
| `Dashboard.SliderValue` | components/Dashboard.tsx:57 | no contract; its meaning is fixed by `Dashboard.OtherPositionShowsDay` |
| `Dashboard.OrElse` | components/Dashboard.tsx:58 | no contract; its meaning is fixed by `Dashboard.NightPositionShowsNightOrDay` |
| `Dashboard.GetActiveImage` | components/Dashboard.tsx:56-60 | no contract; its meaning is fixed by `Dashboard.NightPositionShowsNightOrDay` and `Dashboard.OtherPositionShowsDay` |
| `Dashboard.PictureOf` | components/Dashboard.tsx:106-118 | no contract; its meaning is fixed by `Dashboard.PlaceholderIffLoading` |
| `Dashboard.NightPositionShowsNightOrDay` | components/Dashboard.tsx:56-58 | at slider value 2 the night image is shown if present and non-empty, else the day image |
| `Dashboard.OtherPositionShowsDay` | components/Dashboard.tsx:56-59 | at any other value, a missing entry and 0 included, the day image is shown |
| `Dashboard.PlaceholderIffLoading` | components/Dashboard.tsx:106-118 | a card shows the loading placeholder exactly when its `imageLoading` entry is true |
| `Dashboard.EnrichedSpotFollowsSlider` | components/Dashboard.tsx:41-58 | once a spot's pair succeeded, slider 2 shows its night image and slider 1 its day image |
| `Dashboard.Dashboard.constructor` | components/Dashboard.tsx:13-17 | the view mounts with no spots, loading on and both maps empty |
| `Dashboard.Dashboard.CardPicture` | components/Dashboard.tsx:106-118 | no contract; what a card shows in the current state; its meaning is fixed by `Dashboard.PlaceholderIffLoading` |
| `Dashboard.Dashboard.ShowRecommendations` | components/Dashboard.tsx:23-29 | the recommendations become the list, loading ends, every spot id is marked image-loading so every card shows the placeholder, and the slider map is untouched |
| `Dashboard.Dashboard.EnrichSpot` | components/Dashboard.tsx:33-50 | the spot's slider becomes 1 and its loading flag false, other entries unchanged; on success the id-matched update is applied, on failure the list is unchanged |
| `Dashboard.Dashboard.EnrichAll` | components/Dashboard.tsx:32-51 | spots are processed once each in list order; afterwards every spot's loading flag is false and its slider is 1, and the other slider entries are unchanged |
| `Dashboard.Dashboard.FetchSpots` | components/Dashboard.tsx:20-52 | a thrown recommendation request leaves the view loading with nothing else changed; otherwise the full loop runs over the returned list, each spot ends in its place with images exactly when its own pair succeeded, and each card shows that spot's day image |
| `Dashboard.Dashboard.SetTimeValue` | components/Dashboard.tsx:136 | moving a slider changes that spot's entry only |
| `App.ScreenFor` | App.tsx:38-85 | the intro renders exactly in INTRO and the quiz exactly in QUIZ; the result view renders exactly in RESULT with a result id, and receives the archetype whose id that is |
| `App.App.CurrentScreen` | App.tsx:38-85 | in any state the methods below produce (stage RESULT always has a result id), some view is rendered |
| `App.App.constructor` | App.tsx:9-10 | the app starts in INTRO with no result id |
| `App.App.StartQuiz` | App.tsx:12 | the stage becomes QUIZ and the result id is unchanged |
| `App.App.HandleQuizComplete` | App.tsx:13-17 | the result id becomes the given id, the stage RESULT, and the result view shows that archetype |
| `App.App.Reset` | App.tsx:18-21 | from any state, the stage becomes INTRO and the result id null |
| `App.Visit` | App.tsx:74-85 | starting the quiz and answering it shows the result view for the winner of the first QuestionCount answers; with fewer answers the quiz is still on screen |

## Left out

- Rendering: JSX, styling, animations and the `mounted` flag of the quiz. The model keeps only which view or picture a state selects.
- The 500 ms `setTimeout` is the explicit step `TimerFires`. The callback in the source reads the step and tallies captured at click time. The guard freezes both until the callback runs, so reading the current fields gives the same values.
- `Dashboard.Dashboard.FetchSpots` runs as one atomic step, so a slider move cannot fall between two turns of its loop. In the source a slider set to 2 on a card the loop has not reached yet is put back to 1 when the loop gets there (Dashboard.tsx:33). The model only shows the end result, where every spot's slider is at 1.
- React state batching and stale closures: state updates are ordinary sequential field updates.
- `Promise.all` runs the day and night requests concurrently. The model issues them one after the other within one step, and the step fails when either fails.
- The generative service, its client library and `JSON.parse` are oracle parameters. Each oracle is a function, so a repeated identical request gets the same answer.
- The prompt texts: only the values they interpolate (archetype id; place name, location and style) reach the oracles. The response schema passed with the request is not modelled.
- Re-running `fetchSpots` when the archetype changes, and requests that finish after the view is gone: the model runs `fetchSpots` once per mounted view.
- The loading skeleton, the spot cards' text fields and the postcard composer (components/PostcardCreator.tsx): UI and canvas export with no decision logic.
- `window.scrollTo` and `console.error`: browser side effects.
- Numbers are unbounded integers. Tallies stay at most 5 and indexes are small, so JavaScript's floating-point numbers behave the same here. The `parseInt` of the slider's value is taken as the integer it yields.
- A parsed item is modelled as a spot record. Fields of other shapes that JSON could carry are not modelled.
