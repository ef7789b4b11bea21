# Exercise plan screen — Dafny model

A model of the logic in the exercise screen of the diet app
(`app/exercise/index.tsx`). The screen asks the backend for an AI-generated
exercise plan built from the user's profile. It shows the plan as a list of
exercise cards and lets the user share the plan as text. Three pieces of
deterministic logic are modelled as pure functions over datatypes that mirror
`types/data.ts`:

- **Share message** (`handleShare`): the text handed to the share sheet.
  It is a header line followed by one block per exercise, with the blocks
  joined by newlines. Only an empty object `{}` stops the share. An
  `undefined` plan still gives a message, made of `undefined` values.
- **Render mode** (the early returns and conditional JSX): loading, then
  failure, then content. In content mode the header with the share button is
  always there. The card list, one card per exercise, appears only for a plan
  with at least one key.
- **Query function** (`queryFn`): a missing profile throws before any
  request. Otherwise the seven profile fields are copied into the POST body and
  `response.data.data` is returned. Every error is swallowed, and the function
  then returns `undefined`.

The screen's `data` is a three-way value: `Undefined | EmptyObject | Defined(plan)`.
JavaScript truthiness and `Object.keys(data).length` are modelled on it
(`PlanData.Truthy`, `PlanData.KeyCount`).

Files: `wrappers.dfy` (Option), `plan_data.dfy` (types/data.ts and the
truthiness tests), `js_text.dfy` (template interpolation, `Array.join`, and a
line reader used to state the round trip), `exercise_share.dfy`,
`exercise_render.dfy`, `exercise_query.dfy`.

Two consequences of the code worth knowing:

- When an exercise has no `repeticoes`, the template literal renders the text
  `undefined` after "- Repetições: ".
- `queryFn` itself never rejects on a missing profile: it catches its own
  error and resolves to `undefined`. What React Query makes of that is not
  modelled (see ## Left out).

## Model

| member | source | states |
|---|---|---|
| PlanData.Truthy | app/exercise/index.tsx:44 | the `data &&` test: only `undefined` is falsy; the empty object and every plan are truthy (also the test at line 93) |
| PlanData.KeyCount | types/data.ts:17-27 | `Object.keys(data).length` is zero exactly for the empty object |
| PlanData.IsEmptyObject | app/exercise/index.tsx:44 | the share guard `data && Object.keys(data).length === 0` holds exactly for `{}`; `undefined` does not trigger it |
| PlanData.HasKeys | app/exercise/index.tsx:93 | the list condition `data && Object.keys(data).length > 0` holds exactly for a plan |
| JsText.Interpolate | app/exercise/index.tsx:50 | `${v}` renders the string itself, or the text `undefined` for an undefined value |
| JsText.Join | app/exercise/index.tsx:47-48 | `Array.prototype.join`: no elements give ""; otherwise the result starts with the first element; elements in order with one separator between neighbours, by length and concatenation in `JoinLength`/`JoinConcat`, read back by `SplitJoin` (also the join at line 107) |
| JsText.JoinLength | app/exercise/index.tsx:46-48 | a join of N > 0 pieces is the pieces plus exactly N - 1 separators |
| JsText.JoinConcat | app/exercise/index.tsx:46-48 | joining two non-empty lists puts a single separator between their joins |
| JsText.SplitJoin | app/exercise/index.tsx:48 | reading a newline join back line by line gives the pieces, when no piece holds a newline |
| ExerciseShare.RepetitionsText | app/exercise/index.tsx:47 | `item.repeticoes?.join(', ')` is defined exactly when the exercise has repetitions |
| ExerciseShare.Block | app/exercise/index.tsx:47 | the template literal for one exercise: it opens with a newline; by `BlockIsLines` it is an empty line and the name, description and repetitions lines |
| ExerciseShare.Blocks | app/exercise/index.tsx:46-47 | one block per exercise, block i is the template for exercise i |
| ExerciseShare.SectionShape | app/exercise/index.tsx:46-48 | no exercises give an empty section; N give N - 1 newlines between blocks; a further exercise adds a newline and its block at the end |
| ExerciseShare.Section | app/exercise/index.tsx:46-48 | `exercicios.map(...).join('\n')`: empty exactly when there are no exercises, otherwise it opens with the first block's newline; shape in `SectionShape`, lines in `SectionIsLines` |
| ExerciseShare.Header | app/exercise/index.tsx:50 | the first line of the message: it starts with "Exercícios: " and holds no newline when the name and objective hold none |
| ExerciseShare.ShareMessage | app/exercise/index.tsx:42-58 | no message exactly when `data` is the empty object; every other value gives a message |
| ExerciseShare.ShareUndefined | app/exercise/index.tsx:44-50 | `undefined` data passes the guard and shares "Exercícios: undefined - Objetivo: undefined", a blank line and "undefined" |
| ExerciseShare.BlockIsLines | app/exercise/index.tsx:47 | a block is an empty line, then the name, description and repetitions lines |
| ExerciseShare.SectionIsLines | app/exercise/index.tsx:46-48 | the section is the lines of all blocks in order, joined by newlines |
| ExerciseShare.ShareMessageIsLines | app/exercise/index.tsx:46-50 | for every plan the message is exactly the header, a blank line and the section lines, joined by newlines |
| ExerciseShare.MessageLinesLayout | app/exercise/index.tsx:46-50 | line 0 is "Exercícios: " + nome + " - Objetivo: " + objetivo, line 1 is empty, and exercise i fills lines 2 + 4i to 2 + 4i + 3; no exercises leave a single empty line |
| ExerciseShare.ShareMessageReadsBack | app/exercise/index.tsx:46-50 | reading the message back line by line gives exactly those lines when the plan's texts hold no newline |
| ExerciseShare.ShareExample | app/exercise/index.tsx:46-50 | the message for a one-exercise plan with repetitions "12", "12", "10" |
| ExerciseRender.CardFor | app/exercise/index.tsx:98-111 | a card is keyed and titled by the name; it has a repetitions line exactly when `repeticoes` is present, with the list joined by ", "; it has a time line exactly when `tempo` is present |
| ExerciseRender.Cards | app/exercise/index.tsx:98-113 | one card per exercise, in list order |
| ExerciseRender.Render | app/exercise/index.tsx:60-124 | loading exactly when fetching; failure exactly when not fetching and an error is set; content otherwise, always with the title and share button; the list exactly for a plan |
| ExerciseRender.RenderPrecedence | app/exercise/index.tsx:60-78 | fetching shows the loading screen whatever the error and data; an error shows the same failure screen whatever the data |
| ExerciseRender.PlanCards | app/exercise/index.tsx:93-118 | for a plan: the "Exercícios:" label, one card per exercise in order with the optional lines matching the exercise, and the button that replaces the route with "/" |
| ExerciseRender.CardAgreesWithShare | app/exercise/index.tsx:106-108 | a card's repetitions line is the shared message's repetitions line for the same exercise without its leading "- " |
| ExerciseQuery.RequestFor | app/exercise/index.tsx:21-33 | no request exactly when the profile is missing; otherwise a POST to "/exercise" whose body carries the seven profile fields unchanged |
| ExerciseQuery.QueryFn | app/exercise/index.tsx:19-39 | a missing profile or a rejected POST gives `undefined`; a resolved POST gives `response.data.data` as it came; a request is made exactly when there is a profile |
| ExerciseQuery.RequestCarriesProfile | app/exercise/index.tsx:25-33 | the profile can be read back from the request body, so different profiles never give the same request |
| ExerciseQuery.MissingProfileIssuesNoRequest | app/exercise/index.tsx:21-23 | without a profile no request is made and the result is `undefined`, whatever the POST would do |

## Left out

- Styling, layout, the JSX element tree and the icon (app/exercise/index.tsx:102, 127-216). These are presentation only.
- The POST through `api` and the read of the profile store. These are I/O and external state. The profile is a parameter and the POST's outcome is an input (`ExerciseQuery.PostOutcome`).
- A response body whose `data` field is not an object. The body is taken as already parsed into `ExerciseQuery.ResponseBody`.
- React Query's lifecycle and caching. `isFetching`, `error` and `data` are inputs to `ExerciseRender.Render`. Whether an `undefined` result from `queryFn` ends up as `error` or as `data` depends on the library and is not modelled.
- The `Share.share` platform call and its cancel or failure path, router navigation, and `console.log`. These are foreign asynchronous calls. The message that would be passed to `Share.share` is the result of `ExerciseShare.ShareMessage`. Navigation is recorded as a target (`LinkTo("/")` or `ReplaceWith("/")`).
- ExerciseRender.CardFor: the time line keeps the raw `tempo` list. How React turns that array into text is not modelled.
- Duplicate React keys when exercise names repeat. This is a concern of the rendering framework. The card's key is recorded but its uniqueness is not.
- `refeicoes`, `suplementos`, `sexo`, `idade`, `altura` and `peso` are in the plan datatype but unused by the screen. JavaScript numbers are modelled as `real` and are only copied.
- Strings are sequences of Unicode scalar values. UTF-16 code units are not modelled.
