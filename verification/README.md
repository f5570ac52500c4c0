# Lito Galan Jr's portfolio: filter, chat session and chat widget, in Dafny

This project models the logic at the core of the portfolio site's single-page React app.

- **The project gallery filter** (`Projects.tsx`) builds the row of filter buttons and the list shown for each.
  - The buttons are "All", then every project tag once, in ascending default sort order.
  - "All" shows every project. Any other button shows the projects that carry that tag, in their original order.
- **The chat session service** (`geminiService.ts`) turns the backend's skills, projects and employment history into prompt text.
  - It builds the assistant's system instruction from a fixed template.
  - It decides between three outcomes:
    - no API key: disabled, with the key notice;
    - a failed fetch: disabled, with the load notice;
    - otherwise: enabled, with the generated instruction.
- **The chat widget** (`Chatbot.tsx`) covers:
  - the greeting chosen once the session is known;
  - the guard on sending;
  - appending the user's message and the empty bot placeholder;
  - growing the placeholder with each streamed fragment;
  - the appended error reply when the stream throws;
  - the rule that the widget renders nothing while the chat is unavailable and closed.

Modules, one per file:

| file | module | contents |
|---|---|---|
| `common.dfy` | `Common` | `Option`, order-preserving sub-lists |
| `text.dfy` | `Text` | JavaScript's `join`, one-character `split` and `trim`, with the split/join round trips |
| `string_order.dfy` | `StringOrder` | the default `sort()` order on strings, an insertion sort, and uniqueness of sorted lists |
| `projects.dfy` | `Projects` | the tag buttons and the filter |
| `gemini_service.dfy` | `GeminiService` | the formatters, the system instruction, data loading and `startChat` |
| `chatbot.dfy` | `Chatbot` | the widget state, initialisation, sending, streaming and user events |

Outside effects are parameters:

- **Backend requests:** each of the three fetches is a `Fetch` value, either fetched data or a failure.
- **The API key:** an optional string.
- **The generative model:** its reply is a `StreamOutcome`. This is the fragments it delivered, plus whether the stream ended normally or threw.
- **User interactions:** a sequence of `UiEvent`s.

## Model

| member | source | states |
|---|---|---|
| `Projects.AddTags` | src/components/Projects.tsx:9-12 | Adding tags the way `Set.add` does keeps the list duplicate-free. It holds exactly the old and the new tags, and what was collected earlier keeps its place. |
| `Projects.CollectTags` | src/components/Projects.tsx:9-12 | The collected set holds exactly the tags of some project, each once. |
| `StringOrder.Insert` | src/components/Projects.tsx:13 | Inserting a new string keeps a list strictly ascending. The result holds exactly the old strings and the new one. |
| `StringOrder.Sort` | src/components/Projects.tsx:13 | Sorting a duplicate-free list gives a strictly ascending list of the same length with the same strings. |
| `StringOrder.SortedUnique` | src/components/Projects.tsx:13 | Two strictly ascending lists holding the same strings are equal, so the sorted order does not depend on the sorting algorithm. |
| `Projects.AllTags` | src/components/Projects.tsx:8-14 | The first button is "All". The rest are exactly the tags some project carries, each once, strictly ascending. |
| `Projects.AllTagsCharacterized` | src/components/Projects.tsx:8-14 | The buttons after "All" are the only strictly ascending list of the project tags. |
| `Projects.FilterProjects` | src/components/Projects.tsx:25-31 | "All" shows the projects unchanged. Any other filter shows an order-preserving sub-list holding each project with the tag as often as the input does, and no other project. |
| `Projects.KeepTaggedCharacterized` | src/components/Projects.tsx:28-30 | The `filter` result is the only order-preserving sub-list that keeps exactly the tagged projects. |
| `Projects.FilterIdempotent` | src/components/Projects.tsx:25-31 | Filtering the shown list again by the same button changes nothing. |
| `Projects.EveryTagButtonShowsAProject` | src/components/Projects.tsx:8-31 | Every tag button shows at least one project. |
| `Text.Trim` | src/components/Chatbot.tsx:41 | `trim()` is a contiguous slice of its input, and everything cut off before and after it is white space. The result is empty exactly when the input is all white space; otherwise it starts and ends with a non-white-space character. |
| `GeminiService.LoadPortfolioData` | src/services/geminiService.ts:18-31 | The data loads exactly when all three fetches succeed, and then carries the three fetched values. |
| `GeminiService.FormatSkillsLayout` | src/services/geminiService.ts:36-43 | No categories give "". Otherwise, split at line breaks, the block has one `- category: names` line per category, in order, with the names separated by ", ". |
| `GeminiService.FormatProjectsLayout` | src/services/geminiService.ts:45-52 | No projects give "". Otherwise the block has one `- title: description (Tech: list)` line per project, in order. |
| `GeminiService.TechListRule` | src/services/geminiService.ts:49 | "N/A" appears exactly when the tags are missing, empty, or one empty string. Otherwise the tags are shown joined by ", ", and that text is non-empty. |
| `GeminiService.FormatExperienceLayout` | src/services/geminiService.ts:54-65 | No entries give "". Otherwise the block has one `- role at company (period): description` line per entry, in order. |
| `GeminiService.DescriptionRule` | src/services/geminiService.ts:59-61 | A list description with no bullets renders as "". Otherwise each bullet appears at its own offset: the earlier bullets' lengths plus one space per earlier bullet. A single space follows every bullet but the last. The text ends right after the last bullet. |
| `GeminiService.InstructionJoinsLines` | src/services/geminiService.ts:99-122 | The filled-in template equals its line list joined by line breaks. In that list each block is replaced by its own lines. |
| `GeminiService.InstructionLayout` | src/services/geminiService.ts:99-122 | Read line by line, the instruction is: the fixed rules and contact lines ending in "SKILLS:"; the skill lines; a blank line and "PROJECTS:"; the project lines; a blank line and "EXPERIENCE:"; the experience lines; a final empty line. |
| `GeminiService.StartChat` | src/services/geminiService.ts:70-132 | The chat is enabled exactly when a non-empty key is set and all fetches succeed. No key gives the key notice. With a key, a failed fetch gives the load notice. An enabled chat carries the instruction built from the fetched data. |
| `GeminiService.SendMessageStream` | src/services/geminiService.ts:70-143 | A disabled handle yields its notice as the one fragment and ends normally. An enabled handle relays the model's stream. |
| `GeminiService.DisabledNoticesDiffer` | src/services/geminiService.ts:75-86 | The two disabled handles are told apart by their fragment. |
| `Chatbot.InitializeChat` | src/components/Chatbot.tsx:22-35 | Initialisation stores the handle and its availability. The transcript becomes the one greeting matching availability. Open state, input and loading flag are unchanged. |
| `Chatbot.GreetingDependsOnlyOnAvailability` | src/components/Chatbot.tsx:27-34 | Two sessions give the same opening transcript exactly when both or neither are available. |
| `Chatbot.GreetingAfterStart` | src/components/Chatbot.tsx:22-35 | After mounting, the welcome greeting is shown exactly when a key is set and all three datasets were fetched. |
| `Chatbot.AccumulatedAppend` | src/components/Chatbot.tsx:52-59 | The text streamed over two stretches of fragments is the first stretch's text followed by the second's. |
| `Chatbot.EmptyFragmentIgnored` | src/components/Chatbot.tsx:53 | A fragment without text adds nothing to the reply. |
| `Chatbot.ApplyChunk` | src/components/Chatbot.tsx:54-58 | The transcript keeps its length and all but its last message. A bot last message has the fragment's text appended. A user last message leaves the transcript unchanged. |
| `Chatbot.ApplyChunks` | src/components/Chatbot.tsx:52-59 | After a run of fragments, a bot last message has gained all their text in order. Nothing else changes. |
| `Chatbot.Streaming` | src/components/Chatbot.tsx:43-59 | While streaming, the transcript is the earlier transcript, then the user's message, then a bot message holding the text received so far. Loading is on and the input is empty. |
| `Chatbot.StreamingReplyGrows` | src/components/Chatbot.tsx:52-59 | Each fragment leaves the earlier messages alone and only extends the bot's reply. |
| `Chatbot.HandleSend` | src/components/Chatbot.tsx:39-66 | A send is ignored unless the trimmed input is non-empty, nothing is loading and a handle is present. An accepted send appends the user's message and the full streamed reply, plus the error reply when the stream threw. It then clears the input and lowers the loading flag. |
| `Chatbot.SendEndsWithLastSnapshot` | src/components/Chatbot.tsx:60-65 | The final transcript is the last streaming snapshot, plus the error reply exactly when the stream threw. |
| `Chatbot.DisabledSessionAnswersWithNotice` | src/components/Chatbot.tsx:48-59 | A send through a disabled handle is answered by that handle's notice, never by the error reply. |
| `Chatbot.EnabledSessionRelaysReply` | src/components/Chatbot.tsx:48-65 | Through an enabled handle, the bot's reply is the model's streamed text. The error reply follows exactly when the model's stream threw. |
| `Chatbot.Step` | src/components/Chatbot.tsx:68-136 | A widget that renders nothing ignores every interaction. The toggle flips the open state and the close button clears it; neither changes anything else. With the box open and the controls enabled, typing sets the input and nothing else, and a submit is exactly a send. Typing or submitting otherwise changes nothing. Only a send changes the transcript, and only by extending it. Availability and the handle never change. |
| `Chatbot.Run` | src/components/Chatbot.tsx:68-136 | Across any sequence of interactions the transcript only grows. Availability and the handle stay fixed. A lowered loading flag stays lowered. |
| `Chatbot.HiddenWidgetIsInert` | src/components/Chatbot.tsx:68 | A widget that renders nothing stays unchanged, whatever the user does. |
| `Chatbot.DisabledChatNeverShown` | src/components/Chatbot.tsx:22-68 | Before initialisation finishes, interactions change nothing. A disabled session leaves the widget hidden for good, with only the unavailable greeting. |
| `Chatbot.SendKeepsTurnsAnswered` | src/components/Chatbot.tsx:41-65 | A send keeps every user message non-blank and followed by a bot message. An accepted send puts the new user message right after the old transcript; its text passed the trimmed-input guard, and only bot messages come after it. |
| `Chatbot.StepKeepsTurnsAnswered` | src/components/Chatbot.tsx:41-49 | An interaction keeps every user message non-blank and followed by a bot message. |
| `Chatbot.RunKeepsTurnsAnswered` | src/components/Chatbot.tsx:41-49 | Any sequence of interactions keeps every user message non-blank and followed by a bot message. |
| `Chatbot.SessionTranscript` | src/components/Chatbot.tsx:27-49 | After initialisation, the transcript always opens with the greeting. Every user message in it is non-blank and answered by the bot. |

## Left out

- Rendering, styling, icons, animations and scrolling to the newest message are left out. They are presentation only.
- The 300 ms animation delay before the filtered list changes is left out. The model gives the list shown once the delay has passed. The `isAnimating` flag is not modelled.
- The project list comes from a constant in `src/constants.tsx` (not part of this model). It is a parameter here.
- The backend requests behind `getSkills`, `getAllProjects` and `getAllEmployment` are left out. Each fetch is a success-or-failure parameter.
- The Gemini client and `ai.chats.create` are left out. The model's reply stream is a parameter. The chat's conversation memory is not modelled.
- The module-level `chat` variable and its "Chat not initialized." error are left out. That error cannot occur, because `chat` is set before an enabled handle is returned.
- Console warnings and error logging are left out.
- Asynchronous scheduling is simplified: a send runs to the end of its stream in one step, and `Chatbot.Streaming` gives the states in between.
  - React's batching of functional updates is taken as running them in order.
  - While a reply streams, the text field and the send button are disabled (`Chatbot.tsx:127`, `Chatbot.tsx:131`). The toggle and close buttons (`Chatbot.tsx:74`, `Chatbot.tsx:92`) stay active, but they only change the open state. The send never reads the open state after its guard, so running it in one step gives the same final state as interleaving those clicks.
- The chat box's text field is still in the page while the box is closed. Reaching it by keyboard focus is not modelled: only mouse interactions with the open box are.
- `ApplyChunk` requires a non-empty transcript. On an empty one the source would fail reading the last message, but the placeholder has always just been appended.
- StringOrder.Sort: orders strings by comparing characters as Unicode scalar values (`StringOrder.Below`). JavaScript's default sort compares UTF-16 code units. The two orders differ only between characters above U+FFFF and those from U+E000 to U+FFFF.
- GeminiService.FormatSkillsLayout: treats the skills record as a sequence of (category, skills) pairs in `Object.entries` order. Numeric-looking category keys, which JavaScript enumerates first, are not reordered.
- GeminiService.FormatProjectsLayout: stated for data without line breaks, since a line break inside a field would split its line when read back. The same holds for `GeminiService.FormatSkillsLayout`, `GeminiService.FormatExperienceLayout` and `GeminiService.InstructionLayout`. The formatting functions themselves take any data.
- GeminiService.TechListRule: does not model `tags` given as a non-array value, a tag that is not a string, or missing fields that would print as "undefined". The payload is untyped, but the model takes strings and an optional list of strings.
- GeminiService.DescriptionRule: a description is either a list of strings or a string. Other JSON values are not modelled.
- When the stream throws, the error reply is appended after the bot placeholder (`Chatbot.tsx:62`). The placeholder keeps whatever text had already streamed.
- Projects are never reordered by category. The filter keeps the input order (`Projects.tsx:28-30`), and the system instruction lists projects in input order (`geminiService.ts:45-52`).
- The field's placeholder text (`Chatbot.tsx:125`) and the other display attributes are presentation and are not modelled.
