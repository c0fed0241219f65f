# Medical chatbot core in Dafny

This project models the symptom-matching and reply-building core of the medical chatbot
component `medical-chatbot/src/components/MedicalChatbot.jsx`, and proves properties of the
model. The core has four parts:

- **`symptomsDatabase`** is a fixed, ordered table of six symptoms. Each symptom has keywords,
  categories, related symptoms, possible conditions, one advice sentence for each of three
  severity tiers, a treatment sentence and a warning sentence.
- **`analyzeMultipleSymptoms`** finds every table entry that has a keyword occurring verbatim in
  the user's text. It infers one severity for the whole text from intensifier words. It collects
  the duplicate-free unions of the found entries' conditions and categories, in first-seen order.
- **`generateResponse`** turns an analysis into a bot message:
  - a fixed request to rephrase when nothing was found;
  - otherwise one advice block per found symptom, a combined-analysis block when more than one
    was found, the warnings and a closing sentence.
- **`handleSubmit`** and its reply timer update the conversation. They ignore blank input and
  input given while the bot is typing. Otherwise they append the user's message, set
  "typing", and later append the bot's answer to that same text and clear "typing".

The project is organised into these modules:

- `Text` covers `includes`, `join` and `trim` on strings.
- `InsertionOrder` reads a JavaScript `Set` back in insertion order.
- `SymptomDatabase` holds the data model and the table, copied verbatim.
- `Analyzer` and `Response` hold the two functions of the core. The fixed texts of the reply
  are copied verbatim too, including the `떄문에` spelling in the block template
  (`Response.Opening`).
- `Conversation` holds the component state, as the class `Chat`.

Each imperative operation is a method with loops that follows the source step by step. Its
postcondition ties the result to a specification function: `AnalysisOf`, `ResponseOf` or
`ReplyTo`. The lemmas state what the source promises about those functions.

The analysis is written over any table `db`. `FoundInTableOrder` needs distinct names and
takes `NamesDistinct(db)` as a precondition. `DatabaseNamesDistinct` discharges it for the real
table. The conversation object keeps its table in the constant field `knowledgeBase`, which the
constructor sets to `Database`. Since that field never changes, the table is never modified.
`analyzeMultipleSymptoms` is pure: the method's postcondition equates its result with the
function `AnalysisOf`, so two calls on equal text give equal results.

The analysis itself accepts every input. A submission whose text is blank after `trim` is
ignored before it is analysed (line 246), and the model does the same.

One observation, proved as `ExtremeWordIsRedundant`: the test for `'극심한'` never changes the
severity, because that word contains `'심한'`.

## Model

| member | source | states |
|---|---|---|
| Text.Includes | medical-chatbot/src/components/MedicalChatbot.jsx:145 | the empty text is included in every text, and a text can only include something no longer than itself |
| Text.IncludesIffOccurs | medical-chatbot/src/components/MedicalChatbot.jsx:145 | `includes` holds exactly when the keyword occurs as a contiguous run at some position of the input |
| Text.IncludesPart | medical-chatbot/src/components/MedicalChatbot.jsx:151 | if a word occurs in the input, then every contiguous part of that word occurs too |
| Text.Join | medical-chatbot/src/components/MedicalChatbot.jsx:202 | a join of at least one item starts with the first item |
| Text.JoinPrefix | medical-chatbot/src/components/MedicalChatbot.jsx:202 | joining the first k items yields a prefix of joining all of them |
| Text.JoinItemAt | medical-chatbot/src/components/MedicalChatbot.jsx:202 | item j of a `join` sits right after the join of the items before it plus one separator, so every item appears in order |
| Text.TrimStart | medical-chatbot/src/components/MedicalChatbot.jsx:246 | the result is a suffix of the input that does not start with a character `trim` removes, and everything removed in front of it is such a character |
| Text.TrimEnd | medical-chatbot/src/components/MedicalChatbot.jsx:246 | the result is a prefix of the input that does not end with a character `trim` removes; everything removed after it is such a character, and a first character `trim` keeps is kept |
| Text.Trim | medical-chatbot/src/components/MedicalChatbot.jsx:246 | `!input.trim()` holds exactly when every character is ECMAScript whitespace or a line terminator, which includes the empty input; a non-empty result neither starts nor ends with such a character |
| Text.TrimKeepsMiddle | medical-chatbot/src/components/MedicalChatbot.jsx:246 | `trim` returns a contiguous slice of its input, and everything it removes before and after that slice is whitespace or a line terminator |
| InsertionOrder.Add | medical-chatbot/src/components/MedicalChatbot.jsx:162 | `Set.add` makes the value a member, keeps every earlier member in place and adds nothing else, and never introduces a duplicate |
| InsertionOrder.DistinctIsInsertionOrder | medical-chatbot/src/components/MedicalChatbot.jsx:158-170 | a set filled from a sequence and read back with `Array.from` has no duplicates, holds exactly the values of the sequence, and lists them in first-occurrence order |
| SymptomDatabase.Database | medical-chatbot/src/components/MedicalChatbot.jsx:57-136 | the six entries of `symptomsDatabase`, in insertion order, with every string copied verbatim |
| SymptomDatabase.DatabaseNamesDistinct | medical-chatbot/src/components/MedicalChatbot.jsx:57-136 | the table has six entries under pairwise distinct names |
| SymptomDatabase.DatabaseKeywordsNonEmpty | medical-chatbot/src/components/MedicalChatbot.jsx:57-136 | every entry of the table has at least one keyword |
| Analyzer.MatchedIn | medical-chatbot/src/components/MedicalChatbot.jsx:144-148 | the found entries are no more than the table's and all come from the table |
| Analyzer.MatchedInByPositions | medical-chatbot/src/components/MedicalChatbot.jsx:144-148 | the found entries are the table entries at strictly increasing positions, and a position is among them exactly when its entry has a keyword in the input |
| Analyzer.FindSymptoms | medical-chatbot/src/components/MedicalChatbot.jsx:144-148 | the `for` loop pushes exactly the matching table entries, in table order |
| Analyzer.MatchIffKeywordPresent | medical-chatbot/src/components/MedicalChatbot.jsx:144-148 | an entry of any table is found exactly when one of its keywords occurs verbatim somewhere in the input |
| Analyzer.FoundInTableOrder | medical-chatbot/src/components/MedicalChatbot.jsx:144-148 | any two found symptoms appear in table order at distinct table positions, and no symptom is found twice |
| Analyzer.SeverityOf | medical-chatbot/src/components/MedicalChatbot.jsx:141-155 | severe exactly when a strong word is present, whatever else is present; moderate exactly when only a mild word is present; mild exactly when neither is |
| Analyzer.SeverityIgnoresMatches | medical-chatbot/src/components/MedicalChatbot.jsx:151-155 | the severity is the same whichever table is searched and whatever is found in it |
| Analyzer.ExtremeWordIsRedundant | medical-chatbot/src/components/MedicalChatbot.jsx:151 | the result is severe exactly when `'심한'` or `'매우'` occurs, so the `'극심한'` test never decides the outcome |
| Analyzer.ConditionsOfContains | medical-chatbot/src/components/MedicalChatbot.jsx:161-162 | a condition is contributed exactly when some found symptom lists it |
| Analyzer.CategoriesOfContains | medical-chatbot/src/components/MedicalChatbot.jsx:161-164 | a category is contributed exactly when some found symptom lists it |
| Analyzer.AddEach | medical-chatbot/src/components/MedicalChatbot.jsx:162 | after the `forEach` of `add` calls, the set is the one filled from the earlier additions followed by these values |
| Analyzer.CollectUnions | medical-chatbot/src/components/MedicalChatbot.jsx:158-164 | the two sets hold the insertion-ordered unions of the found symptoms' conditions and categories |
| Analyzer.AnalysisOf | medical-chatbot/src/components/MedicalChatbot.jsx:139-172 | the result holds only table entries and no more than the table has, its severity is the input's alone, and both unions are empty when nothing was found |
| Analyzer.AnalyzeMultipleSymptoms | medical-chatbot/src/components/MedicalChatbot.jsx:139-172 | the step-by-step analysis equals the specification `AnalysisOf`, so equal inputs give equal results |
| Analyzer.UnionsAreExact | medical-chatbot/src/components/MedicalChatbot.jsx:158-170 | both unions are duplicate-free, hold exactly the values the found symptoms contribute, follow first-encountered order, and are empty when nothing was found |
| Response.ResponseOf | medical-chatbot/src/components/MedicalChatbot.jsx:175-209 | every reply has type bot |
| Response.SymptomBlock | medical-chatbot/src/components/MedicalChatbot.jsx:187-190 | the four lines for one found symptom; `BlockCarriesAdvice` states the name and advice lines and `BlockCarriesLines` the related-symptoms and treatment lines |
| Response.CombinedBlock | medical-chatbot/src/components/MedicalChatbot.jsx:195-197 | the combined-analysis block opens with its header |
| Response.CombinedBlockLists | medical-chatbot/src/components/MedicalChatbot.jsx:196-197 | the combined block lists the comma-joined union of categories right after its header and first label, and the comma-joined union of conditions right after the end of that line and the second label |
| Response.BlockCarriesAdvice | medical-chatbot/src/components/MedicalChatbot.jsx:187-188 | a symptom's block opens with its name and, after the fixed opening and label, carries the advice for exactly the tier it is written with |
| Response.BlockCarriesLines | medical-chatbot/src/components/MedicalChatbot.jsx:188-190 | after the severity line and the related-symptoms label, a symptom's block carries its related symptoms joined by `", "`, and it ends with its treatment followed by a blank line |
| Response.WriteBlocks | medical-chatbot/src/components/MedicalChatbot.jsx:186-191 | the `forEach` of `+=` writes the blocks of all found symptoms, in found order |
| Response.AppendConclusion | medical-chatbot/src/components/MedicalChatbot.jsx:193-203 | after the blocks, the method appends the optional combined block, the warning header, the joined warnings and the closing line |
| Response.GenerateResponse | medical-chatbot/src/components/MedicalChatbot.jsx:175-209 | the step-by-step reply equals the specification `ResponseOf` |
| Response.BlocksPrefix | medical-chatbot/src/components/MedicalChatbot.jsx:186-191 | the blocks of the first k found symptoms begin the blocks of all of them |
| Response.FallbackIffNothingFound | medical-chatbot/src/components/MedicalChatbot.jsx:176-181 | the reply is the fixed fallback message exactly when nothing was found, whatever the other fields of the analysis hold |
| Response.BlockAt | medical-chatbot/src/components/MedicalChatbot.jsx:186-191 | block j of the reply, written with the one global severity, starts right after the blocks of the symptoms found before it |
| Response.AfterBlocks | medical-chatbot/src/components/MedicalChatbot.jsx:193-203 | the blocks are followed by the optional combined block and the warning section, and by nothing else |
| Response.HeadersDiffer | medical-chatbot/src/components/MedicalChatbot.jsx:195-201 | the combined-analysis section and the warning section each start with their own header and never with the other's |
| Response.CombinedBlockIffSeveral | medical-chatbot/src/components/MedicalChatbot.jsx:194-198 | right after the blocks, the combined-analysis header appears exactly when more than one symptom was found, and the warning header appears exactly when one was |
| Response.EndsWithWarningSection | medical-chatbot/src/components/MedicalChatbot.jsx:200-203 | when something was found, the reply ends with the warning header, the joined warnings and the closing sentence |
| Response.WarningSectionHoldsWarning | medical-chatbot/src/components/MedicalChatbot.jsx:201-203 | the warning section holds warning j right after the header, the warnings before it and one blank line |
| Response.ReplyIsFallbackIffNoKeyword | medical-chatbot/src/components/MedicalChatbot.jsx:144-181 | the user is asked to rephrase exactly when no table entry has a keyword in the input |
| Conversation.IsBlankInput | medical-chatbot/src/components/MedicalChatbot.jsx:246 | `!input.trim()`, computed through `trim`, holds exactly when the input is blank |
| Conversation.Answer | medical-chatbot/src/components/MedicalChatbot.jsx:254-255 | analysing the text and then generating the response gives the bot's reply to that text |
| Conversation.UserTurnKeepsHistory | medical-chatbot/src/components/MedicalChatbot.jsx:248-249 | appending a non-blank user message after a bot message keeps the history well formed |
| Conversation.BotTurnKeepsHistory | medical-chatbot/src/components/MedicalChatbot.jsx:256 | appending a bot message after a user message keeps the history well formed |
| Conversation.Chat.constructor | medical-chatbot/src/components/MedicalChatbot.jsx:213-220 | the initial state has an empty input, the greeting as the only message and the bot not typing |
| Conversation.Chat.SetInput | medical-chatbot/src/components/MedicalChatbot.jsx:297 | `onChange` replaces the input and changes nothing else |
| Conversation.Chat.Submit | medical-chatbot/src/components/MedicalChatbot.jsx:244-252 | blank input, or input while typing, changes nothing; otherwise exactly one user message carrying the untrimmed text is appended, the box is cleared and typing is set, while earlier messages stay unchanged and the greeting stays first |
| Conversation.Chat.DeliverReply | medical-chatbot/src/components/MedicalChatbot.jsx:253-258 | the timer appends exactly one message, the bot's reply to the text that was submitted; it clears typing and leaves the input and the earlier history as they were |
| Conversation.Chat.RecordReply | medical-chatbot/src/components/MedicalChatbot.jsx:256-257 | `setMessages` appends the given bot message and `setIsTyping(false)` clears the flag, keeping the history well formed |

## Left out

- Rendering is left out as UI with nothing to verify. This covers the `Message`, `TypewriterText` and `AIMedicalChatbot` markup, the class strings and the icon.
- The timers are left out as cosmetic browser asynchrony: the 500 ms reply delay, the 20 ms typewriter interval, the 10 ms scroll interval and `scrollToBottom`. The delayed reply is modelled as the separate step `Chat.DeliverReply`. The field `pending` stands for the text the scheduled timer captured.
- React's `useState`, `useEffect` and `useRef` mechanics and the `isLatest`/`isComplete` display switching are left out as framework plumbing. The functional updates `prev => [...prev, m]` are modelled as appends to the current history.
- `medical-chatbot/src/components/ui/card.jsx` is not part of this model, because it only concatenates class names.
- Conversation.Chat.SetInput: the model lets the input change while the bot is typing, although the text box is disabled then (line 300). This only allows more behaviours than the source does, and every proved property holds for them too.
- Strings are sequences of Unicode scalar values, whereas JavaScript counts UTF-16 code units. Hangul and the other characters used are one unit each, so `includes` agrees. The emoji `📊` counts as one character here and as two in JavaScript, so a length that counts it differs from JavaScript's count. When several symptoms are found, the reply contains it. The offset `|c| - |tail|` of `EndsWithWarningSection` is then one less than in JavaScript. The symptom blocks come before that header, so the offsets inside them, such as those of `BlockAt`, agree. The order and content of the text are unaffected.
- The example inputs "머리가 아프고 열이 나요", "아무 문제 없어요" and "매우 심한 두통" are not stated as lemmas. The model covers them through the all-inputs lemmas `MatchIffKeywordPresent`, `ReplyIsFallbackIffNoKeyword`, `SeverityOf` and `CombinedBlockIffSeveral`.
