# Skin-disease classifier front end and upload checks, in Dafny

This project models the logic of a web application that classifies photos of
skin (Measles, Monkeypox, Chickenpox, Normal) and explains the result. It covers
three parts:

- **The rule-based chat assistant** (`static/js/chatbot.js`):
  - the confidence tiers;
  - the canned templates and how their `{placeholders}` are filled;
  - the prediction explanation;
  - the two keyword routers (`processChatInput` and `answerCommonQuestion`);
  - the default responses, greetings and follow-ups;
  - the `formatMessage` markup;
  - the session object `chatbotState` and the handlers that change it.
- **The precautions panel and report** (`static/js/precautions.js`):
  - the per-disease table and its `'Normal'` fallback;
  - the HTML that `displayPrecautions` builds;
  - the numbered lines of the PDF report.
- **The upload checks of the Flask service** (`app.py`):
  - `allowed_file`;
  - the order of the early returns of `predict`;
  - the message of the 413 handler.

Modules:

- `Wrappers`: `Option`.
- `Text`: JavaScript and Python string operations.
  - `replace` with a string pattern replaces only the first occurrence.
  - `includes` is a substring test.
  - `trim` removes ECMAScript whitespace.
  - `toLowerCase` is modelled for ASCII letters only.
  - `${n}` prints an integer as decimal.
- `Chatbot`: the pure engine.
  - A prediction is a class name and a `Score`: the number the tier is computed from (`None` when it is not a number), together with the text the page prints for it.
  - Each random pick of the source (`Math.random`) is a parameter.
- `ChatSession`: the `Session` class holding `chatbotState`'s fields, with one method per handler.
- `Precautions`: the table as a map and the panel HTML. `displayPrecautions` writes into a `Section` object standing for the page element.
- `Upload`: `allowed_file`, `predict`'s checks as a function on what the request carries, and the 413 message.

Where the code and its description disagree, the model follows the code:

- **The meaning answer leaves a placeholder in.** Its template has `{disease}` twice, and the code's single `replace` fills only the first. So the answer still shows a literal `{disease}` (`MeaningAnswerMentions`).
- **The low-confidence sentence has no `{disease}` slot.** The second replacement leaves it unchanged; the explanation still names the disease on its own line.
- **Some messages get no reply.** `processChatInput` can return `null` (see Findings). The session models what follows: `formatMessage` throws inside `addBotMessage` before anything is recorded, so neither a reply nor a follow-up joins the history (`DeliverReply` on `None`). The corrected router is kept beside the original as `FixedReplyOf` and `FixedChatReply`.

## Model

| member | source | states |
|---|---|---|
| Chatbot.GetConfidenceLevel | static/js/chatbot.js:106-114 | high iff the score is at least 75, medium iff it is 50 or more and below 75, low iff it is below 50 or not a number; the description is the tier's own |
| Chatbot.TierMonotone | static/js/chatbot.js:106-114 | a higher score never gets a lower tier |
| Chatbot.DescriptionDeterminesTier | static/js/chatbot.js:106-114 | the three descriptions differ, so the description determines the tier |
| Chatbot.ConfidenceExplanationFilled | static/js/chatbot.js:129-131 | each tier's sentence with the score and the disease spliced into the template's slots; the low sentence has no disease slot and is left alone by the second replacement |
| Chatbot.MeaningAnswerFilled | static/js/chatbot.js:156-161 | the meaning answer fills the first `{disease}`, the score and the qualifier, and keeps the second `{disease}` literally |
| Chatbot.MeaningAnswerMentions | static/js/chatbot.js:156-161 | the meaning answer names the class and the score and still contains a raw `{disease}` |
| Chatbot.AccuracyAnswerFilled | static/js/chatbot.js:164-168 | the accuracy answer quotes the fixed figure 88-95 at its slot, whatever the prediction |
| Chatbot.PredictionExplanation | static/js/chatbot.js:119-143 | defines the explanation text: opening, class, score and qualifier lines, the tier sentence, the advice block only for a low tier, the closing question; its properties are the lemmas below |
| Chatbot.GeneratePredictionExplanation | static/js/chatbot.js:119-143 | the line-by-line accumulation yields exactly the specified explanation |
| Chatbot.ExplanationMentions | static/js/chatbot.js:124-140 | the explanation names the class, the score followed by %, the tier's qualifier, and its last characters are exactly the closing question |
| Chatbot.ExplanationAdviceWhenLow | static/js/chatbot.js:133-138 | a low tier adds the advice block |
| Chatbot.ExplanationNoAdviceOtherwise | static/js/chatbot.js:133-138 | a high or medium tier leaves the advice block out |
| Chatbot.ExplanationAdviceIffLow | static/js/chatbot.js:133-138 | the advice block appears exactly when the tier is low |
| Chatbot.CommonAnswer | static/js/chatbot.js:148-187 | `answerCommonQuestion` returns `null` exactly when no keyword of any of its five rules occurs in the lower-cased question |
| Chatbot.FirstMatchSpec | static/js/chatbot.js:155-186 | a chain of keyword rules finds nothing iff no rule matches, and otherwise the outcome of a matching rule with no earlier match |
| Chatbot.QuestionTopicIsFirstMatch | static/js/chatbot.js:155-186 | the five tests of `answerCommonQuestion` are the first-match reading of its keyword table |
| Chatbot.QuestionTopicOfKeyword | static/js/chatbot.js:148-186 | a question holding a keyword of rule i and none of an earlier rule gets rule i's topic, whatever its case |
| Chatbot.GetDiseaseGuidance | static/js/chatbot.js:192-195 | the table entry for a known class; otherwise a sentence naming the class and sending the user to a healthcare professional |
| Chatbot.GuidanceTable | static/js/chatbot.js:82-90 | the guidance table covers exactly the four classes, with non-empty entries |
| Chatbot.ConfidenceBasedRecommendation | static/js/chatbot.js:200-210 | defines the three tier sentences with the score and class spliced in; its properties are in RecommendationMentions |
| Chatbot.RecommendationMentions | static/js/chatbot.js:200-210 | every recommendation quotes the score and names a healthcare professional; the high and medium ones also name the class |
| Chatbot.RouteOf | static/js/chatbot.js:219-250 | defines the six keyword tests of `processChatInput` in source order; the route lemmas below state what each rule answers |
| Chatbot.DefaultResponse | static/js/chatbot.js:256-264 | defines the three default responses, the first two naming the predicted class, with the random index as a parameter |
| Chatbot.ReplyOf | static/js/chatbot.js:215-251 | the decision `processChatInput` takes; a default response is always the picked one |
| Chatbot.ChatReply | static/js/chatbot.js:215-251 | `processChatInput` returns `null` exactly when rule 6 fires and the inner router finds no topic in the normalized message |
| Chatbot.RenderNullIff | static/js/chatbot.js:215-251 | only the missing answer of the inner router renders as `null` |
| Chatbot.MeaningRouteReply | static/js/chatbot.js:219-222 | rule 1 answers with the inner router's answer, or else with the full explanation |
| Chatbot.DelegatedRouteReply | static/js/chatbot.js:224-247 | rules 2, 3, 4 and 6 answer with exactly what `answerCommonQuestion` returns, `null` included |
| Chatbot.DiseaseRouteReply | static/js/chatbot.js:239-242 | rule 5 answers with the guidance for the predicted class |
| Chatbot.UnmatchedRouteReply | static/js/chatbot.js:249-263 | a message no rule matches gets the picked default response |
| Chatbot.NormalizedIsLower | static/js/chatbot.js:216 | a normalized message is already lower-case |
| Chatbot.NormalizeIgnoresCaseAndPadding | static/js/chatbot.js:216 | lower-casing or trimming first does not change the normalized message |
| Chatbot.ReplyIgnoresCaseAndPadding | static/js/chatbot.js:215-216 | the reply does not depend on case or surrounding whitespace |
| Chatbot.DelegatedRulesFindTopic | static/js/chatbot.js:225-236 | rules 2, 3 and 4 fire only on words the inner router also knows, so it finds a topic |
| Chatbot.UnansweredDisclaimerRoute | static/js/chatbot.js:244-247 | when rule 6 fires and the inner router finds nothing, the message says "medical" but neither "disclaimer" nor "professional" |
| Chatbot.ReplyIsNullIff | static/js/chatbot.js:215-251 | `processChatInput` returns `null` exactly when rule 6 fires and the inner router finds no topic |
| Chatbot.FlagsFollowTheirAnswers | static/js/chatbot.js:163-174 | no message raises both flags, and raising one means that topic's answer is the reply |
| Chatbot.MedicalIsOnlyMedical | static/js/chatbot.js:245 | the message "medical" normalizes to a message that only rule 6 can match |
| Chatbot.MedicalOnlyRoute | static/js/chatbot.js:219-245 | a message holding "medical" and none of the letters of the earlier keywords reaches rule 6 |
| Chatbot.NoKeywordTopic | static/js/chatbot.js:155-186 | a message lacking certain letters holds no keyword of the inner router |
| Chatbot.UnansweredMessage | static/js/chatbot.js:244-247 | such a message reaches rule 6 and gets no answer |
| Chatbot.OnlyMedicalGetsNoReply | static/js/chatbot.js:245-246 | as written, "medical" and every message like it get `null` |
| Chatbot.FixedReplyOf | static/js/chatbot.js:244-247 | the corrected router differs from the original only where the original gives no answer |
| Chatbot.FixedChatReply | static/js/chatbot.js:215-251 | defines `processChatInput` with the corrected router; its properties are in FixedChatReplyAnswers and FixedReplyKeepsAnswers |
| Chatbot.FixedReplyAnswers | static/js/chatbot.js:215-251 | the corrected router answers every lower-case message |
| Chatbot.FixedChatReplyAnswers | static/js/chatbot.js:215-251 | with the correction, every message gets a reply |
| Chatbot.FixedReplyKeepsAnswers | static/js/chatbot.js:215-251 | the correction keeps every reply the original gives |
| Chatbot.FixedUnansweredGetsDisclaimer | static/js/chatbot.js:244-247 | with the correction, a message that only rule 6 matches gets the disclaimer |
| Chatbot.OnlyMedicalGetsDisclaimer | static/js/chatbot.js:244-247 | with the correction, "medical" gets the disclaimer |
| Chatbot.Greeting | static/js/chatbot.js:269-271 | the greeting is one of the three greetings |
| Chatbot.FollowUpPrompt | static/js/chatbot.js:276-278 | the prompt is one of the four follow-up prompts |
| Chatbot.Bold | static/js/chatbot.js:467 | defines the global lazy bold replacement, left to right; its properties are in BoldCloseSpec, BoldIdentity and BoldPair |
| Chatbot.BoldCloseSpec | static/js/chatbot.js:467 | the lazy bold group ends at the first closing `**` not preceded by a line terminator; when there is none, nothing is emboldened |
| Chatbot.BoldIdentity | static/js/chatbot.js:467 | text without asterisks is left alone |
| Chatbot.BoldPair | static/js/chatbot.js:467 | `**x**` becomes `<strong>x</strong>` when x has no asterisk or line break |
| Chatbot.NewlinesToBreaks | static/js/chatbot.js:470 | no newline is left |
| Chatbot.FormatMessage | static/js/chatbot.js:465-473 | the formatted message holds no newline |
| Chatbot.BreaksRoundTrip | static/js/chatbot.js:470 | replacing `<br>` by newlines again restores any text without `<` |
| ChatSession.Session.constructor | static/js/chatbot.js:42-49 | closed, no messages, no prediction, no flags raised |
| ChatSession.Session.AddBotMessage | static/js/chatbot.js:394-406 | the message is appended as the bot's; nothing else changes |
| ChatSession.Session.AddUserMessage | static/js/chatbot.js:411-423 | the message is appended as the user's; nothing else changes; a trimmed non-blank text keeps the invariant |
| ChatSession.Session.Close | static/js/chatbot.js:382-389 | the window is closed; nothing else changes |
| ChatSession.Session.Toggle | static/js/chatbot.js:359-377 | the window flips; opening an empty conversation appends the picked greeting, so a greeting can only be the first message |
| ChatSession.Session.RecordQuestion | static/js/chatbot.js:163-174 | each flag is raised exactly when the message sets it, and stays raised |
| ChatSession.Session.ProcessChatInput | static/js/chatbot.js:215-251 | returns `processChatInput`'s reply, `null` included, and raises the flags the message sets |
| ChatSession.Session.SendMessage | static/js/chatbot.js:428-447 | a blank input changes nothing. Otherwise the trimmed input is appended. Without a prediction the request for one follows it. With a prediction the reply of `processChatInput` on the trimmed input (possibly `null`) is returned and the flags are raised. The invariant is kept |
| ChatSession.Session.DeliverReply | static/js/chatbot.js:450-459 | a `null` reply records nothing and schedules no follow-up; any other reply is appended, then the picked follow-up when the coin says so |
| ChatSession.Session.UpdateWithPrediction | static/js/chatbot.js:478-485 | the prediction becomes current; an open window also gets its explanation |
| Text.ReplaceFirstAt | static/js/chatbot.js:129-131 | `replace` with a string pattern splices the replacement in at the first occurrence and keeps the rest |
| Text.ReplaceFirstAbsent | static/js/chatbot.js:129-131 | when the pattern does not occur the text is unchanged |
| Text.LowerSpec | static/js/chatbot.js:216 | lower-casing maps each character on its own and keeps the length |
| Text.LowerIdempotent | static/js/chatbot.js:216 | lower-casing twice is lower-casing once |
| Text.TrimSpec | static/js/chatbot.js:430 | `trim` keeps a slice with no whitespace at either end, drops only whitespace around it, and is empty iff the input is blank |
| Text.TrimIdempotent | static/js/chatbot.js:430 | trimming twice is trimming once |
| Text.DecimalRoundTrip | static/js/precautions.js:274 | the printed numeral of n reads back as n |
| Precautions.LookupPrecautions | static/js/precautions.js:78 | a known class gets its own entry, any other name the entry for Normal |
| Precautions.TableShape | static/js/precautions.js:4-66 | exactly the four classes; every entry has a warning and non-empty precautions; Chickenpox lists eleven, the others ten |
| Precautions.LookupIsTotal | static/js/precautions.js:78 | every lookup yields a well-formed table entry with 10 or 11 precautions; unknown names get the Normal entry |
| Precautions.PrecautionsHtml | static/js/precautions.js:80-97 | defines the panel: the opening template, one list item per precaution, the closing template; its layout is in HtmlLayout and EveryPrecautionListed |
| Precautions.ItemPosition | static/js/precautions.js:88-90 | the i-th list item sits right after the items of the precautions before it |
| Precautions.ItemsCount | static/js/precautions.js:88-90 | one `<li>` per precaution, for precautions without markup of their own |
| Precautions.HtmlLayout | static/js/precautions.js:80-97 | the emphasised warning comes first, then the list header, then the items, and the Important Note closes the panel |
| Precautions.EveryPrecautionListed | static/js/precautions.js:80-97 | each precaution appears as a list item in the panel, in list order, after the opening |
| Precautions.BuildPrecautionsHtml | static/js/precautions.js:80-97 | the accumulation loop builds exactly the panel: opening, one item per precaution, closing |
| Precautions.DisplayPrecautions | static/js/precautions.js:69-100 | without a section nothing happens; otherwise the section shows the panel of the looked-up entry |
| Precautions.NumberedLine | static/js/precautions.js:274 | defines the numbered text of one precaution; NumberedLineParts reads it back |
| Precautions.NumberedLineParts | static/js/precautions.js:274 | a numbered line reads back as its 1-based number followed by ". " and the precaution |
| Precautions.NumberPrecautions | static/js/precautions.js:268-277 | one line per precaution, in order, numbered consecutively from 1 |
| Upload.LastExtension | app.py:52 | `rsplit('.', 1)[1]` is the dot-free suffix after the last dot |
| Upload.AllowedFile | app.py:50-52 | an accepted name has a dot and does not end with one |
| Upload.ExtensionOfJoin | app.py:52 | the extension of base + "." + ext is ext, whatever the base holds |
| Upload.AllowedFileSplit | app.py:50-52 | base + "." + ext is accepted iff ext, lower-cased, is one of png, jpg, jpeg, gif, bmp |
| Upload.AllowedFileIff | app.py:50-52 | a name is accepted iff it has a dot after which comes a dot-free allowed extension, whatever its case |
| Upload.AllowedFileIgnoresCase | app.py:52 | the extension's case does not matter |
| Upload.NoDotRefused | app.py:52 | a name without a dot is refused |
| Upload.InnerExtensionIgnored | app.py:52 | only the last extension counts: "a.png.exe" is refused |
| Upload.PngAccepted | app.py:52 | any base followed by ".png" or ".PNG" is accepted, the empty base (".png") included |
| Upload.LastExtensionCounts | app.py:52 | "a.tar.png" is accepted |
| Upload.EmptyExtension | app.py:52 | "a." is refused |
| Upload.CheckPredict | app.py:146-192 | only a missing model gives 503; a stored path is used only when it exists; an upload is saved only when its name is allowed |
| Upload.NotLoadedComesFirst | app.py:146-150 | without a model every request gets 503, whatever it carries |
| Upload.ImagePathIgnoresUpload | app.py:154-170 | a JSON `image_path` decides alone: used if it exists, 400 if not, and the upload part is not looked at |
| Upload.UploadChecksInOrder | app.py:170-192 | on the upload path: no file part, then an empty name, then a refused extension, each 400, and a name passing all three is saved |
| Upload.ErrorMessage | app.py:146-192 | defines the `error` text of each early return, the format error listing the extensions in the set's iteration order |
| Upload.InvalidFormatNamesAll | app.py:188-192 | whatever order the set iterates in, the format error names every allowed extension |
| Upload.TooLargeError | app.py:253-259 | defines the 413 message from `MAX_FILE_SIZE // (1024*1024)`; TooLargeSaysTenMegabytes evaluates it |
| Upload.TooLargeSaysTenMegabytes | app.py:253-259 | the 413 message reports the limit as 10MB |

## Left out

- The page itself is not modelled:
  - the DOM elements, styles, focus and scrolling;
  - the event listeners;
  - the widget construction (`initChatbot`, `createChatbotWidget`, `attachChatbotEventListeners`);
  - the hook into `displayResults`.
  - `Section` stands for the one element `displayPrecautions` writes.
- The `setTimeout` pacing of replies is not modelled. `sendMessage` is split into its synchronous part (`SendMessage`) and its delayed part (`DeliverReply`). Interleavings of several pending replies are not modelled.
- `Math.random` is not modelled. The greeting, default response and follow-up picks and the `> 0.5` coin are parameters.
- `conversationHistory` is never used by the code, and is not a field of `Session`.
- How `${confidence}` prints a JavaScript number is not modelled. A `Score` carries both the numeric value and the printed text.
- `$` patterns in a `replace` replacement string (`$&`, `` $` ``, `$'`) are not interpreted. The replacement is inserted literally.
- `toLowerCase` is modelled for ASCII letters only. Other letters are unchanged, so Unicode case mapping is not captured.
- A template literal's line breaks are read as LF, whatever the file's line endings.
- Chatbot.ExplanationNoAdviceOtherwise: stated for class names and score texts without the warning sign ⚠, because a name carrying it could spell out the advice itself.
- Chatbot.MeaningAnswerFilled and Chatbot.MeaningAnswerMentions: stated for class names and score texts without `{`, because a `{disease}` inside the inserted text would be the one the next `replace` finds.
- Precautions.ItemsCount: stated for precautions without `<`. That the table's precautions have none is not proved, because membership proofs on those long literals are beyond what the verifier does at an acceptable cost.
- Chatbot.GetDiseaseGuidance: keys inherited from `Object.prototype` (for example `"constructor"`, `"toString"`) are treated as names outside the table and get the fallback sentence. In the source the lookup yields the inherited member, which is not a string, and the following `addBotMessage` fails on it. Only the predicted class is looked up, and the classifier's classes are the table's four keys.
- Precautions.LookupPrecautions: keys inherited from `Object.prototype` (for example `"constructor"`) are treated as unknown names. In the source they would yield a function and break the panel.
- `printResult` and `downloadPDF` are not modelled beyond the numbered list of precautions: the jsPDF calls, page breaks, `yPosition` and `splitTextToSize` wrapping, the print window and the file download are I/O.
- `static/js/script.js` and the `app/` package are not part of this model.
- The image pipeline of `predict` is not modelled: file saving, preprocessing, inference, the response body and the cleanup of the upload are left out.
- The other Flask routes (`/`, `/api/info`, `/api/classes`), the 404 and 500 handlers, and the routing itself are left out.
- Upload.CheckPredict:
  - The file system's answer (does `image_path` exist?) is a parameter.
  - A JSON body whose `image_path` is not a string, or is `null`, is not modelled. Such a value makes `os.path.exists` raise or misbehave, and the code swallows that.
  - The request-size limit is enforced by the framework before `predict` runs. Only the handler's message is modelled.
- Upload.ErrorMessage: Python's set iteration order is a parameter (`ListsAllowed`), so the exact order of the listed formats is not fixed.

## Findings

| source | as written | input that shows it | evidently intended | confidence | as-written member | corrected member |
|---|---|---|---|---|---|---|
| static/js/chatbot.js:245-246 | rule 6 fires on "medical", but `answerCommonQuestion` has no "medical" keyword and returns `null` (line 186). `processChatInput` passes that `null` on, and `addBotMessage` then fails on it | the message "medical" (or "Medical", "medical?") | every message that rule 6 matches gets the disclaimer answer | not executed | Chatbot.OnlyMedicalGetsNoReply | Chatbot.OnlyMedicalGetsDisclaimer |
