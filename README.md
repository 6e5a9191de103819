# FitZone gym chatbot — a verified model

This project models the deterministic core of the FitZone Fitness Center
chatbot.

- **The rule-based engine of `chatbot.py`** (class `GymChatbot`), which the web
  application uses. It covers:
  - the ordered keyword catalog;
  - the text normaliser (`preprocess_text`);
  - the first-match intent classifier (`detect_intent`);
  - one reply template per intent (`get_response`).
- **The deterministic parts of `chatbot_ai.py`** (class `GymChatbotAI`):
  - the system prompt assembled from the facility record, with `.get`
    defaults for missing parts;
  - the blank-input guard of `get_response`;
  - the catch-all that turns any failure of the completion call into a fixed
    apology.
- **The browser widget `static/js/chatbot.js`**:
  - the trimmed-empty guard of `sendMessage`;
  - the markdown-style formatter in `addMessage` (lazy `**X**` to
    `<strong>X</strong>`, then newlines to `<br>`);
  - the choice of the bot's bubble from the server's answer.

Files:

| file | module | contents |
|---|---|---|
| `strings.dfy` | `Strings` | `Option`; Python's whitespace class; `Strip`, generic over the whitespace class; `Join`; `ConcatMap`; substring containment |
| `facility.dfy` | `Facility` | the `gym_data.json` record. Every section and field is optional, so that `.get` defaults can be stated. |
| `normalizer.dfy` | `Normalizer` | `preprocess_text`: ASCII lower-casing, the character filter, the whitespace tokenizer and the lemmatizer mapping |
| `chatbot.dfy` | `Chatbot` | the catalog; `FirstMatch`/`Classify` (the specification of `detect_intent`); `Render` (the specification of `get_response`); the class `GymChatbot`, whose loop methods are proved against them |
| `chatbot_ai.dfy` | `ChatbotAI` | the prompt as a function of the record (`PromptText`); the loop method `BuildSystemPrompt`; `Answer`, for the `try`/`except`; the classes `CompletionsClient` and `GymChatbotAI` |
| `chat_widget.dfy` | `ChatWidget` | `Close`/`Bold`/`Breaks`/`FormatMessage`; JavaScript's whitespace class; `ReplyText`; the class `Widget` |

Modelling choices:

- The NLTK lemmatizer is a function parameter (`lemmatize: string -> string`).
  It is applied in the same way to the input and to every keyword, and no
  property of it is assumed.
- `word_tokenize` is modelled as a split into the maximal runs of
  non-whitespace characters. The text it receives has already been reduced to
  ASCII letters, digits and whitespace.
- The completion service is a function of the request and of the number of
  requests sent before it. The client records every request it sends.
- The prose of the prompt template is a `Wording` record. The application's
  wording is `ChatbotAI.FitZoneWording`, which holds the text of
  `chatbot_ai.py` lines 59-118. The prompt lemmas hold for every wording.
- The widget's page is a `Page` value: the input field, the bubbles shown and
  the messages posted to `/chat`. A `Bubble` keeps its sender and its text,
  and the markup placed in it is `Html`, the formatter applied to that text.
  `Widget.SendMessage` is proved against the function `Sent`.

## Model

| member | source | states |
|---|---|---|
| `Strings.Strip` | chatbot_ai.py:150 | `str.strip()` (and, with JavaScript's class, `trim()`): the result is a contiguous slice of the input, everything before and after it is whitespace, and neither end of the result is whitespace. |
| `Strings.StripEmptyIff` | chatbot_ai.py:125 | The stripped text is empty exactly when the input is whitespace only. |
| `Strings.StripKeepsStripped` | chatbot_ai.py:150 | Text with no whitespace at either end is returned unchanged by `strip()`. |
| `Strings.StripIdempotent` | chatbot_ai.py:150 | Stripping twice is the same as stripping once. |
| `Strings.Join` | chatbot.py:66 | `', '.join(xs)`. No `ensures` of its own: `Strings.JoinHasItems` and `Normalizer.TokenizeJoin` state what it produces. |
| `Strings.JoinHasItems` | chatbot.py:66 | Every item of the list occurs in the joined text. |
| `Normalizer.Lower` | chatbot.py:32 | Every character is mapped by `LowerChar`, and the length is unchanged. No upper-case ASCII letter remains. Letters, digits and whitespace stay letters, digits and whitespace. |
| `Normalizer.RemoveSpecial` | chatbot.py:34 | A character is in the result exactly when it is in the input and is an ASCII letter, an ASCII digit or whitespace. |
| `Normalizer.RemoveSpecialChar` | chatbot.py:34 | A single character survives exactly when `[a-zA-Z0-9\s]` matches it. |
| `Normalizer.RemoveSpecialAppend` | chatbot.py:34 | Filtering a concatenation filters each part and keeps them in order. With `RemoveSpecialChar`, the result is the kept characters of the input, in their order and with their multiplicity. |
| `Normalizer.RemoveSpecialKeepsKept` | chatbot.py:34 | Text made only of kept characters is unchanged. |
| `Normalizer.Clean` | chatbot.py:32-34 | After lower-casing and filtering, every character is a lower-case ASCII letter, a digit or whitespace. |
| `Normalizer.CleanFixesClean` | chatbot.py:32-34 | Text that is already clean passes through unchanged. |
| `Normalizer.CleanIdempotent` | chatbot.py:32-34 | Cleaning twice is the same as cleaning once. |
| `Normalizer.CleanAllSpaceIff` | chatbot.py:32-34 | The cleaned text is whitespace only exactly when the input has no ASCII letter or digit. |
| `Normalizer.Tokenize` | chatbot.py:36 | Every token is non-empty and contains no whitespace. |
| `Normalizer.TokenizeCovers` | chatbot.py:36 | The tokens, concatenated in order, are exactly the non-whitespace characters of the text. Nothing is lost or invented. |
| `Normalizer.TokenizeEmptyIff` | chatbot.py:36 | There are no tokens exactly when the text is whitespace only. |
| `Normalizer.TokenizeJoin` | chatbot.py:36 | Splitting words joined by single spaces gives the words back. |
| `Normalizer.TokenizeLeadingWord` | chatbot.py:36 | A word followed by whitespace or by the end of the text is the first token, and tokenizing continues on the rest. |
| `Normalizer.LemmatizeAllTokens` | chatbot.py:38 | A string is a token of the result exactly when it is the lemma of some word. |
| `Normalizer.LemmatizeAll` | chatbot.py:38 | The list comprehension over the tokens. No `ensures` of its own: `Normalizer.LemmatizeAllTokens` states its meaning. |
| `Normalizer.PreprocessEmptyIff` | chatbot.py:29-39 | `preprocess_text` returns no tokens exactly when the input has no ASCII letter or digit. |
| `Normalizer.Preprocess` | chatbot.py:29-39 | `preprocess_text` as lower-case, filter, tokenize, lemmatize. No `ensures` of its own: `Normalizer.PreprocessEmptyIff`, `Normalizer.Clean`, `Normalizer.TokenizeCovers` and `Normalizer.LemmatizeAllTokens` state its meaning. |
| `Chatbot.FirstMatch` | chatbot.py:46-53 | The ordered scan over the catalog. No `ensures` of its own: `Chatbot.FirstMatchFirstHit`, `Chatbot.FirstMatchNoHit` and `Chatbot.FirstMatchSpec` state its meaning. |
| `Chatbot.FirstMatchFirstHit` | chatbot.py:46-51 | If rule `i` matches and no earlier rule does, the classifier returns rule `i`'s intent. |
| `Chatbot.FirstMatchNoHit` | chatbot.py:53 | If no rule matches, the classifier returns `Unknown`. |
| `Chatbot.FirstMatchSpec` | chatbot.py:46-53 | For a rule list without `Unknown`: the result is `Unknown` if and only if no rule has a keyword token among the input tokens. Otherwise the result is the intent of the first rule that does. |
| `Chatbot.CatalogHasNoUnknown` | chatbot.py:18-27 | No catalog entry carries the intent `Unknown`. |
| `Chatbot.ClassifySpec` | chatbot.py:41-53 | For the catalog in its stored order, the first-match property of `FirstMatchSpec`, stated over `preprocess_text` of the input and of each keyword. Earlier intents win ties, and `'unknown'` is returned exactly when no token of any keyword occurs. |
| `Chatbot.Classify` | chatbot.py:41-53 | `detect_intent`: `FirstMatch` over the preprocessed input and keywords. No `ensures` of its own: `Chatbot.ClassifySpec` and `Chatbot.NoAlnumIsUnknown` state its meaning. |
| `Chatbot.NoAlnumIsUnknown` | chatbot.py:53 | Empty, blank or punctuation-only input yields no tokens and the intent `Unknown`. |
| `Chatbot.AnyWordOfKeywordFires` | chatbot.py:47-51 | One word shared by the input and a keyword of entry `i` selects entry `i` when no earlier entry matches, including a single word of a multi-word keyword. |
| `Chatbot.LeadingWordFires` | chatbot.py:48-50 | The first word of a multi-word keyword is enough to select its entry. |
| `Chatbot.TrailingWordFires` | chatbot.py:48-50 | The last word of a two-word keyword is enough to select its entry. |
| `Chatbot.KeywordSplits` | chatbot.py:22-26 | `what available` is a facilities keyword and `thank you` a thanks keyword. Both consist of clean words. |
| `Chatbot.WhatMeansFacilities` | chatbot.py:22 | Input containing the word `what` and no membership, trainer or timing keyword token is classified `Facilities`. |
| `Chatbot.YouMeansThanks` | chatbot.py:26 | Input containing the word `you`, where no earlier entry matches, is classified `Thanks`. |
| `Chatbot.Render` | chatbot.py:59-115 | One reply per intent. No `ensures` of its own: `Chatbot.MembershipListsPlans`, `Chatbot.TimingShowsHours`, `Chatbot.FixedReplies` and `Chatbot.NoAlnumGetsHelp` state its content. |
| `Chatbot.MembershipListsPlans` | chatbot.py:62-67 | The membership reply is the header followed by one block per plan, in stored order. Block `i` holds the plan's name, price/duration and comma-joined features, and stands between the blocks of the plans before and after it. |
| `Chatbot.TimingShowsHours` | chatbot.py:81-87 | The timing reply contains the stored weekday, weekend and holiday hours. |
| `Chatbot.FixedReplies` | chatbot.py:59-115 | The greeting, thanks and help replies are constants independent of the data. With trainers unavailable, the trainer reply is the fixed "not available" text. |
| `Chatbot.NoAlnumGetsHelp` | chatbot.py:114-115 | Input without ASCII letters or digits gets the fixed help text. |
| `Chatbot.AnyIn` | chatbot.py:50 | `any(kt in tokens ...)`: the loop returns true exactly when some candidate is among the tokens. |
| `Chatbot.AnyKeywordIn` | chatbot.py:47-51 | The inner loop: true exactly when some keyword of the entry has a token among the input tokens. |
| `Chatbot.FindIntent` | chatbot.py:46-53 | The outer loop with its early return computes `FirstMatch`. |
| `Chatbot.GymChatbot.constructor` | chatbot.py:9-27 | The data record and the lemmatizer are stored, and the catalog is the fixed one. |
| `Chatbot.GymChatbot.PreprocessText` | chatbot.py:29-39 | The token list is empty exactly when the text has no ASCII letter or digit. |
| `Chatbot.GymChatbot.DetectIntent` | chatbot.py:41-53 | The result equals `Classify`, whose properties are stated by `ClassifySpec`. |
| `Chatbot.GymChatbot.GetResponse` | chatbot.py:55-57 | The reply is `Render` of the detected intent. |
| `Chatbot.GymChatbot.Respond` | chatbot.py:59-115 | The `+=` accumulation, including the loop over plans, produces exactly `Render(intent, data)`. |
| `Facility.Lookup` | chatbot_ai.py:52-57 | `.get(section, {}).get(key, default)` gives the stored value when both are present, and the default otherwise. |
| `ChatbotAI.Fields` | chatbot_ai.py:52-57 | Every value the prompt reads, each through `.get` with the source's default. No `ensures` of its own: `ChatbotAI.MissingSectionDefaults`, `ChatbotAI.MissingSectionIsEmpty`, `ChatbotAI.TimingsDefault` and `ChatbotAI.ContactDefault` state its defaults. |
| `ChatbotAI.PromptText` | chatbot_ai.py:59-118 | The f-string as a function of the fields. No `ensures` of its own: `ChatbotAI.PromptListsPlan`, `ChatbotAI.PromptPlansInOrder`, `ChatbotAI.SectionsInPrompt` and the `ChatbotAI.PromptShows*` lemmas state its content. |
| `ChatbotAI.MissingSectionDefaults` | chatbot_ai.py:59-114 | Each missing section falls back to its fixed defaults: gym name 'FitZone Fitness Center'; no plans; trainer 'Available' / 'Contact us' / 'Contact front desk'; timings 'Contact us'; empty lists; contact 'N/A' (and 'our front desk' / 'us' in the offers rule). |
| `ChatbotAI.MissingSectionIsEmpty` | chatbot_ai.py:52-57 | A missing section gives the same prompt fields as a present but empty one (`.get(section, {})`). |
| `ChatbotAI.BuildSystemPrompt` | chatbot_ai.py:49-120 | The accumulated prompt equals `PromptText` of the record's fields: the intro, one entry per plan in order, then the trailer. |
| `ChatbotAI.PromptListsPlan` | chatbot_ai.py:85-89 | Every plan's entry (name, price/duration, comma-joined features) occurs in the prompt, at the offset of its position in the stored order. |
| `ChatbotAI.PromptPlansInOrder` | chatbot_ai.py:85-89 | The entry of an earlier plan ends before the entry of any later plan begins. |
| `ChatbotAI.SectionsInPrompt` | chatbot_ai.py:59-118 | The intro and the trainers, timings, facilities, classes and contact sections all occur in the prompt. |
| `ChatbotAI.PromptShowsIntro` | chatbot_ai.py:59-83 | The prompt contains the gym name line and the offers rule with the contact phone and email. |
| `ChatbotAI.PromptShowsTrainers` | chatbot_ai.py:92-96 | The prompt shows the trainer availability, the joined specializations, the pricing and the booking. |
| `ChatbotAI.PromptShowsTimings` | chatbot_ai.py:98-101 | The prompt shows the weekday, weekend and holiday hours. |
| `ChatbotAI.PromptShowsFacilities` | chatbot_ai.py:103-108 | The prompt shows the joined equipment, amenities and classes. |
| `ChatbotAI.PromptShowsContact` | chatbot_ai.py:111-114 | The prompt shows the phone, email and address. |
| `ChatbotAI.TimingsDefault` | chatbot_ai.py:98-101 | Without a timings section, the prompt shows 'Contact us' for all three times. |
| `ChatbotAI.ContactDefault` | chatbot_ai.py:74 | Without a contact section, the prompt shows 'N/A' for the phone, and the offers rule points to 'our front desk' and 'us'. |
| `ChatbotAI.IsBlank` | chatbot_ai.py:125 | The guard `not user_input or not user_input.strip()`. No `ensures` of its own: `ChatbotAI.IsBlankIff` states its meaning. |
| `ChatbotAI.IsBlankIff` | chatbot_ai.py:125 | `not user_input or not user_input.strip()` holds exactly when the input is whitespace only (the empty text included). |
| `ChatbotAI.Answer` | chatbot_ai.py:128-155 | Without a first choice with content, the reply is the fixed "technical hiccup" text. Otherwise it is that content with Python whitespace removed from both ends and only there: a contiguous slice, all whitespace outside it, and no whitespace at either end. |
| `ChatbotAI.AnswerIsStripped` | chatbot_ai.py:149-150 | A reply taken from the service is already stripped: stripping it again changes nothing. |
| `ChatbotAI.CompletionsClient.Create` | chatbot_ai.py:130-146 | The request is recorded as sent, and the outcome is the service's answer for it. |
| `ChatbotAI.GymChatbotAI.constructor` | chatbot_ai.py:25-47 | The model name is fixed, and the system prompt is built once, from the data record. |
| `ChatbotAI.GymChatbotAI.GetResponse` | chatbot_ai.py:122-155 | A blank input gets the fixed greeting and sends nothing. Any other input sends exactly one request, holding the stored system prompt and the input. The reply is `Answer` of that request's outcome, so a failure never propagates. No field changes. |
| `ChatWidget.Trim` | static/js/chatbot.js:39 | `trim()` with JavaScript's whitespace class. No `ensures` of its own: `ChatWidget.TrimKeepsContent` and `ChatWidget.BlankIsNotSent` state its meaning. |
| `ChatWidget.Close` | static/js/chatbot.js:90 | The lazy group `(.*?)`: the first position where a closing `**` follows text without line terminators, or none when no position qualifies. |
| `ChatWidget.Bold` | static/js/chatbot.js:90 | The global replace of `/\*\*(.*?)\*\*/g`. No `ensures` of its own: `ChatWidget.BoldNoStar`, `ChatWidget.BoldPlainPrefix`, `ChatWidget.BoldMatchStep` and `ChatWidget.OpeningCopied` state its behaviour. |
| `ChatWidget.Breaks` | static/js/chatbot.js:91 | No newline remains, and text without newlines is unchanged. |
| `ChatWidget.FormatMessage` | static/js/chatbot.js:89-91 | The formatted text contains no newline. |
| `ChatWidget.BoldPlainPrefix` | static/js/chatbot.js:90 | A prefix without asterisks is copied unchanged, and the replacement continues after it. |
| `ChatWidget.BreaksAppend` | static/js/chatbot.js:91 | Newline replacement distributes over concatenation. |
| `ChatWidget.BoldNoStar` | static/js/chatbot.js:90 | Text without `*` is left unchanged by the bold step. |
| `ChatWidget.PlainTextUnchanged` | static/js/chatbot.js:89-91 | Text with neither `*` nor a newline is shown as it is. |
| `ChatWidget.BoldMatchStep` | static/js/chatbot.js:90 | When the text starts with `**` and the lazy group closes at k, the first k characters are wrapped in `<strong>`…`</strong>` and matching resumes after the closing `**`. |
| `ChatWidget.CloseOfPair` | static/js/chatbot.js:90 | In `**X**`, with X free of `*` and of line terminators, the lazy group closes right after X. |
| `ChatWidget.BoldPair` | static/js/chatbot.js:90 | `**X**`, with X free of `*` and of line terminators, becomes `<strong>X</strong>`. |
| `ChatWidget.OpeningCopied` | static/js/chatbot.js:90 | An opening `**` with no closing pair after it is kept literally, and matching resumes after it. |
| `ChatWidget.UnpairedStaysLiteral` | static/js/chatbot.js:90 | An unpaired `**` stays literal. |
| `ChatWidget.BoldOfLonePair` | static/js/chatbot.js:90 | A lone `**` has nothing to close it and is kept. |
| `ChatWidget.NoCloseAcrossNewline` | static/js/chatbot.js:90 | The lazy group cannot extend over a newline. |
| `ChatWidget.BoldAcrossNewline` | static/js/chatbot.js:90 | `**a\nb**` is left unbolded by the bold step. |
| `ChatWidget.BreaksOneNewline` | static/js/chatbot.js:91 | A single newline between two newline-free texts becomes `<br>`. |
| `ChatWidget.NewlineBlocksBold` | static/js/chatbot.js:89-91 | Because bolding runs first, `**a\nb**` is shown as `**a<br>b**`. |
| `ChatWidget.ReplyText` | static/js/chatbot.js:62-78 | The server's text is shown for status `success` with a string reply. Another status gives "something went wrong". An unreachable server, an unparsable body or a missing reply gives "trouble connecting". |
| `ChatWidget.ServerTextOnlyOnSuccess` | static/js/chatbot.js:67-72 | A server text that is not one of the apologies is shown if and only if the status is `success`. |
| `ChatWidget.Html` | static/js/chatbot.js:89-93 | The markup placed in a bubble contains no newline. |
| `ChatWidget.Sent` | static/js/chatbot.js:38-60 | The page after `sendMessage`. No `ensures` of its own: `ChatWidget.BlankIsNotSent`, `ChatWidget.TrimmedIsShownAndSent` and `ChatWidget.SendTwiceIsSendOnce` state its meaning. |
| `ChatWidget.BlankIsNotSent` | static/js/chatbot.js:39-43 | A field holding only JavaScript whitespace leaves the page unchanged: nothing is shown or posted. |
| `ChatWidget.TrimKeepsContent` | static/js/chatbot.js:39 | `trim()` of a field that is not all whitespace is non-empty, is a contiguous piece of the field, and neither starts nor ends with whitespace. |
| `ChatWidget.TrimmedIsShownAndSent` | static/js/chatbot.js:39-60 | Sending a field that is not all whitespace shows exactly the trimmed text as one user bubble, posts exactly that text, and clears the field. |
| `ChatWidget.SendTwiceIsSendOnce` | static/js/chatbot.js:38-60 | Sending again right after a send changes nothing, since the field is then empty. |
| `ChatWidget.Widget.constructor` | static/js/chatbot.js:5-10 | The widget starts with an empty field, no bubbles and nothing posted. |
| `ChatWidget.Widget.Type` | static/js/chatbot.js:39 | The user's input event on the field: the text that `sendMessage` later reads is replaced, and nothing else changes. |
| `ChatWidget.Widget.AddMessage` | static/js/chatbot.js:82-100 | Exactly one bubble is appended, with the sender and the text, and nothing else changes. |
| `ChatWidget.Widget.SendMessage` | static/js/chatbot.js:38-60 | The new page state is `Sent` of the old one: whitespace-only input changes nothing, otherwise the trimmed text is shown, posted, and the field cleared (see `BlankIsNotSent`, `TrimmedIsShownAndSent`). |
| `ChatWidget.Widget.ReceiveAnswer` | static/js/chatbot.js:62-78 | One bot bubble is appended, showing `ReplyText` of the answer. |

## Left out

- `app.py` is not part of this model: Flask routing, the JSON request parsing,
  the 400/500 replies, the NLTK downloads and server start-up. It only
  creates one `GymChatbot` and calls `get_response`.
- The NLTK internals are not modelled.
  - `word_tokenize` is modelled as a whitespace split. Its Treebank splitting
    of contractions inside a word (`cannot` into `can`, `not`) is not
    modelled.
  - The WordNet lemmatizer is an arbitrary function parameter.
  - The unused `stopwords` import is not modelled.
- `Normalizer.Lower` maps only ASCII letters. Python's `str.lower` also maps
  a few non-ASCII characters to ASCII ones (KELVIN SIGN to `k`, `İ` to `i`
  plus a combining dot), which then survive the filter.
- Reading `gym_data.json`, `load_dotenv`, the `GROQ_API_KEY` lookup and its
  `ValueError`, and the Groq client are not modelled. The record and the
  completion outcomes are inputs.
- `GymChatbotAI.get_response` given `None` is not modelled. The model's
  input is always a string.
- Record values (prices, durations, `available`) are modelled as the strings
  and booleans they render to. JSON `null` values and wrongly typed values are
  not modelled.
- `Chatbot.Render`, `Chatbot.GymChatbot.GetResponse`, `Chatbot.GymChatbot.Respond`: require the
  fields their branch indexes (`CanRender`). The `KeyError` the source raises
  for a malformed record is not modelled.
- `ChatbotAI.GymChatbotAI.constructor`, `ChatbotAI.BuildSystemPrompt`,
  `Chatbot.GymChatbot.Respond`: a plan always has its name, price, duration and
  features (`Facility.Plan`). A plan missing one of these keys makes
  `_build_system_prompt` raise `KeyError` at `chatbot_ai.py` lines 87-88, and
  with it the constructor, and makes the membership reply raise at `chatbot.py`
  lines 65-66. That crash is not modelled.
- `ChatbotAI.GymChatbotAI.constructor`: takes the prompt wording as a
  parameter. The proved prompt properties hold for every wording, and the
  application passes `FitZoneWording`.
- The temperature, token limit and model name are carried in the request but
  have no modelled meaning.
- The `print` and `console.error` logging is not modelled.
- The browser's DOM is not modelled: element creation, CSS classes, the
  typing indicator, scrolling, navigation styling and smooth scrolling.
- The asynchronous `fetch` chain is reduced to its final outcome
  (`ServerAnswer`). The order in which replies to several pending requests
  arrive is not modelled.
- JavaScript strings are UTF-16 code units. The model works on Unicode code
  points, which agree for every character outside the astral planes.
- An escalation-phrase override, a fuzzy-similarity fallback and a
  rule-then-model dispatcher do not occur in `chatbot.py`, `chatbot_ai.py` or
  `chatbot.js`, so they are not modelled.
