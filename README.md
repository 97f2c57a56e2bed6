# Instagram relay bot: verified model of the message pipeline

This project models the decision logic of the bot's `POST /message` endpoint
(`handle_message` in `app.py`) and its self-harm keyword detector
(`contains_self_harm`), and proves properties of that model in Dafny 4.11.

The endpoint goes through a fixed sequence of early returns:

1. **Identity lock.** A `sender_id` that is not exactly the configured
   Instagram user id is answered with `{"reply": null, "reason":
   "UNAUTHORIZED_SENDER"}` and status 200. A missing id counts as not equal.
2. **Hard safety gate.** The message is lower-cased and searched for any of
   seven fixed self-harm phrases. A hit is answered with `reason:
   "SELF_HARM_BLOCKED"`, status 200.
3. **Prompt assembly.** The message list is the persona prompt
   (`system`), the caller's `recent_chat` as given, then the new message
   (`user`).
4. **One model call.** The language model's HTTP endpoint is called once.
5. **Post-processing.** A non-200 status becomes `{"error": "LLM request
   failed"}` with status 500. Otherwise the content is stripped of
   whitespace. If it is exactly `[[NO_REPLY_REQUIRED]]`, the response is
   `reason: "LLM_SAFETY_OVERRIDE"`. If not, the stripped text is the reply.

Files:

- `wrappers.dfy`: `Option`, used for JSON fields that may be absent.
- `text.dfy`: Python's substring test (`in`), `str.lower` on ASCII letters,
  and `str.strip` with Python's whitespace set.
- `safety.dfy`: the keyword list and `ContainsSelfHarm`.
- `webhook.dfy`: the request and response datatypes, and the steps of the
  pipeline. `Gate` is the two gates plus prompt assembly. `BuildMessages`
  builds the list in three steps, as the source does. `Post` is the
  post-processor. `Handle` is the whole endpoint as a function, and
  `HandleMessage` is the imperative version, proved equal to `Handle`.

The model is a parameter of type `seq<ChatMessage> -> LlmResult`. `Handle`
also records the message list it sent to the model (`None` when it made no
call). That turns "nothing reaches the model when a gate rejects" into a
proved statement.

## Model

| member | source | states |
|---|---|---|
| Text.Occurs | app.py:36 | Python's `keyword in text`: true exactly when some slice of the text equals the keyword |
| Text.OccursInContext | app.py:36 | an occurrence survives any text added before or after the haystack |
| Text.TooLongNeverOccurs | app.py:36 | a keyword longer than the text never occurs in it |
| Text.CaseMaps | app.py:35 | `lower()` on one character leaves no ASCII capital and is idempotent; lower-casing forgets any upper-casing and upper-casing forgets any lower-casing |
| Text.LowerRespectsCase | app.py:35 | two strings that differ only in ASCII letter case lower-case to the same string |
| Text.UpperSameIgnoringCase | app.py:35 | upper-casing a string changes only the case of its letters |
| Text.LowerWithoutCapitals | app.py:35 | a string without ASCII capitals is unchanged by lower-casing |
| Text.LowerConcat | app.py:35 | lower-casing distributes over concatenation |
| Text.StripLeading | app.py:116 | the result is a suffix of the input, everything dropped is whitespace, and the result does not start with whitespace |
| Text.StripTrailing | app.py:116 | the result is a prefix of the input, everything dropped is whitespace, and the result does not end with whitespace |
| Text.Strip | app.py:116 | `strip()` returns a text with no whitespace at either end, never longer than the input |
| Text.StripLeadingPadded | app.py:116 | leading whitespace before a text that starts with a non-space is exactly what is removed |
| Text.StripTrailingPadded | app.py:116 | trailing whitespace after a text that ends with a non-space is exactly what is removed |
| Text.StripPadded | app.py:116 | `strip` returns any trimmed text unchanged from inside its whitespace padding |
| Text.LeadingParts | app.py:116 | dropping leading whitespace removes only whitespace, in front of what is kept |
| Text.TrailingParts | app.py:116 | dropping trailing whitespace removes only whitespace, behind what is kept |
| Text.StripParts | app.py:116 | gives the whitespace that `strip` removes before and after the text it keeps, so that the input is their concatenation |
| Text.StripSplits | app.py:116 | every string is its stripped form with only whitespace on either side |
| Text.StripIdempotent | app.py:116 | stripping twice is the same as stripping once |
| Text.StripIsTokenIff | app.py:116 | a string strips to a given trimmed text exactly when it is that text padded with whitespace |
| Safety.KeywordsAtLeastFive | app.py:20-28 | every configured keyword has at least five characters |
| Safety.AnyOccurs | app.py:36 | `any(...)` over the keyword list: true exactly when some keyword of the list occurs in the text |
| Safety.ContainsSelfHarm | app.py:34-36 | flagged exactly when some keyword of `SELF_HARM_KEYWORDS` is a substring of the lower-cased text |
| Safety.CaseInsensitive | app.py:35 | texts that differ only in ASCII letter case get the same verdict |
| Safety.UpperCaseSameVerdict | app.py:35 | an upper-cased message gets the same verdict as the original |
| Safety.ShortTextNotFlagged | app.py:34-36 | no text shorter than five characters is flagged |
| Safety.EmptyNotFlagged | app.py:76 | the empty message, the default for a missing `message`, is not flagged |
| Safety.FlaggedInContext | app.py:34-36 | a flagged text stays flagged whatever surrounds it |
| Safety.KeywordInSentenceFlagged | app.py:36 | a keyword inside a longer lower-case sentence is caught |
| Safety.MixedCaseKeywordFlagged | app.py:35-36 | a keyword written with capitals inside a longer text is caught |
| Webhook.ReasonCodesDistinct | app.py:81 | the three reason codes on the wire are distinct |
| Webhook.Conversation | app.py:89-91 | the message list has `|recent_chat| + 2` entries: the persona prompt first, `recent_chat` in order and unmodified, the user message last |
| Webhook.BuildMessages | app.py:89-91 | building the list by a literal, `extend` and `append` yields exactly `Conversation` |
| Webhook.Gate | app.py:75-91 | rejects with `UNAUTHORIZED_SENDER` exactly when the sender is not the allowed id; with `SELF_HARM_BLOCKED` exactly when the sender is allowed and the message is flagged; otherwise proceeds with `Conversation`; never with `LLM_SAFETY_OVERRIDE` |
| Webhook.Post | app.py:112-123 | a non-200 status is exactly the 500 failure; a 200 status suppresses exactly when the stripped content is the token, and otherwise replies with the stripped content and status 200; a reply is trimmed, is not the token, and is a slice of the content |
| Webhook.HandleMessage | app.py:72-123 | the imperative endpoint, with its early returns, returns exactly the outcome of the pipeline `Handle` |
| Webhook.UnauthorizedNeverReachesModel | app.py:80-81 | any sender other than the allowed one, a missing one included, gets `UNAUTHORIZED_SENDER` with status 200 for every message and chat, never `SELF_HARM_BLOCKED`, and no model call |
| Webhook.SelfHarmNeverReachesModel | app.py:84-86 | an allowed sender with a flagged message gets `SELF_HARM_BLOCKED` with status 200 and no model call |
| Webhook.ModelCalledIffGatesPass | app.py:80-110 | the model is called exactly when both gates pass, and then with `Conversation` of the message and chat |
| Webhook.RejectionIndependentOfModel | app.py:80-86 | when no call is made, the outcome is the same for every model |
| Webhook.ModelSeenOnlyThroughConversation | app.py:89-123 | two models that answer the assembled conversation alike give the same outcome |
| Webhook.StatusCodes | app.py:112-123 | the status is 200 or 500, and 500 exactly when the model was called and answered with a non-200 status |
| Webhook.ReplyComesFromModel | app.py:116-123 | a reply is sent only to the allowed sender, for an unflagged message, after a 200 answer, and is the stripped content, which is not the token |
| Webhook.ModelAnswerRelayed | app.py:116-123 | an allowed sender with an unflagged message whose model call answers 200 with content that does not strip to the token gets `{"reply": strip(content)}` with status 200 |
| Webhook.MissingFieldsDefault | app.py:75-77 | with `message` and `recent_chat` absent, an allowed sender still reaches the model, with the persona prompt and an empty user turn only |
| Webhook.FailedCallIsError | app.py:112-113 | a non-200 answer gives the `LLM request failed` error with status 500, whatever the content |
| Webhook.SuppressedIffPaddedToken | app.py:116-121 | a 200 answer is suppressed exactly when its content is the token with only whitespace around it |
| Webhook.PaddedTokenSuppressed | app.py:116-121 | the token surrounded by newlines and spaces is suppressed |
| Webhook.EmbeddedTokenPassedThrough | app.py:119-123 | content that merely contains the token is passed through as the reply, token included |
| Webhook.ReplyStable | app.py:116-123 | post-processing a reply a second time gives the same response |
| Webhook.PromptCarriesToken | app.py:53-56 | the persona prompt contains the exact token that the post-processor checks for |

## Left out

- Flask routing, JSON parsing of the request body, `jsonify`, the `/` health route and server start-up are framework I/O. The request is modelled as its three fields and the response as a datatype.
- The HTTP call to the model provider is foreign network I/O: the bearer token, headers, URL and 30-second timeout are not modelled. The model is a function parameter that returns a status and a content string.
- The `model` name and the `temperature` value in the payload are constants passed through. Only the message list is modelled.
- The API key and port come from environment variables. They are configuration and not modelled.
- The log lines printed on the two safety paths are not modelled.
- Safety.ContainsSelfHarm: lower-casing is ASCII only, while Python's `str.lower` is full Unicode. The one case where that changes the verdict is U+212A KELVIN SIGN, which Python lower-cases to `k`. So `"Kill myself"` is flagged by the source but not by the model.
- Whitespace for `strip` follows the code-point list of Python's `str.isspace`. Changes to that list in later Unicode versions are not tracked.
- A response body without `choices[0].message.content` raises an exception in the source. The model assumes the answer always carries a content string.
- A `message` that is JSON null or not a string makes `lower()` raise in the source. A `recent_chat` that is JSON null, a number or a boolean makes `extend` raise. A `recent_chat` that is a JSON string or object does not raise: `extend` adds its characters or its keys as separate entries, and they are sent on to the model. The model has none of these inputs: `message` is a string when present, and `recent_chat` is a list of role/content entries when present.
- Nothing in the endpoint catches an exception: one raised by the model call (the 30-second timeout, a connection error), by a response body without content, or by the malformed fields above. The framework then answers 500 with its own error page, not the `{"error": ...}` body. `Webhook.StatusCodes` speaks only of outcomes the model covers, where 500 comes from a non-200 answer of the model.
- A `sender_id` that is JSON null or not a string can never equal the configured id. The model represents it like a missing id, as `None`.
- `recent_chat` entries are arbitrary JSON values in the source. The model gives them the role/content shape of a chat message. They are passed through unchanged either way.
- `Handle` is the specification of `HandleMessage` and has no contract of its own. Its properties are the `Webhook` lemmas above.
