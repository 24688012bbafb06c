# Streaming chat client: a Dafny model

This project models the client side of a chat application that sends a user's prompt to
a text-generation endpoint and shows the reply while it streams in. It covers three
React components:

- `ChatInterface` keeps the conversation list (`messages`), the `isLoading` flag and the
  abort-controller reference. Its send handler appends the user's message and issues
  the request. When the response is ok and has a body, it appends an empty assistant placeholder. It
  then reads the body chunk by chunk, each time writing the accumulated text into the
  last entry. Its clear handler aborts any exchange in flight and empties the list.
- `ChatInput` is the message box. Its submit guard forwards the typed text only when it
  is not blank and the box is not disabled. Enter submits and Shift+Enter does not.
- `ApiKeyInput` is the key form. A blank key is rejected first, then a key that does not
  start with `sk-`. Any edit clears the error.

Layout:

- `text.dfy`, module `Text`: JavaScript's `trim`, and "blank" (every character is
  ECMAScript whitespace).
- `options.dfy`, module `Options`: the `Option` datatype.
- `chat_interface.dfy`, module `ChatInterface`: the `Message` datatype and the class
  `ChatSession`. The asynchronous send handler is driven by one method per event it
  reacts to: `Send`, `ResponseOk`, `ResponseNotOk`, `ResponseWithoutBody`, `Chunk`,
  `End`, `Abort`, `Error` and `Clear`. The field `stage` records where the suspended
  handler stands (idle, fetching, or reading with its accumulated `assistantMessage`).
  `HandleSendMessage` runs the whole handler against one transport behaviour, read loop
  included. It is proved to produce `Transcript`, the closed-form conversation.
- `chat_input.dfy`, module `ChatInput`: the guard, the button state, and the class
  `Composer`.
- `api_key_input.dfy`, module `ApiKeyInput`: the validation chain `KeyError` and the
  class `KeyForm`.

Callbacks (`onSend`, `onSubmit`) are modelled as an `Option` result: it holds the
argument the callback was called with, or `None` when the callback was not called.

Four details of the code are easy to get wrong:

- the user message is stored exactly as typed, not trimmed;
- the assistant placeholder is appended only after an ok response, not before the
  request;
- entries carry no status field;
- on a failure the partial answer is kept and a separate `Error: …` entry is appended.

## Model

| member | source | states |
|---|---|---|
| `Text.Trim` | frontend/components/ChatInput.tsx:15 | `trim()` yields `s` with its leading and trailing whitespace removed: a slice of `s` with only whitespace before and after it, no whitespace at either end of a non-empty result, and empty exactly when every character is whitespace, which is when `!s.trim()` holds |
| `ChatInterface.ConcatSnoc` | frontend/components/ChatInterface.tsx:85 | adding a chunk extends the accumulated text by exactly that chunk, so the text before is a prefix of the text after |
| `ChatInterface.Transcript` | frontend/components/ChatInterface.tsx:38-115 | one accepted exchange keeps the old conversation as a prefix, appends the user entry and then one to two assistant entries; the streamed entry holds the join of all chunks; three entries arise only when a read fails after streaming; a fetch aborted before any response adds only the user entry |
| `ChatInterface.ChatSession.constructor` | frontend/components/ChatInterface.tsx:13-28 | the conversation starts empty, not loading, with no controller |
| `ChatInterface.ChatSession.Send` | frontend/components/ChatInterface.tsx:39-47 | a blank message, or one arriving while loading, changes nothing and makes no request; otherwise exactly one user entry with the untrimmed text is appended, loading is raised and a controller exists |
| `ChatInterface.ChatSession.ResponseOk` | frontend/components/ChatInterface.tsx:71-77 | an ok response appends exactly one empty assistant entry before any chunk, and the accumulator starts empty |
| `ChatInterface.ChatSession.ResponseNotOk` | frontend/components/ChatInterface.tsx:63-65 | a non-ok response appends one entry `Error: API error: <statusText>` and ends the exchange |
| `ChatInterface.ChatSession.ResponseWithoutBody` | frontend/components/ChatInterface.tsx:67-69 | an ok response without a body appends `Error: No response body` and ends the exchange |
| `ChatInterface.ChatSession.Chunk` | frontend/components/ChatInterface.tsx:84-95 | after each chunk the last entry is an assistant entry holding the join of all chunks so far, the length and every earlier entry are unchanged, and the old text is a prefix of the new |
| `ChatInterface.ChatSession.End` | frontend/components/ChatInterface.tsx:80-82 | when the reader is done the conversation is unchanged and, through `finally`, loading is off and the controller is gone |
| `ChatInterface.ChatSession.Abort` | frontend/components/ChatInterface.tsx:97-101 | an `AbortError` leaves the conversation unchanged and, through `finally`, loading is off and the controller is gone |
| `ChatInterface.ChatSession.Error` | frontend/components/ChatInterface.tsx:97-110 | any other failure appends exactly one assistant entry `Error: <message>` (the fallback text when the message is empty) after all prior entries, partial answer included, and ends the exchange |
| `ChatInterface.ChatSession.Finish` | frontend/components/ChatInterface.tsx:111-114 | every exit path ends with loading off and the controller reference null, the conversation untouched |
| `ChatInterface.ChatSession.Clear` | frontend/components/ChatInterface.tsx:117-123 | the controller is signalled exactly when one exists; afterwards the list is empty, loading is off, and the aborted exchange has ended |
| `ChatInterface.ChatSession.HandleSendMessage` | frontend/components/ChatInterface.tsx:38-115 | a full run of the handler, read loop included, does nothing on a refused message; otherwise it leaves exactly `Transcript` of the old conversation, with loading off and no controller |
| `ChatInput.ShouldSend` | frontend/components/ChatInput.tsx:15 | the guard holds exactly when the box is not disabled and contains a non-whitespace character |
| `ChatInput.SendButtonDisabled` | frontend/components/ChatInput.tsx:47 | the button is disabled exactly when the submit guard fails, so a click can never be refused by the guard |
| `ChatInput.Composer.constructor` | frontend/components/ChatInput.tsx:11 | the box starts empty |
| `ChatInput.Composer.Edit` | frontend/components/ChatInput.tsx:32 | an edit replaces the box's text with the new value |
| `ChatInput.Composer.HandleSubmit` | frontend/components/ChatInput.tsx:13-19 | `onSend` is called exactly when the guard holds, with the untrimmed text, and the box is then emptied; otherwise nothing is sent and the text is kept |
| `ChatInput.Composer.HandleKeyDown` | frontend/components/ChatInput.tsx:21-26 | Enter without Shift prevents the default action and submits; Shift+Enter and every other key send nothing and change nothing |
| `ApiKeyInput.KeyError` | frontend/components/ApiKeyInput.tsx:16-24 | a blank key gets the blank-key error, taking precedence over the prefix test; a non-blank key without the `sk-` prefix gets the format error; any other key is accepted |
| `ApiKeyInput.LeadingWhitespaceRejected` | frontend/components/ApiKeyInput.tsx:21 | a key starting with whitespace is never accepted, and gets the format error when it is not blank, because the prefix test runs on the untrimmed key |
| `ApiKeyInput.SpacedKeyGetsFormatError` | frontend/components/ApiKeyInput.tsx:21 | the key `" sk-x"` gets the format error |
| `ApiKeyInput.KeyForm.constructor` | frontend/components/ApiKeyInput.tsx:10-11 | the form starts with an empty key and no error |
| `ApiKeyInput.KeyForm.Edit` | frontend/components/ApiKeyInput.tsx:44-47 | an edit stores the new key and always clears the error |
| `ApiKeyInput.KeyForm.HandleSubmit` | frontend/components/ApiKeyInput.tsx:13-28 | a rejected key sets its error and `onSubmit` is not called; an accepted key clears the error and is passed to `onSubmit` unchanged; the key itself is never altered |

## Left out

- The request itself (ChatInterface.tsx:50-61): the URL, the headers, the JSON body with the system message and the model name. It is I/O; its outcomes enter the model as events.
- The system-message textarea and its `developerMessage` state (ChatInterface.tsx:15-26, 132-138). It only feeds the request body.
- UTF-8 decoding by `TextDecoder` in streaming mode (ChatInterface.tsx:73, 84). It is a browser library; chunks enter the model as decoded strings.
- Asynchrony. The handler's awaits are modelled as a sequence of events, not as concurrency. `Clear` includes the abort path it triggers: `abort()` rejects the pending await at once, and that continuation runs before any later user event. So a send can never slip in between the clear and the end of the aborted exchange.
- React state batching and stale closures: the model reads `isLoading` as current state, while the handler reads the value captured at its last render.
- Scrolling, `console` logging and all rendering, including `MessageBubble.tsx` and `page.tsx`. These are presentation.
- The server in `api/app.py`. It lies beyond the transport boundary.
- Textarea auto-resize (ChatInput.tsx:39-43). It is styling.
- The optional `disabled` prop of `ChatInput`: an absent value behaves as `false` and is modelled as that.
- A thrown value without a string `message` is modelled as an error with an empty message, so it gets the fallback text.
- `trim` in JavaScript works on UTF-16 code units, while Dafny strings are sequences of code points. Every whitespace character is a single code unit, so blankness is the same either way.
