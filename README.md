# TLDR Bot turn handler, modelled in Dafny

TLDR Bot is a one-page Streamlit chat app. The user uploads a PDF and asks
questions about it. The app sends each question, together with the PDF's
text, to a chat-completion endpoint. This project models the part of
`app.py` that runs each time a prompt is submitted:

- **Text extraction** (`extract_text_from_pdf`). It joins the pages' text in page order. A page with no text adds `""`. Any exception gives `None`.
- **Extracted-text cache.** The session fields `doc_text` and `uploaded_file_name` decide whether the uploaded file is parsed again.
- **Prompt assembly.** The cached text goes between the `--- DOCUMENT CONTEXT ---` and `--- END CONTEXT ---` markers. The labelled question follows. Python's `str.strip()` is applied to the whole string.
- **History and request payload.** The raw prompt is appended to `messages`. The payload is the system turn, then the history, then the assembled prompt. The reply text, or the request's error message, is appended after that.

Modules, one per component:

- `Wrappers` (wrappers.dfy): `Option`, which stands for Python's `None`.
- `PyStrings` (py_strings.dfy): `str.isspace`, and `str.lstrip`, `str.rstrip` and `str.strip` called without arguments.
- `PdfText` (pdf_text.dfy): text extraction. The parser is abstract. A document is `Unreadable`, or a list of pages. Each page's `extract_text()` gives a string, gives `None`, or raises.
- `Completion` (completion.dfy): message records, the payload's `messages` list, and the string `get_llm_response` returns.
- `Prompting` (prompting.dfy): the context block and `full_prompt`.
- `Chat` (chat.dfy): the cache step, the cache over a run of prompts, and the `Session` class. `Session` holds `st.session_state` and has `HandlePrompt`, one run of the page's main logic.

The endpoint is a function parameter. It maps the sent message list to one of three outcomes:

- a reply holding some content;
- a `RequestException` with its text;
- a decoded body that lacks `choices[0].message.content`.

Two behaviours of the code are easy to misread. The model follows the code in both.

- A failed request (`RequestException`) does not skip the assistant turn. Its error message is appended as the assistant turn. Only a reply body without the content field leaves the user turn unanswered. That lookup raises, inside the `try`, an error (`KeyError`, `IndexError` or `TypeError`) that the `except RequestException` clause does not catch. The run then stops after the user turn was appended.
- With no document, the prompt sent is not exactly `"User Question: " + prompt`. `strip()` also removes the prompt's trailing whitespace, so a blank prompt is sent as `"User Question:"`.

## Model

| member | source | states |
|---|---|---|
| `PyStrings.SpaceRunEnd` | app.py:96 | the scan from an index stops at the first character that is not whitespace, or at the end, and passes only whitespace |
| `PyStrings.SpaceRunStart` | app.py:96 | the backward scan from an index stops just after the last character that is not whitespace, or at the start, and passes only whitespace |
| `PyStrings.LStrip` | app.py:96 | the result is a suffix of the input, everything dropped is whitespace, and the result does not start with whitespace |
| `PyStrings.RStrip` | app.py:96 | the result is a prefix of the input, everything dropped is whitespace, and the result does not end with whitespace |
| `PyStrings.Strip` | app.py:96 | the result is the slice of the input that starts after the leading whitespace; only whitespace lies outside it; it neither starts nor ends with whitespace; it is empty exactly when the input is all whitespace |
| `PyStrings.StripPadded` | app.py:96 | whitespace, then a core with no whitespace at either end, then whitespace, strips to exactly that core (so `strip` is determined by the properties above) |
| `PyStrings.LStripAfterSpace` | app.py:96 | whitespace followed by a string that does not start with whitespace left-strips to that string |
| `PyStrings.RStripAppend` | app.py:96 | right-stripping `a + b` strips `a` when `b` is all whitespace, and otherwise keeps `a` whole and strips only `b` |
| `PdfText.ExtractTextFromPdf` | app.py:39-49 | the page loop returns `None` exactly when the document cannot be opened or some page raises; otherwise it returns the page texts joined in page order, with `""` for a page without text |
| `PdfText.ConcatAppend` | app.py:43-46 | the text joined from two page lists, one after the other, is the first list's text followed by the second's |
| `PdfText.ConcatInOrder` | app.py:43-46 | each page's text appears in the extracted text after the text of the pages before it and before the text of the pages after it; a page without text can be dropped without changing the result |
| `Completion.Payload` | app.py:65-72 | the sent `messages` list is the system turn "You are a helpful assistant.", then the whole history in order, then one user turn carrying the prompt text; it is two longer than the history |
| `Completion.ReplyText` | app.py:74-79 | a reply gives its content; a request failure gives "Error communicating with the API: " followed by the error text; only a reply without the content field gives no string |
| `Chat.Session.GetLlmResponse` | app.py:54-79 | the request carries the payload built from the session history at the time of the call, and the result is the reply text of the endpoint's answer to that payload |
| `Prompting.DocumentContext` | app.py:84-93 | the context block is empty exactly when no file is uploaded or the cached text is `None` or empty; otherwise its length is the two markers' plus the text's |
| `Prompting.FullPrompt` | app.py:96 | the prompt sent is never empty, neither starts nor ends with whitespace, and is no longer than the context, the 17-character separator and label, and the prompt together |
| `Prompting.NoContextPrompt` | app.py:96 | with an empty context, only the two leading newlines are stripped from the front, and the result is the label followed by nothing for a blank prompt or by a space and the prompt without its trailing whitespace |
| `Prompting.LabelledQuestion` | app.py:96 | right-stripping a non-blank-ended head, a space and the prompt leaves the head, then nothing if the prompt is blank, else a space and the prompt without its trailing whitespace |
| `Prompting.PromptWithoutDocument` | app.py:84-96 | with no uploaded file, or a cached text that is `None` or empty, the prompt sent is `"User Question: " + prompt` with trailing whitespace removed; a blank prompt gives `"User Question:"`; a stale cache without an upload adds no context |
| `Prompting.PromptWithDocument` | app.py:92-96 | with an upload and non-empty cached text `T`, the prompt sent is `"--- DOCUMENT CONTEXT ---\n" + T + "\n--- END CONTEXT ---\n\nUser Question: " + prompt` with only trailing whitespace removed, and it keeps the whole context block and label |
| `Chat.NeedsExtraction` | app.py:87 | the file is extracted again exactly when nothing is cached or the cached name differs from the upload's; a matching name is a cache hit whatever the file's contents |
| `Chat.CacheAfter` | app.py:85-90 | without an upload the cache is untouched; with one, the cache afterwards names the uploaded file; a cache that already names the upload is left as it was; when it changed it holds that file's extraction result, failures included |
| `Chat.SameNameExtractsOnce` | app.py:85-90 | any number of prompts made with uploads of one name run the extraction at most once, on the first prompt and only if the cache was empty or named another file; the cache afterwards is what that first step left |
| `Chat.FailedExtractionSticks` | app.py:87-92 | a failed extraction is cached as `None` under the file's name; later prompts with that name extract nothing more and send no document context |
| `Chat.RenamedFileReextracts` | app.py:87-90 | after any upload, a file under another name needs extraction, and the cache then holds that file's own extraction result |
| `Chat.Session.constructor` | app.py:17-18 | a new session has an empty history and nothing cached |
| `Chat.Session.PrepareContext` | app.py:84-93 | the extraction runs exactly when a file is uploaded and the cache is empty or names another file; the cache becomes the cache step's result; the context block is built from the cached text only when a file is uploaded |
| `Chat.Session.RecordExchange` | app.py:99-111 | the history gains the raw prompt as a user turn before the request; the payload sent is that history plus the assembled prompt, so its last two turns are the raw and the assembled prompt; the history then gains the returned text as an assistant turn, so it grows by 2 unless the reply lacks its content field |
| `Chat.Session.HandleQuestion` | app.py:84-111 | for a submitted question, the extraction runs exactly when a file is uploaded and the cache is stale; the cache becomes the cache step's result; the prompt sent is the assembled prompt built from it; the payload is the old history plus 3, ending with the raw and then the assembled prompt; the history gains the user turn and the returned text, error message included |
| `Chat.Session.HandlePrompt` | app.py:82-111 | a `None` or empty prompt changes nothing. Otherwise the cache is refreshed as above and the assembled prompt is built from it. The history gains the raw prompt as a user turn. The payload is the old history plus 3: its second-to-last turn is the raw prompt, its last the assembled prompt. The history then gains the returned text as an assistant turn, error message included, so it grows by exactly 2. Only a reply without the content field leaves it one longer |

## Left out

- Streamlit page setup, sidebar, upload widget, chat widgets, spinners, markdown rendering and the loop that shows the history (app.py:7-35, 100-107). These are user interface. The widgets' values are the parameters of `HandlePrompt`.
- The reruns of the script. Each call of `HandlePrompt` is one run of the page script for one submitted prompt. Reading the file's bytes (`pdf_file.read()`, app.py:42) is part of the abstract document.
- pypdf's parsing (app.py:42). It is a foreign library. A document is whatever the parser makes of the bytes: `Unreadable`, or a list of page results.
- The HTTP exchange: `requests.post`, headers, bearer token, the timeout, `raise_for_status` and JSON decoding (app.py:56-61, 75-77). These are network I/O. The endpoint is a function from the sent messages to an outcome. The text of an exception (`str(e)`) is an abstract string.
- The `st.error` message shown when extraction fails (app.py:48). It is user-interface output.
- The placeholder API key, endpoint URL and model name (app.py:54, 56, 66). They carry no behaviour. The payload's `model` field is not modelled.
- Exceptions other than a `RequestException` or a missing reply field, such as an interrupt during extraction. They are outside what the code handles.
- Python strings may hold lone surrogate code points. Dafny's `char` is a Unicode scalar value, so the model has no such strings.
