# HR AI Reviewer chat page — verified model

A Dafny model of the logic of `app.py`, a Streamlit page on which a user uploads a CV as a PDF,
picks an HR persona ("😇 HR Ramah (Profesional)" or "😈 HR Jaksel (Savage/Galak)") and chats with
a language model about the CV. The model covers:

- **Persona prompt composer** (`get_system_prompt`, module `Persona`): the friendly template is
  picked only on an exact match of its label, every other mode string falls through to the savage
  template, and both templates embed the CV text verbatim after the `DATA CV KANDIDAT:` marker.
  `DocumentOf` reads the CV text back out of a prompt, which gives the composer an inverse.
- **Page-text extraction** (`extract_text_from_pdf`, module `Pages`): a loop that appends each
  page's text with no separator, proved equal to an in-order concatenation.
- **Conversation log** (module `Turns` and class `Session.PageState`): the list of `{role, content}`
  turns kept in session state. It is created with a single system turn. On every later run only
  the content of turn 0 is overwritten with the current persona's prompt. A submission appends a
  user turn, and a successful completion appends an assistant turn. The class invariant is that
  turn 0 is the only system turn. The PDF text is cached once and reused.
- **Display and guard** (modules `Session`, `Persona`, `Strings`): the history shows the non-system
  turns in log order. The avatar is chosen by a substring test for `"Ramah"`. The key check comes
  before the file check.

The persona is read from the mode string exactly as the source does. Prompt selection tests
equality with the friendly label, while the avatar tests whether the label contains `"Ramah"`. On
the two labels the radio button offers, the two tests agree (`FriendlyLabelAgrees`,
`SavageLabelAgrees`). On other strings they can disagree (`AvatarAndPromptCanDisagree`), but the
page never produces such a string. The history is redrawn on every run with the avatar of the
persona selected at that moment, so a reply first drawn with 😇 is shown with 😈 after a switch to
the savage persona (`ReplyAvatarFollowsCurrentMode`).

`app.py` has no retrieval step (no chunking, embeddings, vector index or top-k retrieval). It sends
the whole CV inside the system prompt and sends the user's question as a separate user turn, and
the model does the same.

## Model

| member | source | states |
|---|---|---|
| Strings.Contains | app.py:114 | Python's `t in s` on strings, computed by trying each start position of `s` in turn; its meaning is proved by `ContainsIffOccurs` |
| Strings.ContainsIffOccurs | app.py:114 | the `"Ramah" in mode` scan succeeds exactly when "Ramah" occurs at some position of the mode string |
| Strings.MissingCharRulesOut | app.py:135 | a mode lacking a letter of "Ramah" never gets the friendly icon |
| Turns.Visible | app.py:111-112 | the turns the history loop draws: never a system turn, each one a turn of the log, no more than the log holds; `VisibleMembers` and `VisibleOfWellFormed` give it exactly |
| Turns.VisibleSnoc | app.py:111-112 | a turn appended to the log joins the shown history at its end exactly when it is not a system turn |
| Turns.VisibleMembers | app.py:111-112 | a turn is shown iff it is in the log and its role is not system |
| Turns.VisibleOfWellFormed | app.py:104-112 | on a log whose only system turn is at index 0, the history is exactly the turns after index 0, in order |
| Turns.AppendKeepsWellFormed | app.py:122 | appending a user or assistant turn keeps exactly one system turn, still at index 0 |
| Persona.PersonaOf | app.py:61 | the exact-equality test on the mode label: the friendly template for the friendly label, the savage template for every other string (see `FriendlyIffExactLabel`) |
| Persona.SystemPrompt | app.py:60-85 | `get_system_prompt`: the selected template filled with the CV text; proved by `FriendlyIffExactLabel`, `CvFollowsMarker`, `DocumentRoundTrip` and `TemplatesDiffer` |
| Persona.Avatar | app.py:114 | 👤 for user turns, otherwise 😇 when the mode contains "Ramah" and 😈 when it does not (see `FriendlyLabelAgrees`, `SavageLabelAgrees`) |
| Persona.DirectivesDiffer | app.py:62-82 | the two persona directives differ (the savage one is longer) |
| Persona.TemplatesDiffer | app.py:60-85 | for every CV text the friendly and the savage prompts differ |
| Persona.FriendlyIffExactLabel | app.py:60-71 | the prompt is the friendly template iff the mode equals the friendly label exactly; every other mode string gets the savage template |
| Persona.CvFollowsMarker | app.py:68-84 | in both prompts the CV text appears verbatim right after `DATA CV KANDIDAT:` and its line break |
| Persona.DocumentRoundTrip | app.py:60-85 | the CV text read back from any prompt, under the persona that built it, is the CV text put in |
| Persona.PersonaSwitchKeepsDocument | app.py:102 | switching persona changes only the directive: both prompts carry the same document text |
| Persona.FriendlyLabelAgrees | app.py:114 | the friendly label selects both the friendly prompt and the friendly avatar |
| Persona.SavageLabelAgrees | app.py:135 | the savage label selects both the savage prompt and the savage avatar |
| Persona.AvatarAndPromptCanDisagree | app.py:61 | some mode, namely `"Ramah"`, gets the friendly avatar but the savage prompt: the two tests can part ways |
| Pages.ExtractText | app.py:52-57 | the accumulated text equals the page texts concatenated in order with no separator |
| Pages.ConcatAppend | app.py:54-56 | extracting two runs of pages gives the concatenation of their texts |
| Pages.ConcatLength | app.py:55-56 | the text is exactly as long as all pages together: no separator is inserted |
| Pages.PageAt | app.py:55-57 | every page's text appears verbatim, starting where the text of the pages before it ends |
| Session.GateOf | app.py:142-145 | an empty API key is reported whatever the upload; a missing file only when the key is present; chat only with both |
| Session.Submitted | app.py:119 | the walrus test on the chat box: a message is taken only when the box returned a non-empty string |
| Session.Render | app.py:111-116 | one bubble per shown turn, none of them a system turn |
| Session.RenderSnoc | app.py:121-137 | under the same mode, the user bubble and the reply bubble drawn on a run are what the history shows for the appended turns on later runs |
| Session.ReplyAvatarFollowsCurrentMode | app.py:114 | an earlier reply is redrawn with the avatar of the current mode: 😇 under the friendly label, 😈 under the savage label |
| Session.RenderOfWellFormed | app.py:111-116 | the history of a well-formed log has one bubble per turn after index 0 with that turn's role and text, avatar 👤 for user and 😇/😈 by the substring test otherwise |
| Session.Refreshed | app.py:104-108 | with no log, the log becomes exactly one system turn holding the prompt; with a log, only turn 0's content changes (length, turn 0's role and all later turns unchanged); the single-system-turn shape is kept |
| Session.PageState.constructor | app.py:95-104 | a new session holds neither `pdf_text` nor `messages`, which is what the two "not in st.session_state" tests see on the first run |
| Session.PageState.CacheText | app.py:95-97 | the PDF text is extracted only when none is cached; otherwise the cached text is returned unchanged and the log is untouched |
| Session.PageState.RefreshSystemTurn | app.py:102-108 | the log becomes the refreshed log for the prompt built from the cached text and the selected persona; the invariant is kept |
| Session.PageState.AddTurn | app.py:122-137 | the log gains exactly the given user or assistant turn at its end |
| Session.PageState.Run | app.py:90-140 | without key or file nothing changes; otherwise the text is cached, turn 0 carries the current persona's prompt, and a submission appends one user turn, sends that log, and then appends one assistant turn with the reply, or nothing more when the call fails; the bubbles drawn equal the history of the new log |

## Left out

- Page rendering: page config, visitor badge, CSS, title, sidebar widgets, spinner, and the success, warning, info and error messages (app.py:6-49, 96-98, 140, 143-145). Only the order of the guard is kept (`Session.GateOf`).
- PDF parsing (`PdfReader`, `page.extract_text`, app.py:53-56) is a foreign library. The pages reach the model as their extracted texts (`seq<string>`). A PyPDF2 exception at app.py:97 is not caught: it ends the run before `pdf_text` is set. The model does not represent that path.
- The Groq client, the network call, its 120-second timeout, the temperature 0.8 and the model name (app.py:92, 127-132). These are a remote service, wall-clock time and a float. The reply is an opaque `Option<string>` parameter of `Session.PageState.Run`, and `None` stands for any exception. The model says which turns are sent but not what the service answers.
- The exception message text (app.py:140). Only its effect, no assistant turn, is modelled.
- Persona.Directive: only the opening line of each template's directive is reproduced (app.py:63 and app.py:73), plus the template's indentation. The remaining directive lines (app.py:64-67, 74-82) are not. The properties proved do not depend on that text beyond the two directives being different.
- Roles are the enumeration `System | User | Assistant` rather than strings, because the page only ever writes these three.
- Chunking, embedding, vector indexing and retrieval: no source file holds this pipeline, so there is nothing to model it against.
