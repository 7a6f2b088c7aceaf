/** The main block of the chat page: the key/file guard, the cached PDF text, the conversation
    log kept in session state, and what one run of the page shows. */
module Session {
  import opened Wrappers
  import opened Turns
  import opened Persona
  import opened Pages

  /** What the page does on a run, by the order of its top-level guard. */
  datatype Gate = Chat | AskForKey | AskForFile

  /** The guard: an empty API key is reported before a missing upload. */
  function GateOf(apiKey: string, file: Option<seq<string>>): (g: Gate)
    ensures g == AskForKey <==> apiKey == ""
    ensures g == AskForFile <==> apiKey != "" && file.None?
    ensures g == Chat <==> apiKey != "" && file.Some?
  {
    if apiKey != "" && file.Some? then Chat
    else if apiKey == "" then AskForKey
    else AskForFile
  }

  /** The chat box yields a message only when it holds a non-empty string. */
  predicate Submitted(input: Option<string>) {
    input.Some? && input.value != ""
  }

  /** A chat bubble as drawn: its role, its avatar and its text. */
  datatype Bubble = Bubble(role: Role, avatar: string, content: string)

  function BubbleOf(t: Turn, mode: string): Bubble {
    Bubble(t.role, Avatar(t.role, mode), t.content)
  }

  /** The chat history drawn from a log: one bubble per non-system turn, in log order. */
  function Render(log: seq<Turn>, mode: string): (r: seq<Bubble>)
    ensures |r| == |Visible(log)|
    ensures forall k :: 0 <= k < |r| ==> r[k].role != System
  {
    var v := Visible(log);
    seq(|v|, k requires 0 <= k < |v| => BubbleOf(v[k], mode))
  }

  /** A turn added at the end of the log adds its own bubble at the end of the history, unless it
      is a system turn. */
  lemma RenderSnoc(log: seq<Turn>, t: Turn, mode: string)
    ensures Render(log + [t], mode)
         == Render(log, mode) + (if t.role == System then [] else [BubbleOf(t, mode)])
  {
    VisibleSnoc(log, t);
  }

  /** On a well-formed log the history has one bubble per turn after the system prompt, carrying
      that turn's role and text. */
  lemma RenderOfWellFormed(log: seq<Turn>, mode: string)
    requires WellFormed(log)
    ensures |Render(log, mode)| == |log| - 1
    ensures forall k :: 1 <= k < |log| ==>
              Render(log, mode)[k - 1] == Bubble(log[k].role, Avatar(log[k].role, mode), log[k].content)
  {
    VisibleOfWellFormed(log);
    var r := Render(log, mode);
    forall k | 1 <= k < |log|
      ensures r[k - 1] == Bubble(log[k].role, Avatar(log[k].role, mode), log[k].content)
    {
      assert Visible(log)[k - 1] == log[k];
    }
  }

  /** Earlier bubbles are redrawn with the avatar of the persona selected now: the same reply
      shows 😇 under the friendly label and 😈 after a switch to the savage one. */
  lemma ReplyAvatarFollowsCurrentMode(prompt: string, reply: string)
    ensures var log := [Turn(System, prompt), Turn(Assistant, reply)];
            Render(log, FriendlyLabel)[0].avatar == FriendlyIcon &&
            Render(log, SavageLabel)[0].avatar == SavageIcon
  {
    var log := [Turn(System, prompt), Turn(Assistant, reply)];
    RenderOfWellFormed(log, FriendlyLabel);
    RenderOfWellFormed(log, SavageLabel);
    FriendlyLabelAgrees();
    SavageLabelAgrees();
  }

  /** The log after the system-prompt update: created with the prompt as its only (system) turn,
      or with the prompt written into the content of the turn at index 0. */
  function Refreshed(log: Option<seq<Turn>>, prompt: string): (r: seq<Turn>)
    requires log.Some? ==> |log.value| > 0
    ensures |r| > 0 && r[0].content == prompt
    ensures log.None? ==> r == [Turn(System, prompt)]
    ensures log.Some? ==> |r| == |log.value| && r[0].role == log.value[0].role && r[1..] == log.value[1..]
    ensures log.None? || WellFormed(log.value) ==> WellFormed(r)
  {
    match log
    case None => [Turn(System, prompt)]
    case Some(l) => l[0 := l[0].(content := prompt)]
  }

  /** The session state the page keeps between runs. */
  class PageState {
    /** `st.session_state.messages`, absent until the first run that gets past the guard. */
    var messages: Option<seq<Turn>>
    /** `st.session_state.pdf_text`, absent until the first extraction. */
    var pdfText: Option<string>

    /** A log exists only once the text is cached, and it always holds exactly one system turn,
        at index 0. */
    predicate Valid()
      reads this
    {
      messages.Some? ==> WellFormed(messages.value) && pdfText.Some?
    }

    /** A fresh session: nothing stored yet. */
    constructor ()
      ensures Valid() && messages == None && pdfText == None
    {
      messages := None;
      pdfText := None;
    }

    /** Extract the PDF text only when none is cached; later runs reuse the cached text, even if
        the uploaded file has changed. */
    method CacheText(pages: seq<string>) returns (text: string)
      requires Valid()
      modifies this
      ensures Valid() && messages == old(messages)
      ensures pdfText == Some(text)
      ensures text == if old(pdfText).Some? then old(pdfText).value else Concat(pages)
    {
      if pdfText.None? {
        var extracted := ExtractText(pages);
        pdfText := Some(extracted);
      }
      text := pdfText.value;
    }

    /** Put the prompt for the selected persona into the log: create the log with it as its only
        turn, or overwrite only the content of turn 0. */
    method RefreshSystemTurn(mode: string)
      requires Valid() && pdfText.Some?
      modifies this
      ensures Valid() && pdfText == old(pdfText)
      ensures messages == Some(Refreshed(old(messages), SystemPrompt(mode, pdfText.value)))
    {
      var prompt := SystemPrompt(mode, pdfText.value);
      if messages.None? {
        messages := Some([Turn(System, prompt)]);
      } else {
        var log := messages.value;
        messages := Some(log[0 := log[0].(content := prompt)]);
      }
    }

    /** Append one user or assistant turn at the end of the log. */
    method AddTurn(role: Role, content: string)
      requires Valid() && messages.Some? && role != System
      modifies this
      ensures Valid() && pdfText == old(pdfText)
      ensures messages == Some(old(messages).value + [Turn(role, content)])
    {
      AppendKeepsWellFormed(messages.value, Turn(role, content));
      messages := Some(messages.value + [Turn(role, content)]);
    }

    /** One run of the page. `file` is the uploaded PDF's page texts, `input` what the chat box
        returned, and `reply` the outcome of the completion call (None when it raised). Returns
        the guard's verdict, the turns sent to the completion endpoint, if any, and the bubbles
        drawn: the history, then the new user bubble and the reply bubble. */
    method Run(apiKey: string, file: Option<seq<string>>, mode: string,
               input: Option<string>, reply: Option<string>)
        returns (gate: Gate, request: Option<seq<Turn>>, shown: seq<Bubble>)
      requires Valid()
      modifies this
      ensures Valid()
      ensures gate == GateOf(apiKey, file)
      ensures gate != Chat ==>
                messages == old(messages) && pdfText == old(pdfText) && request == None && shown == []
      ensures gate == Chat ==>
                pdfText == Some(if old(pdfText).Some? then old(pdfText).value else Concat(file.value)) &&
                var base := Refreshed(old(messages), SystemPrompt(mode, pdfText.value));
                (!Submitted(input) ==> request == None && messages == Some(base)) &&
                (Submitted(input) ==>
                   request == Some(base + [Turn(User, input.value)]) &&
                   messages == Some(request.value +
                                    if reply.Some? then [Turn(Assistant, reply.value)] else []))
      ensures messages.Some? && gate == Chat ==> shown == Render(messages.value, mode)
    {
      gate := GateOf(apiKey, file);
      request := None;
      shown := [];
      if gate != Chat {
        return;
      }
      var text := CacheText(file.value);
      RefreshSystemTurn(mode);
      ghost var base := messages.value;
      shown := Render(messages.value, mode);
      if Submitted(input) {
        AddTurn(User, input.value);
        request := messages;
        RenderSnoc(base, Turn(User, input.value), mode);
        shown := shown + [Bubble(User, UserIcon, input.value)];
        if reply.Some? {
          RenderSnoc(request.value, Turn(Assistant, reply.value), mode);
          AddTurn(Assistant, reply.value);
          shown := shown + [Bubble(Assistant, Avatar(Assistant, mode), reply.value)];
        } else {
          assert messages.value == request.value + [];
        }
      }
    }
  }
}
