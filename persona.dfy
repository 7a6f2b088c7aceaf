/** The persona prompt composer (`get_system_prompt`) and the avatar choice of the chat page. */
module Persona {
  import opened Wrappers
  import opened Strings
  import opened Turns

  /** The two labels of the sidebar radio button. */
  const FriendlyLabel: string := "😇 HR Ramah (Profesional)"
  const SavageLabel: string := "😈 HR Jaksel (Savage/Galak)"

  /** The avatars: the candidate, and the reviewer in each mood. */
  const UserIcon: string := "👤"
  const FriendlyIcon: string := "😇"
  const SavageIcon: string := "😈"

  /** The two prompt templates. */
  datatype Mood = Friendly | Savage

  /** The tone directive that opens each template, up to the document marker: a shared opening,
      the persona's own description of the reviewer, and the blank indented line before the marker. */
  function Directive(p: Mood): string {
    Opening + Voice(p) + Indent + Indent
  }

  /** The words both directives begin with. */
  const Opening: string := "\n        Kamu adalah HRD Manager "

  /** The rest of each template's opening line: who the reviewer is. */
  function Voice(p: Mood): string {
    match p
    case Friendly => "yang sangat profesional, ramah, suportif, dan keibuan/kebapakan."
    case Savage => "\"Anak Jaksel\" yang sangat galak, sinis, judgemental, dan elitist."
  }

  /** The fixed text that introduces the CV in both templates. */
  const Marker: string := "DATA CV KANDIDAT:"
  /** Line break and indentation between the marker and the CV, and after the CV. */
  const Indent: string := "\n        "

  /** Everything a template puts before the CV text. */
  function Header(p: Mood): string {
    Directive(p) + Marker + Indent
  }

  /** A template filled with the CV text. */
  function Template(p: Mood, cvText: string): string {
    Header(p) + cvText + Indent
  }

  /** The friendly template is chosen only on an exact match of its label. */
  function PersonaOf(mode: string): Mood {
    if mode == FriendlyLabel then Friendly else Savage
  }

  /** `get_system_prompt(mode, cv_text)`. */
  function SystemPrompt(mode: string, cvText: string): string {
    Template(PersonaOf(mode), cvText)
  }

  /** Recovers the CV text from a prompt built with persona `p`: the part between the header and
      the closing indentation, or None when the prompt is not of that shape. */
  function DocumentOf(p: Mood, prompt: string): (r: Option<string>)
    ensures r.Some? ==> prompt == Header(p) + r.value + Indent
  {
    var h := Header(p);
    if |h| + |Indent| <= |prompt| && prompt[..|h|] == h && prompt[|prompt| - |Indent|..] == Indent
    then
      var doc := prompt[|h|..|prompt| - |Indent|];
      assert prompt == prompt[..|h|] + doc + prompt[|prompt| - |Indent|..];
      Some(doc)
    else None
  }

  /** The savage directive is longer than the friendly one, so the two can never coincide. */
  lemma DirectivesDiffer()
    ensures |Directive(Friendly)| < |Directive(Savage)|
  {
    assert |Voice(Friendly)| == 64 && |Voice(Savage)| == 65;
  }

  /** For the same CV the two personas give different prompts. */
  lemma {:induction false} TemplatesDiffer(cvText: string)
    ensures Template(Friendly, cvText) != Template(Savage, cvText)
  {
    DirectivesDiffer();
    assert |Template(Friendly, cvText)| < |Template(Savage, cvText)|;
  }

  /** The friendly prompt comes out exactly for the friendly label; every other mode string, not
      only the savage label, gets the savage prompt. */
  lemma FriendlyIffExactLabel(mode: string, cvText: string)
    ensures SystemPrompt(mode, cvText) == Template(Friendly, cvText) <==> mode == FriendlyLabel
    ensures mode != FriendlyLabel ==> SystemPrompt(mode, cvText) == Template(Savage, cvText)
  {
    TemplatesDiffer(cvText);
  }

  /** In every prompt the CV text appears verbatim right after the marker and its indentation. */
  lemma CvFollowsMarker(mode: string, cvText: string)
    ensures var r := SystemPrompt(mode, cvText);
            var i := |Directive(PersonaOf(mode))|;
            i + |Marker| + |Indent| + |cvText| <= |r| &&
            r[i..i + |Marker|] == Marker &&
            r[i + |Marker| + |Indent|..i + |Marker| + |Indent| + |cvText|] == cvText
  {
    var r := SystemPrompt(mode, cvText);
    var d := Directive(PersonaOf(mode));
    assert r == d + Marker + Indent + cvText + Indent;
    var i := |d|;
    assert r[i..i + |Marker|] == Marker;
    assert r[i + |Marker| + |Indent|..i + |Marker| + |Indent| + |cvText|] == cvText;
  }

  /** The CV text can be read back out of any prompt under the persona that built it. */
  lemma {:induction false} DocumentRoundTrip(mode: string, cvText: string)
    ensures DocumentOf(PersonaOf(mode), SystemPrompt(mode, cvText)) == Some(cvText)
  {
    var p := PersonaOf(mode);
    var h := Header(p);
    var r := SystemPrompt(mode, cvText);
    assert r == h + cvText + Indent;
    assert r[..|h|] == h;
    assert r[|r| - |Indent|..] == Indent;
    assert r[|h|..|r| - |Indent|] == cvText;
  }

  /** Switching persona re-templates the same document: the CV text carried by the prompt does not
      depend on the mode. */
  lemma PersonaSwitchKeepsDocument(mode1: string, mode2: string, cvText: string)
    ensures DocumentOf(PersonaOf(mode1), SystemPrompt(mode1, cvText))
         == DocumentOf(PersonaOf(mode2), SystemPrompt(mode2, cvText))
  {
    DocumentRoundTrip(mode1, cvText);
    DocumentRoundTrip(mode2, cvText);
  }

  /** The avatar of a shown turn: the candidate icon for user turns, otherwise the reviewer icon,
      chosen by a substring test for "Ramah" on the mode label. */
  function Avatar(role: Role, mode: string): string {
    if role == User then UserIcon
    else if Contains(mode, "Ramah") then FriendlyIcon
    else SavageIcon
  }

  /** The friendly label selects the friendly prompt and, containing "Ramah", the friendly avatar. */
  lemma FriendlyLabelAgrees()
    ensures PersonaOf(FriendlyLabel) == Friendly && Avatar(Assistant, FriendlyLabel) == FriendlyIcon
  {
    assert FriendlyLabel[5..10] == "Ramah";
    ContainsWhenOccurs(FriendlyLabel, "Ramah", 5);
  }

  /** The savage label selects the savage prompt and, lacking "Ramah", the savage avatar. */
  lemma SavageLabelAgrees()
    ensures PersonaOf(SavageLabel) == Savage && Avatar(Assistant, SavageLabel) == SavageIcon
  {
    SavageLabelLacksRamah();
    assert SavageLabel[0] != FriendlyLabel[0];
  }

  lemma SavageLabelLacksRamah()
    ensures !Contains(SavageLabel, "Ramah")
  {
    assert 'm' !in SavageLabel;
    MissingCharRulesOut(SavageLabel, "Ramah", 'm');
  }

  /** Off the radio labels the two tests part ways: a mode that merely contains "Ramah" gets the
      friendly avatar but the savage prompt. */
  lemma AvatarAndPromptCanDisagree()
    ensures Avatar(Assistant, "Ramah") == FriendlyIcon && PersonaOf("Ramah") == Savage
  {
    assert "Ramah"[0..5] == "Ramah";
    ContainsWhenOccurs("Ramah", "Ramah", 0);
  }
}
