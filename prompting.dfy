/**
 * The prompt sent for a new turn: the cached document text, if any, inside
 * literal markers, then the user's question, the whole trimmed with Python's
 * `str.strip()`.
 */
module Prompting {
  import opened Wrappers
  import opened PyStrings

  const ContextOpen := "--- DOCUMENT CONTEXT ---\n"
  const ContextClose := "\n--- END CONTEXT ---"
  const QuestionLabel := "User Question:"

  /**
   * `document_context`: the empty string, unless a file is uploaded and the
   * cached text is truthy (neither `None` nor empty).
   */
  function DocumentContext(filePresent: bool, docText: Option<string>): (r: string)
    ensures r == "" <==> !filePresent || docText.None? || docText.value == ""
    ensures r != "" ==> |r| == |ContextOpen| + |docText.value| + |ContextClose|
  {
    if filePresent && docText.Some? && docText.value != "" then ContextOpen + docText.value + ContextClose else ""
  }

  /** `full_prompt`: the context, a blank line and the labelled question, then `strip()`. */
  function FullPrompt(context: string, prompt: string): (r: string)
    ensures r != "" && !IsSpace(r[0]) && !IsSpace(r[|r| - 1])
    ensures |r| <= |context| + |prompt| + 17
  {
    var s := context + "\n\nUser Question: " + prompt;
    assert s[|context| + 2] == 'U';
    Strip(s)
  }

  /** What follows the label once trailing whitespace is gone: nothing for a blank prompt, else a space and the trimmed prompt. */
  function QuestionTail(prompt: string): string {
    if AllSpace(prompt) then "" else " " + RStrip(prompt)
  }

  /** `rstrip` of the label, a space and the prompt. */
  lemma LabelledQuestion(head: string, prompt: string)
    requires head != [] && !IsSpace(head[|head| - 1])
    ensures RStrip(head + " " + prompt) == head + QuestionTail(prompt)
  {
    var tail := " " + prompt;
    assert head + " " + prompt == head + tail;
    RStripAppend(head, tail);
    assert RStrip(head) == head;
    if AllSpace(prompt) {
      assert AllSpace(tail) by {
        forall i | 0 <= i < |tail| ensures IsSpace(tail[i]) {
          if i > 0 { assert tail[i] == prompt[i - 1]; }
        }
      }
    } else {
      var j :| 0 <= j < |prompt| && !IsSpace(prompt[j]);
      assert tail[j + 1] == prompt[j];
      RStripAppend(" ", prompt);
    }
  }

  /**
   * Without an uploaded file, or with a falsy cached text, the prompt sent is
   * the labelled question with trailing whitespace removed; a blank prompt
   * leaves just the label. A cached text that belongs to no uploaded file is
   * ignored.
   */
  lemma PromptWithoutDocument(filePresent: bool, docText: Option<string>, prompt: string)
    requires !filePresent || docText.None? || docText.value == ""
    ensures FullPrompt(DocumentContext(filePresent, docText), prompt) == RStrip("User Question: " + prompt)
    ensures FullPrompt(DocumentContext(filePresent, docText), prompt) == QuestionLabel + QuestionTail(prompt)
    ensures AllSpace(prompt) ==> FullPrompt(DocumentContext(filePresent, docText), prompt) == QuestionLabel
  {
    assert DocumentContext(filePresent, docText) == "";
    NoContextPrompt(prompt);
    assert AllSpace(prompt) ==> QuestionTail(prompt) == "";
  }

  /** With an empty context only the two leading newlines are stripped from the front. */
  lemma NoContextPrompt(prompt: string)
    ensures FullPrompt("", prompt) == RStrip("User Question: " + prompt)
    ensures RStrip("User Question: " + prompt) == QuestionLabel + QuestionTail(prompt)
  {
    var body := "User Question: " + prompt;
    assert "" + "\n\nUser Question: " + prompt == "\n\n" + body;
    assert body[0] == 'U';
    LStripAfterSpace("\n\n", body);
    assert body == QuestionLabel + " " + prompt;
    LabelledQuestion(QuestionLabel, prompt);
  }

  /**
   * With an uploaded file and a non-empty cached text, the prompt sent is the
   * text between the markers followed by the labelled question; it starts with
   * a marker, so only trailing whitespace is removed.
   */
  lemma PromptWithDocument(text: string, prompt: string)
    requires text != ""
    ensures FullPrompt(DocumentContext(true, Some(text)), prompt)
         == RStrip(ContextOpen + text + ContextClose + "\n\nUser Question: " + prompt)
    ensures FullPrompt(DocumentContext(true, Some(text)), prompt)
         == ContextOpen + text + ContextClose + "\n\n" + QuestionLabel + QuestionTail(prompt)
  {
    var s := ContextOpen + text + ContextClose + "\n\nUser Question: " + prompt;
    assert s[0] == '-';
    LStripAfterSpace([], s);
    assert [] + s == s;
    var head := ContextOpen + text + ContextClose + "\n\n" + QuestionLabel;
    assert s == head + " " + prompt;
    LabelledQuestion(head, prompt);
  }
}
