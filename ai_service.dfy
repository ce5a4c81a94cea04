/** The string logic of backend/app/services/ai_service.py around the Gemini model: the
    prompt with the recent history, the classification of errors into the two fixed
    replies, and the conversation title with its fallbacks. The model itself and the
    knowledge base are outside the model: the system prompt is a parameter, and each call
    receives what the model answered. */
module AiService {
  import opened Options
  import Text
  import Lists

  /** One message of the conversation history passed as `context`. */
  datatype ContextEntry = ContextEntry(role: string, content: string)

  /** How many of the latest history entries the prompt keeps. */
  const HistoryWindow := 6
  const TitleFallbackLength := 50
  const TitleMaxLength := 100

  const UnavailableReply := "⚠️ **Service indisponible**\n\nL'IA est temporairement indisponible (Quota API ou erreur configuration)."
  const QuotaReply := "⚠️ **Quota API dépassé**\n\nTrop de requêtes aujourd'hui. Réessayez demain ou contactez courrier@uvci.edu.ci"
  const TechnicalReply := "⚠️ **Erreur technique**\n\nProblème de connexion. Contactez courrier@uvci.edu.ci"
  /** `str(e)` of the AttributeError raised when `generate_response` runs without a model. */
  const NoModelError := "'NoneType' object has no attribute 'generate_content'"

  /** `context[-6:]`: the last six entries, or all of them when there are fewer. */
  function LastWindow(context: seq<ContextEntry>): (w: seq<ContextEntry>)
    ensures |w| == if |context| < HistoryWindow then |context| else HistoryWindow
    ensures w == context[|context| - |w|..]
  {
    if |context| <= HistoryWindow then context else context[|context| - HistoryWindow..]
  }

  /** The speaker label of an entry: only the 'user' role is the student. */
  function Label(role: string): (l: string)
    ensures l == "Étudiant" <==> role == "user"
    ensures l == "Assistant" <==> role != "user"
  {
    if role == "user" then "Étudiant" else "Assistant"
  }

  /** `f"{role}: {msg['content']}\n"`. */
  function HistoryLine(e: ContextEntry): string {
    Label(e.role) + ": " + e.content + "\n"
  }

  /** The lines of the given entries, in order. */
  function Lines(entries: seq<ContextEntry>): string {
    if entries == [] then "" else Lines(entries[..|entries| - 1]) + HistoryLine(entries[|entries| - 1])
  }

  /** `history_messages`: empty for a missing or empty context. */
  function History(context: Option<seq<ContextEntry>>): string {
    if context.None? then "" else Lines(LastWindow(context.value))
  }

  /** Entries older than the window do not reach the prompt. */
  lemma OlderEntriesAreDropped(older: seq<ContextEntry>, recent: seq<ContextEntry>)
    requires |recent| >= HistoryWindow
    ensures History(Some(older + recent)) == History(Some(recent))
  {
    var all := older + recent;
    assert all[|all| - HistoryWindow..] == recent[|recent| - HistoryWindow..];
    assert LastWindow(all) == LastWindow(recent);
  }

  /** The prompt around the history: system prompt, history, the student's line, the cue. */
  function Prompt(systemPrompt: string, history: string, userMessage: string): string {
    systemPrompt + "\n\n" + history + "\n\nÉtudiant: " + userMessage + "\n\nAssistant UVCI:"
  }

  /** Every prompt ends with the student's message followed by a blank line and the cue. */
  lemma PromptEndsWithCue(systemPrompt: string, history: string, userMessage: string)
    ensures var p := Prompt(systemPrompt, history, userMessage);
      var tail := "Étudiant: " + userMessage + "\n\nAssistant UVCI:";
      |tail| <= |p| && p[|p| - |tail|..] == tail
  {
  }

  /** `_build_full_prompt`. */
  method BuildFullPrompt(systemPrompt: string, userMessage: string, context: Option<seq<ContextEntry>>)
    returns (prompt: string)
    ensures prompt == Prompt(systemPrompt, History(context), userMessage)
  {
    var history := "";
    if context.Some? && context.value != [] {
      var window := LastWindow(context.value);
      var i := 0;
      while i < |window|
        invariant 0 <= i <= |window|
        invariant history == Lines(window[..i])
      {
        assert window[..i + 1][..i] == window[..i];
        history := history + HistoryLine(window[i]);
        i := i + 1;
      }
      assert window[..i] == window;
    }
    prompt := systemPrompt + "\n\n" + history + "\n\nÉtudiant: " + userMessage + "\n\nAssistant UVCI:";
  }

  /** The quota test: "429" in the text, or "quota" in its lower-cased form. Only ASCII
      letters lower-case to the letters of "quota", so the ASCII lowering finds the same
      occurrences as Python's `lower()`. */
  predicate IsQuotaError(errorText: string) {
    Text.Contains(errorText, "429") || Text.Contains(Text.AsciiLower(errorText), "quota")
  }

  /** The reply an error turns into, in both `generate_response_stream` and `generate_response`. */
  function ErrorReply(errorText: string): (reply: string)
    ensures reply == QuotaReply <==> IsQuotaError(errorText)
    ensures reply == TechnicalReply <==> !IsQuotaError(errorText)
  {
    if IsQuotaError(errorText) then QuotaReply else TechnicalReply
  }

  /** A rate-limit status code in the error text always gives the quota reply. */
  lemma StatusCodeIsQuota(before: string, after: string)
    ensures ErrorReply(before + "429" + after) == QuotaReply
  {
    var s := before + "429" + after;
    assert Text.OccursAt(s, "429", |before|);
    Text.ContainsIff(s, "429");
  }

  /** What the model's stream delivers: fragment texts (`None` or empty for a fragment without
      text), then possibly the error text of an exception that ended it. */
  datatype StreamAnswer = StreamAnswer(fragments: seq<Option<string>>, raised: Option<string>)

  function TruthyFragment(f: Option<string>): bool {
    Truthy(f)
  }

  /** `generate_response_stream`: the yielded strings. */
  function GenerateResponseStream(hasModel: bool, answer: StreamAnswer): (out: seq<string>)
    ensures !hasModel ==> out == [UnavailableReply]
    ensures hasModel ==> |out| == |Lists.Filter(answer.fragments, TruthyFragment)| + (if answer.raised.Some? then 1 else 0)
    ensures hasModel ==> var kept := Lists.Filter(answer.fragments, TruthyFragment);
      forall i :: 0 <= i < |kept| ==> out[i] == kept[i].value
    ensures hasModel && answer.raised.Some? ==> out[|out| - 1] == ErrorReply(answer.raised.value)
    ensures forall i :: 0 <= i < |out| ==> out[i] != ""
  {
    if !hasModel then [UnavailableReply]
    else
      var kept := Lists.Filter(answer.fragments, TruthyFragment);
      var texts := seq(|kept|, i requires 0 <= i < |kept| => kept[i].GetOr(""));
      texts + (if answer.raised.Some? then [ErrorReply(answer.raised.value)] else [])
  }

  /** `generate_response`: the stripped answer text, or the reply for the error raised.
      Without a model the call itself raises an AttributeError. */
  function GenerateResponse(hasModel: bool, answer: Result<string, string>): (reply: string)
    ensures !hasModel ==> reply == ErrorReply(NoModelError)
    ensures hasModel && answer.Ok? ==> reply == Text.PyStrip(answer.value)
    ensures hasModel && answer.Err? ==> reply == ErrorReply(answer.error)
  {
    if !hasModel then ErrorReply(NoModelError)
    else match answer
      case Ok(text) => Text.PyStrip(text)
      case Err(e) => ErrorReply(e)
  }

  /** A text lacking one of the characters of `sub` does not contain `sub`. */
  lemma MissingCharacterExcludes(s: string, sub: string, k: nat)
    requires k < |sub| && forall i :: 0 <= i < |s| ==> s[i] != sub[k]
    ensures !Text.Contains(s, sub)
  {
    Text.ContainsIff(s, sub);
  }

  /** `s` has none of the characters that start "429", "quota" or its capitalised form. */
  predicate AvoidsQuotaMarks(s: string) {
    forall i :: 0 <= i < |s| ==> s[i] != '4' && s[i] != 'q' && s[i] != 'Q'
  }

  lemma AvoidsQuotaMarksAppend(a: string, b: string)
    requires AvoidsQuotaMarks(a) && AvoidsQuotaMarks(b)
    ensures AvoidsQuotaMarks(a + b)
  {
  }

  /** An error text without those characters is never a quota error. */
  lemma AvoidingTextIsNotQuota(s: string)
    requires AvoidsQuotaMarks(s)
    ensures !IsQuotaError(s)
  {
    MissingCharacterExcludes(s, "429", 0);
    var low := Text.AsciiLower(s);
    assert forall i :: 0 <= i < |low| ==> low[i] != 'q';
    MissingCharacterExcludes(low, "quota", 0);
  }

  lemma NoModelErrorAvoidsQuotaMarks()
    ensures AvoidsQuotaMarks(NoModelError)
  {
    assert AvoidsQuotaMarks("'NoneType' ") && AvoidsQuotaMarks("object has ");
    assert AvoidsQuotaMarks("no attribute ") && AvoidsQuotaMarks("'generate_content'");
    AvoidsQuotaMarksAppend("'NoneType' ", "object has ");
    AvoidsQuotaMarksAppend("'NoneType' object has ", "no attribute ");
    AvoidsQuotaMarksAppend("'NoneType' object has no attribute ", "'generate_content'");
  }

  /** Without a model, `generate_response` answers with the technical reply. */
  lemma NoModelIsTechnical(answer: Result<string, string>)
    ensures GenerateResponse(false, answer) == TechnicalReply
  {
    NoModelErrorAvoidsQuotaMarks();
    AvoidingTextIsNotQuota(NoModelError);
  }

  predicate IsDoubleQuote(c: char) {
    c == '"'
  }

  predicate IsSingleQuote(c: char) {
    c == '\''
  }

  predicate IsDot(c: char) {
    c == '.'
  }

  /** `response.text.strip().strip('"').strip("'").rstrip('.')`. */
  function CleanTitle(text: string): (t: string)
    ensures |t| <= |text|
    ensures t == [] || t[|t| - 1] != '.'
  {
    var a := Text.PyStrip(text);
    var b := Text.Strip(a, IsDoubleQuote);
    var c := Text.Strip(b, IsSingleQuote);
    assert |a| <= |text| && |b| <= |a| && |c| <= |b|;
    Text.RStrip(c, IsDot)
  }

  /** `generate_conversation_title`. */
  function GenerateConversationTitle(firstMessage: string, hasModel: bool, answer: Result<string, string>): (title: string)
    ensures !hasModel ==> title == Text.Take(firstMessage, TitleFallbackLength)
    ensures hasModel && answer.Ok? ==> |title| <= TitleMaxLength && title == Text.Take(CleanTitle(answer.value), TitleMaxLength)
    ensures hasModel && answer.Err? ==>
      (if |firstMessage| > TitleFallbackLength then title == firstMessage[..TitleFallbackLength] + "..." else title == firstMessage)
  {
    if !hasModel then Text.Take(firstMessage, TitleFallbackLength)
    else match answer
      case Ok(text) => Text.Take(CleanTitle(text), TitleMaxLength)
      case Err(_) =>
        if |firstMessage| > TitleFallbackLength then Text.Take(firstMessage, TitleFallbackLength) + "..." else firstMessage
  }

  /** Every fallback title starts with the first message as far as it goes, is at most 53
      characters, and is the unchanged message when that has 50 characters or fewer. */
  lemma TitleFallbacks(firstMessage: string, hasModel: bool, error: string)
    ensures |GenerateConversationTitle(firstMessage, hasModel, Err(error))| <= TitleFallbackLength + 3
    ensures var t := GenerateConversationTitle(firstMessage, hasModel, Err(error));
      var n := if |firstMessage| < TitleFallbackLength then |firstMessage| else TitleFallbackLength;
      n <= |t| && t[..n] == firstMessage[..n]
    ensures |firstMessage| <= TitleFallbackLength ==> GenerateConversationTitle(firstMessage, hasModel, Err(error)) == firstMessage
  {
  }
}
