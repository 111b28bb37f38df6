/**
 * The message list of the assistant chat: a greeting to start with, a
 * whitespace guard on submitted questions, a history snapshot taken before the
 * question is appended, and model replies or an apology appended when the
 * advice action answers.
 *
 * Message ids come from the clock; each clock reading is a parameter.
 */
module AssistantChat {
  import opened Wrappers

  /** Who wrote a message. */
  datatype Role = User | Model

  /** One message of the list. */
  datatype Message = Message(id: int, role: Role, content: string)

  /** One entry of the `chatHistory` sent with a question: the message without its id. */
  datatype Turn = Turn(role: Role, content: string)

  /** What a submit hands to the advice action: the question and the history before it. */
  datatype AdviceRequest = AdviceRequest(question: string, chatHistory: seq<Turn>)

  /** The advice action's state, as the chat reacts to it. */
  datatype AdviceState = AdviceState(response: Option<string>, error: Option<string>)

  const GreetingText := "Merhaba! Ben Veteriner AI Asistanınız. Hayvanınızın sağlığı veya davranışıyla ilgili herhangi bir sorunuzda size yardımcı olmak için buradayım. Lütfen unutmayın, ben yalnızca bir yapay zeka asistanıyım ve acil durumlarda veya ciddi endişelerinizde gerçek bir veterinere danışmanız önemlidir. Size nasıl yardımcı olabilirim?"
  const ApologyText := "Üzgünüm, bir hata oluştu. Lütfen daha sonra tekrar deneyin."

  /** The first message of every chat. */
  const Greeting := Message(1, Model, GreetingText)

  // ---------------------------------------------------------------------------
  // String.prototype.trim
  // ---------------------------------------------------------------------------

  /** The characters `trim` removes: ECMAScript's WhiteSpace and LineTerminator characters. */
  predicate IsWhitespace(c: char) {
    || c == '\t' || c == '\n' || c == '\U{000B}' || c == '\U{000C}' || c == '\r' || c == ' '
    || c == '\U{00A0}' || c == '\U{1680}' || ('\U{2000}' <= c <= '\U{200A}')
    || c == '\U{2028}' || c == '\U{2029}' || c == '\U{202F}' || c == '\U{205F}'
    || c == '\U{3000}' || c == '\U{FEFF}'
  }

  /** `s` with its leading whitespace removed. */
  function TrimStart(s: string): (r: string)
    ensures |r| <= |s| && r == s[|s| - |r|..]
    ensures forall i :: 0 <= i < |s| - |r| ==> IsWhitespace(s[i])
    ensures r == [] || !IsWhitespace(r[0])
  {
    if s != [] && IsWhitespace(s[0]) then TrimStart(s[1..]) else s
  }

  /** `s` with its trailing whitespace removed. */
  function TrimEnd(s: string): (r: string)
    ensures |r| <= |s| && r == s[..|r|]
    ensures forall i :: |r| <= i < |s| ==> IsWhitespace(s[i])
    ensures r == [] || !IsWhitespace(r[|r| - 1])
  {
    if s != [] && IsWhitespace(s[|s| - 1]) then TrimEnd(s[..|s| - 1]) else s
  }

  /** `s.trim()`. */
  function Trim(s: string): string {
    TrimEnd(TrimStart(s))
  }

  /** `!question.trim()`: the question is empty once trimmed. */
  predicate IsBlank(question: string) {
    Trim(question) == ""
  }

  /** A question is blank exactly when every one of its characters is whitespace. */
  lemma BlankIffAllWhitespace(s: string)
    ensures IsBlank(s) <==> forall i :: 0 <= i < |s| ==> IsWhitespace(s[i])
  {
  }

  // ---------------------------------------------------------------------------
  // The chat component's state
  // ---------------------------------------------------------------------------

  /** `messages.map(msg => ({ role: msg.role, content: msg.content }))`. */
  function HistoryOf(messages: seq<Message>): (h: seq<Turn>)
    ensures |h| == |messages|
    ensures forall i :: 0 <= i < |messages| ==> h[i] == Turn(messages[i].role, messages[i].content)
  {
    if messages == [] then [] else [Turn(messages[0].role, messages[0].content)] + HistoryOf(messages[1..])
  }

  /** A JavaScript string value is truthy: present and not empty. */
  predicate Truthy(s: Option<string>) {
    s.Some? && s.value != ""
  }

  /** The `AiAssistantChat` component's state: its message list and the input box. */
  class Chat {
    var messages: seq<Message>
    var input: string

    /** The greeting stays first: messages are only ever appended. */
    ghost predicate Valid()
      reads this
    {
      |messages| >= 1 && messages[0] == Greeting
    }

    /** The initial state: the greeting alone, and an empty input box. */
    constructor ()
      ensures Valid()
      ensures messages == [Greeting] && input == ""
    {
      messages := [Greeting];
      input := "";
    }

    /** The input box's `onChange`. */
    method Edit(value: string)
      requires Valid()
      modifies this
      ensures Valid()
      ensures input == value && messages == old(messages)
    {
      input := value;
    }

    /**
     * `handleFormSubmit`: a blank question changes nothing and sends nothing.
     * Otherwise the question is appended as a user message, the advice action
     * receives it with the history of the messages before it, and the input
     * box is cleared.
     */
    method Submit(question: string, now: int) returns (sent: Option<AdviceRequest>)
      requires Valid()
      modifies this
      ensures Valid()
      ensures IsBlank(question) ==> sent == None && messages == old(messages) && input == old(input)
      ensures !IsBlank(question) ==>
        && messages == old(messages) + [Message(now, User, question)]
        && sent == Some(AdviceRequest(question, HistoryOf(old(messages))))
        && input == ""
    {
      if IsBlank(question) {
        return None;
      }
      // The history is read from the list as it was before the append.
      var chatHistory := HistoryOf(messages);
      messages := messages + [Message(now, User, question)];
      sent := Some(AdviceRequest(question, chatHistory));
      input := "";
    }

    /**
     * The effect that runs when the advice action's state changes: a truthy
     * response is appended as a model message, then a truthy error appends
     * the apology. Each append reads the clock on its own: `responseNow` and
     * `errorNow`.
     */
    method OnState(state: AdviceState, responseNow: int, errorNow: int)
      requires Valid()
      modifies this
      ensures Valid()
      ensures messages == old(messages)
        + (if Truthy(state.response) then [Message(responseNow, Model, state.response.value)] else [])
        + (if Truthy(state.error) then [Message(errorNow, Model, ApologyText)] else [])
      ensures input == old(input)
    {
      if Truthy(state.response) {
        messages := messages + [Message(responseNow, Model, state.response.value)];
      }
      if Truthy(state.error) {
        messages := messages + [Message(errorNow, Model, ApologyText)];
      }
    }
  }
}
