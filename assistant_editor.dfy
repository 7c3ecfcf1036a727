/**
 * client/src/pages/assistant-editor.tsx: the editor's preview chat. A
 * send appends the user's text, opens a chat session when there is none,
 * and, once the response streams, keeps the message with the assistant
 * message's id showing the cumulative streamed text. Also the fallbacks
 * that turn the assistant's deployment configuration into what the
 * preview shows. `Date.now()` values are parameters.
 */
module AssistantEditor {
  import opened Wrappers
  import opened Strings
  import opened Knowledge
  import opened Schema
  import opened Sse
  import opened ChatSession

  const AssistantRole := "assistant"
  const DefaultWelcome := "Hello! I'm here to help you with library services, borrowing rules, events, and digital resources. How can I assist you today?"
  const ConnectError := "Sorry, I couldn't connect to the chat service. Please try again."
  const SendError := "Sorry, something went wrong. Please try again."

  /** A message of the preview list; ids are strings such as `user-1700000000000`. */
  datatype EditorMessage = EditorMessage(id: string, role: string, content: string)

  /** `${prefix}-${Date.now()}`. */
  function Stamp(prefix: string, now: int): string {
    prefix + "-" + IntToString(now)
  }

  /** A number-or-null state read as a condition. */
  predicate TruthyId(id: Option<int>) {
    id.Some? && id.value != 0
  }

  // ---------------------------------------------------------------------
  // Configuration fallbacks

  datatype DeploymentConfig = DeploymentConfig(
    theme: Option<string>,
    font: Option<string>,
    suggestedPrompts: Option<seq<string>>,
    footerText: Option<string>,
    showGeminiBranding: Option<bool>)

  const DefaultPrompts := [
    "How do I get a library card?",
    "How do I renew my items?",
    "What are the opening hours?",
    "Do you have e-books?"]

  /** The configured prompts when there is at least one, otherwise the four defaults. */
  function SuggestedPrompts(config: Option<DeploymentConfig>): (r: seq<string>)
    ensures r != []
    ensures config.Some? && config.value.suggestedPrompts.Some? && config.value.suggestedPrompts.value != [] ==>
      r == config.value.suggestedPrompts.value
    ensures !(config.Some? && config.value.suggestedPrompts.Some? && config.value.suggestedPrompts.value != []) ==>
      r == DefaultPrompts
  {
    if config.Some? && config.value.suggestedPrompts.Some? && |config.value.suggestedPrompts.value| > 0
    then config.value.suggestedPrompts.value
    else DefaultPrompts
  }

  /** The footer: the configured text when truthy, else empty. */
  function FooterText(config: Option<DeploymentConfig>): (r: string)
    ensures config.Some? && Truthy(config.value.footerText) ==> r == config.value.footerText.value
    ensures !(config.Some? && Truthy(config.value.footerText)) ==> r == ""
  {
    if config.Some? && Truthy(config.value.footerText) then config.value.footerText.value else ""
  }

  /** Branding shows unless the configuration explicitly says `false`. */
  predicate ShowBranding(config: Option<DeploymentConfig>) {
    !(config.Some? && config.value.showGeminiBranding == Some(false))
  }

  /** The theme name: the configured one when truthy, else `material`. */
  function SelectedTheme(config: Option<DeploymentConfig>): (r: string)
    ensures r != ""
    ensures config.Some? && Truthy(config.value.theme) ==> r == config.value.theme.value
    ensures !(config.Some? && Truthy(config.value.theme)) ==> r == "material"
  {
    if config.Some? && Truthy(config.value.theme) then config.value.theme.value else "material"
  }

  /** The font name: the configured one when truthy, else `Inter`. */
  function SelectedFont(config: Option<DeploymentConfig>): (r: string)
    ensures r != ""
    ensures config.Some? && Truthy(config.value.font) ==> r == config.value.font.value
    ensures !(config.Some? && Truthy(config.value.font)) ==> r == "Inter"
  {
    if config.Some? && Truthy(config.value.font) then config.value.font.value else "Inter"
  }

  /**
   * The properties every plain object literal inherits from
   * `Object.prototype`. Indexing a literal with one of these names yields a
   * function (or, for `__proto__`, the prototype object): a truthy value
   * that is not one of the literal's entries.
   */
  const ObjectPrototypeKeys: set<string> := {
    "constructor", "hasOwnProperty", "isPrototypeOf", "propertyIsEnumerable",
    "toString", "toLocaleString", "valueOf", "__proto__",
    "__defineGetter__", "__defineSetter__", "__lookupGetter__", "__lookupSetter__"}

  /** What indexing an object literal gives: one of its own entries, an inherited member, or `undefined`. */
  datatype Lookup<T> = Own(value: T) | Inherited(key: string) | Missing {
    /** `obj[key] || fallback`: own entries and inherited members are both truthy. */
    function OrElse(fallback: T): Lookup<T> {
      if Missing? then Own(fallback) else this
    }
  }

  datatype ThemeStyle = ThemeStyle(card: string, message: string, userMessage: string,
                                   assistantMessage: string, input: string, button: string)

  const Material := ThemeStyle("rounded-2xl shadow-lg", "rounded-2xl", "bg-primary text-primary-foreground rounded-2xl",
                               "bg-muted rounded-2xl", "rounded-full", "rounded-full")
  const Classic := ThemeStyle("rounded-none shadow-sm border-2", "rounded-none", "bg-primary text-primary-foreground rounded-none",
                              "bg-muted rounded-none border", "rounded-none", "rounded-none")
  const Minimalist := ThemeStyle("rounded-lg shadow-none border", "rounded-lg", "bg-primary/90 text-primary-foreground rounded-lg",
                                 "bg-transparent border rounded-lg", "rounded-lg border-muted", "rounded-lg")

  /** `themeStyles[name]`. */
  function ThemeStyleOf(name: string): Lookup<ThemeStyle> {
    if name == "material" then Own(Material)
    else if name == "classic" then Own(Classic)
    else if name == "minimalist" then Own(Minimalist)
    else if name in ObjectPrototypeKeys then Inherited(name)
    else Missing
  }

  /**
   * The theme in force: the selected theme's styles, material's for an
   * unknown name, and the inherited member itself for a name such as
   * `toString`, which the fallback does not catch.
   */
  function CurrentTheme(config: Option<DeploymentConfig>): (r: Lookup<ThemeStyle>)
    ensures SelectedTheme(config) == "classic" ==> r == Own(Classic)
    ensures SelectedTheme(config) == "minimalist" ==> r == Own(Minimalist)
    ensures SelectedTheme(config) in ObjectPrototypeKeys ==> r == Inherited(SelectedTheme(config))
    ensures SelectedTheme(config) !in ObjectPrototypeKeys + {"classic", "minimalist"} ==> r == Own(Material)
    ensures r.Own? ==> r.value == Material || r.value == Classic || r.value == Minimalist
    ensures !r.Own? ==> r == Inherited(SelectedTheme(config))
  {
    ThemeStyleOf(SelectedTheme(config)).OrElse(Material)
  }

  /** `fontFamilies[name]`. */
  function FontFamilyOf(name: string): Lookup<string> {
    if name == "Inter" then Own("'Inter', sans-serif")
    else if name == "Roboto" then Own("'Roboto', sans-serif")
    else if name == "Open Sans" then Own("'Open Sans', sans-serif")
    else if name == "Montserrat" then Own("'Montserrat', sans-serif")
    else if name == "Playfair Display" then Own("'Playfair Display', serif")
    else if name == "Source Sans Pro" then Own("'Source Sans Pro', sans-serif")
    else if name in ObjectPrototypeKeys then Inherited(name)
    else Missing
  }

  /**
   * The CSS font family: the selected font's, Inter's for an unknown name,
   * and the inherited member for a name such as `valueOf`.
   */
  function FontFamily(config: Option<DeploymentConfig>): (r: Lookup<string>)
    ensures FontFamilyOf(SelectedFont(config)).Missing? ==> r == Own("'Inter', sans-serif")
    ensures !FontFamilyOf(SelectedFont(config)).Missing? ==> r == FontFamilyOf(SelectedFont(config))
    ensures SelectedFont(config) in ObjectPrototypeKeys ==> r == Inherited(SelectedFont(config))
    ensures r.Own? ==> r.value != ""
  {
    FontFamilyOf(SelectedFont(config)).OrElse("'Inter', sans-serif")
  }

  /** An absent configuration gives every default. */
  lemma NoConfigDefaults()
    ensures SuggestedPrompts(None) == DefaultPrompts && FooterText(None) == ""
    ensures ShowBranding(None) && CurrentTheme(None) == Own(Material) && FontFamily(None) == Own("'Inter', sans-serif")
  {
  }

  /** The welcome message: the assistant's own when truthy, else the default greeting. */
  function WelcomeText(welcomeMessage: Option<string>): (r: string)
    ensures r != ""
    ensures Truthy(welcomeMessage) ==> r == welcomeMessage.value
    ensures !Truthy(welcomeMessage) ==> r == DefaultWelcome
  {
    if Truthy(welcomeMessage) then welcomeMessage.value else DefaultWelcome
  }

  // ---------------------------------------------------------------------
  // Replacing a message's content by id

  /** `prev.map(m => m.id === id ? { ...m, content } : m)`. */
  function WithContent(ms: seq<EditorMessage>, id: string, content: string): (r: seq<EditorMessage>)
    ensures |r| == |ms|
    ensures forall i :: 0 <= i < |ms| ==>
      r[i] == (if ms[i].id == id then ms[i].(content := content) else ms[i])
  {
    seq(|ms|, i requires 0 <= i < |ms| => if ms[i].id == id then ms[i].(content := content) else ms[i])
  }

  /** The list while streaming: untouched until some content arrived, then showing the cumulative text. */
  function Showing(base: seq<EditorMessage>, id: string, full: string): seq<EditorMessage> {
    if full == "" then base else WithContent(base, id, full)
  }

  /** A later replacement by the same id overrides an earlier one. */
  lemma ShowingGrows(base: seq<EditorMessage>, id: string, full: string, delta: string)
    requires delta != ""
    ensures Showing(base, id, full + delta) == WithContent(Showing(base, id, full), id, full + delta)
  {
    assert full + delta != "";
  }

  /**
   * When the assistant message is the only one with its id, streaming
   * changes that message alone, and it shows the cumulative text.
   */
  lemma ShowingChangesOnlyTarget(prefix: seq<EditorMessage>, id: string, full: string)
    requires forall i :: 0 <= i < |prefix| ==> prefix[i].id != id
    ensures Showing(prefix + [EditorMessage(id, AssistantRole, "")], id, full)
      == prefix + [EditorMessage(id, AssistantRole, full)]
  {
    var base := prefix + [EditorMessage(id, AssistantRole, "")];
    if full != "" {
      var r := WithContent(base, id, full);
      assert forall i :: 0 <= i < |prefix| ==> r[i] == prefix[i];
      assert r[|prefix|] == EditorMessage(id, AssistantRole, full);
      assert r == prefix + [EditorMessage(id, AssistantRole, full)];
    }
  }

  /** `text || inputValue`: the text `handleSend` sends. */
  function MessageText(text: Option<string>, inputValue: string): (m: string)
    ensures Truthy(text) ==> m == text.value
    ensures !Truthy(text) ==> m == inputValue
  {
    if text.Some? && text.value != "" then text.value else inputValue
  }

  /**
   * The messages after the reply to a shown user message: the connection
   * error without a session, the send error for a failed post or one
   * without a body, else an assistant message showing the streamed text.
   */
  predicate SendOutcome(before: seq<EditorMessage>, session: Option<int>, later: int,
                        response: StreamResponse, parse: string -> Option<Payload>, after: seq<EditorMessage>)
  {
    && (!TruthyId(session) ==>
          after == before + [EditorMessage(Stamp("error", later), AssistantRole, ConnectError)])
    && (TruthyId(session) && !(Ok(response.status) && response.body.Some?) ==>
          after == before + [EditorMessage(Stamp("error", later), AssistantRole, SendError)])
    && (TruthyId(session) && Ok(response.status) && response.body.Some? ==>
          after == Showing(before + [EditorMessage(Stamp("assistant", later), AssistantRole, "")],
                           Stamp("assistant", later), ReadsText(response.body.value, parse, false)))
  }

  // ---------------------------------------------------------------------
  // The preview chat

  class EditorChat {
    var messages: seq<EditorMessage>
    var inputValue: string
    var isTyping: bool
    var conversationId: Option<int>

    constructor ()
      ensures messages == [] && inputValue == "" && !isTyping && conversationId == None
    {
      messages := [];
      inputValue := "";
      isTyping := false;
      conversationId := None;
    }

    /**
     * `handleClearSession` (and the effect run when the assistant loads):
     * exactly the welcome message remains and the session is forgotten.
     */
    method HandleClearSession(welcomeMessage: Option<string>)
      modifies this`messages, this`conversationId
      ensures messages == [EditorMessage("welcome", AssistantRole, WelcomeText(welcomeMessage))]
      ensures conversationId == None
    {
      messages := [EditorMessage("welcome", AssistantRole, WelcomeText(welcomeMessage))];
      conversationId := None;
    }

    /** One line of a read; `full` is `fullContent` before the line and `full'` after it. */
    method ConsumeLine(line: string, parse: string -> Option<Payload>, id: string, ghost base: seq<EditorMessage>, full: string)
      returns (full': string)
      requires messages == Showing(base, id, full)
      modifies this`messages
      ensures full' == full + LineDelta(line, parse, false)
      ensures messages == Showing(base, id, full')
    {
      full' := full;
      if StartsWith(line, DataPrefix) {
        var data := parse(line[6..]);
        if data.Some? && data.value.content.Some? && data.value.content.value != "" {
          ShowingGrows(base, id, full, data.value.content.value);
          full' := full + data.value.content.value;
          messages := WithContent(messages, id, full');
          return;
        }
      }
      assert full + "" == full;
    }

    method ConsumeRead(chunk: string, parse: string -> Option<Payload>, id: string, ghost base: seq<EditorMessage>, full: string)
      returns (full': string)
      requires messages == Showing(base, id, full)
      modifies this`messages
      ensures full' == full + ReadText(chunk, parse, false)
      ensures messages == Showing(base, id, full')
    {
      var lines := Split(chunk, '\n');
      full' := full;
      var j := 0;
      while j < |lines|
        invariant 0 <= j <= |lines|
        invariant full' == full + LinesText(lines[..j], parse, false)
        invariant messages == Showing(base, id, full')
      {
        ghost var prev := LinesText(lines[..j], parse, false);
        ghost var delta := LineDelta(lines[j], parse, false);
        full' := ConsumeLine(lines[j], parse, id, base, full');
        LinesTextPrefix(lines, j, parse, false);
        AppendAssoc(full, prev, delta);
        j := j + 1;
      }
      assert lines[..j] == lines;
    }

    /** The read loop: `fullContent` accumulates every delta, and the target message shows it. */
    method Consume(chunks: seq<string>, parse: string -> Option<Payload>, id: string)
      returns (fullContent: string)
      modifies this`messages
      ensures fullContent == ReadsText(chunks, parse, false)
      ensures messages == Showing(old(messages), id, fullContent)
    {
      fullContent := "";
      ghost var base := messages;
      var i := 0;
      while i < |chunks|
        invariant 0 <= i <= |chunks|
        invariant fullContent == ReadsText(chunks[..i], parse, false)
        invariant messages == Showing(base, id, fullContent)
      {
        fullContent := ConsumeRead(chunks[i], parse, id, base, fullContent);
        ReadsTextPrefix(chunks, i, parse, false);
        i := i + 1;
      }
      assert chunks[..i] == chunks;
    }

    /**
     * The part of `handleSend` after the user message is shown, given the
     * session it ends up with: no session appends the connection error, a
     * failed post (or one without a body) appends the send error, and a
     * streamed response appends the assistant message, which then shows
     * the cumulative streamed text. Typing is off at the end.
     */
    method Deliver(session: Option<int>, later: int, response: StreamResponse, parse: string -> Option<Payload>)
      modifies this`messages, this`isTyping
      ensures SendOutcome(old(messages), session, later, response, parse, messages)
      ensures !isTyping
    {
      if !TruthyId(session) {
        messages := messages + [EditorMessage(Stamp("error", later), AssistantRole, ConnectError)];
      } else if !Ok(response.status) || response.body.None? {
        messages := messages + [EditorMessage(Stamp("error", later), AssistantRole, SendError)];
      } else {
        var assistantMessageId := Stamp("assistant", later);
        messages := messages + [EditorMessage(assistantMessageId, AssistantRole, "")];
        var fullContent := Consume(response.body.value, parse, assistantMessageId);
      }
      isTyping := false;
    }

    /**
     * `handleSend(text)`. The text sent is `text || inputValue`; a blank
     * one changes nothing. Otherwise the untrimmed text is appended as a
     * user message and the input cleared. Without a session a new one is
     * created (`created` is what `createChatSession` returns, stored when
     * there is one); the rest is `Deliver` with the session obtained.
     */
    method HandleSend(text: Option<string>, now: int, later: int, created: Option<int>,
                      response: StreamResponse, parse: string -> Option<Payload>)
      modifies this`messages, this`inputValue, this`isTyping, this`conversationId
      ensures IsBlank(MessageText(text, old(inputValue))) ==>
        messages == old(messages) && inputValue == old(inputValue)
        && isTyping == old(isTyping) && conversationId == old(conversationId)
      ensures !IsBlank(MessageText(text, old(inputValue))) ==>
        && inputValue == ""
        && !isTyping
        && conversationId == (if !TruthyId(old(conversationId)) && created.Some? then created else old(conversationId))
        && SendOutcome(old(messages) + [EditorMessage(Stamp("user", now), UserRole, MessageText(text, old(inputValue)))],
                       if TruthyId(old(conversationId)) then old(conversationId) else created,
                       later, response, parse, messages)
    {
      var messageText := if text.Some? && text.value != "" then text.value else inputValue;
      if IsBlank(messageText) {
        return;
      }
      messages := messages + [EditorMessage(Stamp("user", now), UserRole, messageText)];
      inputValue := "";
      isTyping := true;
      var sessionId := conversationId;
      if !TruthyId(sessionId) {
        // createChatSession: stores the id it got, if any
        if created.Some? {
          conversationId := created;
        }
        sessionId := created;
      }
      Deliver(sessionId, later, response, parse);
    }
  }
}
