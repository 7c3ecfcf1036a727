/**
 * client/src/pages/embed.tsx: the public chat widget. A send appends the
 * trimmed user message and an empty model message, posts the text, and
 * appends every streamed `content` to the last message while it is a
 * model message. Message ids (`Date.now()`) are a parameter.
 */
module Embed {
  import opened Wrappers
  import opened Strings
  import opened Schema
  import opened Sse
  import opened ChatSession

  /** A message of the page's own list. */
  datatype ChatMessage = ChatMessage(id: int, role: string, content: string)

  /** The guard of `sendMessage`: non-blank input, a truthy session id, and no stream in progress. */
  predicate CanSend(input: string, sessionId: Option<int>, isStreaming: bool) {
    !IsBlank(input) && sessionId.Some? && sessionId.value != 0 && !isStreaming
  }

  /** The text the model message ends up with: the streamed deltas of an ok response, else nothing. */
  function StreamedAnswer(response: StreamResponse, parse: string -> Option<Payload>): string {
    if Ok(response.status) && response.body.Some? then ReadsText(response.body.value, parse, false) else ""
  }

  class EmbedChat {
    var messages: seq<ChatMessage>
    var input: string
    var sessionId: Option<int>
    var isStreaming: bool

    constructor ()
      ensures messages == [] && input == "" && sessionId == None && !isStreaming
    {
      messages := [];
      input := "";
      sessionId := None;
      isStreaming := false;
    }

    /** The `setMessages` updater: `content` is appended to the last message only if it is a model message. */
    method AppendToLast(delta: string)
      requires messages != []
      modifies this`messages
      ensures |messages| == |old(messages)|
      ensures messages[..|messages| - 1] == old(messages)[..|messages| - 1]
      ensures var last := old(messages)[|old(messages)| - 1];
        messages[|messages| - 1] == (if last.role == ModelRole then last.(content := last.content + delta) else last)
    {
      var last := messages[|messages| - 1];
      if last.role == ModelRole {
        messages := messages[..|messages| - 1] + [last.(content := last.content + delta)];
      }
    }

    /** One line of a read: a `data: ` line whose payload parses and has a truthy `content`. */
    method ConsumeLine(line: string, parse: string -> Option<Payload>)
      requires messages != [] && messages[|messages| - 1].role == ModelRole
      modifies this`messages
      ensures |messages| == |old(messages)|
      ensures messages[..|messages| - 1] == old(messages)[..|messages| - 1]
      ensures var last := old(messages)[|old(messages)| - 1];
        messages[|messages| - 1] == last.(content := last.content + LineDelta(line, parse, false))
    {
      if StartsWith(line, DataPrefix) {
        var data := parse(line[6..]);
        if data.Some? && data.value.content.Some? && data.value.content.value != "" {
          AppendToLast(data.value.content.value);
          return;
        }
      }
      var last := messages[|messages| - 1];
      assert last.(content := last.content + "") == last;
    }

    method ConsumeRead(chunk: string, parse: string -> Option<Payload>)
      requires messages != [] && messages[|messages| - 1].role == ModelRole
      modifies this`messages
      ensures |messages| == |old(messages)|
      ensures messages[..|messages| - 1] == old(messages)[..|messages| - 1]
      ensures var last := old(messages)[|old(messages)| - 1];
        messages[|messages| - 1] == last.(content := last.content + ReadText(chunk, parse, false))
    {
      var lines := Split(chunk, '\n');
      var last := messages[|messages| - 1];
      ghost var acc := "";
      var j := 0;
      while j < |lines|
        invariant 0 <= j <= |lines|
        invariant acc == LinesText(lines[..j], parse, false)
        invariant |messages| == |old(messages)|
        invariant messages[..|messages| - 1] == old(messages)[..|messages| - 1]
        invariant messages[|messages| - 1] == last.(content := last.content + acc)
      {
        ConsumeLine(lines[j], parse);
        LinesTextPrefix(lines, j, parse, false);
        ghost var delta := LineDelta(lines[j], parse, false);
        AppendAssoc(last.content, acc, delta);
        acc := acc + delta;
        j := j + 1;
      }
      assert lines[..j] == lines;
    }

    /** The read loop, until the reader reports that it is done. */
    method Consume(chunks: seq<string>, parse: string -> Option<Payload>)
      requires messages != [] && messages[|messages| - 1].role == ModelRole
      modifies this`messages
      ensures |messages| == |old(messages)|
      ensures messages[..|messages| - 1] == old(messages)[..|messages| - 1]
      ensures var last := old(messages)[|old(messages)| - 1];
        messages[|messages| - 1] == last.(content := last.content + ReadsText(chunks, parse, false))
    {
      var last := messages[|messages| - 1];
      ghost var acc := "";
      var i := 0;
      while i < |chunks|
        invariant 0 <= i <= |chunks|
        invariant acc == ReadsText(chunks[..i], parse, false)
        invariant |messages| == |old(messages)|
        invariant messages[..|messages| - 1] == old(messages)[..|messages| - 1]
        invariant messages[|messages| - 1] == last.(content := last.content + acc)
      {
        ConsumeRead(chunks[i], parse);
        ReadsTextPrefix(chunks, i, parse, false);
        ghost var read := ReadText(chunks[i], parse, false);
        AppendAssoc(last.content, acc, read);
        acc := acc + read;
        i := i + 1;
      }
      assert chunks[..i] == chunks;
    }

    /**
     * `sendMessage`. When the guard fails nothing changes. Otherwise the
     * input is cleared, the list grows by the trimmed user message and a
     * model message holding whatever the response streamed, and
     * `isStreaming` is false again at the end whatever the outcome.
     */
    method SendMessage(now: int, response: StreamResponse, parse: string -> Option<Payload>)
      modifies this`messages, this`input, this`isStreaming
      ensures !CanSend(old(input), sessionId, old(isStreaming)) ==>
        messages == old(messages) && input == old(input) && isStreaming == old(isStreaming)
      ensures CanSend(old(input), sessionId, old(isStreaming)) ==>
        && input == ""
        && !isStreaming
        && messages == old(messages) + [
             ChatMessage(now, UserRole, Trim(old(input))),
             ChatMessage(now + 1, ModelRole, StreamedAnswer(response, parse))]
    {
      if IsBlank(input) || sessionId.None? || sessionId.value == 0 || isStreaming {
        TrimEmptyIffBlank(input);
        return;
      }
      TrimEmptyIffBlank(input);
      var userMessage := Trim(input);
      input := "";
      messages := messages + [ChatMessage(now, UserRole, userMessage)];
      isStreaming := true;
      messages := messages + [ChatMessage(now + 1, ModelRole, "")];
      var base := messages;
      var userMsg := ChatMessage(now, UserRole, userMessage);
      assert base == old(messages) + [userMsg, ChatMessage(now + 1, ModelRole, "")];
      if Ok(response.status) && response.body.Some? {
        Consume(response.body.value, parse);
        assert base[..|base| - 1] == old(messages) + [userMsg];
        var streamed := ReadsText(response.body.value, parse, false);
        assert "" + streamed == streamed;
        assert messages == base[..|base| - 1] + [messages[|messages| - 1]];
        assert messages[|messages| - 1] == ChatMessage(now + 1, ModelRole, streamed);
      }
      isStreaming := false;
    }

    /** `handleSuggestedPrompt`: the prompt becomes the input; nothing is sent. */
    method HandleSuggestedPrompt(prompt: string)
      modifies this`input
      ensures input == prompt
    {
      input := prompt;
    }
  }
}
