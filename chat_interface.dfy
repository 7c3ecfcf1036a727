/**
 * The chat-interface settings page (client/src/pages/chat-interface.tsx):
 * the assistant's name and greeting, loaded from the stored assistant with
 * fixed fallbacks, and the editable list of suggested prompts, which never
 * holds the same prompt twice.
 */
module ChatInterface {
  import opened Wrappers
  import opened Strings
  import opened Schema
  import opened AssistantEditor

  const DefaultName := "Library Assistant"

  /** The only fields `handleApplyChanges` sends to the assistant update endpoint. */
  datatype AssistantUpdate = AssistantUpdate(id: int, name: string, welcomeMessage: string)

  /** No prompt occurs twice in the list. */
  predicate NoDuplicates(prompts: seq<string>) {
    forall i, j :: 0 <= i < j < |prompts| ==> prompts[i] != prompts[j]
  }

  /** The four starting prompts are distinct. */
  lemma DefaultPromptsDistinct()
    ensures NoDuplicates(DefaultPrompts)
  {
  }

  /** The name field after the assistant has loaded: its own name, or the default when empty. */
  function LoadedName(a: Assistant): (r: string)
    ensures r != ""
    ensures a.name != "" ==> r == a.name
  {
    if a.name != "" then a.name else DefaultName
  }

  /** `prompts.filter(p => p !== prompt)`: every copy of the prompt goes, the rest keep their order. */
  function Without(prompts: seq<string>, prompt: string): (r: seq<string>)
    ensures prompt !in r
    ensures forall x :: x != prompt ==> (x in r <==> x in prompts)
    ensures |r| <= |prompts|
    ensures prompt !in prompts ==> r == prompts
  {
    if prompts == [] then []
    else if prompts[0] == prompt then Without(prompts[1..], prompt)
    else [prompts[0]] + Without(prompts[1..], prompt)
  }

  /** Removing keeps the list free of duplicates. */
  lemma {:induction false} WithoutKeepsNoDuplicates(prompts: seq<string>, prompt: string)
    requires NoDuplicates(prompts)
    ensures NoDuplicates(Without(prompts, prompt))
  {
    if prompts != [] {
      var rest := prompts[1..];
      assert NoDuplicates(rest) by {
        forall i, j | 0 <= i < j < |rest| ensures rest[i] != rest[j] {
          assert rest[i] == prompts[i + 1] && rest[j] == prompts[j + 1];
        }
      }
      WithoutKeepsNoDuplicates(rest, prompt);
      if prompts[0] != prompt {
        assert prompts[0] !in rest by {
          forall k | 0 <= k < |rest| ensures rest[k] != prompts[0] {
            assert rest[k] == prompts[k + 1];
          }
        }
        var w := Without(rest, prompt);
        assert prompts[0] !in w;
        var r := [prompts[0]] + w;
        forall i, j | 0 <= i < j < |r| ensures r[i] != r[j] {
          if i == 0 {
            assert r[j] == w[j - 1];
          } else {
            assert r[i] == w[i - 1] && r[j] == w[j - 1];
          }
        }
      }
    }
  }

  /** Removing a prompt commutes with appending a different one. */
  lemma {:induction false} WithoutAbsent(prompts: seq<string>, prompt: string, other: string)
    requires other != prompt
    ensures Without(prompts + [other], prompt) == Without(prompts, prompt) + [other]
  {
    if prompts != [] {
      assert (prompts + [other])[1..] == prompts[1..] + [other];
      WithoutAbsent(prompts[1..], prompt, other);
    }
  }

  /** The settings form. */
  class ChatInterfaceState {
    const assistantId: int
    var assistantName: string
    var greetingMessage: string
    var suggestedPrompts: seq<string>
    var newPrompt: string
    /** The update requests sent so far, oldest first. */
    var updates: seq<AssistantUpdate>

    /** The prompt list has no duplicates. */
    predicate Valid()
      reads this`suggestedPrompts
    {
      NoDuplicates(suggestedPrompts)
    }

    constructor (assistantId: int)
      ensures this.assistantId == assistantId && Valid()
      ensures assistantName == DefaultName && greetingMessage == DefaultWelcome
      ensures suggestedPrompts == DefaultPrompts && newPrompt == "" && updates == []
    {
      this.assistantId := assistantId;
      assistantName, greetingMessage := DefaultName, DefaultWelcome;
      suggestedPrompts, newPrompt := DefaultPrompts, "";
      updates := [];
      DefaultPromptsDistinct();
    }

    /** The effect that runs once the assistant has loaded. */
    method Load(a: Assistant)
      modifies this`assistantName, this`greetingMessage
      ensures assistantName == LoadedName(a) && greetingMessage == WelcomeText(a.welcomeMessage)
    {
      assistantName := if a.name != "" then a.name else DefaultName;
      greetingMessage := WelcomeText(a.welcomeMessage);
    }

    /**
     * `addPrompt`: the trimmed prompt goes to the end of the list when it
     * is non-empty and not already listed, and the input is then cleared;
     * otherwise neither the list nor the input changes.
     */
    method AddPrompt()
      requires Valid()
      modifies this`suggestedPrompts, this`newPrompt
      ensures Valid()
      ensures Trim(old(newPrompt)) != "" && Trim(old(newPrompt)) !in old(suggestedPrompts) ==>
        suggestedPrompts == old(suggestedPrompts) + [Trim(old(newPrompt))] && newPrompt == ""
      ensures Trim(old(newPrompt)) == "" || Trim(old(newPrompt)) in old(suggestedPrompts) ==>
        suggestedPrompts == old(suggestedPrompts) && newPrompt == old(newPrompt)
    {
      var prompt := Trim(newPrompt);
      if prompt != "" && prompt !in suggestedPrompts {
        ghost var before := suggestedPrompts;
        suggestedPrompts := suggestedPrompts + [prompt];
        newPrompt := "";
        forall i, j | 0 <= i < j < |suggestedPrompts| ensures suggestedPrompts[i] != suggestedPrompts[j] {
          if j == |before| {
            assert suggestedPrompts[i] == before[i];
          } else {
            assert suggestedPrompts[i] == before[i] && suggestedPrompts[j] == before[j];
          }
        }
      }
    }

    /** `removePrompt`: every copy of the prompt is removed, the others keep their order. */
    method RemovePrompt(prompt: string)
      requires Valid()
      modifies this`suggestedPrompts
      ensures Valid()
      ensures suggestedPrompts == Without(old(suggestedPrompts), prompt)
    {
      WithoutKeepsNoDuplicates(suggestedPrompts, prompt);
      suggestedPrompts := Without(suggestedPrompts, prompt);
    }

    /** `handleApplyChanges`: without a loaded assistant nothing is sent; otherwise only the name and greeting are. */
    method HandleApplyChanges(assistant: Option<Assistant>)
      modifies this`updates
      ensures assistant.None? ==> updates == old(updates)
      ensures assistant.Some? ==> updates == old(updates) + [AssistantUpdate(assistantId, assistantName, greetingMessage)]
    {
      if assistant.Some? {
        updates := updates + [AssistantUpdate(assistantId, assistantName, greetingMessage)];
      }
    }
  }
}
