# ChatLib in Dafny

ChatLib is a web application in which library staff build chat assistants.
Each assistant has a knowledge base of FAQ pairs, text assets, websites and
uploaded files. Visitors chat with an assistant through an embeddable
widget. The server answers a message in one of two ways:

- An FAQ entry whose question matches the message after normalisation
  answers it directly.
- Otherwise a language model is asked, with the knowledge base as context,
  and its reply is streamed back as server-sent events.

This project models the core of that system and proves properties of it:

- the server's chat endpoint: FAQ matching, context formatting, history,
  streaming and persistence;
- the shared route table and its URL builder;
- the client hooks and pages that send messages and read the event stream
  back (embed widget, assistant editor, chat-session hook);
- the knowledge-base pages (FAQ, text, website, files) with their
  selection, search and storage totals;
- the chat-interface settings page, the assistant card and the profile
  page;
- the local username/password authentication routes and their user store.

Modules follow the source files:

| module | file | source |
|---|---|---|
| `Wrappers`, `Strings` | wrappers.dfy, strings.dfy | JavaScript values and string operations used throughout |
| `Schema`, `Knowledge` | schema.dfy, knowledge.dfy | shared/models/chat.ts; document storage in server/storage.ts |
| `Normalize`, `FaqMatch` | normalize.dfy, faq.dfy | `normalizeText` and `findFaqMatch` in server/routes.ts |
| `Sse` | sse.dfy | the `data: …` event framing written by the server and parsed by the clients |
| `ChatRoutes` | chat_routes.dfy | the chat endpoint of server/routes.ts |
| `SharedRoutes` | shared_routes.dfy | shared/routes.ts |
| `ChatSession` | chat_session.dfy | client/src/hooks/use-chat-session.ts |
| `Embed` | embed.dfy | client/src/pages/embed.tsx |
| `Markdown`, `AssistantEditor` | markdown.dfy, assistant_editor.dfy | client/src/pages/assistant-editor.tsx |
| `DocumentSelection`, `QaPage`, `TextPage`, `WebsitePage`, `FilesPage` | selection.dfy, qa_page.dfy, text_page.dfy, website_page.dfy, files_page.dfy | client/src/pages/qa.tsx, text.tsx, website.tsx, files.tsx |
| `ChatInterface` | chat_interface.dfy | client/src/pages/chat-interface.tsx |
| `AuthRoutes` | auth_routes.dfy | server/replit_integrations/auth/routes.ts and storage.ts |
| `AssistantCard` | assistant_card.dfy | client/src/components/assistant-card.tsx |
| `Profile` | profile.dfy | client/src/pages/profile.tsx |
| `EndToEnd` | end_to_end.dfy | properties spanning the FAQ page, the chat endpoint and the stream readers |

Some behaviour depends on the outside world: the database, the model
client, the browser's `fetch`, `JSON`, `Date.now`, bcrypt and the session
store. Each becomes a parameter of the operation that uses it:

- an `accepted` or `fails` flag for a request that may be rejected;
- a `now` timestamp;
- `encode`/`parse` functions for JSON;
- `hash`/`matches` functions for bcrypt;
- a `Backend` value holding the model's chunks and whether the call fails.

Stateful parts of the source become classes:

- The server's tables are sequence fields of `ChatRoutes.ChatServer` and
  `AuthRoutes.AuthServer`.
- React state becomes fields of a page class.
- The requests a page sends are appended to an outbox field (`created`,
  `updates`).

Dafny's strings are sequences of code points. The source's UTF-8 byte
counts (`Blob.size`) and UTF-16 lengths (`string.length`) are written out
as `Strings.Utf8Length` and `Strings.Utf16Length`.

## Model

| member | source | states |
|---|---|---|
| Strings.TrimEmptyIffBlank | client/src/pages/embed.tsx:102 | `trim()` yields the empty string exactly when the text is all white space, so a `!x.trim()` guard rejects exactly the blank inputs |
| Strings.JoinSplit | client/src/hooks/use-chat-session.ts:80 | splitting a decoded chunk on newlines and joining the pieces back gives the chunk again, so no text is lost between lines |
| Strings.Utf8LengthConcat | client/src/pages/text.tsx:60 | the byte size of a concatenation is the sum of the byte sizes of its parts |
| Strings.Utf8LengthAscii | client/src/pages/text.tsx:60 | for ASCII text the byte size equals the number of characters |
| Strings.NatToStringValue | client/src/pages/qa.tsx:104 | the decimal rendering of a timestamp reads back as the same number |
| Strings.Trim | client/src/pages/embed.tsx:102 | `trim()`: a slice of the text that starts after its leading white space; TrimEmptyIffBlank states when it is empty |
| Strings.ToLower | client/src/pages/qa.tsx:124-126 | `toLowerCase()`: same length, every character lower-cased |
| Strings.ToUpper | client/src/pages/profile.tsx:44 | `toUpperCase()` on ASCII letters: same length, every character upper-cased |
| Strings.StartsWith | client/src/hooks/use-chat-session.ts:83 | definition of `startsWith` as a prefix test |
| Strings.IndexOf | shared/routes.ts:139 | the first position where the pattern occurs, and none exactly when it occurs nowhere |
| Strings.Contains | shared/routes.ts:138 | definition of `includes`: the pattern occurs somewhere |
| Strings.Join | server/routes.ts:252 | definition of `join(sep)`; ChatRoutes.FormatContextCons and Strings.JoinSplit use it |
| Strings.IntToString | shared/routes.ts:139 | `String(n)`: at least one character, only digits and a minus sign; NatToStringValue states the round trip |
| Strings.Truthy | client/src/pages/assistant-editor.tsx:53 | definition of the truthiness of an optional string: present and non-empty |
| Strings.Substitution | shared/routes.ts:139 | definition of the replacement-template expansion of `String.prototype.replace` (section 22.1.3.19.1 of ECMA-262); PlainSubstitution and MatchedTextTemplate state its properties |
| Strings.PlainSubstitution | shared/routes.ts:139 | a template without `$` expands to itself |
| Strings.ReplaceFirst | shared/routes.ts:139 | `replace` with a string pattern: unchanged without an occurrence, else the text before the first occurrence, the expanded replacement and the text after it |
| Strings.Split | client/src/hooks/use-chat-session.ts:80 | `split(sep)`: at least one piece, no piece holds the separator; JoinSplit states the round trip |
| Strings.Utf8Length | client/src/pages/text.tsx:60 | `new Blob([s]).size`: between one and four bytes per character |
| Strings.Utf16Length | server/replit_integrations/auth/routes.ts:129 | `string.length`: between one and two code units per character |
| Knowledge.Store | server/storage.ts:81-84 | a stored document keeps every field of the creation request and gets the given id |
| Knowledge.Filter | client/src/pages/qa.tsx:94 | `Array.prototype.filter`, as in the type and title filters of the FAQ, text, website and files pages and the demo split of server/routes.ts:40: no longer than the input; FilterMembers and FilterConcat state its contents and order |
| Knowledge.TitleMatches | client/src/pages/qa.tsx:124-126 | definition: the lower-cased title contains the lower-cased query; TitleFilter and SearchIgnoresQueryCase use it |
| Knowledge.SizeOf | client/src/pages/qa.tsx:128-131 | definition of `metadata?.size \|\| 0`; TotalStorageBounds and StoringAddsItsSize use it |
| Knowledge.TotalStorage | client/src/pages/qa.tsx:128-131 | definition of the `reduce` sum; TotalStorageConcat, TotalStorageBounds and StoringAddsItsSize state its properties |
| Knowledge.FilterMembers | client/src/pages/qa.tsx:124-126 | a filtered list holds exactly the elements of the original that pass the test (the page searches of qa.tsx, text.tsx, website.tsx and files.tsx) |
| Knowledge.FilterConcat | server/routes.ts:40 | filtering distributes over concatenation, keeping order (the demo split, the relay's empty-chunk skip and the page filters) |
| Knowledge.OfSourceType | client/src/pages/qa.tsx:94 | the documents of one source type are exactly the listed documents carrying that type |
| Knowledge.ListedOfType | client/src/pages/text.tsx:42 | while the list is loading no documents are shown; once loaded, exactly those of the type |
| Knowledge.TitleFilter | client/src/pages/qa.tsx:124-126 | the search keeps exactly the documents whose lower-cased title contains the lower-cased query |
| Knowledge.EmptySearchKeepsAll | client/src/pages/qa.tsx:124-126 | an empty search shows the whole list in its order |
| Knowledge.SearchIgnoresQueryCase | client/src/pages/qa.tsx:124-126 | queries that differ only in letter case show the same list |
| Knowledge.TotalStorageConcat | client/src/pages/qa.tsx:128-131 | the storage total of two lists is the sum of their totals |
| Knowledge.TotalStorageBounds | client/src/pages/qa.tsx:128-131 | with no negative sizes the total is not negative, and with only size-less documents it is zero |
| Knowledge.StoringAddsItsSize | client/src/pages/qa.tsx:128-131 | a new document at the head of the list raises the total by exactly its size |
| Knowledge.StorageUsed | client/src/pages/files.tsx:108-111 | the total is 0 while the list is loading, else the sum of the documents' sizes |
| Normalize.StripPunctuation | server/routes.ts:174 | the result holds no punctuation mark of the class, and text without any is unchanged |
| Normalize.IsPunctuation | server/routes.ts:174 | definition of the class `[?!.,;:'"«»]`; StripPunctuation uses it |
| Normalize.CollapseSpaces | server/routes.ts:175 | `replace(/\s+/g, ' ')`: empty exactly for empty text, and starts with white space exactly when the text does; CollapseIsCollapsed and CollapseOfCollapsed state the rest |
| Normalize.NormalizeText | server/routes.ts:171-177 | definition: lower-case, strip punctuation, collapse white space, trim; NormalizeIsNormal, NormalIsFixed and NormalizeIdempotent state its properties |
| Normalize.CollapseIsCollapsed | server/routes.ts:175 | after collapsing, no two white-space characters are adjacent and every remaining one is a space |
| Normalize.CollapseOfCollapsed | server/routes.ts:175 | collapsing already-collapsed text changes nothing |
| Normalize.NormalizeIsNormal | server/routes.ts:171-177 | normalised text is lower case, free of the punctuation class, collapsed and trimmed |
| Normalize.NormalIsFixed | server/routes.ts:171-177 | normalising text that is already normal changes nothing |
| Normalize.NormalizeIdempotent | server/routes.ts:171-177 | normalising twice is normalising once |
| Normalize.NormalizeIgnoresCase | server/routes.ts:171-177 | lower-casing the question first does not change its normal form |
| FaqMatch.NoAnswerIffNoMatch | server/routes.ts:180-198 | there is no FAQ answer exactly when no FAQ document's normalised question equals the normalised query |
| FaqMatch.Answers | server/routes.ts:184-192 | definition: an FAQ document with a non-empty question and response whose normalised question is the query |
| FaqMatch.FirstAnswer | server/routes.ts:183-197 | definition of the loop as a recursion: the response of the first answering document; AnswerIsFirstMatch and FindFaqMatch state it |
| FaqMatch.FaqAnswer | server/routes.ts:180-198 | definition: the first answer for the normalised query; FaqAnswerSpec and NoAnswerIffNoMatch state its meaning |
| FaqMatch.AnswerIsFirstMatch | server/routes.ts:180-198 | an answer is the response of the first matching FAQ document in list order, and no earlier document matches |
| FaqMatch.FindFaqMatch | server/routes.ts:180-198 | the loop returns the answer of the first matching FAQ document (non-empty), or null when it runs out |
| FaqMatch.FaqAnswerSpec | server/routes.ts:180-198 | no answer exactly when no document matches; otherwise the non-empty response of a matching document with no match before it |
| FaqMatch.AnswerIsNonEmpty | server/routes.ts:187 | an FAQ whose stored response is empty never answers |
| FaqMatch.SameNormalFormSameAnswer | server/routes.ts:180-198 | questions with equal normal forms get the same answer |
| FaqMatch.AnswerOfNormalizedQuery | server/routes.ts:180-198 | asking the normalised question gives the same answer as asking the original |
| FaqMatch.FrontDocumentsDecide | server/routes.ts:180-198 | a match among the first documents decides the answer whatever follows, and without one the answer comes from the rest |
| FaqMatch.EarlierDuplicateWins | server/storage.ts:77-78 | of two FAQs with the same question, the newer one (earlier in the newest-first list) answers |
| Sse.StreamedTextConcat | server/routes.ts:279-287 | the text carried by a sequence of frames is the concatenation of the texts of its parts |
| Sse.Delta | client/src/hooks/use-chat-session.ts:90-91 | definition: a payload's truthy `content`, else nothing; DoneAddsNothing uses it |
| Sse.StreamedText | client/src/hooks/use-chat-session.ts:90-91 | definition of everything a list of payloads delivers, in order; StreamedTextConcat and WireRoundTrip state its properties |
| Sse.ReadsText | client/src/hooks/use-chat-session.ts:74-101 | definition of what the reads add, in order; ReadsTextConcat and FramePerReadRoundTrip state its properties |
| Sse.FrameText | server/routes.ts:285 | definition of one written frame, `data: <json>` and a blank line; FrameLines reads it back |
| Sse.WireText | server/routes.ts:279-296 | definition of the whole written stream; WireRoundTrip reads it back |
| Sse.LineDelta | client/src/hooks/use-chat-session.ts:82-99 | definition of what one line adds; DoneAddsNothing and FrameLines use it |
| Sse.LinesText | client/src/hooks/use-chat-session.ts:82-99 | definition of what a batch of lines adds; LinesTextConcat states it is compositional |
| Sse.ReadText | client/src/hooks/use-chat-session.ts:80-99 | definition of what one read adds, its lines in order; ReadsTextConcat and FramePerReadRoundTrip use it |
| Sse.LinesTextConcat | client/src/hooks/use-chat-session.ts:74-101 | reading lines in two batches yields the concatenation of the two readings |
| Sse.ReadsTextConcat | client/src/hooks/use-chat-session.ts:74-101 | reading chunks in two batches yields the concatenation of the two readings |
| Sse.DoneAddsNothing | client/src/hooks/use-chat-session.ts:90-95 | the closing `done` event adds no text |
| Sse.FrameLines | server/routes.ts:285 | one written frame, read from the head of a buffer, yields its content and leaves the rest to be read on |
| Sse.WireRoundTrip | server/routes.ts:279-296 | whatever JSON codec is used, the text the client reads from the whole written stream is the text the frames carry |
| Sse.FramePerReadRoundTrip | client/src/hooks/use-chat-session.ts:70-101 | when every read returns exactly one frame, the client reads back the text the frames carry |
| ChatRoutes.ContextEntry | server/routes.ts:246-252 | an FAQ document becomes `Q: …\nA: …`; any other becomes its bracketed title and its content |
| ChatRoutes.Entries | server/routes.ts:246-252 | one context entry per document, in list order |
| ChatRoutes.FormatContextEmptyIff | server/routes.ts:246-252 | the formatted context is empty exactly when there are no documents |
| ChatRoutes.FormatContextCons | server/routes.ts:252 | entries are joined with the separator, the head entry first |
| ChatRoutes.FormatContextMentionsAll | server/routes.ts:246-252 | every document's entry occurs in the formatted context |
| ChatRoutes.FormatContext | server/routes.ts:246-252 | definition of the joined entries; FormatContextEmptyIff, FormatContextCons and FormatContextMentionsAll state its properties |
| ChatRoutes.DocumentsFor | server/storage.ts:77-79 | definition of `getDocuments`: the assistant's documents in store order |
| ChatRoutes.MessagesOf | server/storage.ts:101-103 | definition of `getMessages`: the conversation's messages in store order |
| ChatRoutes.SystemInstruction | server/routes.ts:254-260 | the instruction holds the assistant's prompt and the formatted knowledge base, or the no-information text when the base is empty |
| ChatRoutes.HistoryTurns | server/routes.ts:262-266 | each stored message becomes one model turn with the same text, in order; the user role is kept and every other role becomes the model role |
| ChatRoutes.HistoryTurnsConcat | server/routes.ts:262-266 | the turns of a longer history extend the turns of its prefix |
| ChatRoutes.FilterSplitsMultiset | server/routes.ts:40 | the demo and non-demo assistants together are exactly the listed assistants |
| ChatRoutes.DemoFirstSorted | server/routes.ts:40 | the sort is a permutation that puts every demo assistant before every other one and keeps the order within each group |
| ChatRoutes.DemoFirst | server/routes.ts:40 | definition of the stable sort: demo assistants, then the others; DemoFirstSorted states it is a sorted permutation |
| ChatRoutes.ContentFramesDeliver | server/routes.ts:279-287 | the content frames carry exactly the concatenated model text |
| ChatRoutes.ConcatSkipsEmpty | server/routes.ts:282-286 | skipping empty chunks does not change the full response |
| ChatRoutes.Concat | server/routes.ts:279-284 | definition of the accumulated `fullResponse`; ConcatSkipsEmpty and ContentFramesDeliver use it |
| ChatRoutes.ContentFrames | server/routes.ts:285 | one content frame per chunk, each carrying that chunk |
| ChatRoutes.FaqOutcome | server/routes.ts:226-243 | definition of the FAQ branch's result: one stored model message, one content frame and done; FaqStreamMatchesStore states it |
| ChatRoutes.ModelOutcome | server/routes.ts:246-303 | definition of the model branch's result; ModelStreamMatchesStore states it |
| ChatRoutes.Relay | server/routes.ts:279-287 | the relay loop writes one content frame per non-empty chunk, never a done frame, and accumulates the full response that the frames carry |
| ChatRoutes.FaqStreamMatchesStore | server/routes.ts:226-243 | on the FAQ branch exactly one model message with the answer is stored, and the stream carries that same text and then ends with done |
| ChatRoutes.ModelStreamMatchesStore | server/routes.ts:268-303 | on the model branch the stream ends exactly when the model call succeeds; then the stored reply is the text streamed, otherwise nothing is stored |
| ChatRoutes.ChatServer.SendMessage | server/routes.ts:201-304 | 404 for a missing conversation or assistant; otherwise the user message is stored and the FAQ or model branch answers |
| ChatRoutes.ChatServer.Answer | server/routes.ts:222-304 | after the user message is stored, the FAQ branch answers when the documents hold an answer and the model branch otherwise |
| ChatRoutes.Answered | server/routes.ts:222-304 | definition of the answer stored and streamed: the FAQ outcome when the documents hold an answer, else the model outcome; Answer ensures it |
| ChatRoutes.ChatServer.AnswerFromFaq | server/routes.ts:226-243 | the FAQ branch stores the answer and streams it as one frame and done |
| ChatRoutes.ChatServer.AnswerFromModel | server/routes.ts:246-303 | the model branch sends the system instruction and history, relays the chunks and stores the full response, or ends with 500 on failure |
| SharedRoutes.Placeholder | shared/routes.ts:138 | a placeholder is a colon followed by the key |
| SharedRoutes.Substitute | shared/routes.ts:138-140 | a path without the placeholder is unchanged; otherwise its first occurrence is replaced by the value read as a replacement template (`$$`, `$&`, `` $` ``, `$'` expanded), which for a `$`-free value is the value itself, so the path changes length by the value less the placeholder |
| SharedRoutes.BuildUrl | shared/routes.ts:134-144 | without parameters the path is returned as is; with them the loop leaves exactly the fold that substitutes each entry in order, `$` patterns included |
| SharedRoutes.FillWithoutPlaceholders | shared/routes.ts:134-144 | parameters whose placeholders the path lacks leave it unchanged |
| SharedRoutes.FillConcat | shared/routes.ts:137-141 | filling with two batches of entries is filling with the first, then the second |
| SharedRoutes.FillLength | shared/routes.ts:134-144 | with values free of `$` (every number is), the built URL grows by at most the lengths of the substituted values |
| SharedRoutes.SubstituteKeepsSurroundings | shared/routes.ts:138-140 | substitution keeps the text before the first placeholder, which holds no earlier occurrence, and the text after it, whatever the value |
| SharedRoutes.AssistantExample | shared/routes.ts:32 | `/api/assistants/:id` with id 5 becomes `/api/assistants/5` |
| SharedRoutes.PrefixKeyMatches | shared/routes.ts:138 | the containment test matches a key that is only a prefix of a longer placeholder (`:id` inside `:idx`) |
| SharedRoutes.SessionPaths | shared/routes.ts:114-125 | the message and history routes of a chat session fill to `/api/chat/session/<id>/message` and `/history` |
| SharedRoutes.PlaceholderFilled | shared/routes.ts:138-140 | when the text before a placeholder has no colon, that placeholder is the first occurrence and only it is replaced by the expanded value; head and tail are kept |
| SharedRoutes.FillOne | shared/routes.ts:134-144 | a single entry fills the placeholder after a colon-free head with its expanded value, which is the value itself when it has no `$` |
| SharedRoutes.Fill | shared/routes.ts:137-141 | definition of the `forEach` as a left fold of `Substitute` over the entries; FillConcat, FillWithoutPlaceholders, FillLength and FillOne state its properties |
| SharedRoutes.NumbersArePlain | shared/routes.ts:139 | `String(n)` of a number holds no `$`, so numeric parameters are inserted literally |
| SharedRoutes.PlainValue | shared/routes.ts:139 | a `$`-free value expands to itself, whatever was matched and whatever surrounds it |
| SharedRoutes.DollarPatternExample | shared/routes.ts:139 | a text value `a$&b` fills `:id` with `a:idb`: `$&` puts the matched placeholder back |
| SharedRoutes.MatchedTextTemplate | shared/routes.ts:139 | the template `a$&b` expands to `a`, the matched text and `b`, whatever surrounds the match |
| SharedRoutes.FirstOccurrenceAlone | shared/routes.ts:139 | no occurrence of the pattern ends before the end of the first one |
| SharedRoutes.FillSingle | shared/routes.ts:137-141 | a one-entry parameter object is one substitution step |
| ChatSession.HistoryQueryFn | client/src/hooks/use-chat-session.ts:10-16 | session 0 and a 404 give an empty history; another non-ok status fails with "Failed to fetch history"; an ok status gives the parsed messages; the result is data exactly in those empty and parsed cases |
| ChatSession.UseChatHistory | client/src/hooks/use-chat-session.ts:6-19 | the query is disabled exactly for session 0 |
| ChatSession.Ok | client/src/hooks/use-chat-session.ts:14 | definition of `response.ok`: a 2xx status |
| ChatSession.HistoryOfMissingSession | client/src/hooks/use-chat-session.ts:6-19 | a session the server does not know shows an empty history rather than an error |
| ChatSession.ChatStream.ConsumeLine | client/src/hooks/use-chat-session.ts:82-99 | a line adds the content of the event it carries to the streamed text, and nothing otherwise |
| ChatSession.ChatStream.ConsumeRead | client/src/hooks/use-chat-session.ts:75-100 | a read adds the text of all its lines |
| ChatSession.ChatStream.Consume | client/src/hooks/use-chat-session.ts:70-101 | the streamed text grows by what all the reads carry |
| ChatSession.ChatStream.Send | client/src/hooks/use-chat-session.ts:42-110 | posts to the session's message route; success exactly on an ok status; the text streamed is what the body carries; streaming state is reset at the end |
| Embed.EmbedChat.AppendToLast | client/src/pages/embed.tsx:147-155 | only the last message changes, and its content grows by the delta |
| Embed.EmbedChat.ConsumeLine | client/src/pages/embed.tsx:143-157 | a line appends the content of its event to the model message |
| Embed.EmbedChat.ConsumeRead | client/src/pages/embed.tsx:136-158 | a read appends the text of all its lines to the model message |
| Embed.EmbedChat.Consume | client/src/pages/embed.tsx:134-160 | the model message ends up holding everything the reads carry |
| Embed.EmbedChat.SendMessage | client/src/pages/embed.tsx:101-166 | a blank input, no session or a running stream changes nothing; otherwise the trimmed user message and the streamed model reply are appended, the input cleared and streaming off at the end |
| Embed.EmbedChat.HandleSuggestedPrompt | client/src/pages/embed.tsx:168-171 | a suggested prompt becomes the input without being sent |
| Embed.CanSend | client/src/pages/embed.tsx:102 | definition of the guard: non-blank input, a truthy session and no stream running; SendMessage ensures it |
| Embed.StreamedAnswer | client/src/pages/embed.tsx:123-160 | definition: the deltas of an ok response with a body, else nothing; SendMessage ensures it |
| Markdown.FindClose | client/src/pages/assistant-editor.tsx:122 | the lazy match finds the first closing delimiter after a non-empty body on the same line |
| Markdown.NewlinesToBr | client/src/pages/assistant-editor.tsx:125 | no newline is left |
| Markdown.RenderEmpty | client/src/pages/assistant-editor.tsx:120 | empty text renders as empty |
| Markdown.RenderHasNoNewline | client/src/pages/assistant-editor.tsx:119-126 | rendered text contains no newline |
| Markdown.RenderKeepsPlain | client/src/pages/assistant-editor.tsx:119-126 | text without asterisks, brackets or newlines renders unchanged |
| Markdown.FindCloseFirst | client/src/pages/assistant-editor.tsx:122 | the search returns the first closing position after the body |
| Markdown.RenderBold | client/src/pages/assistant-editor.tsx:122 | `**x**` with plain x renders as `<strong>x</strong>` |
| Markdown.RenderMarkdown | client/src/pages/assistant-editor.tsx:119-126 | definition of the four replacements in order; RenderEmpty, RenderHasNoNewline, RenderKeepsPlain and RenderBold state its properties |
| Markdown.ReplaceDelimited | client/src/pages/assistant-editor.tsx:122-123 | definition of a lazy `/\*\*(.+?)\*\*/g`-style replacement; RenderBold uses it |
| Markdown.ReplaceLinks | client/src/pages/assistant-editor.tsx:124 | definition of the link replacement |
| Markdown.Anchor | client/src/pages/assistant-editor.tsx:124 | definition of the anchor element written for a link |
| AssistantEditor.SuggestedPrompts | client/src/pages/assistant-editor.tsx:44-51 | the configured prompts when there is at least one, else the four defaults; never empty |
| AssistantEditor.FooterText | client/src/pages/assistant-editor.tsx:53 | the configured footer when it is a non-empty string; the empty string without a config, without a footer or with an empty one |
| AssistantEditor.SelectedTheme | client/src/pages/assistant-editor.tsx:55 | a configured non-empty theme name is used; otherwise `material` |
| AssistantEditor.SelectedFont | client/src/pages/assistant-editor.tsx:56 | a configured non-empty font name is used; otherwise `Inter` |
| AssistantEditor.CurrentTheme | client/src/pages/assistant-editor.tsx:59-86 | `classic` and `minimalist` pick their styles; a name that is a key of `Object.prototype` picks the inherited member; every other name falls back to Material |
| AssistantEditor.FontFamily | client/src/pages/assistant-editor.tsx:89-98 | a listed font gives its non-empty family, a key of `Object.prototype` the inherited member, and every other name Inter's family |
| AssistantEditor.ThemeStyleOf | client/src/pages/assistant-editor.tsx:59-84 | definition of the `themeStyles[name]` lookup: the three own themes, the inherited `Object.prototype` members, else missing; CurrentTheme states the result |
| AssistantEditor.FontFamilyOf | client/src/pages/assistant-editor.tsx:89-96 | definition of the `fontFamilies[name]` lookup: the six own fonts, the inherited members, else missing; FontFamily states the result |
| AssistantEditor.ShowBranding | client/src/pages/assistant-editor.tsx:54 | definition: branding is shown unless the config sets it to `false`; NoConfigDefaults states the default |
| AssistantEditor.NoConfigDefaults | client/src/pages/assistant-editor.tsx:36-98 | without a deployment config: default prompts, no footer, branding shown, Material theme, Inter font |
| AssistantEditor.WelcomeText | client/src/pages/assistant-editor.tsx:147-156 | the assistant's welcome message when set and non-empty, else the default greeting |
| AssistantEditor.WithContent | client/src/pages/assistant-editor.tsx:228-232 | only the message with the given id gets the new content; all others are unchanged |
| AssistantEditor.ShowingGrows | client/src/pages/assistant-editor.tsx:226-232 | each streamed delta updates the assistant message to the longer cumulative text |
| AssistantEditor.Showing | client/src/pages/assistant-editor.tsx:226-232 | definition: the list unchanged until content arrived, then the target showing the cumulative text; ShowingGrows and ShowingChangesOnlyTarget state it |
| AssistantEditor.SendOutcome | client/src/pages/assistant-editor.tsx:176-249 | definition of the messages after a send: the connection error, the send error or the streamed reply; Deliver ensures it |
| AssistantEditor.ShowingChangesOnlyTarget | client/src/pages/assistant-editor.tsx:205-232 | the messages before the placeholder are untouched and the placeholder shows the full text |
| AssistantEditor.EditorChat.HandleClearSession | client/src/pages/assistant-editor.tsx:252-259 | clearing forgets the session and leaves only the welcome message |
| AssistantEditor.EditorChat.ConsumeLine | client/src/pages/assistant-editor.tsx:222-236 | a line extends the full content by its event's text and the message shows it |
| AssistantEditor.EditorChat.ConsumeRead | client/src/pages/assistant-editor.tsx:215-237 | a read extends the full content by its lines' text |
| AssistantEditor.EditorChat.Consume | client/src/pages/assistant-editor.tsx:212-238 | the assistant message ends up showing everything the reads carry |
| AssistantEditor.MessageText | client/src/pages/assistant-editor.tsx:163 | the text sent is the argument when it is non-empty, else the input box |
| AssistantEditor.TruthyId | client/src/pages/assistant-editor.tsx:178 | definition of a number-or-null session id read as a condition |
| AssistantEditor.Stamp | client/src/pages/assistant-editor.tsx:205 | definition of the message id `${prefix}-${Date.now()}` |
| AssistantEditor.EditorChat.Deliver | client/src/pages/assistant-editor.tsx:176-249 | without a session a connection error is appended; a failed post or a missing body appends the send error; otherwise an empty assistant message is appended and shows everything the stream carries; typing is off afterwards |
| AssistantEditor.EditorChat.HandleSend | client/src/pages/assistant-editor.tsx:162-250 | a blank text changes nothing; otherwise the input is cleared, the user message is appended, an existing session is kept or a new one is used, and the delivery outcome follows; typing is off at the end |
| DocumentSelection.Ids | client/src/pages/qa.tsx:116-122 | the id set is no larger than the list |
| DocumentSelection.IdsMembers | client/src/pages/qa.tsx:116-122 | the id set holds exactly the ids of the listed rows |
| DocumentSelection.IdsCount | client/src/pages/qa.tsx:116-122 | with distinct ids there are as many ids as rows |
| DocumentSelection.Toggled | client/src/pages/qa.tsx:332-341 | a row checkbox puts its id in the set exactly when checked and leaves other ids alone |
| DocumentSelection.SelectAll | client/src/pages/qa.tsx:116-122 | "select all" clears a selection as large as a non-empty list, else selects every listed id |
| DocumentSelection.AllChecked | client/src/pages/qa.tsx:237 | definition of the header checkbox's `checked`: a non-empty list whose size the selection matches |
| DocumentSelection.SelectAllFiles | client/src/pages/files.tsx:96-102 | the file list does nothing while loading, and compares sizes without a non-empty check |
| DocumentSelection.SelectAllTwice | client/src/pages/qa.tsx:116-122 | one click selects every row and ticks the header box, and a second click clears the selection |
| DocumentSelection.SelectAllFilesTwice | client/src/pages/files.tsx:96-102 | the same two-click behaviour for a loaded file list |
| DocumentSelection.SizeDecidesSelectAll | client/src/pages/qa.tsx:237 | a selection holding a stale id counts as "all selected" when sizes agree, and a click clears it |
| DocumentSelection.Selection.Toggle | client/src/pages/qa.tsx:332-341 | the selection becomes the toggled set and the row shows the new state |
| DocumentSelection.Selection.ToggleAll | client/src/pages/website.tsx:83-89 | the header checkbox applies "select all" to the current selection |
| DocumentSelection.Selection.ToggleAllFiles | client/src/pages/files.tsx:96-102 | the file-list header checkbox applies its variant of "select all" |
| QaPage.FaqRecord | client/src/pages/qa.tsx:96-114 | the request carries the question as title and as metadata, the response as metadata, content `Q: …\nA: …`, the FAQ type, the source id `faq-<now>` and the exact UTF-8 size of question and response, at least their lengths and equal for ASCII |
| QaPage.EditedQuestion | client/src/pages/qa.tsx:63-68 | editing starts from the stored question, or "" when there is none |
| QaPage.EditedResponse | client/src/pages/qa.tsx:63-68 | editing starts from the stored answer, or "" when there is none |
| QaPage.FaqDocuments | client/src/pages/qa.tsx:94 | the FAQ list holds exactly the loaded documents of FAQ type |
| QaPage.FilteredFaqs | client/src/pages/qa.tsx:124-126 | the search shows exactly the FAQ documents whose title matches |
| QaPage.SavedFaqIsListed | client/src/pages/qa.tsx:96-131 | a saved pair is found by searching any part of its question, and raises the storage total by its byte size |
| QaPage.QaPageState.HandleSaveFaq | client/src/pages/qa.tsx:96-114 | a blank field sends nothing; otherwise the request built from the fields as typed is sent, and the fields are cleared only when it is accepted |
| QaPage.QaPageState.StartEditing | client/src/pages/qa.tsx:63-68 | the edit row opens on the document with its pair |
| QaPage.QaPageState.CancelEditing | client/src/pages/qa.tsx:70-74 | all edit fields return to empty |
| QaPage.QaPageState.SaveEdit | client/src/pages/qa.tsx:76-92 | nothing happens without a row id or with a blank field; otherwise the edit row closes |
| TextPage.TextRecord | client/src/pages/text.tsx:44-58 | the request carries the asset name, the body as content, the text type and the body's byte size |
| TextPage.TextDocuments | client/src/pages/text.tsx:42 | the text list holds exactly the loaded documents of text type |
| TextPage.StoredTextIsListed | client/src/pages/text.tsx:42-65 | a stored asset is listed and raises the storage total by its byte size |
| TextPage.TextPageState.BytesUsed | client/src/pages/text.tsx:60 | the byte count lies between the character count and four times it, and equals it for ASCII |
| TextPage.TextPageState.HandleAddTextAsset | client/src/pages/text.tsx:44-58 | a blank name or body sends nothing; otherwise the request is sent and the fields are cleared only when it is accepted |
| WebsitePage.FullUrlParts | client/src/pages/website.tsx:68 | the URL is the protocol, `://` and the address, in that order |
| WebsitePage.FullUrl | client/src/pages/website.tsx:68 | the URL is as long as the protocol, `://` and the address together |
| WebsitePage.WebRecord | client/src/pages/website.tsx:63-81 | the request's title and metadata URL are the full URL, with the path filters and the slow-scraping flag, and no size |
| WebsitePage.WebDocuments | client/src/pages/website.tsx:61 | the website list holds exactly the loaded documents of website type |
| WebsitePage.FilteredWebs | client/src/pages/website.tsx:91-93 | the search shows exactly the website documents whose title matches |
| WebsitePage.StoredSiteIsFound | client/src/pages/website.tsx:61-98 | a stored site is found by searching its address in any letter case, and leaves the storage total unchanged |
| WebsitePage.WebsitePageState.HandleFetchLinks | client/src/pages/website.tsx:63-81 | a blank address sends nothing; otherwise the request is sent and only the address is cleared, when it is accepted |
| FilesPage.UploadRecord | client/src/pages/files.tsx:73-87 | the request carries the file name, its text, the upload type and the file's size and type |
| FilesPage.FilteredFiles | client/src/pages/files.tsx:104-106 | the file list's search works on all documents of every type, and shows none while loading |
| FilesPage.DragState | client/src/pages/files.tsx:52-60 | enter and over turn the drop zone on, leave turns it off, any other event keeps it |
| FilesPage.StoredUploadIsFound | client/src/pages/files.tsx:104-111 | a stored upload is found by its name and raises the storage total by the file's size |
| FilesPage.FilesPageState.HandleDrag | client/src/pages/files.tsx:52-60 | the drop zone state follows the event |
| FilesPage.FilesPageState.HandleFileUpload | client/src/pages/files.tsx:73-87 | one creation request is sent for the file |
| FilesPage.FilesPageState.HandleDrop | client/src/pages/files.tsx:62-71 | the drop zone turns off and only the first dropped file is uploaded |
| FilesPage.FilesPageState.HandleFileSelect | client/src/pages/files.tsx:89-94 | only the first selected file is uploaded, and nothing without a selection |
| ChatInterface.LoadedName | client/src/pages/chat-interface.tsx:67-72 | the loaded name is the assistant's, or the default when empty |
| ChatInterface.Without | client/src/pages/chat-interface.tsx:81-83 | removal drops every copy of the prompt and keeps all other prompts |
| ChatInterface.WithoutKeepsNoDuplicates | client/src/pages/chat-interface.tsx:81-83 | removing a prompt keeps the list free of duplicates |
| ChatInterface.WithoutAbsent | client/src/pages/chat-interface.tsx:74-83 | removing one prompt commutes with appending another |
| ChatInterface.ChatInterfaceState.Load | client/src/pages/chat-interface.tsx:67-72 | loading copies the assistant's name and greeting, with defaults |
| ChatInterface.ChatInterfaceState.AddPrompt | client/src/pages/chat-interface.tsx:74-79 | a new non-blank prompt not yet listed is appended trimmed and the field cleared; otherwise nothing changes; the list stays free of duplicates |
| ChatInterface.ChatInterfaceState.RemovePrompt | client/src/pages/chat-interface.tsx:81-83 | the prompt is removed and the list stays free of duplicates |
| ChatInterface.ChatInterfaceState.HandleApplyChanges | client/src/pages/chat-interface.tsx:85-92 | with a loaded assistant one update with the name and greeting is sent, else nothing |
| AuthRoutes.Strip | server/replit_integrations/auth/routes.ts:25 | the reply has every user field except the password |
| AuthRoutes.FirstWhere | server/replit_integrations/auth/storage.ts:19-27 | `getUser` and `getUserByUsername`: a user whose id (or name) is the value, and none exactly when no user has it |
| AuthRoutes.FirstWhereIsFirst | server/replit_integrations/auth/storage.ts:19-27 | the user found is the first row holding the value: every row before it holds another |
| AuthRoutes.VerifyPassword | server/replit_integrations/auth/storage.ts:58-63 | a user is returned exactly when the name is known, a hash is stored and the password matches it |
| AuthRoutes.ResolveUserId | server/replit_integrations/auth/routes.ts:73 | the session's user id wins, then the login claim; there is none exactly when both are missing or empty |
| AuthRoutes.AvatarError | server/replit_integrations/auth/routes.ts:118-131 | the image is accepted exactly when it is a string starting with `data:image/` of at most 2800000 UTF-16 units; otherwise the first failing check names the error |
| AuthRoutes.Patched | server/replit_integrations/auth/storage.ts:65-72 | fields given in the patch are set, absent ones are kept, id, name and password never change |
| AuthRoutes.UpdateRows | server/replit_integrations/auth/storage.ts:65-72 | only the rows with the id are patched |
| AuthRoutes.UpdateThenLookup | server/replit_integrations/auth/storage.ts:65-72 | after an update, looking the id up finds the patched user, or still none |
| AuthRoutes.RegisteredUserCanLogin | server/replit_integrations/auth/storage.ts:44-63 | a user registered with a new name can log in with the same password |
| AuthRoutes.ByUsernameAppend | server/replit_integrations/auth/storage.ts:24-27 | a user appended under a new name is found by it |
| AuthRoutes.AuthServer.Login | server/replit_integrations/auth/routes.ts:8-30 | 400 without name or password, 500 on a storage failure, 401 on a wrong password; otherwise the session is local to that user and the reply hides the password |
| AuthRoutes.AuthServer.Register | server/replit_integrations/auth/routes.ts:33-57 | 400 without name or password, 409 for a taken name, 500 on a failure; otherwise the user is added with a hashed password and logged in |
| AuthRoutes.AuthServer.Logout | server/replit_integrations/auth/routes.ts:60-67 | the session is cleared, unless destroying it fails with 500 |
| AuthRoutes.AuthServer.GetUser | server/replit_integrations/auth/routes.ts:70-87 | 401 without a user id, 500 on failure, 404 for an unknown id, else the user without password |
| AuthRoutes.AuthServer.ApplyPatch | server/replit_integrations/auth/routes.ts:97-104 | the store is updated and the patched user returned, or 404 |
| AuthRoutes.AuthServer.UpdateUser | server/replit_integrations/auth/routes.ts:90-108 | 401 without a user id, 500 on failure, else the patch is applied |
| AuthRoutes.AuthServer.UploadAvatar | server/replit_integrations/auth/routes.ts:111-143 | 401, then the image checks with 400, then 500 on failure; else the image becomes the profile picture |
| AuthRoutes.AuthServer.DeleteAvatar | server/replit_integrations/auth/routes.ts:146-163 | 401 without a user id, 500 on failure, 404 for an unknown id, else the stored user with its picture set to null, returned without the password |
| AssistantCard.JsRemainder | client/src/components/assistant-card.tsx:55 | the remainder truncates toward zero: Dafny's for non-negative ids, its negation for negative ones |
| AssistantCard.GetGradient | client/src/components/assistant-card.tsx:54-56 | a non-negative id picks one of the eight gradients by id modulo 8; a negative id that is not a multiple of 8 picks none, and a negative multiple of 8 the first |
| AssistantCard.GradientPeriodic | client/src/components/assistant-card.tsx:54-56 | ids eight apart pick the same gradient |
| AssistantCard.CoverClass | client/src/components/assistant-card.tsx:98 | with a cover image no gradient class is used; without one a gradient is |
| AssistantCard.MenuItems | client/src/components/assistant-card.tsx:140-161 | rename and change cover come first; remove image appears exactly with a cover, delete exactly for a non-demo assistant |
| AssistantCard.BadgeText | client/src/components/assistant-card.tsx:113-123 | the badge reads DEMO exactly for the demo assistant, otherwise DRAFT |
| AssistantCard.AssistantCardState.HandleRename | client/src/components/assistant-card.tsx:66-71 | a blank name sends nothing; otherwise the trimmed name is sent, and the dialog closes only when it is accepted |
| AssistantCard.AssistantCardState.HandleCoverChange | client/src/components/assistant-card.tsx:73-82 | the chosen image is sent as the cover, nothing without a file |
| AssistantCard.AssistantCardState.HandleRemoveImage | client/src/components/assistant-card.tsx:84-86 | the cover is set to null |
| Profile.InitialOf | client/src/pages/profile.tsx:44 | one character, the upper-cased first one |
| Profile.GetInitials | client/src/pages/profile.tsx:42-50 | the upper-cased initial of the first name, else of the user name, else U |
| Profile.WorkspaceId | client/src/pages/profile.tsx:96 | the first eight characters of the user id, or N/A without one |
| Profile.InitialForm | client/src/pages/profile.tsx:18-19 | the form starts from the user's first name and email, or empty strings |
| EndToEnd.SavedFaqIsAnswered | client/src/pages/qa.tsx:96-114 | a non-blank pair saved on the FAQ page answers every chat message with the same normal form as its question |
| EndToEnd.OtherQueriesSkipSavedFaq | server/routes.ts:180-198 | a saved pair does not change the answer to any message with another normal form |
| EndToEnd.DeliveredTextIsStored | server/routes.ts:226-296 | on either answering branch, the text a client reads from the stream is the model message the server stored |
| EndToEnd.SavedFaqReachesClient | server/routes.ts:226-243 | a chat message matching a saved FAQ makes the client read exactly the saved answer |

## Left out

- The language-model client is not modelled. Its stream becomes a sequence of text chunks plus a failure flag (`ChatRoutes.Backend`).
- `JSON.stringify`/`JSON.parse` are not modelled. They become an `encode`/`parse` pair, assumed to be a codec only where a lemma says so (`Sse.IsCodec`).
- `fetch`, `TextDecoder` and the stream reader are not modelled. A response body becomes the sequence of decoded chunks a reader returns.
- Byte-chunk boundaries that split a line are not modelled. Each chunk is split on its own, as the clients do, which loses a line cut across two reads.
- `FileReader`, `Blob` and the browser's file objects are not modelled. A file becomes its name, size, type and text.
- `Date.now()` becomes a `now` parameter.
- The database and its ids become in-memory sequences with ids supplied by the caller.
- Creation timestamps are not modelled. List order stands for them (documents newest first, messages oldest first).
- Strings.ToLower: case mapping covers ASCII letters only. Full Unicode case mapping is not modelled.
- Strings.ToUpper: case mapping covers ASCII letters only. JavaScript maps `é` to `É` and `ß` to the two characters `SS`, which the model does not.
- Strings.Trim: the white-space class (`Strings.IsSpace`) is ASCII white space only: space, tab, line feed, carriage return, vertical tab and form feed. JavaScript's `trim` and `\s` also cover the Unicode spaces and line terminators.
- Profile.InitialOf: `charAt(0)` is one UTF-16 code unit, so a first character outside the Basic Multilingual Plane gives a lone surrogate in the source. Dafny characters are whole code points, so the model returns the whole character. Non-ASCII letters are not upper-cased, and `ß` becomes two characters in the source, so the source's initial is not always one character.
- Profile.GetInitials: inherits the code-unit gap and the ASCII-only upper-casing of Profile.InitialOf: a name starting with `é` or `ß` gets `É` or `SS` in the source.
- SharedRoutes.Substitute: numbers are integral only. `String(1.5)`, `NaN` and `Infinity` are not modelled. Text values are replacement templates, and `$` patterns are expanded.
- SharedRoutes.FillLength: holds only for `$`-free values. A `$'` in a value copies the rest of the URL, so no such bound holds for arbitrary values.
- ChatRoutes.ChatServer.SendMessage: storage is infallible in the model. In the source a failing lookup or store before the first frame (`getConversation`, `getAssistant`, storing the user message, `getDocuments`) gives 500 "Chat failed".
- ChatRoutes.ChatServer.AnswerFromFaq: a failing store of the FAQ answer is not modelled. In the source it happens after the content frame is written, so the client reads the answer, the stream stays open without a done frame and nothing is stored; ChatRoutes.FaqStreamMatchesStore and EndToEnd.DeliveredTextIsStored hold only for a store that does not fail.
- ChatRoutes.ChatServer.AnswerFromModel: a failing `getMessages` before the first frame gives 500 in the source and is not modelled. A failing store of the full response after the frames leaves the stream open without a done frame and nothing stored; ChatRoutes.ModelStreamMatchesStore models only the model backend's failure.
- ChatRoutes.ChatServer.SendMessage: `content` is a string. A missing or non-string body is not modelled. In the source it stores a message with null content, then `normalizeText` throws and the reply is 500 "Chat failed".
- QaPage.QaPageState.SaveEdit: only the guard and the reset of the edit row. The update it calls, `useUpdateDocument`, is imported at client/src/pages/qa.tsx:3 but not exported by client/src/hooks/use-assistants.ts, and no document update route exists, so the page as written cannot be built.
- server/replit_integrations/auth/replitAuth.ts (`isAuthenticated`, the OpenID login) is not part of this model. Its claim subject becomes a parameter.
- bcrypt becomes `hash`/`matches` parameters.
- Express sessions become one session held by `AuthRoutes.AuthServer`.
- `ensureDefaultUser` and `upsertUser` are not modelled.
- AuthRoutes.AuthServer.Login: non-string body values for name and password are not modelled. Truthy non-strings reach the store in the source.
- The remaining routes of server/routes.ts are not modelled: assistant CRUD, document creation and deletion, conversation creation.
- The UI-only components and pages are not modelled: layout, dialogs, toasts and styling.
- Sorting of knowledge-base lists and the retrain action are not modelled.
