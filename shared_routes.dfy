/**
 * The API table of shared/routes.ts and `buildUrl`, which fills `:key`
 * placeholders of a path from a parameter object, one key at a time in the
 * order `Object.entries` lists them.
 */
module SharedRoutes {
  import opened Wrappers
  import opened Strings

  datatype HttpMethod = GET | POST | PUT | DELETE

  datatype Endpoint = Endpoint(verb: HttpMethod, path: string)

  const AssistantsList := Endpoint(GET, "/api/assistants")
  const AssistantsGet := Endpoint(GET, "/api/assistants/:id")
  const AssistantsCreate := Endpoint(POST, "/api/assistants")
  const AssistantsUpdate := Endpoint(PUT, "/api/assistants/:id")
  const AssistantsDelete := Endpoint(DELETE, "/api/assistants/:id")
  const DocumentsList := Endpoint(GET, "/api/assistants/:assistantId/documents")
  const DocumentsCreate := Endpoint(POST, "/api/assistants/:assistantId/documents")
  const DocumentsDelete := Endpoint(DELETE, "/api/documents/:id")
  const ChatCreateSession := Endpoint(POST, "/api/chat/session")
  const ChatSendMessage := Endpoint(POST, "/api/chat/session/:id/message")
  const ChatHistory := Endpoint(GET, "/api/chat/session/:id/history")

  /** A parameter value: `string | number` (integral numbers only). */
  datatype ParamValue = Text(text: string) | Number(number: int)

  /** `String(value)`. */
  function ValueString(v: ParamValue): string {
    match v
    case Text(t) => t
    case Number(n) => IntToString(n)
  }

  /** A value whose text has no `$`, so `replace` inserts it literally. */
  predicate Plain(v: ParamValue) {
    forall i :: 0 <= i < |ValueString(v)| ==> ValueString(v)[i] != '$'
  }

  /** Numbers print as digits and a sign, never a `$`. */
  lemma NumbersArePlain(n: int)
    ensures Plain(Number(n))
  {
    var t := IntToString(n);
    forall i | 0 <= i < |t| ensures t[i] != '$' {
      assert IsDigit(t[i]) || t[i] == '-';
    }
  }

  /** The placeholder a key fills: `:${key}`. */
  function Placeholder(key: string): (p: string)
    ensures |p| == |key| + 1 && p[0] == ':' && p[1..] == key
  {
    ":" + key
  }

  /**
   * One step of the loop: when the placeholder occurs, its first
   * occurrence is replaced by the text the value's string stands for as a
   * replacement template (`$&`, `` $` ``, `$'` and `$$` are expanded);
   * otherwise the url is unchanged.
   */
  function Substitute(url: string, key: string, value: ParamValue): (r: string)
    ensures !Contains(url, Placeholder(key)) ==> r == url
    ensures Contains(url, Placeholder(key)) ==>
      var k := IndexOf(url, Placeholder(key)).value;
      var after := url[k + |Placeholder(key)|..];
      r == url[..k] + Substitution(ValueString(value), Placeholder(key), url[..k], after) + after
    ensures Contains(url, Placeholder(key)) && Plain(value) ==>
      var k := IndexOf(url, Placeholder(key)).value;
      && r == url[..k] + ValueString(value) + url[k + |Placeholder(key)|..]
      && |r| == |url| - |Placeholder(key)| + |ValueString(value)|
  {
    if Contains(url, Placeholder(key)) then
      var k := IndexOf(url, Placeholder(key)).value;
      PlainValue(value, Placeholder(key), url[..k], url[k + |Placeholder(key)|..]);
      ReplaceFirst(url, Placeholder(key), ValueString(value))
    else url
  }

  lemma PlainValue(value: ParamValue, matched: string, before: string, after: string)
    ensures Plain(value) ==> Substitution(ValueString(value), matched, before, after) == ValueString(value)
  {
    if Plain(value) {
      PlainSubstitution(ValueString(value), matched, before, after);
    }
  }

  /** The url after the entries are applied in order (a left fold). */
  function Fill(url: string, entries: seq<(string, ParamValue)>): string {
    if entries == [] then url
    else
      var last := entries[|entries| - 1];
      Substitute(Fill(url, entries[..|entries| - 1]), last.0, last.1)
  }

  /**
   * buildUrl: without parameters the path comes back as it is; otherwise
   * each entry in turn replaces the first occurrence of its placeholder.
   */
  method BuildUrl(path: string, params: Option<seq<(string, ParamValue)>>) returns (url: string)
    ensures params.None? ==> url == path
    ensures params.Some? ==> url == Fill(path, params.value)
  {
    url := path;
    if params.Some? {
      var entries := params.value;
      var i := 0;
      while i < |entries|
        invariant 0 <= i <= |entries|
        invariant url == Fill(path, entries[..i])
      {
        var (key, value) := entries[i];
        assert entries[..i + 1][..i] == entries[..i];
        if Contains(url, Placeholder(key)) {
          url := ReplaceFirst(url, Placeholder(key), ValueString(value));
        }
        i := i + 1;
      }
      assert entries[..i] == entries;
    }
  }

  /** Entries whose placeholders never occur leave the url as it is. */
  lemma {:induction false} FillWithoutPlaceholders(url: string, entries: seq<(string, ParamValue)>)
    requires forall i :: 0 <= i < |entries| ==> !Contains(url, Placeholder(entries[i].0))
    ensures Fill(url, entries) == url
  {
    if entries != [] {
      FillWithoutPlaceholders(url, entries[..|entries| - 1]);
    }
  }

  /** Filling is sequential: the entries of a concatenation apply one list after the other. */
  lemma {:induction false} FillConcat(url: string, a: seq<(string, ParamValue)>, b: seq<(string, ParamValue)>)
    ensures Fill(url, a + b) == Fill(Fill(url, a), b)
  {
    if b == [] {
      assert a + b == a;
    } else {
      var b' := b[..|b| - 1];
      assert (a + b)[..|a + b| - 1] == a + b';
      FillConcat(url, a, b');
    }
  }

  /**
   * Each entry replaces at most one placeholder: with values free of `$`,
   * the url grows or shrinks by at most one placeholder-for-value exchange
   * per entry. (A `$'` in a value copies the rest of the url, so no such
   * bound holds for arbitrary values.)
   */
  lemma {:induction false} FillLength(url: string, entries: seq<(string, ParamValue)>)
    requires forall i :: 0 <= i < |entries| ==> Plain(entries[i].1)
    ensures |Fill(url, entries)| <= |url| + Growth(entries)
  {
    if entries != [] {
      FillLength(url, entries[..|entries| - 1]);
    }
  }

  /** The most an entry list can lengthen a url: each value's text, less its placeholder, when positive. */
  function Growth(entries: seq<(string, ParamValue)>): nat {
    if entries == [] then 0
    else
      var last := entries[|entries| - 1];
      var d := |ValueString(last.1)| - |Placeholder(last.0)|;
      Growth(entries[..|entries| - 1]) + (if d > 0 then d else 0)
  }

  /** The placeholder text before the first occurrence and after it is kept. */
  lemma SubstituteKeepsSurroundings(url: string, key: string, value: ParamValue)
    requires Contains(url, Placeholder(key))
    ensures var k := IndexOf(url, Placeholder(key)).value;
      && !Contains(url[..k + |Placeholder(key)| - 1], Placeholder(key))
      && StartsWith(Substitute(url, key, value), url[..k])
    ensures var k := IndexOf(url, Placeholder(key)).value;
      var after := url[k + |Placeholder(key)|..];
      var r := Substitute(url, key, value);
      |after| <= |r| && r[|r| - |after|..] == after
  {
    var p := Placeholder(key);
    var k := IndexOf(url, p).value;
    var after := url[k + |p|..];
    FirstOccurrenceAlone(url, p);
    ConcatEnds(url[..k], Substitution(ValueString(value), p, url[..k], after), after);
  }

  /** Cut just before the end of the first occurrence, the text holds no occurrence at all. */
  lemma FirstOccurrenceAlone(s: string, p: string)
    requires p != [] && Contains(s, p)
    ensures !Contains(s[..IndexOf(s, p).value + |p| - 1], p)
  {
    var k := IndexOf(s, p).value;
    var pre := s[..k + |p| - 1];
    forall j | true ensures !OccursAt(pre, p, j) {
      if 0 <= j && j + |p| <= |pre| {
        assert pre[j..j + |p|] == s[j..j + |p|];
        assert !OccursAt(s, p, j);
      }
    }
  }

  lemma ConcatEnds(front: string, middle: string, back: string)
    ensures StartsWith(front + middle + back, front)
    ensures (front + middle + back)[|front + middle + back| - |back|..] == back
  {
    var r := front + middle + back;
    assert r[..|front|] == front;
  }

  /** buildUrl('/api/assistants/:id', { id: 5 }) is '/api/assistants/5'. */
  lemma AssistantExample()
    ensures Fill(AssistantsGet.path, [("id", Number(5))]) == "/api/assistants/5"
  {
    var head := "/api/assistants/";
    assert forall i :: 0 <= i < |head| ==> head[i] != ':';
    NumbersArePlain(5);
    FillOne(head, "id", "", Number(5));
    assert AssistantsGet.path == head + Placeholder("id") + "";
    assert ValueString(Number(5)) == "5";
  }

  /** A key fills any placeholder it is a prefix of: `:id` also matches inside `:idx`. */
  lemma PrefixKeyMatches()
    ensures Fill("/x/:idx", [("id", Number(5))]) == "/x/5x"
  {
    var head := "/x/";
    assert forall i :: 0 <= i < |head| ==> head[i] != ':';
    NumbersArePlain(5);
    FillOne(head, "id", "x", Number(5));
    assert "/x/:idx" == head + Placeholder("id") + "x";
    assert ValueString(Number(5)) == "5";
  }

  /**
   * A text value is a replacement template: `$&` in it stands for the
   * placeholder matched, so `a$&b` puts `:id` back between `a` and `b`.
   */
  lemma DollarPatternExample(head: string, tail: string)
    requires forall i :: 0 <= i < |head| ==> head[i] != ':'
    ensures Fill(head + ":id" + tail, [("id", Text("a$&b"))]) == head + "a:idb" + tail
  {
    assert Placeholder("id") == ":id";
    assert ValueString(Text("a$&b")) == "a$&b";
    FillOne(head, "id", tail, Text("a$&b"));
    MatchedTextTemplate(head, tail);
  }

  /** The template `a$&b` expands to `a`, the matched text, then `b`. */
  lemma MatchedTextTemplate(before: string, after: string)
    ensures Substitution("a$&b", ":id", before, after) == "a:idb"
  {
    var t := "a$&b";
    assert t[1..][1..][1..] == "b";
    assert Substitution("b", ":id", before, after) == "b";
    assert Substitution(t[1..], ":id", before, after) == ":id" + "b";
  }

  /** The per-session endpoints filled with a session id: `:id` is the only placeholder. */
  lemma SessionPaths(id: int)
    ensures Fill(ChatSendMessage.path, [("id", Number(id))]) == "/api/chat/session/" + IntToString(id) + "/message"
    ensures Fill(ChatHistory.path, [("id", Number(id))]) == "/api/chat/session/" + IntToString(id) + "/history"
  {
    var head := "/api/chat/session/";
    assert ChatSendMessage.path == head + Placeholder("id") + "/message";
    assert ChatHistory.path == head + Placeholder("id") + "/history";
    assert forall i :: 0 <= i < |head| ==> head[i] != ':';
    NumbersArePlain(id);
    FillOne(head, "id", "/message", Number(id));
    FillOne(head, "id", "/history", Number(id));
  }

  /** With one entry the fold is a single substitution. */
  lemma FillSingle(url: string, key: string, value: ParamValue)
    ensures Fill(url, [(key, value)]) == Substitute(url, key, value)
  {
    assert [(key, value)][..0] == [];
  }

  /** A single entry whose placeholder follows a head with no `:` fills just that placeholder. */
  lemma FillOne(head: string, key: string, tail: string, value: ParamValue)
    requires forall i :: 0 <= i < |head| ==> head[i] != ':'
    ensures Fill(head + Placeholder(key) + tail, [(key, value)])
         == head + Substitution(ValueString(value), Placeholder(key), head, tail) + tail
    ensures Plain(value) ==> Fill(head + Placeholder(key) + tail, [(key, value)]) == head + ValueString(value) + tail
  {
    FillSingle(head + Placeholder(key) + tail, key, value);
    PlaceholderFilled(head, key, tail, value);
    PlainValue(value, Placeholder(key), head, tail);
  }

  /** The first placeholder after a head with no `:` is replaced by the value; head and tail stay. */
  lemma PlaceholderFilled(head: string, key: string, tail: string, value: ParamValue)
    requires forall i :: 0 <= i < |head| ==> head[i] != ':'
    ensures Substitute(head + Placeholder(key) + tail, key, value)
         == head + Substitution(ValueString(value), Placeholder(key), head, tail) + tail
  {
    var p := Placeholder(key);
    var path := head + p + tail;
    var k := |head|;
    assert OccursAt(path, p, k) by {
      assert path[k..k + |p|] == p;
    }
    forall j | 0 <= j < k ensures !OccursAt(path, p, j) {
      assert path[j] == head[j] != ':' == p[0];
      if j + |p| <= |path| {
        assert path[j..j + |p|][0] == path[j];
      }
    }
    var found := IndexOf(path, p);
    assert found.Some?;
    assert found.value == k;
    assert path[..k] == head;
    assert path[k + |p|..] == tail;
  }
}
