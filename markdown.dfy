/**
 * `renderMarkdown` of client/src/pages/assistant-editor.tsx: four global
 * regular-expression replacements applied in turn: `**x**` to strong,
 * `*x*` to emphasis, `[text](url)` to a link, and every `\n` to `<br>`.
 *
 * Each delimited pattern is matched the way a left-to-right global scan
 * with a lazy `.+?` matches it: at a position that starts with the opening
 * delimiter, the body is the shortest non-empty run of characters other
 * than line terminators that is followed by the closing delimiter; a
 * position without such a match is copied and the scan moves on by one
 * character.
 */
module Markdown {
  import opened Wrappers
  import opened Strings

  const StrongOpen := "<strong>"
  const StrongClose := "</strong>"
  const EmOpen := "<em>"
  const EmClose := "</em>"
  const Br := "<br>"

  /** The characters `.` matches: everything except a line terminator. */
  predicate NoLineTerminator(s: string) {
    forall i :: 0 <= i < |s| ==> !IsLineTerminator(s[i])
  }

  /**
   * The end of the lazy body that starts at `start`: the least `j` with
   * `from <= j`, `close` occurring at `j`, and no line terminator in
   * `s[start..j]`.
   */
  function FindClose(s: string, start: nat, close: string, from: nat): (r: Option<nat>)
    requires start < from <= |s| + 1
    requires NoLineTerminator(s[start..from - 1])
    decreases |s| - from
    ensures r.Some? ==> from <= r.value && OccursAt(s, close, r.value) && NoLineTerminator(s[start..r.value])
    ensures r.Some? ==> forall j :: from <= j < r.value ==> !OccursAt(s, close, j)
    ensures r.None? ==> forall j :: from <= j <= |s| && NoLineTerminator(s[start..j]) ==> !OccursAt(s, close, j)
  {
    if from > |s| then None
    else if IsLineTerminator(s[from - 1]) then
      assert forall j :: from <= j <= |s| ==> s[start..j][from - 1 - start] == s[from - 1];
      None
    else
      assert s[start..from] == s[start..from - 1] + [s[from - 1]];
      if OccursAt(s, close, from) then Some(from)
      else FindClose(s, start, close, from + 1)
  }

  /** `s.replace(/D(.+?)D/g, open + '$1' + close)` for a delimiter `D` of one or two characters. */
  function ReplaceDelimited(s: string, d: string, open: string, close: string): string
    requires |d| > 0
    decreases |s|
  {
    if s == [] then []
    else if |d| < |s| && StartsWith(s, d) && FindClose(s, |d|, d, |d| + 1).Some? then
      var j := FindClose(s, |d|, d, |d| + 1).value;
      open + s[|d|..j] + close + ReplaceDelimited(s[j + |d|..], d, open, close)
    else [s[0]] + ReplaceDelimited(s[1..], d, open, close)
  }

  /** The anchor that `[text](url)` becomes. */
  function Anchor(text: string, url: string): string {
    "<a href=\"" + url + "\" target=\"_blank\" rel=\"noopener\" class=\"text-primary underline\">" + text + "</a>"
  }

  /** `s.replace(/\[(.+?)\]\((.+?)\)/g, ...)`. */
  function ReplaceLinks(s: string): string
    decreases |s|
  {
    if s == [] then []
    else if 1 < |s| && s[0] == '[' && FindClose(s, 1, "](", 2).Some? then
      var j := FindClose(s, 1, "](", 2).value;
      if j + 3 <= |s| + 1 && FindClose(s, j + 2, ")", j + 3).Some? then
        var k := FindClose(s, j + 2, ")", j + 3).value;
        Anchor(s[1..j], s[j + 2..k]) + ReplaceLinks(s[k + 1..])
      else [s[0]] + ReplaceLinks(s[1..])
    else [s[0]] + ReplaceLinks(s[1..])
  }

  /** `s.replace(/\n/g, '<br>')`. */
  function NewlinesToBr(s: string): (r: string)
    ensures forall i :: 0 <= i < |r| ==> r[i] != '\n'
  {
    if s == [] then []
    else (if s[0] == '\n' then Br else [s[0]]) + NewlinesToBr(s[1..])
  }

  function RenderMarkdown(text: string): string {
    if text == "" then ""
    else NewlinesToBr(ReplaceLinks(ReplaceDelimited(ReplaceDelimited(text, "**", StrongOpen, StrongClose), "*", EmOpen, EmClose)))
  }

  // ---------------------------------------------------------------------
  // Properties

  predicate Lacks(s: string, c: char) {
    forall i :: 0 <= i < |s| ==> s[i] != c
  }

  lemma RenderEmpty()
    ensures RenderMarkdown("") == ""
  {
  }

  /** The output never holds a newline: each one became `<br>`. */
  lemma RenderHasNoNewline(text: string)
    ensures Lacks(RenderMarkdown(text), '\n')
  {
  }

  lemma {:induction false} DelimitedKeepsPlain(s: string, d: string, open: string, close: string)
    requires |d| > 0 && Lacks(s, d[0])
    ensures ReplaceDelimited(s, d, open, close) == s
  {
    if s != [] {
      assert !StartsWith(s, d) by {
        if |d| <= |s| { assert s[..|d|][0] == s[0]; }
      }
      DelimitedKeepsPlain(s[1..], d, open, close);
    }
  }

  lemma {:induction false} LinksKeepPlain(s: string)
    requires Lacks(s, '[')
    ensures ReplaceLinks(s) == s
  {
    if s != [] {
      LinksKeepPlain(s[1..]);
    }
  }

  lemma {:induction false} BrKeepsPlain(s: string)
    requires Lacks(s, '\n')
    ensures NewlinesToBr(s) == s
  {
    if s != [] {
      BrKeepsPlain(s[1..]);
    }
  }

  /** Text with no `*`, no `[` and no newline comes back unchanged. */
  lemma RenderKeepsPlain(text: string)
    requires Lacks(text, '*') && Lacks(text, '[') && Lacks(text, '\n')
    ensures RenderMarkdown(text) == text
  {
    if text != "" {
      DelimitedKeepsPlain(text, "**", StrongOpen, StrongClose);
      DelimitedKeepsPlain(text, "*", EmOpen, EmClose);
      LinksKeepPlain(text);
      BrKeepsPlain(text);
    }
  }

  /** The lazy scan stops at the first occurrence of the close delimiter after a clean body. */
  lemma {:induction false} FindCloseFirst(s: string, start: nat, close: string, from: nat, j: nat)
    requires start < from <= j && OccursAt(s, close, j) && NoLineTerminator(s[start..j])
    requires NoLineTerminator(s[start..from - 1])
    requires forall k :: from <= k < j ==> !OccursAt(s, close, k)
    decreases j - from
    ensures FindClose(s, start, close, from) == Some(j)
  {
    assert s[from - 1] == s[start..j][from - 1 - start];
    if from < j {
      assert s[start..from] == s[start..j][..from - start];
      FindCloseFirst(s, start, close, from + 1, j);
    }
  }

  /** The close delimiter `**` after a star-free body is found right after the body. */
  lemma CloseAfterBody(x: string)
    requires x != [] && Lacks(x, '*') && NoLineTerminator(x)
    ensures FindClose("**" + x + "**", 2, "**", 3) == Some(2 + |x|)
  {
    var s := "**" + x + "**";
    assert s == "**" + (x + "**");
    assert s[2..2 + |x|] == x;
    assert s[2 + |x|..2 + |x| + 2] == "**";
    forall k | 3 <= k < 2 + |x| ensures !OccursAt(s, "**", k) {
      assert s[k..k + 2][0] == s[k] == x[k - 2];
    }
    assert s[2..2] == [];
    FindCloseFirst(s, 2, "**", 3, 2 + |x|);
  }

  /**
   * `**x**` becomes `<strong>x</strong>` when x is non-empty and holds no
   * `*`, `[` or line terminator: the bold pass runs first, so the italic
   * pass never sees the stars.
   */
  lemma RenderBold(x: string)
    requires x != [] && Lacks(x, '*') && Lacks(x, '[') && NoLineTerminator(x)
    ensures RenderMarkdown("**" + x + "**") == StrongOpen + x + StrongClose
  {
    var s := "**" + x + "**";
    CloseAfterBody(x);
    assert s[2..2 + |x|] == x;
    assert s[2 + |x| + 2..] == [];
    assert StartsWith(s, "**");
    assert ReplaceDelimited(s, "**", StrongOpen, StrongClose) == StrongOpen + x + StrongClose + ReplaceDelimited([], "**", StrongOpen, StrongClose);
    var b := StrongOpen + x + StrongClose;
    assert Lacks(b, '*') by {
      forall i | 0 <= i < |b| ensures b[i] != '*' {
        if |StrongOpen| <= i < |StrongOpen| + |x| { assert b[i] == x[i - |StrongOpen|]; }
      }
    }
    assert Lacks(b, '[') by {
      forall i | 0 <= i < |b| ensures b[i] != '[' {
        if |StrongOpen| <= i < |StrongOpen| + |x| { assert b[i] == x[i - |StrongOpen|]; }
      }
    }
    assert Lacks(b, '\n') by {
      forall i | 0 <= i < |b| ensures b[i] != '\n' {
        if |StrongOpen| <= i < |StrongOpen| + |x| { assert b[i] == x[i - |StrongOpen|]; }
      }
    }
    assert ReplaceDelimited(s, "**", StrongOpen, StrongClose) == b;
    DelimitedKeepsPlain(b, "*", EmOpen, EmClose);
    LinksKeepPlain(b);
    BrKeepsPlain(b);
    assert s != "";
  }
}
