/**
 * `normalizeText` of server/routes.ts: the key under which a user question
 * and a stored FAQ question are compared. It lower-cases, deletes a fixed
 * set of punctuation characters, turns every run of whitespace into one
 * space and trims.
 */
module Normalize {
  import opened Strings

  /** The characters of the class `[?!.,;:'"«»]`. */
  predicate IsPunctuation(c: char) {
    c == '?' || c == '!' || c == '.' || c == ',' || c == ';' || c == ':'
    || c == '\'' || c == '"' || c == '«' || c == '»'
  }

  predicate HasNoPunctuation(s: string) {
    forall i :: 0 <= i < |s| ==> !IsPunctuation(s[i])
  }

  /** Every whitespace character is a plain space and no two of them are adjacent. */
  predicate IsCollapsed(s: string) {
    && (forall i :: 0 <= i < |s| && IsSpace(s[i]) ==> s[i] == ' ')
    && (forall i :: 0 <= i < |s| - 1 ==> !(IsSpace(s[i]) && IsSpace(s[i + 1])))
  }

  /** The shape of every normalized text: the fixed points of NormalizeText. */
  predicate IsNormal(s: string) {
    && HasNoUpper(s)
    && HasNoPunctuation(s)
    && IsCollapsed(s)
    && (s != [] ==> !IsSpace(s[0]) && !IsSpace(s[|s| - 1]))
  }

  /** `.replace(/[?!.,;:'"«»]/g, '')`. */
  function StripPunctuation(s: string): (r: string)
    ensures HasNoPunctuation(r)
    ensures HasNoUpper(s) ==> HasNoUpper(r)
    ensures HasNoPunctuation(s) ==> r == s
  {
    if s == [] then []
    else if IsPunctuation(s[0]) then StripPunctuation(s[1..])
    else [s[0]] + StripPunctuation(s[1..])
  }

  /** `.replace(/\s+/g, ' ')`. */
  function CollapseSpaces(s: string): (r: string)
    decreases |s|
    ensures s == [] <==> r == []
    ensures s != [] ==> (IsSpace(r[0]) <==> IsSpace(s[0]))
  {
    if s == [] then []
    else if IsSpace(s[0]) then [' '] + CollapseSpaces(TrimStart(s[1..]))
    else [s[0]] + CollapseSpaces(s[1..])
  }

  /** After collapsing, whitespace is single spaces only. */
  lemma {:induction false} CollapseIsCollapsed(s: string)
    decreases |s|
    ensures IsCollapsed(CollapseSpaces(s))
  {
    if s != [] {
      var t := if IsSpace(s[0]) then TrimStart(s[1..]) else s[1..];
      var c := CollapseSpaces(t);
      CollapseIsCollapsed(t);
      var r := CollapseSpaces(s);
      assert r == [if IsSpace(s[0]) then ' ' else s[0]] + c;
      forall i | 0 <= i < |r| - 1 ensures !(IsSpace(r[i]) && IsSpace(r[i + 1])) {
        if i > 0 {
          assert r[i] == c[i - 1] && r[i + 1] == c[i];
        }
      }
      forall i | 0 <= i < |r| && IsSpace(r[i]) ensures r[i] == ' ' {
        if i > 0 {
          assert r[i] == c[i - 1];
        }
      }
    }
  }

  /** Collapsing introduces no character but the space, so it adds no capital letter... */
  lemma {:induction false} CollapseKeepsNoUpper(s: string)
    requires HasNoUpper(s)
    decreases |s|
    ensures HasNoUpper(CollapseSpaces(s))
  {
    if s != [] {
      TrimStartIsSuffix(s[1..]);
      var t := if IsSpace(s[0]) then TrimStart(s[1..]) else s[1..];
      assert |t| <= |s| - 1 && t == s[|s| - |t|..];
      assert HasNoUpper(t) by {
        forall i | 0 <= i < |t| ensures !IsUpper(t[i]) {
          assert t[i] == s[|s| - |t| + i];
        }
      }
      CollapseKeepsNoUpper(t);
      var c := CollapseSpaces(t);
      var r := CollapseSpaces(s);
      assert r == [if IsSpace(s[0]) then ' ' else s[0]] + c;
      forall i | 0 <= i < |r| ensures !IsUpper(r[i]) {
        if i > 0 { assert r[i] == c[i - 1]; }
      }
    }
  }

  /** ...and no punctuation. */
  lemma {:induction false} CollapseKeepsNoPunctuation(s: string)
    requires HasNoPunctuation(s)
    decreases |s|
    ensures HasNoPunctuation(CollapseSpaces(s))
  {
    if s != [] {
      TrimStartIsSuffix(s[1..]);
      var t := if IsSpace(s[0]) then TrimStart(s[1..]) else s[1..];
      assert |t| <= |s| - 1 && t == s[|s| - |t|..];
      assert HasNoPunctuation(t) by {
        forall i | 0 <= i < |t| ensures !IsPunctuation(t[i]) {
          assert t[i] == s[|s| - |t| + i];
        }
      }
      CollapseKeepsNoPunctuation(t);
      var c := CollapseSpaces(t);
      var r := CollapseSpaces(s);
      assert r == [if IsSpace(s[0]) then ' ' else s[0]] + c;
      forall i | 0 <= i < |r| ensures !IsPunctuation(r[i]) {
        if i > 0 { assert r[i] == c[i - 1]; }
      }
    }
  }

  /** A text that is already collapsed is left unchanged. */
  lemma {:induction false} CollapseOfCollapsed(s: string)
    requires IsCollapsed(s)
    decreases |s|
    ensures CollapseSpaces(s) == s
  {
    if s != [] {
      assert IsCollapsed(s[1..]) by {
        forall i | 0 <= i < |s[1..]| - 1 ensures !(IsSpace(s[1..][i]) && IsSpace(s[1..][i + 1])) {
          assert s[1..][i] == s[i + 1] && s[1..][i + 1] == s[i + 2];
        }
      }
      if IsSpace(s[0]) {
        assert s[1..] != [] ==> !IsSpace(s[1]);
        assert TrimStart(s[1..]) == s[1..];
      }
      CollapseOfCollapsed(s[1..]);
    }
  }

  /** normalizeText(text). */
  function NormalizeText(text: string): string {
    Trim(CollapseSpaces(StripPunctuation(ToLower(text))))
  }

  /** Trimming keeps every property that holds of each character or each adjacent pair. */
  lemma TrimKeepsNormal(s: string)
    requires HasNoUpper(s) && HasNoPunctuation(s) && IsCollapsed(s)
    ensures IsNormal(Trim(s))
  {
    var r := Trim(s);
    var k := LeadingSpaces(s);
    SliceKeepsNoUpper(s, k, k + |r|);
    SliceKeepsNoPunctuation(s, k, k + |r|);
    SliceKeepsCollapsed(s, k, k + |r|);
  }

  lemma SliceKeepsNoUpper(s: string, lo: nat, hi: nat)
    requires lo <= hi <= |s| && HasNoUpper(s)
    ensures HasNoUpper(s[lo..hi])
  {
    forall i | 0 <= i < hi - lo ensures !IsUpper(s[lo..hi][i]) {
      assert s[lo..hi][i] == s[lo + i];
    }
  }

  lemma SliceKeepsNoPunctuation(s: string, lo: nat, hi: nat)
    requires lo <= hi <= |s| && HasNoPunctuation(s)
    ensures HasNoPunctuation(s[lo..hi])
  {
    forall i | 0 <= i < hi - lo ensures !IsPunctuation(s[lo..hi][i]) {
      assert s[lo..hi][i] == s[lo + i];
    }
  }

  lemma SliceKeepsCollapsed(s: string, lo: nat, hi: nat)
    requires lo <= hi <= |s| && IsCollapsed(s)
    ensures IsCollapsed(s[lo..hi])
  {
    var r := s[lo..hi];
    forall i | 0 <= i < |r| - 1 ensures !(IsSpace(r[i]) && IsSpace(r[i + 1])) {
      assert r[i] == s[lo + i] && r[i + 1] == s[lo + i + 1];
    }
    forall i | 0 <= i < |r| && IsSpace(r[i]) ensures r[i] == ' ' {
      assert r[i] == s[lo + i];
    }
  }

  /** What the normalizer produces: lower case, no listed punctuation, single inner spaces, no outer whitespace. */
  lemma NormalizeIsNormal(text: string)
    ensures IsNormal(NormalizeText(text))
  {
    ToLowerHasNoUpper(text);
    var p := StripPunctuation(ToLower(text));
    CollapseIsCollapsed(p);
    CollapseKeepsNoUpper(p);
    CollapseKeepsNoPunctuation(p);
    TrimKeepsNormal(CollapseSpaces(p));
  }

  /** A text already in normal form is left unchanged. */
  lemma NormalIsFixed(s: string)
    requires IsNormal(s)
    ensures NormalizeText(s) == s
  {
    ToLowerOfLower(s);
    CollapseOfCollapsed(s);
    TrimOfTrimmed(s);
  }

  /** normalizeText is idempotent. */
  lemma NormalizeIdempotent(text: string)
    ensures NormalizeText(NormalizeText(text)) == NormalizeText(text)
  {
    NormalizeIsNormal(text);
    NormalIsFixed(NormalizeText(text));
  }

  /** Case does not matter: lower-casing the input first changes nothing. */
  lemma NormalizeIgnoresCase(text: string)
    ensures NormalizeText(ToLower(text)) == NormalizeText(text)
  {
    ToLowerHasNoUpper(text);
    ToLowerOfLower(ToLower(text));
  }
}
