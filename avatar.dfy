/**
 * `Avatar`: a user's picture, or in its place the initials of the name: the first letters of
 * the first two whitespace-separated words, upper-cased.
 */
module Avatar {
  import opened Wrappers

  /** The characters `\s` matches, as far as this model goes: the ASCII white space. */
  predicate IsSpace(c: char)
  {
    c == ' ' || c == '\t' || c == '\n' || c == '\r' || c == '\U{000B}' || c == '\U{000C}'
  }

  /** `toUpperCase` on one character, for the ASCII letters. */
  function Upper(c: char): (u: char)
    ensures 'a' <= c <= 'z' ==> 'A' <= u <= 'Z' && u as int == c as int - 32
    ensures !('a' <= c <= 'z') ==> u == c
  {
    if 'a' <= c <= 'z' then (c as int - 32) as char else c
  }

  /** The longest prefix without white space. */
  function FirstWord(s: string): (w: string)
    ensures |w| <= |s| && w == s[..|w|]
    ensures forall i :: 0 <= i < |w| ==> !IsSpace(w[i])
    ensures |w| < |s| ==> IsSpace(s[|w|])
  {
    if s == [] || IsSpace(s[0]) then [] else [s[0]] + FirstWord(s[1..])
  }

  /**
   * The words of a name (`name.trim().split(/\s+/)` for a name that is not blank): the maximal
   * runs of characters that are not white space, in order.
   */
  function Words(s: string): (ws: seq<string>)
    ensures forall k :: 0 <= k < |ws| ==> |ws[k]| > 0 && forall i :: 0 <= i < |ws[k]| ==> !IsSpace(ws[k][i])
    decreases |s|
  {
    if s == [] then []
    else if IsSpace(s[0]) then Words(s[1..])
    else
      var w := FirstWord(s);
      [w] + Words(s[|w|..])
  }

  /** A name has no words exactly when it is blank. */
  lemma {:induction false} NoWordsIffBlank(s: string)
    ensures Words(s) == [] <==> forall i :: 0 <= i < |s| ==> IsSpace(s[i])
    decreases |s|
  {
    if s != [] && IsSpace(s[0]) {
      NoWordsIffBlank(s[1..]);
      assert forall i :: 1 <= i < |s| ==> s[i] == s[1..][i - 1];
    }
  }

  /** A word ends at white space: what follows it does not change it. */
  lemma {:induction false} FirstWordBeforeSpace(a: string, x: string)
    requires x != [] && IsSpace(x[0])
    ensures FirstWord(a + x) == FirstWord(a)
  {
    if a != [] && !IsSpace(a[0]) {
      assert (a + x)[1..] == a[1..] + x;
      FirstWordBeforeSpace(a[1..], x);
    } else if a == [] {
      assert a + x == x;
    }
  }

  /** White space at the end of a name is ignored. */
  lemma {:induction false} TrailingSpaceIgnored(s: string, c: char)
    requires IsSpace(c)
    ensures Words(s + [c]) == Words(s)
    decreases |s|
  {
    if s == [] {
      assert Words([c]) == Words([c][1..]);
    } else if IsSpace(s[0]) {
      assert (s + [c])[1..] == s[1..] + [c];
      TrailingSpaceIgnored(s[1..], c);
    } else {
      FirstWordBeforeSpace(s, [c]);
      var w := FirstWord(s);
      assert (s + [c])[|w|..] == s[|w|..] + [c];
      TrailingSpaceIgnored(s[|w|..], c);
    }
  }

  /** White space at the start of a name is ignored. */
  lemma LeadingSpaceIgnored(s: string, c: char)
    requires IsSpace(c)
    ensures Words([c] + s) == Words(s)
  {
    assert ([c] + s)[1..] == s;
  }

  /** After a word, two tails that start with white space and hold the same words keep the words equal. */
  lemma {:induction false} SameWordsAfter(a: string, x: string, y: string)
    requires x != [] && IsSpace(x[0]) && y != [] && IsSpace(y[0])
    requires Words(x) == Words(y)
    ensures Words(a + x) == Words(a + y)
    decreases |a|
  {
    if a == [] {
      assert a + x == x && a + y == y;
    } else if IsSpace(a[0]) {
      assert (a + x)[1..] == a[1..] + x && (a + y)[1..] == a[1..] + y;
      SameWordsAfter(a[1..], x, y);
    } else {
      FirstWordBeforeSpace(a, x);
      FirstWordBeforeSpace(a, y);
      var w := FirstWord(a);
      assert (a + x)[|w|..] == a[|w|..] + x && (a + y)[|w|..] == a[|w|..] + y;
      SameWordsAfter(a[|w|..], x, y);
    }
  }

  /** A run of white space separates words as a single space does. */
  lemma SpaceRunsCollapse(a: string, c: char, d: char, b: string)
    requires IsSpace(c) && IsSpace(d)
    ensures Words(a + [c, d] + b) == Words(a + [c] + b)
  {
    var db := [d] + b;
    var x, y := [c] + db, [c] + b;
    LeadingSpaceIgnored(db, c);
    LeadingSpaceIgnored(b, d);
    LeadingSpaceIgnored(b, c);
    SameWordsAfter(a, x, y);
    assert a + [c, d] + b == a + x by {
      assert [c, d] + b == x;
    }
    assert a + [c] + b == a + y;
  }

  /**
   * `getInitials`, or `None` where it throws: for a blank name `parts[0]` is the empty string,
   * whose first character is undefined.
   */
  function GetInitials(name: string): (r: Option<string>)
    ensures r.None? <==> forall i :: 0 <= i < |name| ==> IsSpace(name[i])
    ensures r.Some? ==> 1 <= |r.value| <= 2
    ensures var parts := Words(name);
      && (|parts| >= 2 ==> r == Some([Upper(parts[0][0]), Upper(parts[1][0])]))
      && (|parts| == 1 ==> r == Some([Upper(parts[0][0])]))
  {
    NoWordsIffBlank(name);
    var parts := Words(name);
    if |parts| >= 2 then Some([Upper(parts[0][0]), Upper(parts[1][0])])
    else if |parts| == 1 then Some([Upper(parts[0][0])])
    else None
  }

  /** What the avatar shows: the picture when there is a source, else the initials. */
  datatype Shown = Picture(src: string) | Initials(initials: Option<string>)

  function AvatarContent(src: Option<string>, name: string): (r: Shown)
    ensures r.Picture? <==> src.Some? && src.value != ""
    ensures r.Picture? ==> r.src == src.value
    ensures r.Initials? ==> r.initials == GetInitials(name)
  {
    if src.Some? && src.value != "" then Picture(src.value) else Initials(GetInitials(name))
  }
}
