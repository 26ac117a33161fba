/**
 * The Python string operations the services rely on (`str.isspace`,
 * `lower`, `upper`, `strip`, `split()`, `" ".join`, `replace(" ", "")`,
 * `startswith`, `split(sep)[1]`), written out on `seq<char>`, with the
 * facts about them that name normalisation needs.
 */
module Text {

  /** `c.isspace()`: the characters that `str.split()` and `str.strip()` treat as whitespace. */
  predicate IsSpace(c: char) {
    c == ' ' || ('\t' <= c <= '\r') || ('\U{1C}' <= c <= '\U{1F}')
    || c == '\U{85}' || c == '\U{A0}' || c == '\U{1680}'
    || ('\U{2000}' <= c <= '\U{200A}') || c == '\U{2028}' || c == '\U{2029}'
    || c == '\U{202F}' || c == '\U{205F}' || c == '\U{3000}'
  }

  /** `c.lower()` on the ASCII letters; every other character is left as it is. */
  function LowerChar(c: char): char {
    if 'A' <= c <= 'Z' then (c as int + 32) as char else c
  }

  /** `c.upper()` on the ASCII letters; every other character is left as it is. */
  function UpperChar(c: char): char {
    if 'a' <= c <= 'z' then (c as int - 32) as char else c
  }

  /** `s.lower()`: as long as `s`, lower-case, and the identity on lower-case text. */
  function Lower(s: string): (r: string)
    ensures |r| == |s| && IsLower(r)
    ensures IsLower(s) ==> r == s
  {
    seq(|s|, i requires 0 <= i < |s| => LowerChar(s[i]))
  }

  /** `s.upper()`: as long as `s`, upper-case, and the identity on upper-case text. */
  function Upper(s: string): (r: string)
    ensures |r| == |s| && IsUpper(r)
    ensures IsUpper(s) ==> r == s
  {
    seq(|s|, i requires 0 <= i < |s| => UpperChar(s[i]))
  }

  predicate IsLower(s: string) {
    forall i :: 0 <= i < |s| ==> LowerChar(s[i]) == s[i]
  }

  predicate IsUpper(s: string) {
    forall i :: 0 <= i < |s| ==> UpperChar(s[i]) == s[i]
  }

  /** `s.lstrip()` */
  function TrimStart(s: string): (t: string)
    ensures |t| <= |s|
    ensures t != [] ==> !IsSpace(t[0])
  {
    if s != [] && IsSpace(s[0]) then TrimStart(s[1..]) else s
  }

  /** What `lstrip` leaves is a suffix of the text. */
  lemma {:induction false} TrimStartSuffix(s: string)
    ensures TrimStart(s) == s[|s| - |TrimStart(s)|..]
  {
    if s != [] && IsSpace(s[0]) {
      TrimStartSuffix(s[1..]);
    }
  }

  /**
   * `lstrip` removes exactly the leading whitespace: what it leaves is a
   * suffix of the text, everything before that suffix is whitespace, and
   * the suffix does not start with whitespace.
   */
  lemma {:induction false} TrimStartMeaning(s: string)
    ensures var t := TrimStart(s);
      && t == s[|s| - |t|..]
      && (forall i :: 0 <= i < |s| - |t| ==> IsSpace(s[i]))
      && (t != [] ==> !IsSpace(t[0]))
  {
    TrimStartSuffix(s);
    if s != [] && IsSpace(s[0]) {
      TrimStartMeaning(s[1..]);
      forall i | 0 <= i < |s| - |TrimStart(s)| ensures IsSpace(s[i]) {
        if i > 0 {
          assert s[i] == s[1..][i - 1];
        }
      }
    }
  }

  /** `s.rstrip()` */
  function TrimEnd(s: string): (t: string)
    ensures |t| <= |s| && t == s[..|t|]
    ensures t != [] ==> !IsSpace(t[|t| - 1])
  {
    if s != [] && IsSpace(s[|s| - 1]) then TrimEnd(s[..|s| - 1]) else s
  }

  /**
   * `rstrip` removes exactly the trailing whitespace: what it leaves is a
   * prefix of the text, everything after that prefix is whitespace, and the
   * prefix does not end with whitespace.
   */
  lemma {:induction false} TrimEndMeaning(s: string)
    ensures var t := TrimEnd(s);
      && t == s[..|t|]
      && (forall i :: |t| <= i < |s| ==> IsSpace(s[i]))
      && (t != [] ==> !IsSpace(t[|t| - 1]))
  {
    if s != [] && IsSpace(s[|s| - 1]) {
      var init := s[..|s| - 1];
      TrimEndMeaning(init);
      forall i | |TrimEnd(s)| <= i < |s| ensures IsSpace(s[i]) {
        if i < |s| - 1 {
          assert s[i] == init[i];
        }
      }
    }
  }

  /** `s.strip()` */
  function Strip(s: string): (t: string)
    ensures |t| <= |s|
    ensures forall c :: c in t ==> c in s
  {
    TrimStartSuffix(s);
    TrimEnd(TrimStart(s))
  }

  /** `t` sits at position `a` of `s` with only whitespace before and after it. */
  predicate Padded(s: string, t: string, a: nat) {
    && a + |t| <= |s| && t == s[a..a + |t|]
    && (forall i :: 0 <= i < a ==> IsSpace(s[i]))
    && (forall i :: a + |t| <= i < |s| ==> IsSpace(s[i]))
  }

  /**
   * `strip` removes exactly the whitespace at both ends: what it leaves is
   * a slice of the text with only whitespace around it and none at its own
   * ends, and it is empty exactly when the text is all whitespace.
   */
  lemma StripMeaning(s: string)
    ensures var t := Strip(s);
      && (exists a :: Padded(s, t, a))
      && (t != [] ==> !IsSpace(t[0]) && !IsSpace(t[|t| - 1]))
      && (t == [] <==> forall i :: 0 <= i < |s| ==> IsSpace(s[i]))
  {
    var u := TrimStart(s);
    var t := TrimEnd(u);
    var a := |s| - |u|;
    TrimStartMeaning(s);
    TrimEndMeaning(u);
    assert t == s[a..a + |t|];
    forall i | a + |t| <= i < |s| ensures IsSpace(s[i]) {
      assert s[i] == u[i - a];
    }
    if t != [] {
      assert t[0] == u[0] == s[a];
    }
    assert Strip(s) == t && Padded(s, t, a);
  }

  /** A word of `str.split()`: non-empty and free of whitespace. */
  predicate Word(w: string) {
    w != [] && forall i :: 0 <= i < |w| ==> !IsSpace(w[i])
  }

  /** The longest prefix of `s` that holds no whitespace. */
  function TakeWord(s: string): (w: string)
    ensures |w| <= |s|
    ensures s != [] && !IsSpace(s[0]) ==> |w| > 0
  {
    if s == [] || IsSpace(s[0]) then [] else [s[0]] + TakeWord(s[1..])
  }

  /** The first word is a prefix of the text. */
  lemma {:induction false} TakeWordPrefix(s: string)
    ensures TakeWord(s) == s[..|TakeWord(s)|]
  {
    if s != [] && !IsSpace(s[0]) {
      TakeWordPrefix(s[1..]);
    }
  }

  lemma {:induction false} TakeWordIsWord(s: string)
    requires s != [] && !IsSpace(s[0])
    ensures Word(TakeWord(s))
  {
    if |s| > 1 && !IsSpace(s[1]) {
      TakeWordIsWord(s[1..]);
    }
  }

  /**
   * `s.split()`: the maximal runs of non-whitespace characters, in order;
   * there are never more of them than characters.
   */
  function Split(s: string): (r: seq<string>)
    ensures |r| <= |s|
    decreases |s|
  {
    var t := TrimStart(s);
    if t == [] then []
    else
      var w := TakeWord(t);
      [w] + Split(t[|w|..])
  }

  /** `s.split()` of text that is not all whitespace: its first word, then the split of the rest. */
  lemma SplitHead(s: string) returns (w: string, rest: string)
    requires TrimStart(s) != []
    ensures w == TakeWord(TrimStart(s)) && rest == TrimStart(s)[|w|..]
    ensures Split(s) == [w] + Split(rest) && |rest| < |s| && Word(w)
  {
    var t := TrimStart(s);
    w := TakeWord(t);
    rest := t[|w|..];
    TakeWordIsWord(t);
  }

  /** Every entry of `s.split()` is a `Word`. */
  lemma {:induction false} SplitWords(s: string)
    ensures forall i :: 0 <= i < |Split(s)| ==> Word(Split(s)[i])
    decreases |s|
  {
    if TrimStart(s) != [] {
      var w, rest := SplitHead(s);
      SplitWords(rest);
      var ws := Split(s);
      forall i | 0 <= i < |ws| ensures Word(ws[i]) {
        if i > 0 {
          assert ws[i] == Split(rest)[i - 1];
        }
      }
    }
  }

  /** The words of lower-case text are lower-case. */
  lemma {:induction false} SplitLower(s: string)
    requires IsLower(s)
    ensures forall i :: 0 <= i < |Split(s)| ==> IsLower(Split(s)[i])
    decreases |s|
  {
    if TrimStart(s) != [] {
      var w, rest := SplitHeadLower(s);
      SplitLower(rest);
      var ws := Split(s);
      forall i | 0 <= i < |ws| ensures IsLower(ws[i]) {
        if i > 0 {
          assert ws[i] == Split(rest)[i - 1];
        }
      }
    }
  }

  /** The first word and the remainder of lower-case text are lower-case. */
  lemma SplitHeadLower(s: string) returns (w: string, rest: string)
    requires IsLower(s) && TrimStart(s) != []
    ensures Split(s) == [w] + Split(rest) && |rest| < |s|
    ensures IsLower(w) && IsLower(rest)
  {
    var t := TrimStart(s);
    w := TakeWord(t);
    rest := t[|w|..];
    TrimStartSuffix(s);
    TakeWordPrefix(t);
    LowerSlice(s, |s| - |t|, |s|);
    LowerSlice(t, 0, |w|);
    LowerSlice(t, |w|, |t|);
  }

  lemma LowerSlice(s: string, a: nat, b: nat)
    requires IsLower(s) && a <= b <= |s|
    ensures IsLower(s[a..b])
  {
    assert forall i :: 0 <= i < b - a ==> s[a..b][i] == s[a + i];
  }

  /** `" ".join(ws)` */
  /** The number of characters in all of `ws`. */
  function TotalLength(ws: seq<string>): nat {
    if ws == [] then 0 else |ws[0]| + TotalLength(ws[1..])
  }

  /** `" ".join(ws)`: the characters of the words plus one separator between each two. */
  function Join(ws: seq<string>): (r: string)
    ensures ws != [] ==> |r| == TotalLength(ws) + |ws| - 1
  {
    if ws == [] then ""
    else if |ws| == 1 then ws[0]
    else ws[0] + " " + Join(ws[1..])
  }

  /** `s.replace(" ", "")`: only the plain space U+0020 is removed. */
  function RemoveSpaces(s: string): (r: string)
    ensures forall i :: 0 <= i < |r| ==> r[i] != ' '
    ensures forall i :: 0 <= i < |r| ==> r[i] in s
  {
    if s == [] then ""
    else (if s[0] == ' ' then "" else [s[0]]) + RemoveSpaces(s[1..])
  }

  /** Removing the plain spaces keeps every other character, as often as it occurs. */
  lemma {:induction false} RemoveSpacesCounts(s: string)
    ensures forall c :: c != ' ' ==> multiset(RemoveSpaces(s))[c] == multiset(s)[c]
    ensures multiset(RemoveSpaces(s))[' '] == 0
  {
    if s != [] {
      RemoveSpacesCounts(s[1..]);
      assert s == [s[0]] + s[1..];
      var head := if s[0] == ' ' then "" else [s[0]];
      assert multiset(RemoveSpaces(s)) == multiset(head) + multiset(RemoveSpaces(s[1..]));
      assert multiset(s) == multiset([s[0]]) + multiset(s[1..]);
    }
  }

  /** Removing spaces shortens the text by the number of spaces in it. */
  lemma {:induction false} RemoveSpacesLength(s: string)
    ensures |RemoveSpaces(s)| == |s| - multiset(s)[' ']
  {
    if s != [] {
      RemoveSpacesLength(s[1..]);
      assert s == [s[0]] + s[1..];
      assert multiset(s)[' '] == multiset([s[0]])[' '] + multiset(s[1..])[' '];
    }
  }

  /** Removing spaces works piece by piece, so the order of the other characters is kept. */
  lemma {:induction false} RemoveSpacesAppend(a: string, b: string)
    ensures RemoveSpaces(a + b) == RemoveSpaces(a) + RemoveSpaces(b)
  {
    if a == [] {
      assert a + b == b;
    } else {
      assert (a + b)[0] == a[0];
      assert (a + b)[1..] == a[1..] + b;
      RemoveSpacesAppend(a[1..], b);
    }
  }

  /** A space between two pieces of text is removed with the others. */
  lemma RemoveSpacesDropsSpace(a: string, b: string)
    ensures RemoveSpaces(a + " " + b) == RemoveSpaces(a + b)
  {
    RemoveSpacesAppend(a + " ", b);
    RemoveSpacesAppend(a, " ");
    RemoveSpacesAppend(a, b);
    assert RemoveSpaces(" ") == "" + RemoveSpaces("");
  }

  /** `s.startswith(p)` */
  predicate StartsWith(s: string, p: string) {
    |p| <= |s| && s[..|p|] == p
  }

  /** Whether `sep` occurs in `s` at position `k`. */
  predicate OccursAt(s: string, sep: string, k: nat) {
    k + |sep| <= |s| && s[k..k + |sep|] == sep
  }

  /** Whether `sep` occurs in `s`. */
  ghost predicate Occurs(s: string, sep: string) {
    exists k: nat :: OccursAt(s, sep, k)
  }

  /** The text of `s` before the first occurrence of `sep`, or all of `s` when `sep` does not occur. */
  function Before(s: string, sep: string): string
    requires sep != []
  {
    if |s| < |sep| then s
    else if s[..|sep|] == sep then ""
    else [s[0]] + Before(s[1..], sep)
  }

  // ---------------------------------------------------------------------
  // Facts about split/join/strip used to prove name normalisation.

  lemma {:induction false} TakeWordOfWord(w: string, rest: string)
    requires Word(w)
    requires rest == [] || IsSpace(rest[0])
    ensures TakeWord(w + rest) == w
  {
    if |w| > 1 {
      assert (w + rest)[1..] == w[1..] + rest;
      TakeWordOfWord(w[1..], rest);
    } else {
      assert (w + rest)[1..] == rest;
    }
  }

  /** A word followed by whitespace, or by nothing, is the first entry of the split. */
  lemma SplitWordThen(w: string, rest: string)
    requires Word(w)
    requires rest == [] || IsSpace(rest[0])
    ensures Split(w + rest) == [w] + Split(rest)
  {
    TakeWordOfWord(w, rest);
    assert TrimStart(w + rest) == w + rest;
    assert (w + rest)[|w|..] == rest;
  }

  /** Splitting the words joined by single spaces gives back the words. */
  lemma {:induction false} SplitJoin(ws: seq<string>)
    requires forall i :: 0 <= i < |ws| ==> Word(ws[i])
    ensures Split(Join(ws)) == ws
  {
    if ws == [] {
    } else if |ws| == 1 {
      SplitOneWord(ws[0]);
    } else {
      SplitJoin(ws[1..]);
      SplitJoinCons(ws);
    }
  }

  /** The step of `SplitJoin`: when the tail round-trips, so does the whole list. */
  lemma SplitJoinCons(ws: seq<string>)
    requires |ws| > 1 && Word(ws[0])
    requires Split(Join(ws[1..])) == ws[1..]
    ensures Split(Join(ws)) == ws
  {
    var j := Join(ws[1..]);
    assert Join(ws) == ws[0] + " " + j;
    SplitSpaceJoined(ws[0], j);
    assert ws == [ws[0]] + ws[1..];
  }

  /** A single word splits to itself. */
  lemma SplitOneWord(w: string)
    requires Word(w)
    ensures Split(w) == [w]
  {
    assert w + [] == w;
    SplitWordThen(w, []);
    assert Split([]) == [];
  }

  /** A word, one space and the rest split as the word before the rest's split. */
  lemma SplitSpaceJoined(w: string, j: string)
    requires Word(w)
    ensures Split(w + " " + j) == [w] + Split(j)
  {
    assert w + " " + j == w + (" " + j);
    SplitWordThen(w, " " + j);
    assert (" " + j)[1..] == j;
    assert TrimStart(" " + j) == TrimStart(j);
  }

  /** Joined words neither start nor end with whitespace. */
  lemma {:induction false} JoinEnds(ws: seq<string>)
    requires forall i :: 0 <= i < |ws| ==> Word(ws[i])
    ensures Join(ws) == [] <==> ws == []
    ensures Join(ws) != [] ==> !IsSpace(Join(ws)[0]) && !IsSpace(Join(ws)[|Join(ws)| - 1])
  {
    if |ws| > 1 {
      JoinEnds(ws[1..]);
      var j := Join(ws[1..]);
      assert Join(ws)[|Join(ws)| - 1] == j[|j| - 1];
    }
  }

  lemma StripJoin(ws: seq<string>)
    requires forall i :: 0 <= i < |ws| ==> Word(ws[i])
    ensures Strip(Join(ws)) == Join(ws)
  {
    JoinEnds(ws);
    var s := Join(ws);
    if s != [] {
      TrimStartNoop(s);
      TrimEndNoop(s);
    }
  }

  lemma TrimStartNoop(s: string)
    requires s != [] && !IsSpace(s[0])
    ensures TrimStart(s) == s
  {
  }

  lemma TrimEndNoop(s: string)
    requires s != [] && !IsSpace(s[|s| - 1])
    ensures TrimEnd(s) == s
  {
  }

  /**
   * Words joined by single spaces: the only whitespace is a plain space,
   * never at either end and never followed by more whitespace.
   */
  predicate SingleSpaced(s: string) {
    forall i :: 0 <= i < |s| && IsSpace(s[i]) ==> s[i] == ' ' && 0 < i < |s| - 1 && !IsSpace(s[i + 1])
  }

  lemma {:induction false} JoinSingleSpaced(ws: seq<string>)
    requires forall i :: 0 <= i < |ws| ==> Word(ws[i])
    ensures SingleSpaced(Join(ws))
  {
    if |ws| > 1 {
      var w, j := ws[0], Join(ws[1..]);
      JoinSingleSpaced(ws[1..]);
      JoinEnds(ws[1..]);
      var s := w + " " + j;
      forall i | 0 <= i < |s| && IsSpace(s[i])
        ensures s[i] == ' ' && 0 < i < |s| - 1 && !IsSpace(s[i + 1])
      {
        if i > |w| {
          assert s[i] == j[i - |w| - 1];
          assert s[i + 1] == j[i - |w|];
        } else if i == |w| {
          assert s[i + 1] == j[0];
        }
      }
    }
  }

  lemma {:induction false} JoinLower(ws: seq<string>)
    requires forall i :: 0 <= i < |ws| ==> IsLower(ws[i])
    ensures IsLower(Join(ws))
  {
    if |ws| > 1 {
      JoinLower(ws[1..]);
      var w, j := ws[0], Join(ws[1..]);
      var s := w + " " + j;
      forall i | 0 <= i < |s| ensures LowerChar(s[i]) == s[i] {
        if i < |w| {
          assert s[i] == w[i];
        } else if i > |w| {
          assert s[i] == j[i - |w| - 1];
        }
      }
    }
  }

  /** Whitespace at the very end does not change `split()`. */
  lemma {:induction false} SplitTrailingSpace(s: string, c: char)
    requires IsSpace(c)
    ensures Split(s + [c]) == Split(s)
    decreases |s|
  {
    if TrimStart(s) == [] {
      TrimStartEmptyAppend(s, c);
    } else {
      var w, rest := SplitHead(s);
      SplitTrailingSpace(rest, c);
      SplitTrailingStep(s, c, TrimStart(s), w);
    }
  }

  /** The step of `SplitTrailingSpace`: the trailing whitespace ends up after the first word. */
  lemma SplitTrailingStep(s: string, c: char, t: string, w: string)
    requires IsSpace(c) && t == TrimStart(s) && t != [] && w == TakeWord(t)
    ensures Split(s + [c]) == [w] + Split(t[|w|..] + [c])
  {
    TrimStartAppend(s, c);
    TakeWordAppend(t, c);
    SplitUnfold(s + [c], t + [c], w);
    assert (t + [c])[|w|..] == t[|w|..] + [c];
  }

  /** One unfolding of `Split`, with the stripped text and its first word named. */
  lemma SplitUnfold(s: string, t: string, w: string)
    requires t == TrimStart(s) && t != [] && w == TakeWord(t)
    ensures Split(s) == [w] + Split(t[|w|..])
  {
  }

  lemma {:induction false} TrimStartEmptyAppend(s: string, c: char)
    requires TrimStart(s) == [] && IsSpace(c)
    ensures TrimStart(s + [c]) == []
  {
    if s != [] {
      assert (s + [c])[1..] == s[1..] + [c];
      TrimStartEmptyAppend(s[1..], c);
    }
  }

  lemma {:induction false} TrimStartAppend(s: string, c: char)
    requires TrimStart(s) != []
    ensures TrimStart(s + [c]) == TrimStart(s) + [c]
  {
    if s != [] && IsSpace(s[0]) {
      assert (s + [c])[1..] == s[1..] + [c];
      TrimStartAppend(s[1..], c);
    }
  }

  lemma {:induction false} TakeWordAppend(t: string, c: char)
    requires IsSpace(c)
    ensures TakeWord(t + [c]) == TakeWord(t)
  {
    if t != [] && !IsSpace(t[0]) {
      assert (t + [c])[1..] == t[1..] + [c];
      TakeWordAppend(t[1..], c);
    }
  }

  lemma {:induction false} SplitTrimEnd(s: string)
    ensures Split(TrimEnd(s)) == Split(s)
    decreases |s|
  {
    if s != [] && IsSpace(s[|s| - 1]) {
      var init := s[..|s| - 1];
      assert s == init + [s[|s| - 1]];
      SplitTrailingSpace(init, s[|s| - 1]);
      SplitTrimEnd(init);
    }
  }

  /** Stripping does not change `split()`. */
  lemma SplitStrip(s: string)
    ensures Split(Strip(s)) == Split(s)
  {
    SplitTrimEnd(TrimStart(s));
    assert TrimStart(TrimStart(s)) == TrimStart(s);
  }

  // ---------------------------------------------------------------------
  // Facts about `Before`, used for code-fence stripping.

  /** The text before the first `sep` holds no `sep`. */
  lemma {:induction false} BeforeHasNoSeparator(s: string, sep: string)
    requires sep != []
    ensures !Occurs(Before(s, sep), sep)
    ensures |Before(s, sep)| <= |s| && Before(s, sep) == s[..|Before(s, sep)|]
  {
    if |s| < |sep| || s[..|sep|] == sep {
    } else {
      var b := Before(s[1..], sep);
      BeforeHasNoSeparator(s[1..], sep);
      var r := [s[0]] + b;
      forall k: nat ensures !OccursAt(r, sep, k) {
        if k > 0 {
          OccursAtTail(s[0], b, sep, k);
        } else if |sep| <= |r| {
          assert r[..|sep|] == s[..|sep|];
        }
      }
    }
  }

  /**
   * `Before` stops at the first occurrence of `sep`: the text before it
   * holds no earlier occurrence, and either `sep` does not occur at all
   * and the whole text is returned, or it occurs right after the result.
   */
  lemma {:induction false} BeforeIsFirst(s: string, sep: string)
    requires sep != []
    ensures (Before(s, sep) == s && !Occurs(s, sep)) || OccursAt(s, sep, |Before(s, sep)|)
    ensures forall k: nat :: k < |Before(s, sep)| ==> !OccursAt(s, sep, k)
  {
    if |s| < |sep| {
      forall k: nat ensures !OccursAt(s, sep, k) {
      }
    } else if s[..|sep|] == sep {
      assert OccursAt(s, sep, 0);
    } else {
      var b := Before(s[1..], sep);
      BeforeIsFirst(s[1..], sep);
      assert s == [s[0]] + s[1..];
      forall k: nat | k < |Before(s, sep)| ensures !OccursAt(s, sep, k) {
        if k > 0 {
          OccursAtTail(s[0], s[1..], sep, k);
        }
      }
      if OccursAt(s[1..], sep, |b|) {
        OccursAtHead(s[0], s[1..], sep, |b|);
      } else {
        forall k: nat ensures !OccursAt(s, sep, k) {
          if k > 0 {
            OccursAtTail(s[0], s[1..], sep, k);
          }
        }
      }
    }
  }

  /** When `sep` first occurs at `p`, `Before` returns the text up to `p`. */
  lemma BeforeAt(s: string, sep: string, p: nat)
    requires sep != [] && OccursAt(s, sep, p)
    requires forall k: nat :: k < p ==> !OccursAt(s, sep, k)
    ensures Before(s, sep) == s[..p]
  {
    BeforeIsFirst(s, sep);
    BeforeHasNoSeparator(s, sep);
  }

  /** An occurrence in the tail is an occurrence one position later in the whole text. */
  lemma OccursAtHead(x: char, b: string, sep: string, k: nat)
    ensures OccursAt(b, sep, k) ==> OccursAt([x] + b, sep, k + 1)
  {
    if OccursAt(b, sep, k) {
      assert b[k..k + |sep|] == ([x] + b)[k + 1..k + 1 + |sep|];
    }
  }

  /** An occurrence past the first character is an occurrence in the tail. */
  lemma OccursAtTail(x: char, b: string, sep: string, k: nat)
    requires k > 0
    ensures OccursAt([x] + b, sep, k) ==> OccursAt(b, sep, k - 1)
  {
    if OccursAt([x] + b, sep, k) {
      assert b[k - 1..k - 1 + |sep|] == ([x] + b)[k..k + |sep|];
    }
  }

  /** When `s` starts with `prefix + sep` and `prefix` holds no character of `sep`, `Before` returns `prefix`. */
  lemma {:induction false} BeforeOfSeparated(prefix: string, sep: string, rest: string)
    requires sep != []
    requires forall i, j :: 0 <= i < |prefix| && 0 <= j < |sep| ==> prefix[i] != sep[j]
    ensures Before(prefix + sep + rest, sep) == prefix
  {
    var s := prefix + sep + rest;
    if prefix == [] {
      assert s[..|sep|] == sep;
    } else {
      assert s[..|sep|] != sep by {
        assert s[0] == prefix[0] != sep[0];
      }
      assert s[1..] == prefix[1..] + sep + rest;
      BeforeOfSeparated(prefix[1..], sep, rest);
    }
  }
}
