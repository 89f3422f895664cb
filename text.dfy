/**
 * The JavaScript string operations the application relies on:
 * `trim`, `trimLeft` (= `trimStart`), `split` on one character and `join`,
 * plus the two string-list projections built from them
 * (map-trim-then-drop-empty, and drop-blank-then-trim).
 */
module Text {

  /** ECMAScript WhiteSpace and LineTerminator code points: what `trim` removes. */
  predicate IsWhitespace(c: char)
  {
    || c == '\t' || c == '\n' || c == '\U{000B}' || c == '\U{000C}' || c == '\r'
    || c == ' ' || c == '\U{00A0}' || c == '\U{1680}'
    || ('\U{2000}' <= c <= '\U{200A}')
    || c == '\U{2028}' || c == '\U{2029}' || c == '\U{202F}' || c == '\U{205F}'
    || c == '\U{3000}' || c == '\U{FEFF}'
  }

  /** Every character is whitespace (the empty string is blank). */
  predicate IsBlank(s: string)
  {
    forall i :: 0 <= i < |s| ==> IsWhitespace(s[i])
  }

  /** Neither starts nor ends with whitespace. */
  predicate IsTrimmed(s: string)
  {
    s == [] || (!IsWhitespace(s[0]) && !IsWhitespace(s[|s| - 1]))
  }

  /** `s.trimStart()`: what is left after dropping leading whitespace. */
  function TrimStart(s: string): (r: string)
    ensures |r| <= |s|
    ensures r == [] || !IsWhitespace(r[0])
    decreases |s|
  {
    if s != [] && IsWhitespace(s[0]) then TrimStart(s[1..]) else s
  }

  /** `trimStart` drops a blank prefix and keeps the rest as it is. */
  lemma {:induction false} TrimStartDropsBlankPrefix(s: string)
    ensures var r := TrimStart(s);
      r == s[|s| - |r|..] && IsBlank(s[..|s| - |r|])
    decreases |s|
  {
    if s != [] && IsWhitespace(s[0]) {
      TrimStartDropsBlankPrefix(s[1..]);
      var r := TrimStart(s);
      assert s[1..][|s| - 1 - |r|..] == s[|s| - |r|..];
      assert s[..|s| - |r|] == [s[0]] + s[1..][..|s| - 1 - |r|];
    }
  }

  /** `s.trimEnd()`: what is left after dropping trailing whitespace. */
  function TrimEnd(s: string): (r: string)
    ensures |r| <= |s|
    ensures r == [] || !IsWhitespace(r[|r| - 1])
    decreases |s|
  {
    if s != [] && IsWhitespace(s[|s| - 1]) then TrimEnd(s[..|s| - 1]) else s
  }

  /** `trimEnd` drops a blank suffix and keeps the rest as it is. */
  lemma {:induction false} TrimEndDropsBlankSuffix(s: string)
    ensures var r := TrimEnd(s);
      r == s[..|r|] && IsBlank(s[|r|..])
    decreases |s|
  {
    if s != [] && IsWhitespace(s[|s| - 1]) {
      TrimEndDropsBlankSuffix(s[..|s| - 1]);
      var r := TrimEnd(s);
      assert s[..|s| - 1][..|r|] == s[..|r|];
      assert s[|r|..] == s[..|s| - 1][|r|..] + [s[|s| - 1]];
    }
  }

  /** `s.trim()`. */
  function Trim(s: string): (r: string)
    ensures IsTrimmed(r)
    ensures r == [] <==> IsBlank(s)
    ensures |r| <= |s|
  {
    var t := TrimStart(s);
    var r := TrimEnd(t);
    TrimStartDropsBlankPrefix(s);
    TrimEndDropsBlankSuffix(t);
    assert r == [] ==> t == t[|r|..];
    assert t != [] ==> s[|s| - |t|] == t[0];
    assert r != [] ==> r[0] == t[0];
    r
  }

  /** Trimming removes only whitespace: every other character keeps its count. */
  lemma TrimKeepsVisible(s: string, c: char)
    requires !IsWhitespace(c)
    ensures multiset(Trim(s))[c] == multiset(s)[c]
  {
    var t := TrimStart(s);
    var r := TrimEnd(t);
    TrimStartDropsBlankPrefix(s);
    TrimEndDropsBlankSuffix(t);
    BlankHasNoVisible(s[..|s| - |t|], c);
    BlankHasNoVisible(t[|r|..], c);
    assert s == s[..|s| - |t|] + t;
    assert multiset(s) == multiset(s[..|s| - |t|]) + multiset(t);
    assert t == r + t[|r|..];
    assert multiset(t) == multiset(r) + multiset(t[|r|..]);
  }

  lemma BlankHasNoVisible(b: string, c: char)
    requires IsBlank(b) && !IsWhitespace(c)
    ensures multiset(b)[c] == 0
  {
  }

  /** A trimmed string is its own trim. */
  lemma TrimmedIsFixed(s: string)
    requires IsTrimmed(s)
    ensures Trim(s) == s
  {
  }

  /** Trimming twice is trimming once. */
  lemma TrimIdempotent(s: string)
    ensures Trim(Trim(s)) == Trim(s)
  {
    TrimmedIsFixed(Trim(s));
  }

  /** Prepending whitespace does not change `trimStart`. */
  lemma {:induction false} TrimStartSkipsBlank(w: string, s: string)
    requires IsBlank(w)
    ensures TrimStart(w + s) == TrimStart(s)
    decreases |w|
  {
    if w != [] {
      assert (w + s)[1..] == w[1..] + s;
      TrimStartSkipsBlank(w[1..], s);
    } else {
      assert w + s == s;
    }
  }

  /** Appending whitespace does not change `trimEnd`. */
  lemma {:induction false} TrimEndSkipsBlank(s: string, w: string)
    requires IsBlank(w)
    ensures TrimEnd(s + w) == TrimEnd(s)
    decreases |w|
  {
    if w != [] {
      assert (s + w)[..|s + w| - 1] == s + w[..|w| - 1];
      TrimEndSkipsBlank(s, w[..|w| - 1]);
    } else {
      assert s + w == s;
    }
  }

  /** A trimmed non-empty text padded with whitespace on both sides trims back to itself. */
  lemma TrimOfPadded(w1: string, t: string, w2: string)
    requires IsBlank(w1) && IsBlank(w2) && t != [] && IsTrimmed(t)
    ensures Trim(w1 + t + w2) == t
  {
    assert w1 + t + w2 == w1 + (t + w2);
    TrimStartSkipsBlank(w1, t + w2);
    assert (t + w2)[0] == t[0];
    TrimEndSkipsBlank(t, w2);
  }

  /** Every text is its trim padded with whitespace on both sides. */
  lemma TrimIsPadded(s: string)
    ensures var t := Trim(s);
      exists i :: 0 <= i <= |s| - |t| && IsBlank(s[..i]) && s[i..i + |t|] == t && IsBlank(s[i + |t|..])
  {
    var u := TrimStart(s);
    var t := TrimEnd(u);
    TrimStartDropsBlankPrefix(s);
    TrimEndDropsBlankSuffix(u);
    var i := |s| - |u|;
    assert s[i..i + |t|] == u[..|t|];
    assert s[i + |t|..] == u[|t|..];
  }

  /** `s.split(sep)` for a one-character separator: one piece more than separators. */
  function Split(s: string, sep: char): (r: seq<string>)
    ensures |r| >= 1
    ensures forall k :: 0 <= k < |r| ==> sep !in r[k]
    decreases |s|
  {
    if s == [] then [""]
    else
      var rest := Split(s[1..], sep);
      if s[0] == sep then [""] + rest
      else [[s[0]] + rest[0]] + rest[1..]
  }

  /** One piece more than there are separators. */
  lemma {:induction false} SplitCount(s: string, sep: char)
    ensures |Split(s, sep)| == multiset(s)[sep] + 1
    decreases |s|
  {
    if s != [] {
      SplitCount(s[1..], sep);
      assert s == [s[0]] + s[1..];
      assert multiset(s) == multiset{s[0]} + multiset(s[1..]);
    }
  }

  /**
   * `xs.join(sep)`: no pieces give the empty text, one piece gives itself,
   * and the text is never shorter than its first piece.
   */
  function Join(xs: seq<string>, sep: string): (r: string)
    ensures xs == [] ==> r == []
    ensures |xs| == 1 ==> r == xs[0]
    ensures |xs| >= 1 ==> |xs[0]| <= |r|
    decreases |xs|
  {
    if |xs| == 0 then ""
    else if |xs| == 1 then xs[0]
    else xs[0] + sep + Join(xs[1..], sep)
  }

  /** A join starts with the first piece and ends with the last. */
  lemma {:induction false} JoinEnds(xs: seq<string>, sep: string)
    requires |xs| >= 1
    ensures var r := Join(xs, sep);
      && |xs[0]| <= |r| && r[..|xs[0]|] == xs[0]
      && |xs[|xs| - 1]| <= |r| && r[|r| - |xs[|xs| - 1]|..] == xs[|xs| - 1]
    decreases |xs|
  {
    if |xs| > 1 {
      var rest := Join(xs[1..], sep);
      JoinEnds(xs[1..], sep);
      assert xs[1..][|xs[1..]| - 1] == xs[|xs| - 1];
      var r := xs[0] + sep + rest;
      assert Join(xs, sep) == r;
      assert r[..|xs[0]|] == xs[0];
      assert r[|r| - |rest|..] == rest;
    }
  }

  /**
   * A character that no piece contains and the separator contains once
   * occurs in the join once per gap between pieces.
   */
  lemma {:induction false} JoinCount(xs: seq<string>, sep: string, c: char)
    requires |xs| >= 1
    requires forall k :: 0 <= k < |xs| ==> c !in xs[k]
    requires multiset(sep)[c] == 1
    ensures multiset(Join(xs, sep))[c] == |xs| - 1
    decreases |xs|
  {
    if |xs| == 1 {
      assert multiset(xs[0])[c] == 0;
    } else {
      var rest := xs[1..];
      assert forall k :: 0 <= k < |rest| ==> rest[k] == xs[k + 1];
      JoinCount(rest, sep, c);
      assert multiset(xs[0])[c] == 0;
      var j := Join(rest, sep);
      assert Join(xs, sep) == xs[0] + sep + j;
      assert multiset(xs[0] + sep + j) == multiset(xs[0]) + multiset(sep) + multiset(j);
    }
  }

  /** The join of trimmed non-empty pieces is trimmed and has visible content. */
  lemma JoinOfTrimmed(xs: seq<string>, sep: string)
    requires |xs| >= 1
    requires forall k :: 0 <= k < |xs| ==> xs[k] != [] && IsTrimmed(xs[k])
    ensures IsTrimmed(Join(xs, sep)) && !IsBlank(Join(xs, sep))
  {
    var r := Join(xs, sep);
    var last := xs[|xs| - 1];
    JoinEnds(xs, sep);
    assert r[0] == xs[0][0];
    assert r[|r| - 1] == r[|r| - |last|..][|last| - 1] == last[|last| - 1];
  }

  /** Joining the pieces of a split with the separator gives the text back. */
  lemma {:induction false} JoinSplit(s: string, sep: char)
    ensures Join(Split(s, sep), [sep]) == s
    decreases |s|
  {
    if s != [] {
      var rest := Split(s[1..], sep);
      JoinSplit(s[1..], sep);
      assert s == [s[0]] + s[1..];
      if s[0] == sep {
        assert Split(s, sep) == [""] + rest;
        assert ([""] + rest)[1..] == rest;
      } else {
        var h := [s[0]] + rest[0];
        assert Split(s, sep) == [h] + rest[1..];
        if |rest| > 1 {
          assert ([h] + rest[1..])[1..] == rest[1..];
        }
      }
    }
  }

  /** A piece without the separator splits into itself. */
  lemma {:induction false} SplitWithoutSeparator(x: string, sep: char)
    requires sep !in x
    ensures Split(x, sep) == [x]
    decreases |x|
  {
    if x != [] {
      SplitWithoutSeparator(x[1..], sep);
      assert [x[0]] + x[1..] == x;
    }
  }

  /** A separator-free piece followed by the separator splits off as one piece. */
  lemma {:induction false} SplitAfterPiece(x: string, sep: char, rest: string)
    requires sep !in x
    ensures Split(x + [sep] + rest, sep) == [x] + Split(rest, sep)
    decreases |x|
  {
    var s := x + [sep] + rest;
    if x == [] {
      assert s[1..] == rest;
    } else {
      assert s[1..] == x[1..] + [sep] + rest;
      SplitAfterPiece(x[1..], sep, rest);
      assert [x[0]] + x[1..] == x;
    }
  }

  /** Splitting a join of separator-free pieces gives the pieces back. */
  lemma {:induction false} SplitJoin(xs: seq<string>, sep: char)
    requires |xs| >= 1
    requires forall k :: 0 <= k < |xs| ==> sep !in xs[k]
    ensures Split(Join(xs, [sep]), sep) == xs
    decreases |xs|
  {
    if |xs| == 1 {
      SplitWithoutSeparator(xs[0], sep);
    } else {
      SplitAfterPiece(xs[0], sep, Join(xs[1..], [sep]));
      SplitJoin(xs[1..], sep);
      assert xs == [xs[0]] + xs[1..];
    }
  }

  /** No value occurs twice. */
  predicate NoDuplicates<T(==)>(a: seq<T>)
  {
    forall i, j :: 0 <= i < j < |a| ==> a[i] != a[j]
  }

  /** Every item is trimmed. */
  predicate AllTrimmed(xs: seq<string>)
  {
    forall k :: 0 <= k < |xs| ==> IsTrimmed(xs[k])
  }

  /** `xs.map(s => s.trim())`. */
  function MapTrim(xs: seq<string>): (r: seq<string>)
    ensures |r| == |xs| && AllTrimmed(r)
    ensures forall k :: 0 <= k < |r| ==> r[k] == Trim(xs[k])
  {
    seq(|xs|, k requires 0 <= k < |xs| => Trim(xs[k]))
  }

  /** A visible character that no item holds is in no trimmed item either. */
  lemma MapTrimKeepsOut(xs: seq<string>, c: char)
    requires !IsWhitespace(c)
    requires forall k :: 0 <= k < |xs| ==> c !in xs[k]
    ensures forall k :: 0 <= k < |xs| ==> c !in MapTrim(xs)[k]
  {
    forall k | 0 <= k < |xs|
      ensures c !in MapTrim(xs)[k]
    {
      TrimKeepsVisible(xs[k], c);
      assert multiset(xs[k])[c] == 0;
    }
  }

  /** `xs.filter(s => s.length > 0)`. */
  function DropEmpty(xs: seq<string>): (r: seq<string>)
    ensures |r| <= |xs|
    ensures forall k :: 0 <= k < |r| ==> r[k] != []
    ensures forall x :: x in r <==> x in xs && x != []
    ensures AllTrimmed(xs) ==> AllTrimmed(r)
    decreases |xs|
  {
    if xs == [] then []
    else
      var head := if xs[0] != [] then [xs[0]] else [];
      var rest := DropEmpty(xs[1..]);
      assert AllTrimmed(xs) ==> AllTrimmed(xs[1..]) by {
        assert forall k :: 1 <= k < |xs| ==> xs[k] == xs[1..][k - 1];
      }
      assert forall k :: |head| <= k < |head + rest| ==> (head + rest)[k] == rest[k - |head|];
      head + rest
  }

  /** A single string survives the filter exactly when it is non-empty. */
  lemma DropEmptySingle(x: string)
    ensures DropEmpty([x]) == if x == [] then [] else [x]
  {
    assert [x][1..] == [];
  }

  /** The filter works item by item: it keeps the order and the repetitions of the items. */
  lemma {:induction false} DropEmptyAppend(a: seq<string>, b: seq<string>)
    ensures DropEmpty(a + b) == DropEmpty(a) + DropEmpty(b)
    decreases |a|
  {
    if a == [] {
      assert a + b == b;
    } else {
      DropEmptyAppend(a[1..], b);
      assert (a + b)[0] == a[0];
      assert (a + b)[1..] == a[1..] + b;
    }
  }

  /** No item has visible content (for each item `s.trim()` is falsy, by `Trim`'s contract). */
  predicate AllBlank(xs: seq<string>)
  {
    forall k :: 0 <= k < |xs| ==> IsBlank(xs[k])
  }

  /**
   * `xs.map(s => s.trim() && ...)` as React renders it: an item whose trim is
   * empty (a blank item) renders nothing, any other item renders its trim.
   */
  function TrimmedNonBlank(xs: seq<string>): (r: seq<string>)
    ensures |r| <= |xs|
    ensures forall k :: 0 <= k < |r| ==> r[k] != [] && IsTrimmed(r[k])
    ensures r == [] <==> AllBlank(xs)
    decreases |xs|
  {
    if xs == [] then []
    else
      var rest := TrimmedNonBlank(xs[1..]);
      assert AllBlank(xs) <==> IsBlank(xs[0]) && AllBlank(xs[1..]) by {
        assert forall k :: 1 <= k < |xs| ==> xs[k] == xs[1..][k - 1];
      }
      (if !IsBlank(xs[0]) then [Trim(xs[0])] else []) + rest
  }

  /** A single item projects to its trim, or to nothing when it is blank. */
  lemma TrimmedNonBlankSingle(x: string)
    ensures TrimmedNonBlank([x]) == if IsBlank(x) then [] else [Trim(x)]
  {
    assert [x][1..] == [];
  }

  /** The projection works item by item: it keeps the order of the items. */
  lemma {:induction false} TrimmedNonBlankAppend(a: seq<string>, b: seq<string>)
    ensures TrimmedNonBlank(a + b) == TrimmedNonBlank(a) + TrimmedNonBlank(b)
    decreases |a|
  {
    if a == [] {
      assert a + b == b;
    } else {
      var c := a + b;
      assert c[0] == a[0] && c[1..] == a[1..] + b;
      TrimmedNonBlankAppend(a[1..], b);
    }
  }

  /** Every projected item is the trim of some non-blank item. */
  lemma {:induction false} TrimmedNonBlankFromItems(xs: seq<string>, k: nat)
    requires k < |TrimmedNonBlank(xs)|
    ensures exists i :: 0 <= i < |xs| && !IsBlank(xs[i]) && TrimmedNonBlank(xs)[k] == Trim(xs[i])
    decreases |xs|
  {
    var head := if !IsBlank(xs[0]) then [Trim(xs[0])] else [];
    var rest := TrimmedNonBlank(xs[1..]);
    assert TrimmedNonBlank(xs) == head + rest;
    if k < |head| {
      assert TrimmedNonBlank(xs)[k] == Trim(xs[0]);
    } else {
      TrimmedNonBlankFromItems(xs[1..], k - |head|);
      var i :| 0 <= i < |xs[1..]| && !IsBlank(xs[1..][i]) && rest[k - |head|] == Trim(xs[1..][i]);
      assert xs[1..][i] == xs[i + 1];
    }
  }

  /** Items that are already trimmed and non-empty project to themselves, in order. */
  lemma {:induction false} TrimmedNonBlankOfTrimmed(xs: seq<string>)
    requires forall k :: 0 <= k < |xs| ==> xs[k] != [] && IsTrimmed(xs[k])
    ensures TrimmedNonBlank(xs) == xs
    decreases |xs|
  {
    if xs != [] {
      TrimmedNonBlankOfTrimmed(xs[1..]);
      TrimmedIsFixed(xs[0]);
      assert !IsBlank(xs[0]);
      assert xs == [xs[0]] + xs[1..];
    }
  }

  /** Every item that is not blank shows up, trimmed, in the projection. */
  lemma {:induction false} TrimmedNonBlankKeepsItems(xs: seq<string>, i: nat)
    requires i < |xs| && !IsBlank(xs[i])
    ensures Trim(xs[i]) in TrimmedNonBlank(xs)
    decreases i
  {
    var head := if !IsBlank(xs[0]) then [Trim(xs[0])] else [];
    assert TrimmedNonBlank(xs) == head + TrimmedNonBlank(xs[1..]);
    if i > 0 {
      assert xs[i] == xs[1..][i - 1];
      TrimmedNonBlankKeepsItems(xs[1..], i - 1);
    }
  }

  /**
   * Trimming then dropping empty strings is the same as dropping blank strings
   * then trimming: the two projections agree on every list.
   */
  lemma {:induction false} DropEmptyOfTrimmed(xs: seq<string>)
    ensures DropEmpty(MapTrim(xs)) == TrimmedNonBlank(xs)
    decreases |xs|
  {
    if xs != [] {
      DropEmptyOfTrimmed(xs[1..]);
      assert MapTrim(xs)[1..] == MapTrim(xs[1..]);
    }
  }
}
