/**
 * String helpers shared by the widgets, the keyboard and the randomizer: JavaScript's
 * `trim`, `split(",")`, `join(",")`, and the comma-list pipeline
 * `list.trim().split(",").map(item => item.trim()).filter(item => item.length !== 0)`
 * that the source writes out in `parseList`, `parseKeys` and the dropdown's option parsing.
 */
module Text {

  /** The characters `String.prototype.trim` removes: WhiteSpace and LineTerminator. */
  predicate IsSpace(c: char)
  {
    || c == '\t' || c == '\n' || c == '\U{000B}' || c == '\U{000C}' || c == '\r' || c == ' '
    || c == '\U{00A0}' || c == '\U{1680}' || ('\U{2000}' <= c <= '\U{200A}')
    || c == '\U{2028}' || c == '\U{2029}' || c == '\U{202F}' || c == '\U{205F}'
    || c == '\U{3000}' || c == '\U{FEFF}'
  }

  ghost predicate AllSpace(s: string)
  {
    forall i :: 0 <= i < |s| ==> IsSpace(s[i])
  }

  /** `trimStart`: the longest suffix of `s` that does not start with white space. */
  function TrimStart(s: string): (r: string)
    ensures |r| <= |s| && r == s[|s| - |r|..]
    ensures r == [] || !IsSpace(r[0])
  {
    if |s| > 0 && IsSpace(s[0]) then TrimStart(s[1..]) else s
  }

  /** What `trimStart` removes is white space. */
  lemma {:induction false} TrimStartRemovesSpace(s: string)
    ensures AllSpace(s[..|s| - |TrimStart(s)|])
  {
    if |s| > 0 && IsSpace(s[0]) {
      TrimStartRemovesSpace(s[1..]);
      var k := |s| - |TrimStart(s)|;
      assert s[..k] == [s[0]] + s[1..][..k - 1];
    }
  }

  /** `trimEnd`: the longest prefix of `s` that does not end with white space. */
  function TrimEnd(s: string): (r: string)
    ensures |r| <= |s| && r == s[..|r|]
    ensures r == [] || !IsSpace(r[|r| - 1])
  {
    if |s| > 0 && IsSpace(s[|s| - 1]) then TrimEnd(s[..|s| - 1]) else s
  }

  /** What `trimEnd` removes is white space. */
  lemma {:induction false} TrimEndRemovesSpace(s: string)
    ensures AllSpace(s[|TrimEnd(s)|..])
  {
    if |s| > 0 && IsSpace(s[|s| - 1]) {
      TrimEndRemovesSpace(s[..|s| - 1]);
      var r := TrimEnd(s);
      assert s[|r|..] == s[..|s| - 1][|r|..] + [s[|s| - 1]];
    }
  }

  /** `trim`: white space removed from both ends. */
  function Trim(s: string): (r: string)
    ensures r == [] || (!IsSpace(r[0]) && !IsSpace(r[|r| - 1]))
  {
    TrimEnd(TrimStart(s))
  }

  /** `trim` only removes characters. */
  lemma TrimKeeps(s: string, c: char)
    ensures c in Trim(s) ==> c in s
  {
    var t := TrimStart(s);
    if c in Trim(s) {
      assert c in t;
    }
  }

  /** `s.split(",")`: the pieces between commas, never an empty list. */
  function Split(s: string): (r: seq<string>)
    ensures |r| >= 1
    ensures forall k :: 0 <= k < |r| ==> ',' !in r[k]
  {
    if |s| == 0 then [""]
    else if s[0] == ',' then [""] + Split(s[1..])
    else
      var rest := Split(s[1..]);
      [[s[0]] + rest[0]] + rest[1..]
  }

  /** Joining the pieces with commas gives the text back. */
  lemma {:induction false} JoinSplit(s: string)
    ensures Join(Split(s)) == s
  {
    if |s| > 0 {
      var rest := Split(s[1..]);
      JoinSplit(s[1..]);
      assert s == [s[0]] + s[1..];
      if s[0] == ',' {
        assert ([""] + rest)[1..] == rest;
      } else {
        var r := [[s[0]] + rest[0]] + rest[1..];
        if |rest| > 1 {
          assert r[1..] == rest[1..];
        }
      }
    }
  }

  /** `xs.join(",")`. */
  function Join(xs: seq<string>): string
  {
    if |xs| == 0 then ""
    else if |xs| == 1 then xs[0]
    else xs[0] + "," + Join(xs[1..])
  }

  /** `.map(item => item.trim())`. */
  function TrimAll(xs: seq<string>): (r: seq<string>)
    ensures |r| == |xs| && forall k :: 0 <= k < |xs| ==> r[k] == Trim(xs[k])
  {
    seq(|xs|, k requires 0 <= k < |xs| => Trim(xs[k]))
  }

  /** `.filter(item => item.length !== 0)`. */
  function NonEmpty(xs: seq<string>): (r: seq<string>)
    ensures forall x :: x in r ==> x in xs && x != ""
    ensures |r| <= |xs|
  {
    if |xs| == 0 then []
    else if xs[0] == "" then NonEmpty(xs[1..])
    else [xs[0]] + NonEmpty(xs[1..])
  }

  /** The pieces of `s` trimmed and with the empty ones dropped: the pipeline without the outer trim. */
  function Items(s: string): seq<string>
  {
    NonEmpty(TrimAll(Split(s)))
  }

  /** The comma-list parser: `list.trim().split(",").map(trim).filter(nonempty)`. */
  function ParseList(list: string): seq<string>
  {
    Items(Trim(list))
  }

  /** An item as the parser produces it: non-empty, already trimmed, without a comma. */
  predicate WellFormedItem(x: string)
  {
    x != "" && !IsSpace(x[0]) && !IsSpace(x[|x| - 1]) && ',' !in x
  }

  // ---------------------------------------------------------------- trimming lemmas

  lemma {:induction false} TrimStartSpaces(w: string, t: string)
    requires AllSpace(w)
    ensures TrimStart(w + t) == TrimStart(t)
  {
    if |w| > 0 {
      assert (w + t)[1..] == w[1..] + t;
      TrimStartSpaces(w[1..], t);
    } else {
      assert w + t == t;
    }
  }

  lemma {:induction false} TrimStartAppend(p: string, w: string)
    requires TrimStart(p) != []
    ensures TrimStart(p + w) == TrimStart(p) + w
  {
    if IsSpace(p[0]) {
      assert (p + w)[1..] == p[1..] + w;
      TrimStartAppend(p[1..], w);
    }
  }

  lemma {:induction false} TrimEndSpaces(t: string, w: string)
    requires AllSpace(w)
    ensures TrimEnd(t + w) == TrimEnd(t)
  {
    if |w| > 0 {
      var u := t + w;
      assert u[..|u| - 1] == t + w[..|w| - 1];
      TrimEndSpaces(t, w[..|w| - 1]);
    } else {
      assert t + w == t;
    }
  }

  lemma {:induction false} TrimOfSpaces(p: string)
    requires AllSpace(p)
    ensures TrimStart(p) == []
  {
    if |p| > 0 {
      TrimOfSpaces(p[1..]);
    }
  }

  /** Padding a string with white space on either side does not change what `trim` gives. */
  lemma TrimPadded(w1: string, p: string, w2: string)
    requires AllSpace(w1) && AllSpace(w2)
    ensures Trim(w1 + p + w2) == Trim(p)
  {
    assert w1 + p + w2 == w1 + (p + w2);
    TrimStartSpaces(w1, p + w2);
    if TrimStart(p) == [] {
      var k := |p| - |TrimStart(p)|;
      TrimStartRemovesSpace(p);
      assert p[..k] == p;
      assert AllSpace(p + w2);
      TrimOfSpaces(p + w2);
    } else {
      TrimStartAppend(p, w2);
      TrimEndSpaces(TrimStart(p), w2);
    }
  }

  lemma TrimSpaceSuffix(p: string, w: string)
    requires AllSpace(w)
    ensures Trim(p + w) == Trim(p)
  {
    TrimPadded("", p, w);
    assert "" + p + w == p + w;
  }

  /** A string that has no white space at either end is its own trim. */
  lemma TrimOfTrimmed(x: string)
    requires x == [] || (!IsSpace(x[0]) && !IsSpace(x[|x| - 1]))
    ensures Trim(x) == x
  {
  }

  /** `trim` is idempotent. */
  lemma TrimIdempotent(s: string)
    ensures Trim(Trim(s)) == Trim(s)
  {
    TrimOfTrimmed(Trim(s));
  }

  // ---------------------------------------------------------------- splitting lemmas

  lemma {:induction false} SplitPiece(p: string)
    requires ',' !in p
    ensures Split(p) == [p]
  {
    if |p| > 0 {
      SplitPiece(p[1..]);
      assert [p[0]] + p[1..] == p;
    }
  }

  /** Splitting distributes over a comma. */
  lemma {:induction false} SplitConcat(a: string, b: string)
    ensures Split(a + "," + b) == Split(a) + Split(b)
  {
    var s := a + "," + b;
    if |a| == 0 {
      assert s[0] == ',' && s[1..] == b;
    } else {
      var t := a[1..];
      var x, y := Split(t), Split(b);
      assert Split(s[1..]) == x + y by {
        assert s[1..] == t + "," + b;
        SplitConcat(t, b);
      }
      if a[0] == ',' {
        SplitConcatComma(s, a, x, y);
      } else {
        SplitConcatOther(s, a, x, y);
      }
    }
  }

  lemma SplitConcatComma(s: string, a: string, x: seq<string>, y: seq<string>)
    requires |a| > 0 && |s| > 0 && a[0] == ',' && s[0] == ','
    requires Split(s[1..]) == x + y && Split(a[1..]) == x
    ensures Split(s) == Split(a) + y
  {
    assert Split(s) == [""] + (x + y);
    assert Split(a) == [""] + x;
    ConsAssoc("", x, y);
  }

  lemma ConsAssoc<T>(h: T, x: seq<T>, y: seq<T>)
    ensures [h] + (x + y) == ([h] + x) + y
  {
  }

  lemma SplitConcatOther(s: string, a: string, x: seq<string>, y: seq<string>)
    requires |a| > 0 && |s| > 0 && a[0] != ',' && s[0] == a[0] && |x| >= 1
    requires Split(s[1..]) == x + y && Split(a[1..]) == x
    ensures Split(s) == Split(a) + y
  {
    var head := [a[0]] + x[0];
    assert (x + y)[0] == x[0];
    assert Split(s) == [head] + (x + y)[1..];
    assert Split(a) == [head] + x[1..];
    ReplaceHead(head, x, y);
  }

  lemma ReplaceHead<T>(h: T, x: seq<T>, y: seq<T>)
    requires |x| >= 1
    ensures [h] + (x + y)[1..] == ([h] + x[1..]) + y
  {
    assert (x + y)[1..] == x[1..] + y;
  }

  /** Splitting undoes joining pieces that hold no comma. */
  lemma {:induction false} SplitJoin(xs: seq<string>)
    requires |xs| >= 1
    requires forall k :: 0 <= k < |xs| ==> ',' !in xs[k]
    ensures Split(Join(xs)) == xs
  {
    if |xs| == 1 {
      SplitPiece(xs[0]);
    } else {
      SplitJoin(xs[1..]);
      SplitPiece(xs[0]);
      SplitConcat(xs[0], Join(xs[1..]));
      assert [xs[0]] + xs[1..] == xs;
    }
  }

  lemma {:induction false} NonEmptyConcat(a: seq<string>, b: seq<string>)
    ensures NonEmpty(a + b) == NonEmpty(a) + NonEmpty(b)
  {
    if |a| > 0 {
      assert (a + b)[1..] == a[1..] + b;
      NonEmptyConcat(a[1..], b);
    } else {
      assert a + b == b;
    }
  }

  lemma {:induction false} NonEmptyOfItems(xs: seq<string>)
    requires forall k :: 0 <= k < |xs| ==> xs[k] != ""
    ensures NonEmpty(xs) == xs
  {
    if |xs| > 0 {
      NonEmptyOfItems(xs[1..]);
      assert [xs[0]] + xs[1..] == xs;
    }
  }

  lemma TrimAllConcat(a: seq<string>, b: seq<string>)
    ensures TrimAll(a + b) == TrimAll(a) + TrimAll(b)
  {
    var l, r := TrimAll(a + b), TrimAll(a) + TrimAll(b);
    assert |l| == |r|;
    forall k | 0 <= k < |l| ensures l[k] == r[k] {
      if k < |a| {
        assert (a + b)[k] == a[k];
      } else {
        assert (a + b)[k] == b[k - |a|];
      }
    }
  }

  /** The items of two comma-separated parts are the items of each, in order. */
  lemma ItemsConcat(a: string, b: string)
    ensures Items(a + "," + b) == Items(a) + Items(b)
  {
    SplitConcat(a, b);
    var sa, sb := Split(a), Split(b);
    TrimAllConcat(sa, sb);
    NonEmptyConcat(TrimAll(sa), TrimAll(sb));
  }

  /** A part without a comma contributes its trimmed text, or nothing when that is empty. */
  lemma ItemsOfPiece(p: string)
    requires ',' !in p
    ensures Items(p) == if Trim(p) == [] then [] else [Trim(p)]
  {
    SplitPiece(p);
    var t := Trim(p);
    assert TrimAll([p]) == [t];
    assert [t][1..] == [];
    assert NonEmpty([t]) == if t == [] then [] else [t];
  }

  lemma SpacesHaveNoComma(w: string)
    requires AllSpace(w)
    ensures ',' !in w
  {
    forall i | 0 <= i < |w|
      ensures w[i] != ','
    {
      assert IsSpace(w[i]);
    }
  }

  lemma {:induction false} JoinPadFirst(xs: seq<string>, w: string)
    requires |xs| >= 1
    ensures Join([w + xs[0]] + xs[1..]) == w + Join(xs)
  {
    var padded := [w + xs[0]] + xs[1..];
    if |xs| > 1 {
      assert padded[1..] == xs[1..];
    }
  }

  lemma SplitSpacePrefix(w: string, t: string)
    requires AllSpace(w)
    ensures Split(w + t) == [w + Split(t)[0]] + Split(t)[1..]
  {
    var st := Split(t);
    var padded := [w + st[0]] + st[1..];
    SpacesHaveNoComma(w);
    JoinSplit(t);
    JoinPadFirst(st, w);
    assert forall k :: 0 <= k < |padded| ==> ',' !in padded[k];
    SplitJoin(padded);
  }

  lemma SplitSpaceSuffix(t: string, w: string)
    requires AllSpace(w)
    ensures Split(t + w) == Split(t)[..|Split(t)| - 1] + [Split(t)[|Split(t)| - 1] + w]
  {
    var st := Split(t);
    var n := |st|;
    var padded := st[..n - 1] + [st[n - 1] + w];
    SpacesHaveNoComma(w);
    JoinSplit(t);
    JoinPadLast(st, w);
    assert forall k :: 0 <= k < |padded| ==> ',' !in padded[k];
    SplitJoin(padded);
  }

  /** Lists whose items trim alike have the same items. */
  lemma ItemsAlike(a: seq<string>, b: seq<string>)
    requires |a| == |b| && forall k :: 0 <= k < |a| ==> Trim(a[k]) == Trim(b[k])
    ensures NonEmpty(TrimAll(a)) == NonEmpty(TrimAll(b))
  {
    assert TrimAll(a) == TrimAll(b);
  }

  lemma ItemsSpacePrefix(w: string, t: string)
    requires AllSpace(w)
    ensures Items(w + t) == Items(t)
  {
    var st := Split(t);
    SplitSpacePrefix(w, t);
    var sw := [w + st[0]] + st[1..];
    ReplacedHead(w + st[0], st);
    forall k | 0 <= k < |sw|
      ensures Trim(sw[k]) == Trim(st[k])
    {
      if k == 0 {
        TrimPadded(w, st[0], "");
        assert w + st[0] + "" == w + st[0];
      }
    }
    ItemsAlike(sw, st);
  }

  lemma ItemsSpaceCons(c: char, t: string)
    requires IsSpace(c)
    ensures Items([c] + t) == Items(t)
  {
    ItemsSpacePrefix([c], t);
  }

  lemma ReplacedHead<T>(h: T, x: seq<T>)
    requires |x| >= 1
    ensures |[h] + x[1..]| == |x| && ([h] + x[1..])[0] == h
    ensures forall k :: 1 <= k < |x| ==> ([h] + x[1..])[k] == x[k]
  {
  }

  lemma ItemsSpaceSuffix(t: string, w: string)
    requires AllSpace(w)
    ensures Items(t + w) == Items(t)
  {
    var st := Split(t);
    var n := |st|;
    SplitSpaceSuffix(t, w);
    var padded := st[..n - 1] + [st[n - 1] + w];
    assert Split(t + w) == padded;
    forall k | 0 <= k < n ensures Trim(padded[k]) == Trim(st[k]) {
      if k == n - 1 {
        TrimSpaceSuffix(st[n - 1], w);
      } else {
        assert padded[k] == st[k];
      }
    }
    ItemsAlike(padded, st);
  }

  lemma {:induction false} JoinPadLast(xs: seq<string>, w: string)
    requires |xs| >= 1
    ensures Join(xs[..|xs| - 1] + [xs[|xs| - 1] + w]) == Join(xs) + w
  {
    var n := |xs|;
    var padded := xs[..n - 1] + [xs[n - 1] + w];
    if n > 1 {
      JoinPadLast(xs[1..], w);
      assert padded[1..] == xs[1..][..n - 2] + [xs[1..][n - 2] + w];
      assert padded[0] == xs[0];
    }
  }

  /** The outer trim of the pipeline changes nothing: trimming every item already discards it. */
  lemma ParseListIsItems(list: string)
    ensures ParseList(list) == Items(list)
  {
    var t := TrimStart(list);
    ItemsOfTrimStart(list);
    ItemsOfTrimEnd(t);
  }

  lemma {:induction false} ItemsOfTrimStart(list: string)
    ensures Items(TrimStart(list)) == Items(list)
  {
    if |list| > 0 && IsSpace(list[0]) {
      var rest := list[1..];
      calc {
        Items(TrimStart(list));
        Items(TrimStart(rest));
        { ItemsOfTrimStart(rest); }
        Items(rest);
        { ItemsSpaceCons(list[0], rest); }
        Items([list[0]] + rest);
        { assert [list[0]] + rest == list; }
        Items(list);
      }
    }
  }

  lemma ItemsOfTrimEnd(t: string)
    ensures Items(TrimEnd(t)) == Items(t)
  {
    var r := TrimEnd(t);
    TrimEndRemovesSpace(t);
    assert t == r + t[|r|..];
    ItemsSpaceSuffix(r, t[|r|..]);
  }

  /** Every item the parser returns is non-empty, trimmed and free of commas. */
  lemma ParseListWellFormed(list: string)
    ensures forall x :: x in ParseList(list) ==> WellFormedItem(x)
  {
    var pieces := Split(Trim(list));
    forall x | x in ParseList(list)
      ensures WellFormedItem(x)
    {
      var k :| 0 <= k < |pieces| && x == Trim(pieces[k]);
      TrimKeeps(pieces[k], ',');
    }
  }

  lemma TrimAllOfTrimmed(xs: seq<string>)
    requires forall k :: 0 <= k < |xs| ==> WellFormedItem(xs[k])
    ensures TrimAll(xs) == xs
  {
    forall k | 0 <= k < |xs| ensures Trim(xs[k]) == xs[k] {
      TrimOfTrimmed(xs[k]);
    }
  }

  /** Round trip: parsing a joined list of well-formed items gives the items back, in order. */
  lemma ParseListJoin(xs: seq<string>)
    requires forall k :: 0 <= k < |xs| ==> WellFormedItem(xs[k])
    ensures ParseList(Join(xs)) == xs
  {
    var joined := Join(xs);
    ParseListIsItems(joined);
    if |xs| == 0 {
      ItemsOfPiece("");
    } else {
      SplitJoin(xs);
      TrimAllOfTrimmed(xs);
      NonEmptyOfItems(xs);
      assert Items(joined) == NonEmpty(TrimAll(xs));
    }
  }
}
