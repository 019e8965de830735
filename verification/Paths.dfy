/** Dotted paths: joining keys with '.' and splitting them again (src/settings.rs). */
module Paths {

  type Path = seq<string>

  predicate DotFree(s: string) { forall i :: 0 <= i < |s| ==> s[i] != '.' }

  /** No key holds a dot. */
  predicate AllDotFree(p: Path) { forall i :: 0 <= i < |p| ==> DotFree(p[i]) }

  function Split(s: string): (r: Path)
    ensures |r| >= 1
  {
    if s == "" then [""]
    else if s[0] == '.' then [""] + Split(s[1..])
    else Longer(s[0], Split(s[1..]))
  }

  /** The first part with a character before it. */
  function Longer(c: char, r: Path): (q: Path)
    requires r != []
    ensures |q| == |r|
  {
    [[c] + r[0]] + r[1..]
  }

  function Join(p: Path): string
    requires p != []
  {
    if |p| == 1 then p[0] else p[0] + "." + Join(p[1..])
  }

  lemma {:induction false} SplitWord(w: string, rest: string)
    requires DotFree(w)
    ensures Split(w) == [w]
    ensures Split(w + "." + rest) == [w] + Split(rest)
  {
    if w == "" {
      assert ("." + rest)[1..] == rest;
      assert w + "." + rest == "." + rest;
    } else {
      SplitWord(w[1..], rest);
      assert (w + "." + rest)[1..] == w[1..] + "." + rest;
      assert [w[0]] + w[1..] == w;
    }
  }

  /** Keys come back from a path, so distinct key lists have distinct paths. */
  lemma {:induction false} SplitJoin(p: Path)
    requires p != [] && AllDotFree(p)
    ensures Split(Join(p)) == p
    decreases |p|
  {
    if |p| == 1 {
      SplitWord(p[0], "");
    } else {
      SplitJoin(p[1..]);
      SplitWord(p[0], Join(p[1..]));
    }
  }

  /** Every string is the path of its split. */
  lemma {:induction false} JoinSplit(s: string)
    ensures Join(Split(s)) == s
  {
    if s != "" {
      JoinSplit(s[1..]);
      assert [s[0]] + s[1..] == s;
      if s[0] == '.' {
        JoinFirst("", Split(s[1..]));
      } else {
        JoinLonger(s[0], Split(s[1..]));
      }
    }
  }

  lemma JoinFirst(w: string, r: Path)
    requires r != []
    ensures Join([w] + r) == w + "." + Join(r)
  {
    assert ([w] + r)[1..] == r;
  }

  lemma JoinLonger(c: char, r: Path)
    requires r != []
    ensures Join(Longer(c, r)) == [c] + Join(r)
  {
    if |r| > 1 {
      JoinFirst([c] + r[0], r[1..]);
    }
  }

  /** No part of a split holds a dot. */
  lemma {:induction false} SplitIsDotFree(s: string)
    ensures AllDotFree(Split(s))
  {
    if s != "" {
      SplitIsDotFree(s[1..]);
      var r := Split(s[1..]);
      if s[0] != '.' {
        assert DotFree([s[0]] + r[0]);
      }
    }
  }

  lemma {:induction false} SplitAppend(a: string, b: string)
    ensures Split(a + "." + b) == Split(a) + Split(b)
  {
    if a == "" {
      SplitWord(a, b);
    } else {
      SplitAppend(a[1..], b);
      SplitCons(a[0], a[1..] + "." + b, a[1..], Split(b));
      assert [a[0]] + (a[1..] + "." + b) == a + "." + b && [a[0]] + a[1..] == a;
    }
  }

  /** One character more in front of both sides. */
  lemma SplitCons(c: char, whole: string, front: string, back: Path)
    requires Split(whole) == Split(front) + back
    ensures Split([c] + whole) == Split([c] + front) + back
  {
    SplitFirst(c, whole);
    SplitFirst(c, front);
    FirstAppend(c, Split(front), back);
  }

  function First(c: char, r: Path): Path
    requires r != []
  {
    if c == '.' then [""] + r else Longer(c, r)
  }

  lemma SplitFirst(c: char, s: string)
    ensures Split([c] + s) == First(c, Split(s))
  {
    assert ([c] + s)[1..] == s;
  }

  lemma FirstAppend(c: char, r: Path, q: Path)
    requires r != []
    ensures First(c, r + q) == First(c, r) + q
  {
    if c != '.' {
      LongerAppend(c, r, q);
    }
  }

  lemma LongerAppend(c: char, r: Path, q: Path)
    requires r != []
    ensures Longer(c, r + q) == Longer(c, r) + q
  {
  }

  /** Dots inside keys only add parts. */
  lemma {:induction false} SplitIsLonger(p: Path)
    requires p != []
    ensures |Split(Join(p))| >= |p|
    decreases |p|
  {
    if |p| > 1 {
      SplitAppend(p[0], Join(p[1..]));
      SplitIsLonger(p[1..]);
    }
  }

  /** How the flattening extends a prefix: an empty one is taken for the root. */
  function Extend(prefix: string, key: string): string {
    if prefix == "" then key else prefix + "." + key
  }

  /** The text under which the flattening stores a leaf. */
  function PathText(p: Path): string {
    if p == [] then "" else Extend(PathText(p[..|p| - 1]), p[|p| - 1])
  }

  lemma {:induction false} JoinSnoc(p: Path, key: string)
    requires p != []
    ensures Join(p + [key]) == Join(p) + "." + key
    decreases |p|
  {
    if |p| > 1 {
      JoinSnoc(p[1..], key);
      assert (p + [key])[1..] == p[1..] + [key];
    } else {
      assert (p + [key])[1..] == [key];
    }
  }

  /** Unless the first key is empty, the text is the joined path, whatever the keys hold. */
  lemma {:induction false} PathTextIsJoin(p: Path)
    requires p != [] && p[0] != ""
    ensures PathText(p) == Join(p) != ""
  {
    var front, key := p[..|p| - 1], p[|p| - 1];
    assert p == front + [key];
    if front != [] {
      PathTextIsJoin(front);
      JoinSnoc(front, key);
    }
  }

  lemma PathTextSnoc(p: Path, key: string)
    ensures PathText(p + [key]) == Extend(PathText(p), key)
  {
    assert (p + [key])[..|p|] == p;
  }
}
