/** strings.Split and strings.Join on one separator. */
module Dotted {
  import opened Prelude

  lemma SplitStep(s: string, sep: char)
    ensures var i := IndexOf(s, sep); SplitAll(s, sep) == if i < 0 then [s] else [s[..i]] + SplitAll(s[i + 1..], sep)
  {
    hide IndexOf;
  }

  lemma JoinStep(x: string, parts: seq<string>, sep: char)
    requires parts != []
    ensures Join([x] + parts, sep) == x + [sep] + Join(parts, sep)
  {
    assert ([x] + parts)[1..] == parts;
  }

  lemma CutAt(s: string, i: nat)
    requires i < |s|
    ensures s == s[..i] + [s[i]] + s[i + 1..]
  {
  }

  lemma {:induction false} JoinUndoesSplitAll(s: string, sep: char)
    ensures Join(SplitAll(s, sep), sep) == s
    decreases |s|
  {
    hide SplitAll, IndexOf;
    var i := IndexOf(s, sep);
    SplitStep(s, sep);
    if i >= 0 {
      hide Join;
      JoinUndoesSplitAll(s[i + 1..], sep);
      JoinStep(s[..i], SplitAll(s[i + 1..], sep), sep);
      CutAt(s, i);
    }
  }

  lemma {:induction false} JoinOfParts(a: seq<string>, b: seq<string>, sep: char)
    requires a != [] && b != []
    ensures Join(a + b, sep) == Join(a, sep) + [sep] + Join(b, sep)
    decreases |a|
  {
    assert (a + b)[1..] == a[1..] + b;
    if |a| == 1 {
      assert a[1..] + b == b;
    } else {
      JoinOfParts(a[1..], b, sep);
      assert a[0] + [sep] + (Join(a[1..], sep) + [sep] + Join(b, sep)) == Join(a, sep) + [sep] + Join(b, sep);
    }
  }

  lemma {:induction false} SplitOfJoined(a: string, b: string, sep: char)
    ensures SplitAll(a + [sep] + b, sep) == SplitAll(a, sep) + SplitAll(b, sep)
    decreases |a|
  {
    hide SplitAll, IndexOf;
    var s, i := a + [sep] + b, IndexOf(a, sep);
    SplitStep(s, sep);
    SplitStep(a, sep);
    if i < 0 {
      FirstIs(s, |a|, sep);
      SlicesOf(a, [sep] + b, |a|);
      assert s == a + ([sep] + b) && s[|a| + 1..] == b;
    } else {
      assert s == a + ([sep] + b) && s[..i] == a[..i];
      FirstIs(s, i, sep);
      SplitOfJoined(a[i + 1..], b, sep);
      SlicesOf(a, [sep] + b, i);
      assert a[i + 1..] + ([sep] + b) == a[i + 1..] + [sep] + b;
    }
  }

  lemma SlicesOf(a: string, b: string, i: nat)
    requires i <= |a|
    ensures (a + b)[..i] == a[..i] && (i < |a| ==> (a + b)[i + 1..] == a[i + 1..] + b)
  {
  }

  lemma FirstIs(s: string, i: nat, sep: char)
    requires i < |s| && s[i] == sep && sep !in s[..i]
    ensures IndexOf(s, sep) == i
  {
  }

  /** The parts of a are the first parts of b exactly when b is a or goes on after it with a separator. */
  lemma PartsPrefixIff(a: string, b: string, sep: char)
    ensures SplitAll(a, sep) <= SplitAll(b, sep) <==> b == a || a + [sep] <= b
  {
    hide SplitAll, Join;
    var p, q := SplitAll(a, sep), SplitAll(b, sep);
    if p <= q && p != q {
      var rest := q[|p|..];
      assert q == p + rest && rest != [];
      JoinOfParts(p, rest, sep);
    }
    if p <= q {
      JoinUndoesSplitAll(a, sep);
      JoinUndoesSplitAll(b, sep);
    }
    if a + [sep] <= b {
      SplitOfJoined(a, b[|a| + 1..], sep);
      assert b == a + [sep] + b[|a| + 1..];
    }
  }
}
