/** Small building blocks shared by the route and page models: an optional
    value, JavaScript's `||` fallback on strings, prefix/substring tests and
    an order-preserving filter. */
module Common {

  datatype Option<+T> = None | Some(value: T)

  /** A banner a page shows after an action: a success or an error text. */
  datatype NoticeKind = Success | Error
  datatype Notice = Notice(kind: NoticeKind, text: string)

  /** JavaScript's `s || d` on a string that may be null or undefined:
      an absent value and the empty string both fall back to `d`. */
  function OrDefault(s: Option<string>, d: string): (r: string)
    ensures r == d || (s.Some? && r == s.value && s.value != "")
    ensures s.Some? && s.value != "" ==> r == s.value
  {
    if s.Some? && s.value != "" then s.value else d
  }

  /** The notice used in place of a model reply that is missing or empty. */
  const NoReply: string := "No response from AI"

  /** The text kept for a model reply: the reply's content, or the notice
      when it is missing or empty. Both the chat route and the embedded
      page apply this rule. */
  function AssistantContent(content: Option<string>): (c: string)
    ensures c != ""
    ensures content.Some? && content.value != "" ==> c == content.value
  {
    OrDefault(content, NoReply)
  }

  /** `s.startsWith(p)`. */
  predicate StartsWith(s: string, p: string)
  {
    |p| <= |s| && s[..|p|] == p
  }

  /** `s.includes(sub)`: `sub` occurs at some offset of `s`. */
  predicate Contains(s: string, sub: string)
  {
    exists i | 0 <= i <= |s| - |sub| :: StartsWith(s[i..], sub)
  }

  /** The first `n` characters of `s`, or all of `s` when it is shorter:
      JavaScript's `s.slice(0, n)` for `n >= 0`. */
  function Take(s: string, n: nat): (r: string)
    ensures |r| == if |s| <= n then |s| else n
    ensures StartsWith(s, r)
  {
    if |s| <= n then s else s[..n]
  }

  /** A text in which the separator `sep` does not occur. */
  predicate Lacks(s: string, sep: char)
  {
    forall k :: 0 <= k < |s| ==> s[k] != sep
  }

  /** `s.split(sep)` for a one-character separator: the pieces between
      separators, always at least one. */
  function Split(s: string, sep: char): (parts: seq<string>)
    ensures |parts| >= 1
    decreases |s|
  {
    if s == [] then [""]
    else
      var r := Split(s[1..], sep);
      if s[0] == sep then [""] + r else [[s[0]] + r[0]] + r[1..]
  }

  /** Pieces each followed by the separator, concatenated. */
  function Terminated(pieces: seq<string>, sep: char): string
  {
    if pieces == [] then "" else Terminated(pieces[..|pieces| - 1], sep) + pieces[|pieces| - 1] + [sep]
  }

  /** `parts.join(sep)`: every piece but the last is followed by the separator. */
  function Join(parts: seq<string>, sep: char): string
    requires |parts| >= 1
  {
    Terminated(parts[..|parts| - 1], sep) + parts[|parts| - 1]
  }

  /** No piece of a split contains the separator. */
  lemma {:induction false} SplitPiecesLackSeparator(s: string, sep: char)
    ensures forall i :: 0 <= i < |Split(s, sep)| ==> Lacks(Split(s, sep)[i], sep)
    decreases |s|
  {
    if s != [] {
      SplitPiecesLackSeparator(s[1..], sep);
      var r := Split(s[1..], sep);
      if s[0] != sep {
        var parts := [[s[0]] + r[0]] + r[1..];
        assert forall i :: 1 <= i < |parts| ==> parts[i] == r[i];
      }
    }
  }

  /** Joining the split pieces back with the separator gives the text again. */
  lemma {:induction false} SplitJoin(s: string, sep: char)
    ensures Join(Split(s, sep), sep) == s
    decreases |s|
  {
    if s == [] {
      assert [""][..0] == [];
    } else {
      SplitJoin(s[1..], sep);
      var r := Split(s[1..], sep);
      if s[0] == sep {
        JoinCons("", r, sep);
        assert s == [sep] + s[1..];
      } else {
        JoinExtend([s[0]], r, sep);
        assert s == [s[0]] + s[1..];
      }
    }
  }

  /** A text without the separator splits into itself alone. */
  lemma {:induction false} SplitWithoutSeparator(s: string, sep: char)
    requires Lacks(s, sep)
    ensures Split(s, sep) == [s]
    decreases |s|
  {
    if s != [] {
      SplitWithoutSeparator(s[1..], sep);
      assert [s[0]] + s[1..] == s;
    }
  }

  /** A first piece without the separator comes back whole from a split. */
  lemma {:induction false} SplitAfterPiece(x: string, rest: string, sep: char)
    requires Lacks(x, sep)
    ensures Split(x + [sep] + rest, sep) == [x] + Split(rest, sep)
    decreases |x|
  {
    if x == [] {
      assert x + [sep] + rest == [sep] + rest;
      SplitCons(sep, rest, sep);
    } else {
      var t := x[1..] + [sep] + rest;
      assert x + [sep] + rest == [x[0]] + t;
      SplitAfterPiece(x[1..], rest, sep);
      SplitCons(x[0], t, sep);
      assert [x[0]] + x[1..] == x;
    }
  }

  /** Splitting joined pieces that lack the separator gives the pieces back. */
  lemma {:induction false} JoinSplit(parts: seq<string>, sep: char)
    requires |parts| >= 1
    requires forall i :: 0 <= i < |parts| ==> Lacks(parts[i], sep)
    ensures Split(Join(parts, sep), sep) == parts
    decreases |parts|
  {
    if |parts| == 1 {
      assert parts[..0] == [];
      assert Join(parts, sep) == parts[0];
      SplitWithoutSeparator(parts[0], sep);
      assert parts == [parts[0]];
    } else {
      var r := parts[1..];
      assert parts == [parts[0]] + r;
      JoinCons(parts[0], r, sep);
      JoinSplit(r, sep);
      SplitAfterPiece(parts[0], Join(r, sep), sep);
    }
  }

  /** One step of a split: the first character either ends the first piece
      (a separator) or joins it. */
  lemma SplitCons(c: char, t: string, sep: char)
    ensures Split([c] + t, sep) ==
              if c == sep then [""] + Split(t, sep)
              else [[c] + Split(t, sep)[0]] + Split(t, sep)[1..]
  {
    assert ([c] + t)[0] == c && ([c] + t)[1..] == t;
  }

  lemma JoinCons(x: string, r: seq<string>, sep: char)
    requires |r| >= 1
    ensures Join([x] + r, sep) == x + [sep] + Join(r, sep)
  {
    var parts := [x] + r;
    assert parts[..|parts| - 1] == [x] + r[..|r| - 1];
    TerminatedCons(x, r[..|r| - 1], sep);
  }

  lemma JoinExtend(c: string, r: seq<string>, sep: char)
    requires |r| >= 1
    ensures Join([c + r[0]] + r[1..], sep) == c + Join(r, sep)
  {
    if |r| == 1 {
      assert ([c + r[0]] + r[1..])[..0] == [] && r[..0] == [];
    } else {
      var mid := r[1..|r| - 1];
      var parts := [c + r[0]] + r[1..];
      assert parts[..|parts| - 1] == [c + r[0]] + mid;
      assert r[..|r| - 1] == [r[0]] + mid;
      TerminatedCons(c + r[0], mid, sep);
      TerminatedCons(r[0], mid, sep);
    }
  }

  lemma TerminatedCons(x: string, ls: seq<string>, sep: char)
    ensures Terminated([x] + ls, sep) == x + [sep] + Terminated(ls, sep)
  {
    TerminatedAppend([x], ls, sep);
    assert [x][..0] == [];
  }

  lemma {:induction false} TerminatedAppend(a: seq<string>, b: seq<string>, sep: char)
    ensures Terminated(a + b, sep) == Terminated(a, sep) + Terminated(b, sep)
    decreases |b|
  {
    if b == [] {
      assert a + b == a;
    } else {
      var b' := b[..|b| - 1];
      assert (a + b)[..|a + b| - 1] == a + b';
      TerminatedAppend(a, b', sep);
    }
  }

  /** Order-preserving subsequence: `sub` is `s` with some elements removed. */
  ghost predicate IsSubsequence<T>(sub: seq<T>, s: seq<T>)
    decreases |s|
  {
    if sub == [] then true
    else if s == [] then false
    else if sub[0] == s[0] then IsSubsequence(sub[1..], s[1..])
    else IsSubsequence(sub, s[1..])
  }

  /** `xs.filter(keep)`. */
  function Filter<T>(xs: seq<T>, keep: T -> bool): (r: seq<T>)
    ensures forall i :: 0 <= i < |r| ==> r[i] in xs && keep(r[i])
    ensures forall i :: 0 <= i < |xs| && keep(xs[i]) ==> xs[i] in r
    ensures |r| <= |xs|
    decreases |xs|
  {
    if xs == [] then []
    else if keep(xs[0]) then [xs[0]] + Filter(xs[1..], keep)
    else Filter(xs[1..], keep)
  }

  /** Filtering with a test every element passes keeps the whole list. */
  lemma {:induction false} FilterKeepsAll<T>(xs: seq<T>, keep: T -> bool)
    requires forall i :: 0 <= i < |xs| ==> keep(xs[i])
    ensures Filter(xs, keep) == xs
    decreases |xs|
  {
    if xs != [] {
      FilterKeepsAll(xs[1..], keep);
      assert [xs[0]] + xs[1..] == xs;
    }
  }

  /** Filters with tests that agree on every element give the same list. */
  lemma {:induction false} FilterSameTest<T>(xs: seq<T>, f: T -> bool, g: T -> bool)
    requires forall i :: 0 <= i < |xs| ==> f(xs[i]) == g(xs[i])
    ensures Filter(xs, f) == Filter(xs, g)
    decreases |xs|
  {
    if xs != [] {
      FilterSameTest(xs[1..], f, g);
    }
  }

  /** Filtering a concatenation filters each part in turn. */
  lemma {:induction false} FilterAppend<T>(xs: seq<T>, ys: seq<T>, keep: T -> bool)
    ensures Filter(xs + ys, keep) == Filter(xs, keep) + Filter(ys, keep)
    decreases |xs|
  {
    if xs == [] {
      assert xs + ys == ys;
    } else {
      FilterAppend(xs[1..], ys, keep);
      assert (xs + ys)[1..] == xs[1..] + ys;
    }
  }

  /** The filtered list keeps the order of the elements it retains. */
  lemma {:induction false} FilterIsSubsequence<T>(xs: seq<T>, keep: T -> bool)
    ensures IsSubsequence(Filter(xs, keep), xs)
    decreases |xs|
  {
    if xs != [] {
      FilterIsSubsequence(xs[1..], keep);
      var rest := Filter(xs[1..], keep);
      if keep(xs[0]) {
        assert Filter(xs, keep) == [xs[0]] + rest;
        assert ([xs[0]] + rest)[1..] == rest;
      } else {
        SubsequenceDropHead(Filter(xs, keep), xs);
      }
    }
  }

  /** Helper: a subsequence of the tail is a subsequence of the whole. */
  lemma {:induction false} SubsequenceDropHead<T>(sub: seq<T>, s: seq<T>)
    requires s != [] && IsSubsequence(sub, s[1..])
    ensures IsSubsequence(sub, s)
    decreases |s|, 0
  {
    if sub != [] && sub[0] == s[0] {
      SubsequenceTail(sub, s[1..]);
    }
  }

  /** Helper: dropping the head of a subsequence keeps it a subsequence. */
  lemma {:induction false} SubsequenceTail<T>(sub: seq<T>, s: seq<T>)
    requires sub != [] && IsSubsequence(sub, s)
    ensures IsSubsequence(sub[1..], s)
    decreases |s|, 1
  {
    if s != [] {
      if sub[0] == s[0] {
        if sub[1..] != [] {
          SubsequenceDropHead(sub[1..], s);
        }
      } else {
        SubsequenceTail(sub, s[1..]);
        if sub[1..] != [] {
          SubsequenceDropHead(sub[1..], s);
        }
      }
    }
  }

  /** Number of elements of `xs` satisfying `p`. */
  function Count<T>(xs: seq<T>, p: T -> bool): (n: nat)
    ensures n <= |xs|
    ensures n == |Filter(xs, p)|
    decreases |xs|
  {
    if xs == [] then 0 else (if p(xs[0]) then 1 else 0) + Count(xs[1..], p)
  }

  /** Counting the elements that satisfy `p` and those that satisfy its
      negation `q` accounts for every element. */
  lemma {:induction false} CountSplits<T>(xs: seq<T>, p: T -> bool, q: T -> bool)
    requires forall x :: q(x) == !p(x)
    ensures Count(xs, p) + Count(xs, q) == |xs|
    decreases |xs|
  {
    if xs != [] {
      CountSplits(xs[1..], p, q);
    }
  }
}
