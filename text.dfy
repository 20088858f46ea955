/** Python's `str` operations that the client and the data scripts rely on,
    stated over `string` (a `seq<char>`). */
module Text {

  /** Python's `None` next to a present value. */
  datatype Option<T> = None | Some(value: T)

  // ---------------------------------------------------------------------------
  // Searching: `str.find` and `in`
  // ---------------------------------------------------------------------------

  /** `sub` occurs in `s` starting at index `i`. */
  predicate MatchAt(s: string, sub: string, i: nat) {
    i + |sub| <= |s| && s[i..i + |sub|] == sub
  }

  /** `s.find(sub, start)`: the least index at or after `start` where `sub`
      occurs, or -1 when there is none (`IndexOfFindsFirst`). */
  function IndexOf(s: string, sub: string, start: nat): (r: int)
    requires |sub| > 0
    ensures r == -1 || start <= r <= |s| - |sub|
    decreases |s| - start
  {
    if start + |sub| > |s| then -1
    else if s[start..start + |sub|] == sub then start
    else IndexOf(s, sub, start + 1)
  }

  /** `find` returns the first match at or after `start`, and -1 exactly when
      there is none. */
  lemma {:induction false} IndexOfFindsFirst(s: string, sub: string, start: nat)
    requires |sub| > 0
    ensures var r := IndexOf(s, sub, start);
      && (r == -1 || MatchAt(s, sub, r))
      && (r != -1 ==> forall i :: start <= i < r ==> !MatchAt(s, sub, i))
      && (r == -1 ==> forall i :: start <= i ==> !MatchAt(s, sub, i))
    decreases |s| - start
  {
    if start + |sub| <= |s| && s[start..start + |sub|] != sub {
      IndexOfFindsFirst(s, sub, start + 1);
    }
  }

  /** `sub in s`. */
  predicate Contains(s: string, sub: string)
    requires |sub| > 0
  {
    IndexOf(s, sub, 0) >= 0
  }

  lemma ContainsMeansMatch(s: string, sub: string)
    requires |sub| > 0
    ensures Contains(s, sub) <==> exists i: nat :: MatchAt(s, sub, i)
  {
    IndexOfFindsFirst(s, sub, 0);
    if !Contains(s, sub) {
      assert forall i: nat :: !MatchAt(s, sub, i);
    }
  }

  lemma MatchAtChar(s: string, c: char, i: nat)
    ensures MatchAt(s, [c], i) <==> i < |s| && s[i] == c
  {
    if i < |s| {
      assert s[i..i + 1] == [s[i]];
    }
  }

  /** A single character is found at its first occurrence at or after `start`. */
  lemma {:induction false} IndexOfChar(s: string, c: char, start: nat, at: nat)
    requires start <= at < |s| && s[at] == c
    requires forall j :: start <= j < at ==> s[j] != c
    ensures IndexOf(s, [c], start) == at
  {
    MatchAtChar(s, c, at);
    IndexOfFindsFirst(s, [c], start);
    var r := IndexOf(s, [c], start);
    if r != -1 {
      MatchAtChar(s, c, r);
    }
  }

  /** A single character that does not occur at or after `start` is not found. */
  lemma IndexOfCharAbsent(s: string, c: char, start: nat)
    requires forall j :: start <= j < |s| ==> s[j] != c
    ensures IndexOf(s, [c], start) == -1
  {
    IndexOfFindsFirst(s, [c], start);
    var r := IndexOf(s, [c], start);
    if r != -1 {
      MatchAtChar(s, c, r);
    }
  }

  /** `s.find(c, start)` for a one-character needle `c`, searched character by
      character (`FindFirst`, `FindIsIndexOf`). */
  function Find(s: string, c: char, start: nat): (r: int)
    ensures r == -1 || (start <= r < |s| && s[r] == c)
    decreases |s| - start
  {
    if start >= |s| then -1
    else if s[start] == c then start
    else Find(s, c, start + 1)
  }

  /** `Find` returns the first occurrence at or after `start`, and -1 exactly
      when there is none. */
  lemma {:induction false} FindFirst(s: string, c: char, start: nat)
    ensures var r := Find(s, c, start);
      && (r != -1 ==> forall j :: start <= j < r ==> s[j] != c)
      && (r == -1 ==> forall j :: start <= j < |s| ==> s[j] != c)
    decreases |s| - start
  {
    if start < |s| && s[start] != c {
      FindFirst(s, c, start + 1);
    }
  }

  /** Searching for one character is searching for the one-character string. */
  lemma FindIsIndexOf(s: string, c: char, start: nat)
    ensures Find(s, c, start) == IndexOf(s, [c], start)
  {
    var r := Find(s, c, start);
    FindFirst(s, c, start);
    if r == -1 {
      IndexOfCharAbsent(s, c, start);
    } else {
      IndexOfChar(s, c, start, r);
    }
  }

  /** The first occurrence at or after `start` is what `Find` returns. */
  lemma FindAt(s: string, c: char, start: nat, at: nat)
    requires start <= at < |s| && s[at] == c
    requires forall j :: start <= j < at ==> s[j] != c
    ensures Find(s, c, start) == at
  {
    FindFirst(s, c, start);
  }

  /** Starting the search later changes nothing while the skipped part does
      not hold the character. */
  lemma {:induction false} FindSkip(s: string, c: char, from: nat, to: nat)
    requires from <= to
    requires forall j :: from <= j < to && j < |s| ==> s[j] != c
    ensures Find(s, c, from) == Find(s, c, to)
    decreases (to as int) - (from as int)
  {
    if from < to && from < |s| {
      FindSkip(s, c, from + 1, to);
    }
  }

  /** Searching `p + s` from inside `s` finds what searching `s` finds, shifted by `|p|`. */
  lemma {:induction false} FindShift(p: string, s: string, c: char, i: nat)
    ensures Find(p + s, c, |p| + i) == (if Find(s, c, i) < 0 then -1 else |p| + Find(s, c, i))
    decreases |s| - i
  {
    if i < |s| {
      assert (p + s)[|p| + i] == s[i];
      if s[i] != c {
        FindShift(p, s, c, i + 1);
      }
    }
  }

  // ---------------------------------------------------------------------------
  // Joining and splitting: `sep.join(xs)` and `s.split(sep)`
  // ---------------------------------------------------------------------------

  /** `sep.join(xs)`. */
  function Join(sep: string, xs: seq<string>): string
    decreases |xs|
  {
    if |xs| == 0 then ""
    else if |xs| == 1 then xs[0]
    else xs[0] + sep + Join(sep, xs[1..])
  }

  lemma {:induction false} JoinAppend(sep: string, xs: seq<string>, x: string)
    requires |xs| > 0
    ensures Join(sep, xs + [x]) == Join(sep, xs) + sep + x
    decreases |xs|
  {
    if |xs| > 1 {
      assert (xs + [x])[1..] == xs[1..] + [x];
      JoinAppend(sep, xs[1..], x);
    }
  }

  /** `''.join` distributes over concatenation of the pieces. */
  lemma {:induction false} JoinEmptySeparator(xs: seq<string>, ys: seq<string>)
    ensures Join("", xs + ys) == Join("", xs) + Join("", ys)
    decreases |xs|
  {
    if |xs| == 0 {
      assert xs + ys == ys;
    } else if |xs| == 1 {
      if |ys| > 0 {
        assert (xs + ys)[1..] == ys;
      } else {
        assert xs + ys == xs;
      }
    } else {
      assert (xs + ys)[1..] == xs[1..] + ys;
      JoinEmptySeparator(xs[1..], ys);
    }
  }

  /** A character that is in neither the separator nor any piece is not in the join. */
  lemma {:induction false} JoinAvoids(sep: string, xs: seq<string>, c: char)
    requires c !in sep
    requires forall i :: 0 <= i < |xs| ==> c !in xs[i]
    ensures c !in Join(sep, xs)
    decreases |xs|
  {
    if |xs| > 1 {
      JoinAvoids(sep, xs[1..], c);
    }
  }

  /** `s.split(sep)`: the pieces between non-overlapping occurrences of `sep`,
      found from the left. Python refuses an empty separator. */
  function Split(s: string, sep: string): (parts: seq<string>)
    requires |sep| > 0
    ensures |parts| >= 1
    decreases |s|
  {
    var i := IndexOf(s, sep, 0);
    if i < 0 then [s] else [s[..i]] + Split(s[i + |sep|..], sep)
  }

  /** Splitting on one character undoes joining on it, when no piece holds it. */
  lemma {:induction false} SplitJoin(xs: seq<string>, c: char)
    requires |xs| >= 1
    requires forall i :: 0 <= i < |xs| ==> c !in xs[i]
    ensures Split(Join([c], xs), [c]) == xs
    decreases |xs|
  {
    var s := Join([c], xs);
    if |xs| == 1 {
      IndexOfCharAbsent(s, c, 0);
    } else {
      assert s == xs[0] + [c] + Join([c], xs[1..]);
      IndexOfChar(s, c, 0, |xs[0]|);
      assert s[..|xs[0]|] == xs[0];
      assert s[|xs[0]| + 1..] == Join([c], xs[1..]);
      SplitJoin(xs[1..], c);
      assert xs == [xs[0]] + xs[1..];
    }
  }

  /** The text before the first separator holds no separator. */
  lemma FirstPieceFree(s: string, sep: string, i: int)
    requires |sep| > 0 && i == IndexOf(s, sep, 0) && i >= 0
    ensures !Contains(s[..i], sep)
  {
    IndexOfFindsFirst(s, sep, 0);
    var head := s[..i];
    if Contains(head, sep) {
      var j := IndexOf(head, sep, 0);
      IndexOfFindsFirst(head, sep, 0);
      assert s[j..j + |sep|] == head[j..j + |sep|];
      assert MatchAt(s, sep, j);
    }
  }

  lemma JoinCons(sep: string, x: string, xs: seq<string>)
    requires |xs| >= 1
    ensures Join(sep, [x] + xs) == x + sep + Join(sep, xs)
  {
    assert ([x] + xs)[1..] == xs;
  }

  /** Joining the pieces of a split gives the text back, and no piece holds
      the separator. */
  lemma {:induction false} SplitPieces(s: string, sep: string)
    requires |sep| > 0
    ensures Join(sep, Split(s, sep)) == s
    ensures forall k :: 0 <= k < |Split(s, sep)| ==> !Contains(Split(s, sep)[k], sep)
    decreases |s|
  {
    var i := IndexOf(s, sep, 0);
    if i >= 0 {
      IndexOfFindsFirst(s, sep, 0);
      var head, rest := s[..i], s[i + |sep|..];
      var tail := Split(rest, sep);
      SplitPieces(rest, sep);
      FirstPieceFree(s, sep, i);
      JoinCons(sep, head, tail);
      assert s == head + sep + rest by {
        assert s[i..i + |sep|] == sep;
        assert s == s[..i] + s[i..i + |sep|] + s[i + |sep|..];
      }
      forall k | 0 <= k < |[head] + tail|
        ensures !Contains(([head] + tail)[k], sep)
      {
        if k > 0 {
          assert ([head] + tail)[k] == tail[k - 1];
        }
      }
    }
  }

  /** The characters Python's `str.isspace` accepts. */
  predicate IsSpace(c: char) {
    ('\t' <= c <= '\r') || ('\U{1C}' <= c <= ' ') || c == '\U{85}' || c == '\U{A0}'
    || c == '\U{1680}' || ('\U{2000}' <= c <= '\U{200A}') || c == '\U{2028}' || c == '\U{2029}'
    || c == '\U{202F}' || c == '\U{205F}' || c == '\U{3000}'
  }

  /** Length of the leading run of non-space characters. */
  function WordLength(s: string): (n: nat)
    ensures n <= |s|
    ensures forall j :: 0 <= j < n ==> !IsSpace(s[j])
    ensures n < |s| ==> IsSpace(s[n])
  {
    if s == [] || IsSpace(s[0]) then 0 else 1 + WordLength(s[1..])
  }

  /** `s.split()`: the maximal runs of non-space characters, in order. */
  function Words(s: string): seq<string>
    decreases |s|
  {
    if s == [] then []
    else if IsSpace(s[0]) then Words(s[1..])
    else
      var n := WordLength(s);
      [s[..n]] + Words(s[n..])
  }

  /** The words are non-empty and hold no space. */
  lemma {:induction false} WordsAreWords(s: string)
    ensures forall i :: 0 <= i < |Words(s)| ==> Words(s)[i] != ""
    ensures forall i, j :: 0 <= i < |Words(s)| && 0 <= j < |Words(s)[i]| ==> !IsSpace(Words(s)[i][j])
    decreases |s|
  {
    if s == [] {
    } else if IsSpace(s[0]) {
      WordsAreWords(s[1..]);
    } else {
      var n := WordLength(s);
      WordsAreWords(s[n..]);
      assert Words(s) == [s[..n]] + Words(s[n..]);
      forall i | 1 <= i < |Words(s)|
        ensures Words(s)[i] == Words(s[n..])[i - 1]
      {
      }
    }
  }

  /** The pieces written one after the other, with no separator. */
  function Concat(xs: seq<string>): string
    decreases |xs|
  {
    if |xs| == 0 then "" else xs[0] + Concat(xs[1..])
  }

  /** `s` with every space character removed. */
  function NonSpace(s: string): string
    decreases |s|
  {
    if s == [] then "" else (if IsSpace(s[0]) then "" else [s[0]]) + NonSpace(s[1..])
  }

  /** The leading word keeps all its characters. */
  lemma {:induction false} NonSpaceOfWord(s: string)
    ensures NonSpace(s) == s[..WordLength(s)] + NonSpace(s[WordLength(s)..])
    decreases |s|
  {
    if s != [] && !IsSpace(s[0]) {
      var n := WordLength(s);
      NonSpaceOfWord(s[1..]);
      assert s[1..][..n - 1] == s[1..n];
      assert s[1..][n - 1..] == s[n..];
      assert [s[0]] + s[1..n] == s[..n];
    }
  }

  /** The words cover the text: together they hold every non-space character,
      in order. */
  lemma {:induction false} WordsCover(s: string)
    ensures Concat(Words(s)) == NonSpace(s)
    decreases |s|
  {
    if s != [] {
      if IsSpace(s[0]) {
        WordsCover(s[1..]);
      } else {
        var n := WordLength(s);
        WordsCover(s[n..]);
        NonSpaceOfWord(s);
        assert Words(s) == [s[..n]] + Words(s[n..]);
        assert ([s[..n]] + Words(s[n..]))[1..] == Words(s[n..]);
      }
    }
  }

  /** `s.strip()`: `s` without leading and trailing space. */
  function Strip(s: string): (r: string)
    ensures r == "" || (!IsSpace(r[0]) && !IsSpace(r[|r| - 1]))
    decreases |s|
  {
    if s == [] then ""
    else if IsSpace(s[0]) then Strip(s[1..])
    else if IsSpace(s[|s| - 1]) then Strip(s[..|s| - 1])
    else s
  }

  // ---------------------------------------------------------------------------
  // Slicing: `s[i:j]` with Python's negative and out-of-range indices
  // ---------------------------------------------------------------------------

  /** Where a slice bound `k` lands in a sequence of length `n`. */
  function SliceBound(k: int, n: nat): (b: nat)
    ensures b <= n
    ensures 0 <= k <= n ==> b == k
    ensures k < 0 <= n + k ==> b == n + k
  {
    if k < 0 then (if n + k < 0 then 0 else n + k) else if k > n then n else k
  }

  /** `s[i:j]`. */
  function Slice<T>(s: seq<T>, i: int, j: int): seq<T> {
    var a, b := SliceBound(i, |s|), SliceBound(j, |s|);
    if a < b then s[a..b] else []
  }

  /** `s[:-2]` drops the last two elements, and is empty on shorter input. */
  lemma DropLastTwo<T>(s: seq<T>)
    ensures Slice(s, 0, -2) == if |s| >= 2 then s[..|s| - 2] else []
  {
  }

  // ---------------------------------------------------------------------------
  // Accumulating with `+=`
  // ---------------------------------------------------------------------------

  /** The text `x0 + sep + x1 + sep + ... + xn + sep` that a loop doing
      `string += x + sep` builds. */
  function Terminated(xs: seq<string>, sep: string): string
    decreases |xs|
  {
    if |xs| == 0 then "" else Terminated(xs[..|xs| - 1], sep) + xs[|xs| - 1] + sep
  }

  /** The text `sep + x0 + sep + x1 + ... + sep + xn` that a loop doing
      `string += sep + x` builds. */
  function Prefixed(xs: seq<string>, sep: string): string
    decreases |xs|
  {
    if |xs| == 0 then "" else Prefixed(xs[..|xs| - 1], sep) + sep + xs[|xs| - 1]
  }

  /** One more `string += x + sep`. */
  lemma TerminatedAppend(xs: seq<string>, x: string, sep: string)
    ensures Terminated(xs + [x], sep) == Terminated(xs, sep) + x + sep
  {
    assert (xs + [x])[..|xs|] == xs;
  }

  /** `acc += x + sep` on an accumulator holding `head` and the pieces so far. */
  lemma TerminatedStep(head: string, xs: seq<string>, x: string, sep: string)
    ensures head + Terminated(xs, sep) + (x + sep) == head + Terminated(xs + [x], sep)
  {
    TerminatedAppend(xs, x, sep);
  }

  /** Accumulating two lists one after the other accumulates their concatenation. */
  lemma {:induction false} TerminatedConcat(xs: seq<string>, ys: seq<string>, sep: string)
    ensures Terminated(xs + ys, sep) == Terminated(xs, sep) + Terminated(ys, sep)
    decreases |ys|
  {
    if |ys| == 0 {
      assert xs + ys == xs;
    } else {
      var init, last := ys[..|ys| - 1], ys[|ys| - 1];
      assert ys == init + [last];
      assert xs + ys == (xs + init) + [last];
      TerminatedConcat(xs, init, sep);
      TerminatedAppend(xs + init, last, sep);
      TerminatedAppend(init, last, sep);
    }
  }

  /** The same with a head in front. */
  lemma TerminatedExtend(head: string, xs: seq<string>, ys: seq<string>, sep: string)
    ensures head + Terminated(xs, sep) + Terminated(ys, sep) == head + Terminated(xs + ys, sep)
  {
    TerminatedConcat(xs, ys, sep);
  }

  /** One more `string += sep + x`. */
  lemma PrefixedAppend(xs: seq<string>, x: string, sep: string)
    ensures Prefixed(xs + [x], sep) == Prefixed(xs, sep) + sep + x
  {
    assert (xs + [x])[..|xs|] == xs;
  }

  /** Cutting the final separator off what `string += x + sep` built gives the join. */
  lemma {:induction false} TerminatedIsJoin(xs: seq<string>, sep: string)
    requires |xs| > 0
    ensures |Terminated(xs, sep)| >= |sep|
    ensures Terminated(xs, sep)[..|Terminated(xs, sep)| - |sep|] == Join(sep, xs)
    decreases |xs|
  {
    var init := xs[..|xs| - 1];
    if |xs| == 1 {
      assert init == [];
    } else {
      TerminatedIsJoin(init, sep);
      JoinAppend(sep, init, xs[|xs| - 1]);
      assert init + [xs[|xs| - 1]] == xs;
    }
  }

  /** `(head + acc)[:-len(sep)]` where `acc` started as `x + sep` and then grew
      by `string += y + sep` for each `y` in `ys`: the head followed by the join. */
  lemma CutTerminated(head: string, x: string, ys: seq<string>, sep: string)
    ensures var acc := head + x + sep + Terminated(ys, sep);
      |acc| >= |sep| && acc[..|acc| - |sep|] == head + Join(sep, [x] + ys)
  {
    var t := Terminated([x] + ys, sep);
    TerminatedFront(x, ys, sep);
    assert head + x + sep + Terminated(ys, sep) == head + t;
    TerminatedIsJoin([x] + ys, sep);
    CutTail(head, t, |sep|);
  }

  lemma TerminatedFront(x: string, ys: seq<string>, sep: string)
    ensures Terminated([x] + ys, sep) == x + sep + Terminated(ys, sep)
  {
    TerminatedConcat([x], ys, sep);
    TerminatedAppend([], x, sep);
    assert [] + [x] == [x];
  }

  /** Cutting the end off `head + t` cuts it off `t`. */
  lemma CutTail<T>(head: seq<T>, t: seq<T>, n: nat)
    requires n <= |t|
    ensures (head + t)[..|head + t| - n] == head + t[..|t| - n]
  {
  }

  /** A head followed by `string += sep + x` for the rest is the join of all of them. */
  lemma {:induction false} PrefixedIsJoin(head: string, xs: seq<string>, sep: string)
    ensures head + Prefixed(xs, sep) == Join(sep, [head] + xs)
    decreases |xs|
  {
    if |xs| > 0 {
      var init := xs[..|xs| - 1];
      PrefixedIsJoin(head, init, sep);
      JoinAppend(sep, [head] + init, xs[|xs| - 1]);
      assert [head] + init + [xs[|xs| - 1]] == [head] + xs;
    } else {
      assert [head] + xs == [head];
    }
  }

  /** The length of a join: the pieces plus one separator between each two. */
  function TotalLength(xs: seq<string>): nat
    decreases |xs|
  {
    if |xs| == 0 then 0 else |xs[0]| + TotalLength(xs[1..])
  }

  lemma {:induction false} JoinLength(sep: string, xs: seq<string>)
    requires |xs| > 0
    ensures |Join(sep, xs)| == TotalLength(xs) + |sep| * (|xs| - 1)
    decreases |xs|
  {
    if |xs| > 1 {
      JoinLength(sep, xs[1..]);
    }
  }

  // ---------------------------------------------------------------------------
  // Numbers as text: `str(n)` for integers
  // ---------------------------------------------------------------------------

  function Digit(d: nat): (c: char)
    requires d < 10
    ensures '0' <= c <= '9'
  {
    ['0', '1', '2', '3', '4', '5', '6', '7', '8', '9'][d]
  }

  /** `str(n)` for a non-negative integer: its decimal digits, no leading zero. */
  function NatToString(n: nat): (s: string)
    ensures |s| >= 1 && forall i :: 0 <= i < |s| ==> '0' <= s[i] <= '9'
    ensures |s| > 1 ==> s[0] != '0'
    decreases n
  {
    if n < 10 then [Digit(n)] else NatToString(n / 10) + [Digit(n % 10)]
  }

  /** `str(i)` for any integer. */
  function IntToString(i: int): (s: string)
    ensures |s| >= 1
    ensures (s[0] == '-') <==> i < 0
  {
    if i < 0 then "-" + NatToString(-i) else NatToString(i)
  }
}
