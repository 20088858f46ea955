/** The wire format of the simulator server: a buffer is an optional bare
    prefix followed by groups `(key v1 v2 ... vn)` with nothing between them.
    `Encode` writes such a buffer from an ordered table of value lists,
    `Decode` scans one back into a key -> token / token-list map, and
    `RollingAverage` is the serializer's incremental mean. */
module Serializer {
  import opened Text

  /** A value as the encoder receives it: an already rendered number, or
      Python's `None`. */
  type Value = Option<string>

  /** An ordered dictionary of value lists, in `dict.items()` order. */
  type Fields = seq<(string, seq<Value>)>

  /** What one decoded group maps its key to: a single token, or the list of
      all tokens after the key. */
  datatype Field = Scalar(token: string) | Tokens(tokens: seq<string>)

  /** A decoded buffer. */
  type Frame = map<string, Field>

  // ---------------------------------------------------------------------------
  // Encoding
  // ---------------------------------------------------------------------------

  /** `str(v)`: `None` renders as the word None. */
  function Render(v: Value): string {
    match v
    case None => "None"
    case Some(t) => t
  }

  function RenderAll(vs: seq<Value>): (ts: seq<string>)
    ensures |ts| == |vs| && forall i :: 0 <= i < |vs| ==> ts[i] == Render(vs[i])
  {
    seq(|vs|, i requires 0 <= i < |vs| => Render(vs[i]))
  }

  /** The encoder writes a key only when its list is non-empty and does not
      start with `None`. */
  predicate Kept(vs: seq<Value>) {
    |vs| > 0 && vs[0].Some?
  }

  /** The group written for one key. */
  function Group(key: string, vs: seq<Value>): string {
    "(" + key + " " + Join(" ", RenderAll(vs)) + ")"
  }

  /** The group list a single entry contributes. */
  function EntryElements(entry: (string, seq<Value>)): seq<string> {
    if Kept(entry.1) then [Group(entry.0, entry.1)] else []
  }

  /** The groups of all kept entries, in table order. */
  function Elements(data: Fields): seq<string>
    decreases |data|
  {
    if |data| == 0 then [] else EntryElements(data[0]) + Elements(data[1..])
  }

  lemma {:induction false} ElementsAppend(a: Fields, b: Fields)
    ensures Elements(a + b) == Elements(a) + Elements(b)
    decreases |a|
  {
    if |a| == 0 {
      assert a + b == b;
    } else {
      assert (a + b)[1..] == a[1..] + b;
      ElementsAppend(a[1..], b);
    }
  }

  /** The element list starts with the prefix only when the prefix is non-empty
      (Python's `if prefix:`; an absent prefix is the empty string here). */
  function PrefixElements(prefix: string): seq<string> {
    if prefix == "" then [] else [prefix]
  }

  /** The buffer `encode(data, prefix=prefix)` produces. */
  function Wire(data: Fields, prefix: string): string {
    Join("", PrefixElements(prefix) + Elements(data))
  }

  /** Encodes `data` group by group, collecting the pieces in a list and joining
      them at the end. */
  method Encode(data: Fields, prefix: string) returns (wire: string)
    ensures wire == Wire(data, prefix)
  {
    var elements := PrefixElements(prefix);
    for i := 0 to |data|
      invariant elements == PrefixElements(prefix) + Elements(data[..i])
    {
      var (key, vs) := data[i];
      if |vs| > 0 && vs[0].Some? {
        elements := elements + ["(" + key + " " + Join(" ", RenderAll(vs)) + ")"];
      }
      ElementsAppend(data[..i], [data[i]]);
      assert data[..i + 1] == data[..i] + [data[i]];
    }
    assert data[..|data|] == data;
    wire := Join("", elements);
  }

  /** The buffer is the prefix, unparenthesised, followed by the groups. */
  lemma WireLayout(data: Fields, prefix: string)
    ensures Wire(data, prefix) == prefix + Join("", Elements(data))
  {
    JoinEmptySeparator(PrefixElements(prefix), Elements(data));
  }

  /** A kept key's group is `(`, the key, a space, its tokens joined by single
      spaces, and `)`; the first group follows the prefix directly. */
  lemma {:induction false} WireStartsWithFirstGroup(data: Fields, prefix: string)
    requires |data| > 0 && Kept(data[0].1)
    ensures Wire(data, prefix) == prefix + Group(data[0].0, data[0].1) + Join("", Elements(data[1..]))
  {
    WireLayout(data, prefix);
    JoinEmptySeparator([Group(data[0].0, data[0].1)], Elements(data[1..]));
  }

  /** A table none of whose keys is kept encodes to the prefix alone. */
  lemma {:induction false} WireOfDroppedKeys(data: Fields, prefix: string)
    requires forall i :: 0 <= i < |data| ==> !Kept(data[i].1)
    ensures Wire(data, prefix) == prefix
  {
    NoElements(data);
    WireLayout(data, prefix);
  }

  lemma {:induction false} NoElements(data: Fields)
    requires forall i :: 0 <= i < |data| ==> !Kept(data[i].1)
    ensures Elements(data) == []
    decreases |data|
  {
    if |data| > 0 {
      NoElements(data[1..]);
    }
  }

  // ---------------------------------------------------------------------------
  // Decoding
  // ---------------------------------------------------------------------------

  /** A key maps to the single token after it, or to all tokens after it when
      there are several. */
  function FieldOf(values: seq<string>): Field
    requires |values| >= 1
  {
    if |values| == 1 then Scalar(values[0]) else Tokens(values)
  }

  /** The map after reading one group's interior: split on single spaces,
      a group of at least two items stores its first item as key, a shorter
      one is skipped. */
  function Store(d: Frame, interior: string): Frame {
    var items := Split(interior, " ");
    if |items| < 2 then d else d[items[0] := FieldOf(items[1..])]
  }

  /** What the scanning loop returns when it resumes at `pos` holding `d`:
      stop at the end of the text, otherwise find the next `(` and carry on
      from there. */
  function Scan(s: string, pos: nat, d: Frame): Frame
    decreases |s| - pos, 1
  {
    if |s| <= pos then d else ScanFrom(s, Find(s, '(', pos), d)
  }

  /** The scan once the next `(` has been looked for: stop when there is none,
      otherwise find the next `)` after it, stop when there is none, store the
      group between them and carry on after the `)`. */
  function ScanFrom(s: string, start: int, d: Frame): Frame
    requires start < |s|
    decreases if start < 0 then 0 else |s| - start, 0
  {
    if start < 0 then d
    else
      var end := Find(s, ')', start + 1);
      if end < 0 then d
      else Scan(s, end + 1, Store(d, s[start + 1..end]))
  }

  /** Decodes a buffer by scanning it left to right. It never fails: malformed
      groups are skipped and an unmatched `(` ends the scan; `pos` grows on
      every turn, so the loop ends. */
  method Decode(buffer: string) returns (d: Frame)
    ensures d == Scan(buffer, 0, map[])
  {
    d := map[];
    var pos := 0;
    while |buffer| > pos
      invariant pos <= |buffer|
      invariant Scan(buffer, pos, d) == Scan(buffer, 0, map[])
      decreases |buffer| - pos
    {
      var start := Find(buffer, '(', pos);
      if start < 0 {
        break;
      }
      var end := Find(buffer, ')', start + 1);
      if end < 0 {
        break;
      }
      var items := Split(buffer[start + 1..end], " ");
      if |items| >= 2 {
        var key := items[0];
        var value := if |items| == 2 then Scalar(items[1]) else Tokens(items[1..]);
        d := d[key := value];
      }
      pos := end + 1;
    }
  }

  /** Scanning from `pos` or from any later point before the next `(` is the same. */
  lemma {:induction false} ScanSkip(s: string, pos: nat, to: nat, d: Frame)
    requires pos <= to <= |s|
    requires forall j :: pos <= j < to ==> s[j] != '('
    ensures Scan(s, pos, d) == Scan(s, to, d)
  {
    FindSkip(s, '(', pos, to);
    if to == |s| {
      FindFirst(s, '(', to);
    }
  }

  /** The scan only reads the text from where it resumes: scanning `p + s`
      from inside `s` is scanning `s`. */
  lemma {:induction false} ScanShift(p: string, s: string, i: nat, d: Frame)
    ensures Scan(p + s, |p| + i, d) == Scan(s, i, d)
    decreases |s| - i, 1
  {
    if i < |s| {
      FindShift(p, s, '(', i);
      ScanFromShift(p, s, Find(s, '(', i), d);
    }
  }

  lemma {:induction false} ScanFromShift(p: string, s: string, start: int, d: Frame)
    requires start < |s|
    ensures start < 0 ==> ScanFrom(p + s, -1, d) == ScanFrom(s, start, d)
    ensures start >= 0 ==> ScanFrom(p + s, |p| + start, d) == ScanFrom(s, start, d)
    decreases if start < 0 then 0 else |s| - start, 0
  {
    if start >= 0 {
      FindShift(p, s, ')', start + 1);
      var end := Find(s, ')', start + 1);
      if end >= 0 {
        assert (p + s)[|p| + start + 1..|p| + end] == s[start + 1..end];
        ScanShift(p, s, end + 1, Store(d, s[start + 1..end]));
      }
    }
  }

  /** Text before the first `(` is ignored. */
  lemma {:induction false} DecodeIgnoresLeadingText(p: string, s: string, d: Frame)
    requires '(' !in p
    ensures Scan(p + s, 0, d) == Scan(s, 0, d)
  {
    ScanSkip(p + s, 0, |p|, d);
    ScanShift(p, s, 0, d);
  }

  // ---------------------------------------------------------------------------
  // Round trip
  // ---------------------------------------------------------------------------

  /** A token the decoder reads back unchanged: no space splits it and no `)`
      ends its group early. */
  predicate Clean(t: string) {
    ' ' !in t && ')' !in t
  }

  predicate CleanValues(vs: seq<Value>) {
    forall j :: 0 <= j < |vs| ==> Clean(Render(vs[j]))
  }

  /** Every key and every rendered value is clean. */
  predicate WellFormed(data: Fields) {
    forall i :: 0 <= i < |data| ==> Clean(data[i].0) && CleanValues(data[i].1)
  }

  /** The map a decoder builds from the kept entries of `data`, left to right,
      a later entry overwriting an earlier one with the same key. */
  function Apply(m: Frame, data: Fields): Frame
    decreases |data|
  {
    if |data| == 0 then m
    else
      var (key, vs) := data[0];
      Apply(if Kept(vs) then m[key := FieldOf(RenderAll(vs))] else m, data[1..])
  }

  /** Where a well-formed group starts the text, the next `(` is its first
      character, the next `)` after that is its last, and what lies between
      splits on spaces into the key and the rendered values. */
  lemma {:induction false} GroupFound(key: string, vs: seq<Value>, run: string)
    requires Clean(key) && CleanValues(vs) && Kept(vs)
    ensures var t, g := Group(key, vs) + run, Group(key, vs);
      && Find(t, '(', 0) == 0
      && Find(t, ')', 1) == |g| - 1
      && t[|g|..] == run
      && Split(t[1..|g| - 1], " ") == [key] + RenderAll(vs)
  {
    var g := Group(key, vs);
    var t := g + run;
    var toks := RenderAll(vs);
    var body := Join(" ", toks);
    var close := |g| - 1;
    assert g == "(" + (key + " " + body) + ")";
    assert t[0] == '(';
    FindAt(t, '(', 0, 0);
    JoinAvoids(" ", toks, ')');
    assert t[1..close] == key + " " + body;
    forall j | 1 <= j < close
      ensures t[j] != ')'
    {
      assert t[j] in t[1..close];
    }
    FindAt(t, ')', 1, close);
    assert Join(" ", [key] + toks) == key + " " + body by {
      assert ([key] + toks)[1..] == toks;
    }
    forall i | 0 <= i < |[key] + toks|
      ensures ' ' !in ([key] + toks)[i]
    {
      if i > 0 {
        assert ([key] + toks)[i] == toks[i - 1] == Render(vs[i - 1]);
      }
    }
    SplitJoin([key] + toks, ' ');
  }

  /** Scanning a kept group followed by `run` stores the group and goes on with `run`. */
  lemma {:induction false} ScanGroup(key: string, vs: seq<Value>, run: string, d: Frame)
    requires Clean(key) && CleanValues(vs) && Kept(vs)
    ensures Scan(Group(key, vs) + run, 0, d) == Scan(run, 0, d[key := FieldOf(RenderAll(vs))])
  {
    var g := Group(key, vs);
    GroupFound(key, vs, run);
    assert ([key] + RenderAll(vs))[1..] == RenderAll(vs);
    assert Scan(g + run, 0, d) == Scan(g + run, |g|, d[key := FieldOf(RenderAll(vs))]);
    ScanShift(g, run, 0, d[key := FieldOf(RenderAll(vs))]);
  }

  /** A group holding a key alone splits into fewer than two items: it is
      skipped, and the scan goes on after its `)`. */
  lemma {:induction false} BareKeySkipped(key: string, run: string, d: Frame)
    requires Clean(key)
    ensures Scan("(" + key + ")" + run, 0, d) == Scan(run, 0, d)
  {
    var g := "(" + key + ")";
    var t := g + run;
    assert t[0] == '(';
    FindAt(t, '(', 0, 0);
    forall j | 1 <= j < |g| - 1
      ensures t[j] != ')'
    {
      assert t[j] == key[j - 1];
    }
    FindAt(t, ')', 1, |g| - 1);
    assert t[1..|g| - 1] == key;
    SplitJoin([key], ' ');
    assert Scan(t, 0, d) == Scan(t, |g|, d);
    ScanShift(g, run, 0, d);
  }

  /** An encoded run is its first entry's group (if kept) followed by the rest. */
  lemma {:induction false} RunHead(data: Fields, rest: string)
    requires |data| > 0
    ensures Join("", Elements(data)) + rest
      == (if Kept(data[0].1) then Group(data[0].0, data[0].1) else "") + (Join("", Elements(data[1..])) + rest)
  {
    JoinEmptySeparator(EntryElements(data[0]), Elements(data[1..]));
    if Kept(data[0].1) {
      assert Join("", [Group(data[0].0, data[0].1)]) == Group(data[0].0, data[0].1);
    } else {
      assert Join("", []) == "";
    }
  }

  lemma WellFormedTail(data: Fields)
    requires WellFormed(data) && |data| > 0
    ensures WellFormed(data[1..]) && Clean(data[0].0) && CleanValues(data[0].1)
  {
    forall i | 0 <= i < |data| - 1
      ensures Clean(data[1..][i].0) && CleanValues(data[1..][i].1)
    {
      assert data[1..][i] == data[i + 1];
    }
  }

  /** Scanning a run of encoded groups stores exactly what `Apply` stores and
      goes on with the text after the run. */
  lemma {:induction false} ScanGroups(data: Fields, rest: string, d: Frame)
    requires WellFormed(data)
    ensures Scan(Join("", Elements(data)) + rest, 0, d) == Scan(rest, 0, Apply(d, data))
    decreases |data|
  {
    if |data| == 0 {
      assert Join("", Elements(data)) + rest == rest;
    } else {
      var key, vs := data[0].0, data[0].1;
      var run := Join("", Elements(data[1..])) + rest;
      WellFormedTail(data);
      RunHead(data, rest);
      if Kept(vs) {
        var d' := d[key := FieldOf(RenderAll(vs))];
        ScanGroup(key, vs, run, d);
        ScanGroups(data[1..], rest, d');
        assert Apply(d, data) == Apply(d', data[1..]);
      } else {
        assert Join("", Elements(data)) + rest == run;
        ScanGroups(data[1..], rest, d);
        assert Apply(d, data) == Apply(d, data[1..]);
      }
    }
  }

  /** Decoding an encoded buffer gives back every kept key with its rendered
      tokens, provided keys and tokens hold no space and no `)` and the prefix
      holds no `(`. */
  lemma RoundTrip(data: Fields, prefix: string)
    requires WellFormed(data) && '(' !in prefix
    ensures Scan(Wire(data, prefix), 0, map[]) == Apply(map[], data)
  {
    var groups := Join("", Elements(data));
    WireLayout(data, prefix);
    DecodeIgnoresLeadingText(prefix, groups, map[]);
    ScanGroups(data, "", map[]);
    assert groups + "" == groups;
  }

  /** An unmatched `(` after some groups ends the scan: the groups read before it
      are returned and nothing after it is read. */
  lemma DecodeStopsAtUnmatchedParen(data: Fields, tail: string)
    requires WellFormed(data) && ')' !in tail
    ensures Scan(Wire(data, "") + "(" + tail, 0, map[]) == Apply(map[], data)
  {
    var open := "(" + tail;
    WireLayout(data, "");
    assert Wire(data, "") + "(" + tail == Join("", Elements(data)) + open;
    ScanGroups(data, open, map[]);
    FindAt(open, '(', 0, 0);
    forall j | 1 <= j < |open|
      ensures open[j] != ')'
    {
      assert open[j] == tail[j - 1];
    }
    FindFirst(open, ')', 1);
  }

  /** `Apply` keeps the keys already present and adds exactly the kept keys. */
  lemma {:induction false} ApplyKeys(m: Frame, data: Fields, k: string)
    ensures k in Apply(m, data) <==> k in m || exists i :: 0 <= i < |data| && Kept(data[i].1) && data[i].0 == k
    decreases |data|
  {
    if |data| > 0 {
      var (key, vs) := data[0];
      ApplyKeys(if Kept(vs) then m[key := FieldOf(RenderAll(vs))] else m, data[1..], k);
      if exists i :: 0 <= i < |data| && Kept(data[i].1) && data[i].0 == k {
        var i :| 0 <= i < |data| && Kept(data[i].1) && data[i].0 == k;
        if i > 0 {
          assert data[1..][i - 1] == data[i];
        }
      }
      if exists i :: 0 <= i < |data[1..]| && Kept(data[1..][i].1) && data[1..][i].0 == k {
        var i :| 0 <= i < |data[1..]| && Kept(data[1..][i].1) && data[1..][i].0 == k;
        assert data[i + 1] == data[1..][i];
      }
    }
  }

  /** An entry whose key no later entry repeats decides that key's value. */
  lemma {:induction false} ApplyUntouched(m: Frame, data: Fields, k: string)
    requires forall i :: 0 <= i < |data| ==> data[i].0 != k
    ensures k in Apply(m, data) <==> k in m
    ensures k in m ==> Apply(m, data)[k] == m[k]
    decreases |data|
  {
    if |data| > 0 {
      var (key, vs) := data[0];
      assert data[0].0 != k;
      ApplyUntouched(if Kept(vs) then m[key := FieldOf(RenderAll(vs))] else m, data[1..], k);
    }
  }

  lemma {:induction false} ApplyValue(m: Frame, data: Fields, i: nat)
    requires i < |data| && Kept(data[i].1)
    requires forall j :: i < j < |data| ==> data[j].0 != data[i].0
    ensures data[i].0 in Apply(m, data)
    ensures Apply(m, data)[data[i].0] == FieldOf(RenderAll(data[i].1))
    decreases |data|
  {
    var (key, vs) := data[0];
    var m' := if Kept(vs) then m[key := FieldOf(RenderAll(vs))] else m;
    if i == 0 {
      ApplyUntouched(m', data[1..], key);
    } else {
      ApplyValue(m', data[1..], i - 1);
    }
  }

  /** Keys of a dictionary are distinct. */
  predicate DistinctKeys(data: Fields) {
    forall i, j :: 0 <= i < j < |data| ==> data[i].0 != data[j].0
  }

  /** The round trip for a dictionary: the decoded buffer has exactly the kept
      keys; a key with one value maps to that token, a key with several to the
      list of their tokens. */
  lemma RoundTripFields(data: Fields, prefix: string)
    requires WellFormed(data) && '(' !in prefix && DistinctKeys(data)
    ensures var d := Scan(Wire(data, prefix), 0, map[]);
      && (forall k :: k in d <==> exists i :: 0 <= i < |data| && Kept(data[i].1) && data[i].0 == k)
      && (forall i :: 0 <= i < |data| && Kept(data[i].1) && |data[i].1| == 1 ==>
            d[data[i].0] == Scalar(Render(data[i].1[0])))
      && (forall i :: 0 <= i < |data| && Kept(data[i].1) && |data[i].1| > 1 ==>
            d[data[i].0] == Tokens(RenderAll(data[i].1)))
  {
    RoundTrip(data, prefix);
    forall k
      ensures k in Apply(map[], data) <==> exists i :: 0 <= i < |data| && Kept(data[i].1) && data[i].0 == k
    {
      ApplyKeys(map[], data, k);
    }
    forall i | 0 <= i < |data| && Kept(data[i].1)
      ensures data[i].0 in Apply(map[], data) && Apply(map[], data)[data[i].0] == FieldOf(RenderAll(data[i].1))
    {
      ApplyValue(map[], data, i);
    }
  }

  /** A later group with the same key overwrites an earlier one. */
  lemma LaterGroupWins(key: string, first: seq<Value>, second: seq<Value>)
    requires Clean(key) && CleanValues(first) && CleanValues(second) && Kept(second)
    ensures Scan(Wire([(key, first), (key, second)], ""), 0, map[]) == map[key := FieldOf(RenderAll(second))]
  {
    var data := [(key, first), (key, second)];
    RoundTrip(data, "");
    assert data[1..] == [(key, second)];
    assert data[1..][1..] == [];
    var m1 := if Kept(first) then map[key := FieldOf(RenderAll(first))] else map[];
    assert Apply(map[], data) == Apply(m1, [(key, second)]);
    assert Apply(m1, [(key, second)]) == m1[key := FieldOf(RenderAll(second))];
    assert m1[key := FieldOf(RenderAll(second))] == map[key := FieldOf(RenderAll(second))];
  }

  // ---------------------------------------------------------------------------
  // Incremental mean
  // ---------------------------------------------------------------------------

  /** `rolling_average(average, iterations, newValue)`: the mean of
      `iterations + 1` values, given the mean of the first `iterations`. */
  function RollingAverage(average: real, iterations: nat, newValue: real): (r: real)
    ensures r * (iterations as real + 1.0) == average * iterations as real + newValue
  {
    (average * iterations as real + newValue) / (iterations as real + 1.0)
  }

  /** With no earlier values the average is the new value. */
  lemma RollingAverageFirst(average: real, newValue: real)
    ensures RollingAverage(average, 0, newValue) == newValue
  {
  }

  function Sum(xs: seq<real>): real
    decreases |xs|
  {
    if |xs| == 0 then 0.0 else Sum(xs[..|xs| - 1]) + xs[|xs| - 1]
  }

  /** The arithmetic mean; 0 for no values. */
  function Mean(xs: seq<real>): real {
    if |xs| == 0 then 0.0 else Sum(xs) / |xs| as real
  }

  /** Folding values in one at a time with `RollingAverage` yields their mean. */
  lemma RollingAverageIsMean(xs: seq<real>, x: real)
    ensures RollingAverage(Mean(xs), |xs|, x) == Mean(xs + [x])
  {
    var ys := xs + [x];
    assert ys[..|ys| - 1] == xs;
    var n := |xs| as real;
    if |xs| > 0 {
      assert Mean(xs) * n == Sum(xs);
    }
  }
}
