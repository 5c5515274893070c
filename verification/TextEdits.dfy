/** Texts, change lists and Yjs deltas.

A change list can be read in two ways. Read *sequentially*, each position refers to the text left
by the changes before it. Read *simultaneously*, as CodeMirror reads the list in a transaction,
all positions refer to the text before the first change. */
module TextEdits {
  import opened Wrappers

  /** Replace `[from, to)` by `insert`. Positions are TypeScript numbers, so they may be negative. */
  datatype Change = Change(from: int, to: int, insert: string) {
    function Growth(): int { |insert| - (to - from) }
  }

  predicate Within(n: nat, c: Change) {
    0 <= c.from <= c.to <= n
  }

  function Replace(t: string, c: Change): string
    requires Within(|t|, c)
  {
    t[..c.from] + c.insert + t[c.to..]
  }

  // ---- Sequential reading ----

  /** Every change is inside the text as the earlier changes left it. */
  predicate Fits(t: string, cs: seq<Change>)
    decreases |cs|
  {
    cs == [] || (Within(|t|, cs[0]) && Fits(Replace(t, cs[0]), cs[1..]))
  }

  function Sequentially(t: string, cs: seq<Change>): string
    requires Fits(t, cs)
    decreases |cs|
  {
    if cs == [] then t else Sequentially(Replace(t, cs[0]), cs[1..])
  }

  // ---- Simultaneous reading ----

  predicate InRange(n: nat, cs: seq<Change>) {
    forall i | 0 <= i < |cs| :: Within(n, cs[i])
  }

  /** Sorted, with at least `gap` untouched units between neighbours. */
  predicate Apart(cs: seq<Change>, gap: nat) {
    forall i | 0 < i < |cs| :: cs[i - 1].to + gap <= cs[i].from
  }

  function Max(a: int, b: int): int {
    if a < b then b else a
  }

  /** One sweep over the old text from `at` on. A unit is kept unless some range covers it; an
  insertion whose place lies inside a range already passed goes where the sweep stands. */
  function Sweep(t: string, cs: seq<Change>, at: nat): string
    requires at <= |t| && InRange(|t|, cs)
  {
    if cs == [] then t[at..]
    else
      var c := cs[0];
      t[at..Max(at, c.from)] + (c.insert + Sweep(t, cs[1..], Max(at, c.to)))
  }

  /** What dispatching the list does to the view's text; `None` is CodeMirror's RangeError. */
  function Dispatch(t: string, cs: seq<Change>): Option<string> {
    if InRange(|t|, cs) then Some(Sweep(t, cs, 0)) else None
  }

  // ---- Yjs deltas ----

  datatype Op = Retain(n: nat) | Delete(n: nat) | Insert(s: string) {
    function Size(): nat {
      match this
      case Retain(n) => n
      case Delete(n) => n
      case Insert(s) => |s|
    }
  }

  type Delta = seq<Op>

  /** How much of the old text a delta walks over. */
  function Span(d: Delta): nat {
    if d == [] then 0 else (if d[0].Insert? then 0 else d[0].Size()) + Span(d[1..])
  }

  /** The delta's meaning, read from `at` on: what it makes of `t[at..]`. */
  function ApplyFrom(t: string, at: nat, d: Delta): string
    requires at + Span(d) <= |t|
    decreases |d|
  {
    if d == [] then t[at..]
    else match d[0]
      case Retain(n) => t[at..at + n] + ApplyFrom(t, at + n, d[1..])
      case Delete(n) => ApplyFrom(t, at + n, d[1..])
      case Insert(s) => s + ApplyFrom(t, at, d[1..])
  }

  function ApplyDelta(t: string, d: Delta): string
    requires Span(d) <= |t|
  {
    ApplyFrom(t, 0, d)
  }

  // ---- The simultaneous reading, checked against another definition of it ----

  /** Apply the list from its last change to its first: an edit never moves what lies left of it, so
  for ranges that do not overlap each position still means a place in the old text. */
  function RightToLeft(t: string, cs: seq<Change>): Option<string> {
    if cs == [] then Some(t)
    else
      var rest := RightToLeft(t, cs[1..]);
      if rest.Some? && Within(|rest.value|, cs[0]) then Some(Replace(rest.value, cs[0])) else None
  }

  lemma {:induction false} SweepIsRightToLeft(t: string, cs: seq<Change>, at: nat)
    requires at <= |t| && InRange(|t|, cs) && Apart(cs, 0)
    requires cs != [] ==> at <= cs[0].from
    ensures RightToLeft(t, cs) == Some(t[..at] + Sweep(t, cs, at))
  {
    if cs == [] {
      assert t == t[..at] + t[at..];
    } else {
      var c := cs[0];
      SweepIsRightToLeft(t, cs[1..], c.to);
      ReplaceMiddle(t, at, c, Sweep(t, cs[1..], c.to));
    }
  }

  lemma ReplaceMiddle(t: string, at: nat, c: Change, tail: string)
    requires at <= c.from && Within(|t|, c)
    ensures Replace(t[..c.to] + tail, c) == t[..at] + (t[at..c.from] + (c.insert + tail))
  {
    var rest := t[..c.to] + tail;
    assert rest[c.to..] == tail;
    assert rest[..c.from] == t[..c.from];
    Cut(t, at, c.from);
    Regroup(t[..c.from], c.insert, tail);
    Regroup(t[..at], t[at..c.from], c.insert + tail);
  }

  lemma Cut(t: string, a: nat, b: nat)
    requires a <= b <= |t|
    ensures t[..b] == t[..a] + t[a..b]
  {}

  lemma CutBetween(t: string, a: nat, b: nat, c: nat)
    requires a <= b <= c <= |t|
    ensures t[a..c] == t[a..b] + t[b..c]
  {}

  lemma CutEnd(t: string, a: nat, b: nat)
    requires a <= b <= |t|
    ensures t[a..] == t[a..b] + t[b..]
  {}

  lemma Regroup(a: string, b: string, c: string)
    ensures (a + b) + c == a + (b + c)
  {}

  // ---- Adding a change at the end ----

  lemma {:induction false} FitsSnoc(t: string, cs: seq<Change>, c: Change)
    requires Fits(t, cs) && Within(|Sequentially(t, cs)|, c)
    ensures Fits(t, cs + [c])
    ensures Sequentially(t, cs + [c]) == Replace(Sequentially(t, cs), c)
    decreases |cs|
  {
    if cs == [] {
      assert cs + [c] == [c];
      assert [c][1..] == [];
    } else {
      FitsSnoc(Replace(t, cs[0]), cs[1..], c);
      assert (cs + [c])[1..] == cs[1..] + [c];
    }
  }

  // ---- Texts to tell two readings apart ----

  function Other(c: char): char {
    if c == 'a' then 'b' else 'a'
  }

  function Constant(c: char, n: nat): (t: string)
    ensures |t| == n && forall i | 0 <= i < n :: t[i] == c
  {
    seq(n, _ => c)
  }
}
