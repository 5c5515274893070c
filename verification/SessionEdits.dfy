/** CodeMirror's changes on their way into the Yjs text.

The update listener (markdown-yjs-editor.component.ts:381-395) rebases the changes by a running
offset; `applyLocalChanges` (markdown-yjs-session.ts:108-131) rebases its argument by a running
offset as well. One rebasing turns the simultaneous reading into the sequential one. Two do so only
while the offset stays zero. */
module SessionEdits {
  import opened TextEdits

  /** Each change moved by `offset` plus the growth of the changes before it. */
  function Rebased(cs: seq<Change>, offset: int): seq<Change> {
    if cs == [] then []
    else [Change(cs[0].from + offset, cs[0].to + offset, cs[0].insert)] + Rebased(cs[1..], offset + cs[0].Growth())
  }

  /** The update listener's loop over `iterChanges`. */
  method CollectLocalChanges(iterated: seq<Change>) returns (changes: seq<Change>)
    ensures changes == Rebased(iterated, 0)
  {
    changes := [];
    var offset := 0;
    for i := 0 to |iterated|
      invariant changes + Rebased(iterated[i..], offset) == Rebased(iterated, 0)
    {
      var c := iterated[i];
      assert iterated[i..][0] == c && iterated[i..][1..] == iterated[i + 1..];
      RebasedFirst(iterated[i..], offset);
      var from := c.from + offset;
      var to := c.to + offset;
      changes := changes + [Change(from, to, c.insert)];
      offset := offset + |c.insert| - (c.to - c.from);
    }
    assert iterated[|iterated|..] == [];
  }

  /** The shared text, on which the session deletes and inserts in place. */
  class SharedText {
    var text: string

    constructor (initial: string)
      ensures text == initial
    {
      text := initial;
    }

    /** `Y.Text.delete` and `Y.Text.insert`. What they do outside the text is Yjs's affair and left open:
    any text may come of it. */
    method Delete(from: int, removed: int)
      modifies this
      ensures 0 <= from <= from + removed <= |old(text)| ==>
                text == Replace(old(text), Change(from, from + removed, ""))
    {
      if 0 <= from <= from + removed <= |text| {
        text := text[..from] + text[from + removed..];
      } else {
        text := *;
      }
    }

    method Insert(from: int, s: string)
      modifies this
      ensures 0 <= from <= |old(text)| ==> text == Replace(old(text), Change(from, from, s))
    {
      if 0 <= from <= |text| {
        text := text[..from] + s + text[from..];
      } else {
        text := *;
      }
    }

    /** `applyLocalChanges`: when no change leaves the text, the list read one change after another, each
    moved by the growth of those before it. */
    method ApplyLocalChanges(changes: seq<Change>)
      modifies this
      ensures Fits(old(text), Rebased(changes, 0)) ==> text == Sequentially(old(text), Rebased(changes, 0))
    {
      if |changes| == 0 {
        return;
      }
      var offset := 0;
      for i := 0 to |changes|
        invariant Fits(old(text), Rebased(changes, 0)) ==> Remains(old(text), changes, text, changes[i..], offset)
      {
        var c := changes[i];
        assert changes[i..][0] == c && changes[i..][1..] == changes[i + 1..];
        ghost var before := text;
        var from := c.from + offset;
        var removed := c.to - c.from;
        if removed > 0 {
          Delete(from, removed);
        }
        ghost var cut := text;
        if |c.insert| > 0 {
          Insert(from, c.insert);
        }
        if Fits(old(text), Rebased(changes, 0)) {
          RemainsStep(old(text), changes, before, cut, text, changes[i..], offset);
        }
        offset := offset + |c.insert| - removed;
      }
      assert changes[|changes|..] == [];
    }

    /** `replaceAllPlainText`. */
    method ReplaceAll(value: string)
      modifies this
      ensures text == value
    {
      var currentLength := |text|;
      if currentLength > 0 {
        Delete(0, currentLength);
      }
      if |value| > 0 {
        Insert(0, value);
      }
    }
  }

  /** From `now` the rest of the list leads where the whole of it leads from `t`. */
  predicate Remains(t: string, all: seq<Change>, now: string, rest: seq<Change>, offset: int)
    requires Fits(t, Rebased(all, 0))
  {
    Fits(now, Rebased(rest, offset)) && Sequentially(now, Rebased(rest, offset)) == Sequentially(t, Rebased(all, 0))
  }

  lemma RemainsAfter(t: string, all: seq<Change>, now: string, rest: seq<Change>, offset: int)
    requires Fits(t, Rebased(all, 0)) && rest != [] && Remains(t, all, now, rest, offset)
    ensures var c := Moved(rest[0], offset);
            Within(|now|, c) && Remains(t, all, Replace(now, c), rest[1..], offset + rest[0].Growth())
  {
    assert Rebased(rest, offset)[1..] == Rebased(rest[1..], offset + rest[0].Growth());
  }

  /** One round of the loop: `cut` is the text after the deletion, `now` after the insertion. */
  lemma RemainsStep(t: string, all: seq<Change>, before: string, cut: string, now: string,
                    rest: seq<Change>, offset: int)
    requires Fits(t, Rebased(all, 0)) && rest != [] && Remains(t, all, before, rest, offset)
    requires var c := Moved(rest[0], offset);
             && (if c.to - c.from > 0 then
                   (0 <= c.from <= c.to <= |before| ==> cut == Replace(before, Change(c.from, c.to, "")))
                 else cut == before)
             && (if |c.insert| > 0 then
                   (0 <= c.from <= |cut| ==> now == Replace(cut, Change(c.from, c.from, c.insert)))
                 else now == cut)
    ensures Remains(t, all, now, rest[1..], offset + rest[0].Growth())
  {
    RemainsAfter(t, all, before, rest, offset);
    DeleteThenInsert(before, cut, Moved(rest[0], offset));
  }

  lemma DeleteThenInsert(before: string, cut: string, c: Change)
    requires Within(|before|, c)
    requires cut == if c.to - c.from > 0 then Replace(before, Change(c.from, c.to, "")) else before
    ensures c.from <= |cut| && Replace(cut, Change(c.from, c.from, c.insert)) == Replace(before, c)
    ensures c.insert == "" ==> cut == Replace(before, c)
  {
    assert cut[..c.from] == before[..c.from];
    assert cut[c.from..] == before[c.to..];
    if c.insert == "" {
      assert cut == cut[..c.from] + cut[c.from..];
      assert before[..c.from] + "" + before[c.to..] == before[..c.from] + before[c.to..];
    }
  }

  // ---- One rebasing: simultaneous becomes sequential ----

  /** `done` replaces the old text before `at`, and is longer by `offset`. */
  lemma {:induction false} RebasedFrom(t: string, cs: seq<Change>, at: nat, done: string, offset: int)
    requires at <= |t| && InRange(|t|, cs) && Apart(cs, 0) && (cs != [] ==> at <= cs[0].from) && |done| == at + offset
    ensures Fits(done + t[at..], Rebased(cs, offset))
    ensures Sequentially(done + t[at..], Rebased(cs, offset)) == done + Sweep(t, cs, at)
    decreases |cs|
  {
    if cs != [] {
      var c := cs[0];
      ApartTail(|t|, cs);
      RebasedFrom(t, cs[1..], c.to, done + t[at..c.from] + c.insert, offset + c.Growth());
      RebasedHead(t, cs, at, done, offset);
    }
  }

  lemma RebasedHead(t: string, cs: seq<Change>, at: nat, done: string, offset: int)
    requires cs != [] && at <= cs[0].from && InRange(|t|, cs) && |done| == at + offset
    requires var (c, rest) := (cs[0], Rebased(cs[1..], offset + cs[0].Growth()));
             var done' := done + t[at..c.from] + c.insert;
             Fits(done' + t[c.to..], rest) && Sequentially(done' + t[c.to..], rest) == done' + Sweep(t, cs[1..], c.to)
    ensures Fits(done + t[at..], Rebased(cs, offset))
    ensures Sequentially(done + t[at..], Rebased(cs, offset)) == done + Sweep(t, cs, at)
  {
    var c := cs[0];
    var rest := Rebased(cs[1..], offset + c.Growth());
    ReplaceInPlace(t, c, at, done, offset);
    FitsCons(done + t[at..], Moved(c, offset), rest);
    assert Rebased(cs, offset) == [Moved(c, offset)] + rest;
    SweepHead(done, t, cs, at);
  }

  lemma ApartTail(n: nat, cs: seq<Change>)
    requires cs != [] && InRange(n, cs) && Apart(cs, 0)
    ensures InRange(n, cs[1..]) && Apart(cs[1..], 0) && (cs[1..] != [] ==> cs[0].to <= cs[1..][0].from)
  {
    assert forall i | 0 <= i < |cs[1..]| :: cs[1..][i] == cs[i + 1];
  }

  lemma SweepHead(done: string, t: string, cs: seq<Change>, at: nat)
    requires cs != [] && at <= cs[0].from && InRange(|t|, cs)
    ensures var c := cs[0];
            done + Sweep(t, cs, at) == (done + t[at..c.from] + c.insert) + Sweep(t, cs[1..], c.to)
  {
    RegroupAll(done, t[at..cs[0].from], cs[0].insert, Sweep(t, cs[1..], cs[0].to));
  }

  lemma FitsCons(t: string, c: Change, cs: seq<Change>)
    requires Within(|t|, c) && Fits(Replace(t, c), cs)
    ensures Fits(t, [c] + cs) && Sequentially(t, [c] + cs) == Sequentially(Replace(t, c), cs)
  {
    assert ([c] + cs)[1..] == cs;
  }

  lemma RegroupAll(a: string, b: string, c: string, d: string)
    ensures (a + b + c) + d == a + (b + (c + d))
  {
    Regroup(a + b, c, d);
    Regroup(a, b, c + d);
  }

  lemma ReplaceInPlace(t: string, c: Change, at: nat, done: string, offset: int)
    requires at <= c.from && Within(|t|, c) && |done| == at + offset
    ensures Within(|done + t[at..]|, Moved(c, offset))
    ensures Replace(done + t[at..], Moved(c, offset)) == (done + t[at..c.from] + c.insert) + t[c.to..]
  {
    var whole := done + t[at..];
    assert whole[..c.from + offset] == done + t[at..c.from];
    assert whole[c.to + offset..] == t[c.to..];
  }

  /** Both uses of the single rebasing: the listener's list read sequentially, and the effect of
  `ApplyLocalChanges` on a list in old coordinates, are the simultaneous edit. */
  lemma RebasedIsSimultaneous(t: string, cs: seq<Change>)
    requires InRange(|t|, cs) && Apart(cs, 0)
    ensures Fits(t, Rebased(cs, 0)) && Sequentially(t, Rebased(cs, 0)) == Sweep(t, cs, 0)
  {
    RebasedFrom(t, cs, 0, "", 0);
    assert "" + t[0..] == t && "" + Sweep(t, cs, 0) == Sweep(t, cs, 0);
  }

  // ---- Two rebasings: the pipeline from the view to the shared text ----

  /** The listener's list as `ApplyLocalChanges` moves it once more. */
  function Piped(cs: seq<Change>): seq<Change> {
    Rebased(Rebased(cs, 0), 0)
  }

  /** The first `n` changes leave the length alone. */
  predicate KeepLength(cs: seq<Change>, n: nat)
    requires n <= |cs|
  {
    forall i | 0 <= i < n :: cs[i].Growth() == 0
  }

  predicate AllButLastKeepLength(cs: seq<Change>) {
    cs != [] ==> KeepLength(cs, |cs| - 1)
  }

  lemma {:induction false} RebasedUnmoved(cs: seq<Change>)
    requires AllButLastKeepLength(cs)
    ensures Rebased(cs, 0) == cs
    decreases |cs|
  {
    if cs != [] {
      RebasedUnmoved(cs[1..]);
      assert cs == [cs[0]] + cs[1..];
    }
  }

  lemma PipedWorks(t: string, cs: seq<Change>)
    requires InRange(|t|, cs) && Apart(cs, 0) && AllButLastKeepLength(cs)
    ensures Fits(t, Piped(cs)) && Sequentially(t, Piped(cs)) == Sweep(t, cs, 0)
  {
    RebasedUnmoved(cs);
    RebasedIsSimultaneous(t, cs);
  }

  // ---- Every other transaction falls out of step ----

  /** What `iterChanges` reports: real changes, sorted, with untouched text between them. */
  predicate Iterated(cs: seq<Change>) {
    Apart(cs, 1) && forall i | 0 <= i < |cs| :: IsReal(cs[i])
  }

  predicate IsReal(c: Change) {
    0 <= c.from <= c.to && (c.from < c.to || c.insert != "")
  }

  function Moved(c: Change, d: int): Change {
    Change(c.from + d, c.to + d, c.insert)
  }

  function TotalGrowth(cs: seq<Change>): int {
    if cs == [] then 0 else cs[0].Growth() + TotalGrowth(cs[1..])
  }

  lemma {:induction false} RebasedSnoc(cs: seq<Change>, c: Change, offset: int)
    ensures Rebased(cs + [c], offset) == Rebased(cs, offset) + [Moved(c, offset + TotalGrowth(cs))]
    decreases |cs|
  {
    if cs == [] {
      assert cs + [c] == [c];
      assert [c][1..] == [];
    } else {
      var here, next := Moved(cs[0], offset), offset + cs[0].Growth();
      assert (cs + [c])[1..] == cs[1..] + [c];
      RebasedSnoc(cs[1..], c, next);
      var tail, last := Rebased(cs[1..], next), Moved(c, next + TotalGrowth(cs[1..]));
      assert [here] + (tail + [last]) == ([here] + tail) + [last];
    }
  }

  lemma {:induction false} RebasedGrowth(cs: seq<Change>, offset: int)
    ensures TotalGrowth(Rebased(cs, offset)) == TotalGrowth(cs)
    decreases |cs|
  {
    if cs != [] {
      var here, tail := Moved(cs[0], offset), Rebased(cs[1..], offset + cs[0].Growth());
      assert ([here] + tail)[1..] == tail;
      RebasedGrowth(cs[1..], offset + cs[0].Growth());
      assert here.Growth() == cs[0].Growth();
    }
  }

  /** The text behind the last range takes no part in the sweep. */
  lemma {:induction false} SweepCut(t: string, cs: seq<Change>, at: nat, b: nat)
    requires at <= b <= |t| && InRange(b, cs)
    ensures Sweep(t, cs, at) == Sweep(t[..b], cs, at) + t[b..]
    decreases |cs|
  {
    if cs == [] {
      assert t[at..] == t[..b][at..] + t[b..];
    } else {
      var c := cs[0];
      var next := Max(at, c.to);
      SweepCut(t, cs[1..], next, b);
      var tail := Sweep(t[..b], cs[1..], next);
      assert t[..b][at..Max(at, c.from)] == t[at..Max(at, c.from)];
      Regroup(c.insert, tail, t[b..]);
      Regroup(t[at..Max(at, c.from)], c.insert + tail, t[b..]);
    }
  }

  /** The shared text shows what the view shows. */
  predicate InStep(t: string, cs: seq<Change>)
    requires InRange(|t|, cs)
  {
    Fits(t, Piped(cs)) && Sequentially(t, Piped(cs)) == Sweep(t, cs, 0)
  }

  lemma PipedSnoc(p: seq<Change>, c: Change)
    ensures Piped(p + [c]) == Piped(p) + [Moved(c, TotalGrowth(p) + TotalGrowth(p))]
    ensures TotalGrowth(Piped(p)) == TotalGrowth(p)
  {
    var off := TotalGrowth(p);
    RebasedGrowth(p, 0);
    RebasedGrowth(Rebased(p, 0), 0);
    RebasedSnoc(p, c, 0);
    RebasedSnoc(Rebased(p, 0), Moved(c, off), 0);
    assert Moved(Moved(c, off), off) == Moved(c, off + off);
  }

  lemma {:induction false} GrowthOfLast(p: seq<Change>)
    requires p != [] && AllButLastKeepLength(p)
    ensures TotalGrowth(p) == p[|p| - 1].Growth()
    decreases |p|
  {
    if |p| == 1 {
      assert p[1..] == [];
    } else {
      GrowthOfLast(p[1..]);
    }
  }

  lemma {:induction false} Sorted(cs: seq<Change>, j: nat, k: nat)
    requires Iterated(cs) && j <= k < |cs|
    ensures j < k ==> cs[j].to < cs[k].from
    ensures cs[j].to <= cs[k].to
  {
    if j < k {
      Sorted(cs, j, k - 1);
      assert cs[k - 1].to + 1 <= cs[k].from;
    }
  }

  lemma {:induction false} SweepLength(t: string, cs: seq<Change>, at: nat)
    requires at <= |t| && InRange(|t|, cs) && Apart(cs, 0) && (cs != [] ==> at <= cs[0].from)
    ensures |Sweep(t, cs, at)| == |t| - at + TotalGrowth(cs)
    decreases |cs|
  {
    if cs != [] {
      SweepLength(t, cs[1..], cs[0].to);
    }
  }

  /** Whether a list fits depends on the length of the text only. */
  lemma {:induction false} FitsAlike(t: string, t': string, cs: seq<Change>)
    requires |t| == |t'|
    ensures Fits(t, cs) <==> Fits(t', cs)
    ensures Fits(t, cs) ==> |Sequentially(t, cs)| == |t| + TotalGrowth(cs)
    decreases |cs|
  {
    if cs != [] && Within(|t|, cs[0]) {
      FitsAlike(Replace(t, cs[0]), Replace(t', cs[0]), cs[1..]);
    }
  }

  lemma {:induction false} FitsInit(t: string, cs: seq<Change>, c: Change)
    requires Fits(t, cs + [c])
    ensures Fits(t, cs) && Within(|Sequentially(t, cs)|, c)
    decreases |cs|
  {
    if cs == [] {
      assert cs + [c] == [c];
    } else {
      assert (cs + [c])[1..] == cs[1..] + [c];
      FitsInit(Replace(t, cs[0]), cs[1..], c);
    }
  }

  // A list `r` shifted by its running offset acts, change by change, on `[from, to)` counted from where the
  // text ends: a unit behind everything done so far keeps its place `k` in that count.

  /** The change that first reaches beyond `k` deletes the unit there. */
  predicate Kills(r: seq<Change>, k: int)
    decreases |r|
  {
    r != [] && if r[0].to <= k then Kills(r[1..], k) else r[0].from <= k
  }

  predicate StartsBy(r: seq<Change>, k: int)
    decreases |r|
  {
    r == [] || (r[0].from <= k && StartsBy(r[1..], k))
  }

  predicate EndsBy(r: seq<Change>, k: int)
    decreases |r|
  {
    r == [] || (r[0].to <= k && EndsBy(r[1..], k))
  }

  lemma {:induction false} KillsIf(r: seq<Change>, bound: int, k: int)
    requires StartsBy(r, bound) && bound <= k && !EndsBy(r, k)
    ensures Kills(r, k)
    decreases |r|
  {
    if r[0].to <= k {
      KillsIf(r[1..], bound, k);
    }
  }

  lemma {:induction false} KillsLast(r: seq<Change>, last: Change, k: int)
    requires StartsBy(r, last.from - 1) && last.from <= k < last.to
    ensures Kills(r + [last], k)
    decreases |r|
  {
    if r == [] {
      assert r + [last] == [last];
    } else {
      assert (r + [last])[0] == r[0] && (r + [last])[1..] == r[1..] + [last];
      if r[0].to <= k {
        KillsLast(r[1..], last, k);
      }
    }
  }

  lemma KillsEarlier(r: seq<Change>, last: Change, k: int)
    requires StartsBy(r, last.from - 1) && last.from <= k + 1 && !EndsBy(r, k)
    ensures Kills(r + [last], k)
  {
    KillsIf(r, last.from - 1, k);
    KillsMore(r, last, k);
  }

  lemma {:induction false} KillsMore(r: seq<Change>, c: Change, k: int)
    requires Kills(r, k)
    ensures Kills(r + [c], k)
    decreases |r|
  {
    assert (r + [c])[0] == r[0] && (r + [c])[1..] == r[1..] + [c];
    if r[0].to <= k {
      KillsMore(r[1..], c, k);
    }
  }

  predicate SameBut(x: string, x': string, j: int) {
    |x| == |x'| && forall i | 0 <= i < |x| && i != j :: x[i] == x'[i]
  }

  lemma ReplaceSameBut(x: string, x': string, c: Change, j: int)
    requires SameBut(x, x', j) && Within(|x|, c) && c.from <= j
    ensures SameBut(Replace(x, c), Replace(x', c), j + c.Growth())
    ensures j < c.to ==> Replace(x, c) == Replace(x', c)
  {
    assert x[..c.from] == x'[..c.from];
    if j < c.to {
      assert x[c.to..] == x'[c.to..];
    }
  }

  lemma RebasedFirst(r: seq<Change>, offset: int)
    requires r != []
    ensures Rebased(r, offset) == [Moved(r[0], offset)] + Rebased(r[1..], offset + r[0].Growth())
  {}

  lemma ReadsFirst(x: string, c: Change, rest: seq<Change>)
    ensures Fits(x, [c] + rest) <==> Within(|x|, c) && Fits(Replace(x, c), rest)
    ensures Fits(x, [c] + rest) ==> Sequentially(x, [c] + rest) == Sequentially(Replace(x, c), rest)
  {
    assert ([c] + rest)[1..] == rest;
  }

  /** A killed unit has no influence on the result. */
  lemma {:induction false} KilledUnit(x: string, x': string, r: seq<Change>, offset: int, k: int)
    requires SameBut(x, x', k + offset) && Fits(x, Rebased(r, offset)) && Kills(r, k)
    ensures Fits(x', Rebased(r, offset)) && Sequentially(x, Rebased(r, offset)) == Sequentially(x', Rebased(r, offset))
    decreases |r|
  {
    hide Fits, Sequentially, Replace, Rebased;
    var c := Moved(r[0], offset);
    var rest := Rebased(r[1..], offset + r[0].Growth());
    RebasedFirst(r, offset);
    ReadsFirst(x, c, rest);
    ReadsFirst(x', c, rest);
    ReplaceSameBut(x, x', c, k + offset);
    if r[0].to <= k {
      KilledUnit(Replace(x, c), Replace(x', c), r[1..], offset + r[0].Growth(), k);
    }
  }

  /** What lies behind all that a list does is spared. */
  lemma {:induction false} Spared(x: string, r: seq<Change>, offset: int, k: int)
    requires 0 <= k + offset <= |x| && Fits(x, Rebased(r, offset)) && EndsBy(r, k)
    ensures Fits(x[..k + offset], Rebased(r, offset))
    ensures Sequentially(x, Rebased(r, offset)) == Sequentially(x[..k + offset], Rebased(r, offset)) + x[k + offset..]
    decreases |r|
  {
    if r != [] {
      var c := Moved(r[0], offset);
      var next := offset + r[0].Growth();
      assert Rebased(r, offset)[0] == c && Rebased(r, offset)[1..] == Rebased(r[1..], next);
      ReplaceSpares(x, c, k + offset);
      Spared(Replace(x, c), r[1..], next, k);
    }
  }

  lemma ReplaceSpares(x: string, c: Change, b: int)
    requires Within(|x|, c) && c.to <= b <= |x|
    ensures var b' := b + c.Growth();
            0 <= b' <= |Replace(x, c)| && Replace(x, c)[..b'] == Replace(x[..b], c) && Replace(x, c)[b'..] == x[b..]
  {
    assert Replace(x, c) == Replace(x[..b], c) + x[b..] by {
      assert x[c.to..] == x[c.to..b] + x[b..];
      Regroup(x[..c.from] + c.insert, x[c.to..b], x[b..]);
    }
  }

  // ---- The last change, told apart by a text ----

  /** `c` comes last, after `p`. */
  predicate Ends(p: seq<Change>, c: Change) {
    p != [] && Iterated(p) && IsReal(c) && p[|p| - 1].to + 1 <= c.from
  }

  lemma RangesBefore(p: seq<Change>, c: Change)
    requires Ends(p, c)
    ensures 0 < c.from && InRange(c.from - 1, p)
    ensures forall n: nat | c.to <= n :: InRange(n, p + [c])
  {
    assert IsReal(p[|p| - 1]);
    forall i | 0 <= i < |p| ensures Within(c.from - 1, p[i]) {
      Sorted(p, i, |p| - 1);
    }
  }

  lemma IteratedEnds(cs: seq<Change>)
    requires Iterated(cs) && |cs| > 1
    ensures Ends(cs[..|cs| - 1], cs[|cs| - 1])
  {
    assert cs[..|cs| - 1][|cs| - 2] == cs[|cs| - 2];
  }

  /** What precedes `c`, and its place after the double shift, are inside a text of `n` units. */
  predicate Lands(p: seq<Change>, c: Change, n: nat) {
    && Ends(p, c) && c.to <= n && Fits(Constant('a', n), Piped(p))
    && 0 <= c.from + TotalGrowth(p) + TotalGrowth(p) && c.to + TotalGrowth(p) <= n
  }

  predicate Parts(t: string, p: seq<Change>, c: Change) {
    InRange(|t|, p + [c]) && !InStep(t, p + [c])
  }

  /** What the shared text becomes. */
  lemma WrongIs(t: string, p: seq<Change>, c: Change)
    requires Lands(p, c, |t|)
    ensures Fits(t, Piped(p)) && |Sequentially(t, Piped(p))| == |t| + TotalGrowth(p)
    ensures Fits(t, Piped(p + [c]))
    ensures Sequentially(t, Piped(p + [c]))
         == Replace(Sequentially(t, Piped(p)), Moved(c, TotalGrowth(p) + TotalGrowth(p)))
  {
    PipedSnoc(p, c);
    FitsAlike(t, Constant('a', |t|), Piped(p));
    FitsSnoc(t, Piped(p), Moved(c, TotalGrowth(p) + TotalGrowth(p)));
  }

  /** What the view becomes: `c` in its place, the unit before it and all behind it kept. */
  lemma RightIs(t: string, p: seq<Change>, c: Change)
    requires Ends(p, c) && c.to <= |t|
    ensures 0 < c.from && InRange(c.from - 1, p) && InRange(|t|, p + [c])
    ensures var before := Sweep(t[..c.from - 1], p, 0);
            && |before| == c.from - 1 + TotalGrowth(p)
            && Sweep(t, p + [c], 0) == before + (t[c.from - 1..c.from] + (c.insert + t[c.to..]))
  {
    var b := c.from - 1;
    RangesBefore(p, c);
    SweepLength(t[..b], p, 0);
    SweepCut(t, p, 0, b);
    SweepSnoc(t, p, c);
    ReplaceBehind(Sweep(t[..b], p, 0), t, b, c, TotalGrowth(p));
  }

  lemma SweepSnoc(t: string, p: seq<Change>, c: Change)
    requires Ends(p, c) && c.to <= |t| && InRange(|t|, p) && InRange(|t|, p + [c])
    requires Within(|Sweep(t, p, 0)|, Moved(c, TotalGrowth(p)))
    ensures Sweep(t, p + [c], 0) == Replace(Sweep(t, p, 0), Moved(c, TotalGrowth(p)))
  {
    hide Sweep, Fits, Sequentially, Rebased, Replace;
    RebasedSnoc(p, c, 0);
    RebasedIsSimultaneous(t, p);
    RebasedIsSimultaneous(t, p + [c]);
    FitsSnoc(t, Rebased(p, 0), Moved(c, TotalGrowth(p)));
  }

  lemma ReplaceBehind(before: string, t: string, b: nat, c: Change, off: int)
    requires c.from == b + 1 && Within(|t|, c) && |before| == b + off
    ensures Within(|before + t[b..]|, Moved(c, off))
    ensures Replace(before + t[b..], Moved(c, off)) == before + (t[b..c.from] + (c.insert + t[c.to..]))
  {
    var whole := before + t[b..];
    assert whole[..c.from + off] == before + t[b..c.from];
    assert whole[c.to + off..] == t[c.to..];
    Regroup(before + t[b..c.from], c.insert, t[c.to..]);
    Regroup(before, t[b..c.from], c.insert + t[c.to..]);
  }

  /** The same, unit by unit: `j` is the place of the unit before `c`, in `c.insert`, or in the old text behind. */
  lemma RightAt(t: string, p: seq<Change>, c: Change)
    requires Ends(p, c) && c.to <= |t|
    ensures 0 < c.from && InRange(|t|, p + [c]) && 0 <= c.from - 1 + TotalGrowth(p)
    ensures var (right, at) := (Sweep(t, p + [c], 0), c.from + TotalGrowth(p));
            && |right| == at + |c.insert| + |t| - c.to
            && right[at - 1] == t[c.from - 1]
            && (forall j | 0 <= j < |c.insert| :: right[at + j] == c.insert[j])
            && right[at + |c.insert|..] == t[c.to..]
  {
    hide Sweep, Iterated;
    RightIs(t, p, c);
    PartsAt(Sweep(t[..c.from - 1], p, 0), t[c.from - 1..c.from], c.insert, t[c.to..]);
  }

  lemma PartsAt(x: string, y: string, z: string, rest: string)
    requires |y| == 1
    ensures var all := x + (y + (z + rest));
            && |all| == |x| + 1 + |z| + |rest| && all[|x|] == y[0]
            && (forall j | 0 <= j < |z| :: all[|x| + 1 + j] == z[j])
            && all[|x| + 1 + |z|..] == rest
  {}

  /** A unit the view keeps and the shared text has deleted: one of two texts that differ there parts them. */
  lemma KeptButKilled(p: seq<Change>, c: Change, n: nat, k: nat) returns (t: string)
    requires Lands(p, c, n) && (k == c.from - 1 || c.to <= k) && k < n && Kills(Rebased(p + [c], 0), k)
    ensures |t| == n && Parts(t, p, c)
  {
    var t0 := Constant('a', n);
    var t1 := t0[k := 'b'];
    WrongIs(t0, p, c);
    KilledUnit(t0, t1, Rebased(p + [c], 0), 0, k);
    KeptUnit(t0, p, c, k);
    KeptUnit(t1, p, c, k);
    t := if InStep(t0, p + [c]) then t1 else t0;
  }

  function PlaceOf(p: seq<Change>, c: Change, k: nat): int {
    if k == c.from - 1 then k + TotalGrowth(p) else k + TotalGrowth(p) + c.Growth()
  }

  lemma KeptUnit(t: string, p: seq<Change>, c: Change, k: nat)
    requires Ends(p, c) && c.to <= |t| && (k == c.from - 1 || c.to <= k) && k < |t|
    ensures InRange(|t|, p + [c]) && 0 <= PlaceOf(p, c, k) < |Sweep(t, p + [c], 0)|
    ensures Sweep(t, p + [c], 0)[PlaceOf(p, c, k)] == t[k]
  {
    RightAt(t, p, c);
    if k != c.from - 1 {
      var right, behind := Sweep(t, p + [c], 0), c.from + TotalGrowth(p) + |c.insert|;
      assert PlaceOf(p, c, k) == behind + (k - c.to);
      assert right[behind..][k - c.to] == t[c.to..][k - c.to];
    }
  }

  lemma {:induction false} StartsBefore(p: seq<Change>, c: Change, offset: int)
    requires Ends(p, c)
    ensures p[0].from < c.from + TotalGrowth(p)
    ensures StartsBy(Rebased(p, offset), c.from + offset + TotalGrowth(p) - 1)
    decreases |p|
  {
    assert IsReal(p[0]);
    if |p| == 1 {
      assert p[1..] == [];
    } else {
      var next := offset + p[0].Growth();
      assert p[1..][0] == p[1] && p[0].to + 1 <= p[1].from;
      StartsBefore(p[1..], c, next);
      assert Rebased(p, offset)[1..] == Rebased(p[1..], next);
    }
  }

  /** Shifted to the right: `c` lands on text that the view keeps. */
  lemma LandsRight(p: seq<Change>, c: Change, n: nat) returns (t: string)
    requires Lands(p, c, n) && TotalGrowth(p) > 0
    ensures |t| == n && Parts(t, p, c)
  {
    if c.insert != "" {
      t := InsertsRight(p, c, n);
    } else {
      var k := c.to + TotalGrowth(p) - 1;
      StartsBefore(p, c, 0);
      LastKills(p, c, k);
      t := KeptButKilled(p, c, n, k);
    }
  }

  lemma LastKills(p: seq<Change>, c: Change, k: int)
    requires StartsBy(Rebased(p, 0), c.from + TotalGrowth(p) - 1)
    requires c.from + TotalGrowth(p) <= k < c.to + TotalGrowth(p)
    ensures Kills(Rebased(p + [c], 0), k)
  {
    RebasedSnoc(p, c, 0);
    KillsLast(Rebased(p, 0), Moved(c, TotalGrowth(p)), k);
  }

  lemma InsertsRight(p: seq<Change>, c: Change, n: nat) returns (t: string)
    requires Lands(p, c, n) && TotalGrowth(p) > 0 && c.insert != ""
    ensures |t| == n && Parts(t, p, c)
  {
    hide Sweep, Fits, Sequentially, Rebased, Iterated;
    var off, s := TotalGrowth(p), |c.insert|;
    t := Constant(Other(c.insert[s - 1]), n);
    WrongIs(t, p, c);
    RightBehind(t, p, c);
    var w := Sequentially(t, Piped(p));
    InsertedAt(w, Moved(c, off + off), s - 1);
  }

  /** The view's unit where the double shift puts the end of the insertion. */
  lemma RightBehind(t: string, p: seq<Change>, c: Change)
    requires Ends(p, c) && 0 < TotalGrowth(p) && c.to + TotalGrowth(p) <= |t|
    ensures InRange(|t|, p + [c])
    ensures var i := c.from + TotalGrowth(p) + TotalGrowth(p) + |c.insert| - 1;
            0 <= i < |Sweep(t, p + [c], 0)| && Sweep(t, p + [c], 0)[i] == t[c.to + TotalGrowth(p) - 1]
  {
    var k := c.to + TotalGrowth(p) - 1;
    KeptUnit(t, p, c, k);
    assert PlaceOf(p, c, k) == c.from + TotalGrowth(p) + TotalGrowth(p) + |c.insert| - 1;
  }

  lemma InsertedAt(w: string, c: Change, j: nat)
    requires Within(|w|, c) && j < |c.insert|
    ensures Replace(w, c)[c.from + j] == c.insert[j]
  {}

  /** Shifted to the left, with nothing of `p` behind the unit before `c`. */
  lemma LandsLeft(p: seq<Change>, c: Change, n: nat) returns (t: string)
    requires Lands(p, c, n) && TotalGrowth(p) < 0 && EndsBy(Rebased(p, 0), c.from - 1)
    ensures |t| == n && Parts(t, p, c)
  {
    hide Sweep, Fits, Sequentially, Replace, Rebased, EndsBy, Iterated;
    t := LastUnlike(c, n);
    WrongIs(t, p, c);
    SparedBefore(t, p, c);
    ShiftedUnit(Sequentially(t, Piped(p)), c, TotalGrowth(p), t);
    RightBeforeEnd(t, p, c);
  }

  /** A text whose last unit in `c`'s range is not what `c` leaves last: the end of its insertion, or the
  unit before it. */
  lemma LastUnlike(c: Change, n: nat) returns (t: string)
    requires IsReal(c) && 0 < c.from && c.to <= n
    ensures |t| == n && t[c.to - 1] != if c.insert != "" then c.insert[|c.insert| - 1] else t[c.from - 1]
  {
    t := if c.insert != "" then Constant(Other(c.insert[|c.insert| - 1]), n) else Constant('a', n)[c.to - 1 := 'b'];
  }

  lemma RightBeforeEnd(t: string, p: seq<Change>, c: Change)
    requires Ends(p, c) && c.to <= |t|
    ensures 0 < c.from && InRange(|t|, p + [c])
    ensures var i := c.from - 1 + TotalGrowth(p) + |c.insert|;
            && 0 <= i < |Sweep(t, p + [c], 0)|
            && Sweep(t, p + [c], 0)[i] == if c.insert != "" then c.insert[|c.insert| - 1] else t[c.from - 1]
  {
    RightAt(t, p, c);
    if c.insert != "" {
      assert Sweep(t, p + [c], 0)[c.from + TotalGrowth(p) + (|c.insert| - 1)] == c.insert[|c.insert| - 1];
    }
  }

  lemma SparedBefore(t: string, p: seq<Change>, c: Change)
    requires Lands(p, c, |t|) && EndsBy(Rebased(p, 0), c.from - 1)
    ensures 0 < c.from && Fits(t, Piped(p)) && Fits(t[..c.from - 1], Piped(p))
    ensures var wrong := Sequentially(t[..c.from - 1], Piped(p));
            |wrong| == c.from - 1 + TotalGrowth(p) && Sequentially(t, Piped(p)) == wrong + t[c.from - 1..]
  {
    RangesBefore(p, c);
    WrongIs(t, p, c);
    Spared(t, Rebased(p, 0), 0, c.from - 1);
    PipedSnoc(p, c);
    FitsAlike(t[..c.from - 1], t[..c.from - 1], Piped(p));
  }

  /** The last unit before the end of `c`'s range is not reached, and stands where it should not. */
  lemma ShiftedUnit(w: string, c: Change, off: int, t: string)
    requires off < 0 && 0 < c.from <= c.to <= |t| && |w| == |t| + off && Within(|w|, Moved(c, off + off))
    requires 0 <= c.from - 1 + off && w[c.from - 1 + off..] == t[c.from - 1..]
    ensures var i := c.from - 1 + off + |c.insert|;
            0 <= i < |Replace(w, Moved(c, off + off))| && Replace(w, Moved(c, off + off))[i] == t[c.to - 1]
  {
    var d := c.to - c.from;
    assert w[c.to - 1 + off] == w[c.from - 1 + off..][d] == t[c.from - 1..][d] == t[c.to - 1];
  }

  /** Not shifted: `c` is right, and what is wrong is what `p` does before it. */
  lemma WrongBefore(p: seq<Change>, c: Change, n: nat, u: string) returns (t: string)
    requires Lands(p, c, n) && TotalGrowth(p) == 0 && EndsBy(Rebased(p, 0), c.from - 1)
    requires |u| == c.from - 1 && InRange(|u|, p) && !InStep(u, p)
    ensures |t| == n && Parts(t, p, c)
  {
    var b := c.from - 1;
    t := u + Constant('a', n - b);
    assert t[..b] == u;
    WrongIs(t, p, c);
    RightIs(t, p, c);
    SparedBefore(t, p, c);
    var wrong, right := Sequentially(u, Piped(p)), Sweep(u, p, 0);
    ReplaceBehind(wrong, t, b, c, 0);
    var rest := t[b..c.from] + (c.insert + t[c.to..]);
    assert (wrong + rest)[..b] == wrong && (right + rest)[..b] == right;
  }

  /** Whatever the length of the text, there is one on which view and shared text part. */
  lemma {:induction false} FallsOut(cs: seq<Change>, n: nat) returns (t: string)
    requires Iterated(cs) && !AllButLastKeepLength(cs) && InRange(n, cs)
    ensures |t| == n && !InStep(t, cs)
    decreases |cs|, 1
  {
    var p, c := cs[..|cs| - 1], cs[|cs| - 1];
    assert cs == p + [c];
    IteratedEnds(cs);
    t := Constant('a', n);
    if InStep(t, cs) {
      PipedSnoc(p, c);
      FitsInit(t, Piped(p), Moved(c, TotalGrowth(p) + TotalGrowth(p)));
      FitsAlike(t, t, Piped(p));
      if TotalGrowth(p) > 0 {
        t := LandsRight(p, c, n);
      } else {
        t := FallsOutBefore(p, c, n);
      }
    }
  }

  /** A change of `p` that reaches beyond the unit before `c` deletes it. */
  lemma PrefixKills(p: seq<Change>, c: Change)
    requires StartsBy(Rebased(p, 0), c.from + TotalGrowth(p) - 1)
    requires TotalGrowth(p) <= 0 && !EndsBy(Rebased(p, 0), c.from - 1)
    ensures Kills(Rebased(p + [c], 0), c.from - 1)
  {
    RebasedSnoc(p, c, 0);
    KillsEarlier(Rebased(p, 0), Moved(c, TotalGrowth(p)), c.from - 1);
  }

  lemma {:induction false} FallsOutBefore(p: seq<Change>, c: Change, n: nat) returns (t: string)
    requires Lands(p, c, n) && !AllButLastKeepLength(p + [c]) && TotalGrowth(p) <= 0
    ensures |t| == n && Parts(t, p, c)
    decreases |p| + 1, 0
  {
    var r, k := Rebased(p, 0), c.from - 1;
    RangesBefore(p, c);
    if !EndsBy(r, k) {
      StartsBefore(p, c, 0);
      PrefixKills(p, c);
      t := KeptButKilled(p, c, n, k);
    } else if TotalGrowth(p) < 0 {
      t := LandsLeft(p, c, n);
    } else {
      StillGrowing(p, c);
      var u := FallsOut(p, k);
      t := WrongBefore(p, c, n, u);
    }
  }

  lemma StillGrowing(p: seq<Change>, c: Change)
    requires p != [] && TotalGrowth(p) == 0 && !AllButLastKeepLength(p + [c])
    ensures !AllButLastKeepLength(p)
  {
    assert forall i | 0 <= i < |p| :: (p + [c])[i] == p[i];
    if AllButLastKeepLength(p) {
      GrowthOfLast(p);
    }
  }

  /** The shared text shows what the view shows after the transaction, on every text, exactly when every
  change but the last keeps the length. */
  lemma PipelineInStepExactly(cs: seq<Change>)
    requires Iterated(cs)
    ensures (forall t: string | InRange(|t|, cs) :: InStep(t, cs)) <==> AllButLastKeepLength(cs)
  {
    if AllButLastKeepLength(cs) {
      forall t: string | InRange(|t|, cs) ensures InStep(t, cs) {
        PipedWorks(t, cs);
      }
    } else {
      var n := cs[|cs| - 1].to;
      forall i | 0 <= i < |cs| ensures Within(n, cs[i]) {
        Sorted(cs, i, |cs| - 1);
      }
      var t := FallsOut(cs, n);
    }
  }

  /** Two insertions are enough to part the texts. */
  lemma TwoInsertionsFallOut()
    ensures var cs := [Change(0, 0, "x"), Change(1, 1, "y")];
            && Iterated(cs) && Sweep("ab", cs, 0) == "xayb"
            && Fits("ab", Piped(cs)) && Sequentially("ab", Piped(cs)) == "xaby"
  {
    var first, second, moved := Change(0, 0, "x"), Change(1, 1, "y"), Change(3, 3, "y");
    var cs := [first, second];
    PipedSnoc([first], second);
    assert [first][1..] == [];
    RebasedUnmoved([first]);
    GrowthOfLast([first]);
    assert Piped(cs) == [first, moved] by {
      assert cs == [first] + [second];
    }
    assert cs == [first] + [second] && cs[1..] == [second] && [second][1..] == [];
    assert "ab"[0..1] == "a" && "ab"[1..] == "b" && "ab"[0..0] == "";
    assert Sweep("ab", [second], 0) == "a" + ("y" + "b") == "ayb";
    assert Sweep("ab", cs, 0) == "" + ("x" + "ayb") == "xayb";
    assert [first, moved][1..] == [moved] && [moved][1..] == [];
    assert Replace("ab", first) == "xab" && Replace("xab", moved) == "xaby";
  }
}
