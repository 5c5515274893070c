/** The loop that turns a Yjs delta into a CodeMirror change list
(frontend/src/app/markdown-editor/markdown-yjs-editor.component.ts:314-335).

`pos` counts what the delta has retained and inserted, so it is a position in the text as edited so
far. The list is therefore right when read sequentially. CodeMirror reads it simultaneously; the
second half of the module says for exactly which deltas that makes no difference. */
module DeltaConverter {
  import opened Wrappers
  import opened TextEdits

  /** The list emitted for `d` when the loop stands at `pos`. */
  function Converted(d: Delta, pos: nat): seq<Change> {
    if d == [] then []
    else match d[0]
      case Retain(n) => Converted(d[1..], pos + n)
      case Delete(n) => [Change(pos, pos + n, "")] + Converted(d[1..], pos)
      case Insert(s) => [Change(pos, pos, s)] + Converted(d[1..], pos + |s|)
  }

  method Convert(delta: Delta) returns (changes: seq<Change>)
    ensures changes == Converted(delta, 0)
  {
    changes := [];
    var pos := 0;
    for i := 0 to |delta|
      invariant 0 <= pos
      invariant changes + Converted(delta[i..], pos) == Converted(delta, 0)
    {
      assert delta[i..][0] == delta[i] && delta[i..][1..] == delta[i + 1..];
      match delta[i] {
        case Retain(n) =>
          pos := pos + n;
        case Delete(n) =>
          changes := changes + [Change(pos, pos + n, "")];
        case Insert(s) =>
          changes := changes + [Change(pos, pos, s)];
          pos := pos + |s|;
      }
    }
    assert delta[|delta|..] == [];
  }

  // ---- Read sequentially, the list is the delta ----

  /** `done` is the part of the new text already in place, `t[at..]` the old text still ahead. */
  lemma {:induction false} SequentialFrom(done: string, t: string, at: nat, d: Delta)
    requires at + Span(d) <= |t|
    ensures Fits(done + t[at..], Converted(d, |done|))
    ensures Sequentially(done + t[at..], Converted(d, |done|)) == done + ApplyFrom(t, at, d)
    decreases |d|, 1
  {
    if d != [] {
      match d[0] {
        case Retain(n) => RetainAhead(done, t, at, d);
        case Delete(n) => DeleteAhead(done, t, at, d);
        case Insert(s) => InsertAhead(done, t, at, d);
      }
    }
  }

  lemma {:induction false} RetainAhead(done: string, t: string, at: nat, d: Delta)
    requires d != [] && d[0].Retain? && at + Span(d) <= |t|
    ensures Fits(done + t[at..], Converted(d, |done|))
    ensures Sequentially(done + t[at..], Converted(d, |done|)) == done + ApplyFrom(t, at, d)
    decreases |d|, 0
  {
    hide Fits, Sequentially, Converted, ApplyFrom;
    var next := at + d[0].n;
    var kept, rest := done + t[at..next], ApplyFrom(t, next, d[1..]);
    KeepUpTo(done, t, at, next);
    SequentialFrom(kept, t, next, d[1..]);
    RetainKeeps(t, d, at, |done|);
    Regroup(done, t[at..next], rest);
  }

  lemma RetainKeeps(t: string, d: Delta, at: nat, pos: nat)
    requires d != [] && d[0].Retain? && at + Span(d) <= |t|
    ensures ApplyFrom(t, at, d) == t[at..at + d[0].n] + ApplyFrom(t, at + d[0].n, d[1..])
    ensures Converted(d, pos) == Converted(d[1..], pos + d[0].n)
  {}

  lemma KeepUpTo(done: string, t: string, at: nat, next: nat)
    requires at <= next <= |t|
    ensures |done + t[at..next]| == |done| + next - at
    ensures (done + t[at..next]) + t[next..] == done + t[at..]
  {
    CutEnd(t, at, next);
    Regroup(done, t[at..next], t[next..]);
  }

  lemma {:induction false} DeleteAhead(done: string, t: string, at: nat, d: Delta)
    requires d != [] && d[0].Delete? && at + Span(d) <= |t|
    ensures Fits(done + t[at..], Converted(d, |done|))
    ensures Sequentially(done + t[at..], Converted(d, |done|)) == done + ApplyFrom(t, at, d)
    decreases |d|, 0
  {
    var edits := Converted(d[1..], |done|);
    SequentialFrom(done, t, at + d[0].n, d[1..]);
    ReplaceAhead(done, t, at, d[0].n, "");
    assert done + "" == done;
    assert Converted(d, |done|)[1..] == edits;
  }

  lemma {:induction false} InsertAhead(done: string, t: string, at: nat, d: Delta)
    requires d != [] && d[0].Insert? && at + Span(d) <= |t|
    ensures Fits(done + t[at..], Converted(d, |done|))
    ensures Sequentially(done + t[at..], Converted(d, |done|)) == done + ApplyFrom(t, at, d)
    decreases |d|, 0
  {
    var s := d[0].s;
    var edits := Converted(d[1..], |done + s|);
    SequentialFrom(done + s, t, at, d[1..]);
    ReplaceAhead(done, t, at, 0, s);
    Regroup(done, s, ApplyFrom(t, at, d[1..]));
    assert Converted(d, |done|)[1..] == edits;
  }

  lemma ReplaceAhead(done: string, t: string, at: nat, n: nat, s: string)
    requires at + n <= |t|
    ensures Replace(done + t[at..], Change(|done|, |done| + n, s)) == (done + s) + t[at + n..]
  {
    var u := done + t[at..];
    assert u[..|done|] == done;
    assert u[|done| + n..] == t[at + n..];
  }

  lemma ConvertedIsSequential(t: string, d: Delta)
    requires Span(d) <= |t|
    ensures Fits(t, Converted(d, 0))
    ensures Sequentially(t, Converted(d, 0)) == ApplyDelta(t, d)
  {
    SequentialFrom("", t, 0, d);
    assert "" + t[0..] == t;
    assert "" + ApplyFrom(t, 0, d) == ApplyDelta(t, d);
  }

  // ---- Read simultaneously: the deltas for which it still is ----

  /** The deltas Yjs emits: no empty operation, and neighbours of different kinds. */
  predicate YjsShaped(d: Delta) {
    && (forall i | 0 <= i < |d| :: 0 < d[i].Size())
    && (forall i | 0 < i < |d| :: !SameKind(d[i - 1], d[i]))
  }

  predicate SameKind(a: Op, b: Op) {
    (a.Retain? && b.Retain?) || (a.Delete? && b.Delete?) || (a.Insert? && b.Insert?)
  }

  /** Where the loop's `pos` stands against the old text. */
  datatype Drift =
    | Aligned           // `pos` is the old position
    | Pending(n: nat)   // `n` units have just been deleted, `pos` is where they began
    | Drifted           // `pos` is off; any later edit would land in the wrong place

  /** A scan of the delta that succeeds when no edit is met after `pos` has drifted: every hunk before
  the last edit deletes first, then inserts just as much. */
  predicate KeepsPlace(d: Delta, at: Drift) {
    if d == [] then true
    else match d[0]
      case Retain(_) => KeepsPlace(d[1..], if at.Aligned? then Aligned else Drifted)
      case Delete(n) => at.Aligned? && KeepsPlace(d[1..], Pending(n))
      case Insert(s) =>
        && !at.Drifted?
        && KeepsPlace(d[1..], if at == Pending(|s|) then Aligned else Drifted)
  }

  /** `o` is the sweep's place in the old text, `pos` the loop's position. */
  predicate Stands(at: Drift, pos: nat, o: nat) {
    match at
    case Aligned => pos == o
    case Pending(n) => pos + n == o && 0 < n
    case Drifted => pos != o
  }

  /** What one operation contributes on each side, while the loop stands where the sweep does. */
  lemma RetainTurn(t: string, d: Delta, o: nat)
    requires d != [] && d[0].Retain? && o + Span(d) <= |t| && InRange(|t|, Converted(d, o))
    ensures var next := o + d[0].n;
            && Sweep(t, Converted(d, o), o) == t[o..next] + Sweep(t, Converted(d[1..], next), next)
            && ApplyFrom(t, o, d) == t[o..next] + ApplyFrom(t, next, d[1..])
  {
    var next := o + d[0].n;
    EmittedFrom(d[1..], next);
    SkipTo(t, Converted(d[1..], next), o, next);
  }

  lemma DeleteTurn(t: string, d: Delta, o: nat)
    requires d != [] && d[0].Delete? && o + Span(d) <= |t| && InRange(|t|, Converted(d[1..], o))
    ensures InRange(|t|, Converted(d, o))
    ensures var next := o + d[0].n;
            && Sweep(t, Converted(d, o), o) == Sweep(t, Converted(d[1..], o), next)
            && ApplyFrom(t, o, d) == ApplyFrom(t, next, d[1..])
  {
    var edits, next := Converted(d[1..], o), o + d[0].n;
    SweepEdit(t, Change(o, next, ""), edits, o);
    assert "" + Sweep(t, edits, next) == Sweep(t, edits, next);
  }

  lemma InsertTurn(t: string, d: Delta, pos: nat, o: nat)
    requires d != [] && d[0].Insert? && pos <= o && o + Span(d) <= |t|
    requires InRange(|t|, Converted(d[1..], pos + |d[0].s|))
    ensures InRange(|t|, Converted(d, pos))
    ensures var s := d[0].s;
            && Sweep(t, Converted(d, pos), o) == s + Sweep(t, Converted(d[1..], pos + |s|), o)
            && ApplyFrom(t, o, d) == s + ApplyFrom(t, o, d[1..])
  {
    var s := d[0].s;
    SweepEdit(t, Change(pos, pos, s), Converted(d[1..], pos + |s|), o);
  }

  lemma {:induction false} KeptPlace(t: string, d: Delta, at: Drift, pos: nat, o: nat)
    requires YjsShaped(d) && KeepsPlace(d, at) && Stands(at, pos, o) && o + Span(d) <= |t|
    ensures InRange(|t|, Converted(d, pos))
    ensures Sweep(t, Converted(d, pos), o) == ApplyFrom(t, o, d)
    decreases |d|, 1
  {
    if d != [] {
      match d[0] {
        case Retain(n) => KeptRetain(t, d, at, pos, o);
        case Delete(n) => KeptDelete(t, d, pos, o);
        case Insert(s) => KeptInsert(t, d, at, pos, o);
      }
    }
  }

  lemma {:induction false} KeptRetain(t: string, d: Delta, at: Drift, pos: nat, o: nat)
    requires d != [] && d[0].Retain?
    requires YjsShaped(d) && KeepsPlace(d, at) && Stands(at, pos, o) && o + Span(d) <= |t|
    ensures InRange(|t|, Converted(d, pos))
    ensures Sweep(t, Converted(d, pos), o) == ApplyFrom(t, o, d)
    decreases |d|, 0
  {
    ShapedTail(d);
    var next := o + d[0].n;
    if at.Aligned? {
      KeptPlace(t, d[1..], Aligned, next, next);
      RetainTurn(t, d, o);
    } else {
      OnlyRetains(d[1..], pos + d[0].n);
      assert d[1..] == [];
      CutEnd(t, o, next);
    }
  }

  lemma {:induction false} KeptDelete(t: string, d: Delta, pos: nat, o: nat)
    requires d != [] && d[0].Delete?
    requires YjsShaped(d) && KeepsPlace(d, Aligned) && pos == o && o + Span(d) <= |t|
    ensures InRange(|t|, Converted(d, pos))
    ensures Sweep(t, Converted(d, pos), o) == ApplyFrom(t, o, d)
    decreases |d|, 0
  {
    ShapedTail(d);
    var n := d[0].n;
    KeptPlace(t, d[1..], Pending(n), pos, o + n);
    DeleteTurn(t, d, o);
  }

  lemma {:induction false} KeptInsert(t: string, d: Delta, at: Drift, pos: nat, o: nat)
    requires d != [] && d[0].Insert?
    requires YjsShaped(d) && KeepsPlace(d, at) && Stands(at, pos, o) && o + Span(d) <= |t|
    ensures InRange(|t|, Converted(d, pos))
    ensures Sweep(t, Converted(d, pos), o) == ApplyFrom(t, o, d)
    decreases |d|, 0
  {
    ShapedTail(d);
    var s := d[0].s;
    KeptPlace(t, d[1..], if at == Pending(|s|) then Aligned else Drifted, pos + |s|, o);
    InsertTurn(t, d, pos, o);
  }

  /** The sweep meeting an edit at or behind its place. */
  lemma SweepEdit(t: string, c: Change, cs: seq<Change>, o: nat)
    requires o <= |t| && Within(|t|, c) && InRange(|t|, cs) && c.from <= o
    ensures InRange(|t|, [c] + cs)
    ensures Sweep(t, [c] + cs, o) == c.insert + Sweep(t, cs, Max(o, c.to))
  {
    assert ([c] + cs)[1..] == cs;
    assert t[o..o] + (c.insert + Sweep(t, cs, Max(o, c.to))) == c.insert + Sweep(t, cs, Max(o, c.to));
  }

  lemma ShapedTail(d: Delta)
    requires YjsShaped(d) && d != []
    ensures YjsShaped(d[1..]) && (|d| > 1 ==> !SameKind(d[0], d[1]))
  {
    forall i | 0 < i < |d[1..]| ensures !SameKind(d[1..][i - 1], d[1..][i]) {
      assert d[1..][i - 1] == d[i] && d[1..][i] == d[i + 1];
    }
  }

  /** A drifted scan that succeeds meets no edit. */
  lemma {:induction false} OnlyRetains(d: Delta, pos: nat)
    requires KeepsPlace(d, Drifted)
    ensures Converted(d, pos) == []
    decreases |d|
  {
    if d != [] {
      OnlyRetains(d[1..], pos + d[0].Size());
    }
  }

  /** Positions in the emitted list never go back. */
  lemma {:induction false} EmittedFrom(d: Delta, pos: nat)
    ensures forall c | c in Converted(d, pos) :: pos <= c.from <= c.to
    decreases |d|
  {
    if d != [] {
      EmittedFrom(d[1..], if d[0].Delete? then pos else pos + d[0].Size());
    }
  }

  lemma SkipTo(t: string, cs: seq<Change>, o: nat, o': nat)
    requires o <= o' <= |t| && InRange(|t|, cs) && (cs != [] ==> o' <= cs[0].from)
    ensures Sweep(t, cs, o) == t[o..o'] + Sweep(t, cs, o')
  {
    if cs == [] {
      CutEnd(t, o, o');
    } else {
      var c := cs[0];
      var tail := c.insert + Sweep(t, cs[1..], c.to);
      SweepReaches(t, cs, o);
      SweepReaches(t, cs, o');
      hide Sweep, InRange;
      CutBetween(t, o, o', c.from);
      Regroup(t[o..o'], t[o'..c.from], tail);
    }
  }

  lemma SweepReaches(t: string, cs: seq<Change>, at: nat)
    requires cs != [] && InRange(|t|, cs) && at <= cs[0].from
    ensures cs[0].to <= |t| && InRange(|t|, cs[1..])
    ensures Sweep(t, cs, at) == t[at..cs[0].from] + (cs[0].insert + Sweep(t, cs[1..], cs[0].to))
  {}

  // ---- Every other delta is applied wrongly to some text ----

  function Reach(d: Delta): nat {
    if d == [] then 0 else d[0].Size() + Reach(d[1..])
  }

  lemma {:induction false} ReachCovers(d: Delta, pos: nat, n: nat)
    requires pos + Reach(d) <= n
    ensures Span(d) <= Reach(d) && InRange(n, Converted(d, pos))
    decreases |d|
  {
    if d != [] {
      ReachCovers(d[1..], if d[0].Delete? then pos else pos + d[0].Size(), n);
    }
  }

  lemma {:induction false} DeltaReadsAhead(t: string, t': string, at: nat, d: Delta)
    requires |t| == |t'| && at + Span(d) <= |t| && forall i | at <= i < |t| :: t[i] == t'[i]
    ensures ApplyFrom(t, at, d) == ApplyFrom(t', at, d)
    decreases |d|
  {
    if d == [] {
      assert t[at..] == t'[at..];
    } else {
      var next := if d[0].Insert? then at else at + d[0].Size();
      DeltaReadsAhead(t, t', next, d[1..]);
      assert t[at..next] == t'[at..next];
    }
  }

  /** What is ahead of the sweep is all it reads. */
  lemma {:induction false} SweepReadsAhead(t: string, t': string, cs: seq<Change>, at: nat)
    requires |t| == |t'| && at <= |t| && InRange(|t|, cs) && forall i | at <= i < |t| :: t[i] == t'[i]
    ensures Sweep(t, cs, at) == Sweep(t', cs, at)
    decreases |cs|
  {
    if cs == [] {
      assert t[at..] == t'[at..];
    } else {
      var upto := Max(at, cs[0].from);
      assert t[at..upto] == t'[at..upto];
      SweepReadsAhead(t, t', cs[1..], Max(at, cs[0].to));
    }
  }

  lemma InRangeTail(n: nat, c: Change, cs: seq<Change>)
    requires InRange(n, [c] + cs)
    ensures Within(n, c) && InRange(n, cs) && ([c] + cs)[0] == c && ([c] + cs)[1..] == cs
  {
    assert ([c] + cs)[0] == c;
    forall i | 0 <= i < |cs| ensures Within(n, cs[i]) {
      assert cs[i] == ([c] + cs)[i + 1];
    }
  }

  lemma SweepMeets(t: string, c: Change, cs: seq<Change>, at: nat)
    requires at <= |t| && InRange(|t|, [c] + cs)
    ensures Within(|t|, c) && InRange(|t|, cs)
    ensures Sweep(t, [c] + cs, at) == t[at..Max(at, c.from)] + (c.insert + Sweep(t, cs, Max(at, c.to)))
  {
    InRangeTail(|t|, c, cs);
  }

  lemma SweepMeetsDelete(t: string, p: nat, k: nat, cs: seq<Change>, at: nat)
    requires at <= |t| && InRange(|t|, [Change(p, p + k, "")] + cs)
    ensures p + k <= |t| && InRange(|t|, cs)
    ensures Sweep(t, [Change(p, p + k, "")] + cs, at) == t[at..Max(at, p)] + Sweep(t, cs, Max(at, p + k))
  {
    SweepMeets(t, Change(p, p + k, ""), cs, at);
    NothingInserted(Sweep(t, cs, Max(at, p + k)));
  }

  lemma NothingInserted(rest: string)
    ensures "" + rest == rest
  {}

  /** A sweep removes no more than its ranges say, a delta exactly what it says. */
  lemma {:induction false} Lengths(t: string, d: Delta, pos: nat, at: nat, o: nat)
    requires at <= |t| && InRange(|t|, Converted(d, pos)) && o + Span(d) <= |t|
    ensures |Sweep(t, Converted(d, pos), at)| - |ApplyFrom(t, o, d)| >= o - at
    decreases |d|, 1
  {
    if d != [] {
      match d[0] {
        case Retain(n) => RetainLengths(t, d, pos, at, o);
        case Delete(n) => DeleteLengths(t, d, pos, at, o);
        case Insert(s) => InsertLengths(t, d, pos, at, o);
      }
    }
  }

  lemma {:induction false} RetainLengths(t: string, d: Delta, pos: nat, at: nat, o: nat)
    requires d != [] && d[0].Retain?
    requires at <= |t| && InRange(|t|, Converted(d, pos)) && o + Span(d) <= |t|
    ensures |Sweep(t, Converted(d, pos), at)| - |ApplyFrom(t, o, d)| >= o - at
    decreases |d|, 0
  {
    var next := o + d[0].n;
    Lengths(t, d[1..], pos + d[0].n, at, next);
    RetainKeeps(t, d, o, pos);
  }

  lemma {:induction false} DeleteLengths(t: string, d: Delta, pos: nat, at: nat, o: nat)
    requires d != [] && d[0].Delete?
    requires at <= |t| && InRange(|t|, Converted(d, pos)) && o + Span(d) <= |t|
    ensures |Sweep(t, Converted(d, pos), at)| - |ApplyFrom(t, o, d)| >= o - at
    decreases |d|, 0
  {
    var n := d[0].n;
    SweepMeets(t, Change(pos, pos + n, ""), Converted(d[1..], pos), at);
    Lengths(t, d[1..], pos, Max(at, pos + n), o + n);
  }

  lemma {:induction false} InsertLengths(t: string, d: Delta, pos: nat, at: nat, o: nat)
    requires d != [] && d[0].Insert?
    requires at <= |t| && InRange(|t|, Converted(d, pos)) && o + Span(d) <= |t|
    ensures |Sweep(t, Converted(d, pos), at)| - |ApplyFrom(t, o, d)| >= o - at
    decreases |d|, 0
  {
    var s := d[0].s;
    SweepMeets(t, Change(pos, pos, s), Converted(d[1..], pos + |s|), at);
    Lengths(t, d[1..], pos + |s|, Max(at, pos), o);
  }

  /** The loop stands at `p`, the sweep at `o`, the delta at `q`: do they come to the same? */
  ghost predicate Agrees(t: string, d: Delta, p: nat, o: nat, q: nat)
    requires InRange(|t|, Converted(d, p)) && o <= q && q + Span(d) <= |t|
  {
    Sweep(t, Converted(d, p), o) == t[o..q] + ApplyFrom(t, q, d)
  }

  /** A text whose unit at `p` differs from the first one that the delta leaves behind `at`. */
  lemma UnlikeDelta(d: Delta, p: nat, at: nat, n: nat) returns (t: string)
    requires p < at && at + Span(d) <= n
    ensures |t| == n && (ApplyFrom(t, at, d) != [] ==> ApplyFrom(t, at, d)[0] != t[p])
  {
    var t0 := Constant('a', n);
    var rest := ApplyFrom(t0, at, d);
    t := t0[p := if rest == [] then 'a' else Other(rest[0])];
    DeltaReadsAhead(t, t0, at, d);
  }

  /** A text whose unit at `p` differs from the first one that the sweep from `at` on leaves. */
  lemma UnlikeRest(edits: seq<Change>, p: nat, at: nat, n: nat) returns (t: string)
    requires p < at <= n && InRange(n, edits)
    ensures |t| == n && (Sweep(t, edits, at) != [] ==> Sweep(t, edits, at)[0] != t[p])
  {
    var t0 := Constant('a', n);
    var rest := Sweep(t0, edits, at);
    t := t0[p := if rest == [] then 'a' else Other(rest[0])];
    SweepReadsAhead(t, t0, edits, at);
  }

  lemma UnlikeAt(kept: string, rest: string, other: string)
    requires |kept| < |other| && (rest != [] ==> rest[0] != other[|kept|])
    ensures kept + rest != other
  {
    if rest != [] {
      assert (kept + rest)[|kept|] == rest[0];
    }
  }

  /** One result turns from `t` at `at`, the other goes on with `t` up to `until`. */
  lemma BegunEarly(t: string, o: nat, at: nat, until: nat, rest: string, later: string)
    requires o <= at < until <= |t| && (rest != [] ==> rest[0] != t[at])
    ensures t[o..at] + rest != t[o..until] + later
  {
    var right := t[o..until] + later;
    assert right[at - o] == t[o..until][at - o] == t[at];
    UnlikeAt(t[o..at], rest, right);
  }

  // The four ways to meet an edit out of place, each on a text that shows it.

  lemma DeleteMeetsAhead(t: string, d: Delta, p: nat, o: nat)
    requires d != [] && d[0].Delete? && o <= p <= |t| && InRange(|t|, Converted(d, p))
    ensures p + d[0].n <= |t| && InRange(|t|, Converted(d[1..], p))
    ensures Sweep(t, Converted(d, p), o) == t[o..p] + Sweep(t, Converted(d[1..], p), p + d[0].n)
  {
    SweepMeetsDelete(t, p, d[0].n, Converted(d[1..], p), o);
    assert Max(o, p) == p && Max(o, p + d[0].n) == p + d[0].n;
  }

  lemma DeleteGoesOn(t: string, d: Delta, q: nat)
    requires d != [] && d[0].Delete? && q + Span(d) <= |t|
    ensures ApplyFrom(t, q, d) == ApplyFrom(t, q + d[0].n, d[1..])
  {}

  lemma DeletesTooLate(t: string, d: Delta, p: nat, o: nat, q: nat)
    requires d != [] && d[0].Delete? && o <= q < p <= |t| && InRange(|t|, Converted(d, p)) && q + Span(d) <= |t|
    requires var rest := ApplyFrom(t, q + d[0].n, d[1..]); rest != [] ==> rest[0] != t[q]
    ensures !Agrees(t, d, p, o, q)
  {
    hide Sweep, ApplyFrom, Converted;
    DeleteMeetsAhead(t, d, p, o);
    DeleteGoesOn(t, d, q);
    BegunEarly(t, o, q, p, ApplyFrom(t, q, d), Sweep(t, Converted(d[1..], p), p + d[0].n));
  }

  /** The deletion reaches into what the sweep has passed, and that part cannot be deleted again. */
  lemma DeletesTooLittle(t: string, d: Delta, p: nat, o: nat, q: nat)
    requires d != [] && d[0].Delete? && p < o <= q && 0 < d[0].n && InRange(|t|, Converted(d, p)) && q + Span(d) <= |t|
    ensures !Agrees(t, d, p, o, q)
  {
    var k := d[0].n;
    SweepMeets(t, Change(p, p + k, ""), Converted(d[1..], p), o);
    Lengths(t, d[1..], p, Max(o, p + k), q + k);
  }

  lemma InsertsTooLate(t: string, d: Delta, p: nat, o: nat, q: nat)
    requires d != [] && d[0].Insert? && d[0].s != "" && o <= q < p <= |t| && InRange(|t|, Converted(d, p))
    requires q + Span(d) <= |t|
    requires d[0].s[0] != t[q]
    ensures !Agrees(t, d, p, o, q)
  {
    var s := d[0].s;
    SweepMeets(t, Change(p, p, s), Converted(d[1..], p + |s|), o);
    BegunEarly(t, o, q, p, ApplyFrom(t, q, d), s + Sweep(t, Converted(d[1..], p + |s|), p));
  }

  lemma InsertsTooEarly(t: string, d: Delta, p: nat, o: nat, q: nat)
    requires d != [] && d[0].Insert? && d[0].s != "" && o <= q && p < q && o < q && InRange(|t|, Converted(d, p))
    requires q + Span(d) <= |t|
    requires d[0].s[0] != t[Max(o, p)]
    ensures !Agrees(t, d, p, o, q)
  {
    var s := d[0].s;
    SweepMeets(t, Change(p, p, s), Converted(d[1..], p + |s|), o);
    BegunEarly(t, o, Max(o, p), q, s + Sweep(t, Converted(d[1..], p + |s|), Max(o, p)), ApplyFrom(t, q, d));
  }

  /** An edit met `m` units after drifting. */
  lemma Misplaced(d: Delta, pos: nat, o: nat, m: nat, n: nat) returns (t: string)
    requires d != [] && !d[0].Retain? && 0 < d[0].Size() && pos + o + m + Reach(d) < n
    requires pos != o && (pos < o && d[0].Insert? ==> 0 < m)
    ensures |t| == n && InRange(n, Converted(d, pos + m)) && o + m + Span(d) <= n
    ensures !Agrees(t, d, pos + m, o, o + m)
  {
    var p, q := pos + m, o + m;
    ReachCovers(d, p, n);
    if d[0].Delete? {
      t := MisplacedDelete(d, p, o, q, n);
    } else {
      t := Constant(Other(d[0].s[0]), n);
      if o < pos { InsertsTooLate(t, d, p, o, q); } else { InsertsTooEarly(t, d, p, o, q); }
    }
  }

  lemma MisplacedDelete(d: Delta, p: nat, o: nat, q: nat, n: nat) returns (t: string)
    requires d != [] && d[0].Delete? && 0 < d[0].n && p != q && o <= q
    requires p + Reach(d) < n && q + Reach(d) < n
    ensures |t| == n && InRange(n, Converted(d, p)) && q + Span(d) <= n
    ensures !Agrees(t, d, p, o, q)
  {
    hide Sweep, ApplyFrom;
    ReachCovers(d, p, n);
    ReachCovers(d[1..], p, n);
    if q < p {
      t := UnlikeDelta(d[1..], q, q + d[0].n, n);
      DeletesTooLate(t, d, p, o, q);
    } else if p < o {
      t := Constant('a', n);
      DeletesTooLittle(t, d, p, o, q);
    } else {
      t := UnlikeRest(Converted(d[1..], p), p, p + d[0].n, n);
      DeleteMeetsAhead(t, d, p, o);
      BegunEarly(t, o, p, q, Sweep(t, Converted(d[1..], p), p + d[0].n), ApplyFrom(t, q, d));
    }
  }

  lemma AgreesAtOnce(t: string, d: Delta, p: nat, o: nat)
    requires InRange(|t|, Converted(d, p)) && o + Span(d) <= |t|
    ensures Agrees(t, d, p, o, o) <==> Sweep(t, Converted(d, p), o) == ApplyFrom(t, o, d)
  {
    assert t[o..o] + ApplyFrom(t, o, d) == ApplyFrom(t, o, d);
  }

  lemma AgreesBehindRetain(t: string, d: Delta, p: nat, o: nat)
    requires d != [] && d[0].Retain? && InRange(|t|, Converted(d, p)) && o + Span(d) <= |t|
    ensures Agrees(t, d[1..], p + d[0].n, o, o + d[0].n) <==> Sweep(t, Converted(d, p), o) == ApplyFrom(t, o, d)
  {}

  lemma MisplacedAfterRetain(d: Delta, pos: nat, o: nat, n: nat) returns (t: string)
    requires YjsShaped(d) && !KeepsPlace(d, Drifted) && pos + o + Reach(d) < n
    requires pos != o && (pos < o ==> !d[0].Insert?)
    ensures |t| == n && InRange(n, Converted(d, pos)) && o + Span(d) <= n
    ensures Sweep(t, Converted(d, pos), o) != ApplyFrom(t, o, d)
  {
    hide Sweep, ApplyFrom, Converted;
    if d[0].Retain? {
      ShapedTail(d);
      t := MisplacedBehindRetain(d, pos, o, n);
    } else {
      t := Misplaced(d, pos, o, 0, n);
      AgreesAtOnce(t, d, pos, o);
    }
  }

  lemma MisplacedBehindRetain(d: Delta, pos: nat, o: nat, n: nat) returns (t: string)
    requires |d| > 1 && d[0].Retain? && !d[1].Retain? && 0 < d[0].n && 0 < d[1].Size() && pos + o + Reach(d) < n
    requires pos != o
    ensures |t| == n && InRange(n, Converted(d, pos)) && o + Span(d) <= n
    ensures Sweep(t, Converted(d, pos), o) != ApplyFrom(t, o, d)
  {
    hide Sweep, ApplyFrom;
    var m, rest := d[0].n, d[1..];
    assert rest[0] == d[1] && Reach(d) == m + Reach(rest);
    t := Misplaced(rest, pos, o, m, n);
    AgreesBehindRetain(t, d, pos, o);
  }

  lemma {:induction false} Breaks(d: Delta, at: Drift, pos: nat, o: nat, n: nat) returns (t: string)
    requires YjsShaped(d) && !KeepsPlace(d, at) && !at.Drifted? && Stands(at, pos, o)
    requires at.Pending? ==> !d[0].Delete?
    requires pos + o + 2 * Reach(d) < n
    ensures |t| == n && InRange(n, Converted(d, pos)) && o + Span(d) <= n
    ensures Sweep(t, Converted(d, pos), o) != ApplyFrom(t, o, d)
    decreases |d|, 1
  {
    match d[0] {
      case Retain(_) =>
        if at.Aligned? {
          t := BreaksRetain(d, pos, n);
        } else {
          t := MisplacedAfterRetain(d, pos, o, n);
        }
      case Delete(_) => t := BreaksDelete(d, pos, n);
      case Insert(_) => t := BreaksInsert(d, at, pos, o, n);
    }
  }

  lemma {:induction false} BreaksRetain(d: Delta, o: nat, n: nat) returns (t: string)
    requires YjsShaped(d) && !KeepsPlace(d, Aligned)
    requires d[0].Retain? && o + o + 2 * Reach(d) < n
    ensures |t| == n && InRange(n, Converted(d, o)) && o + Span(d) <= n
    ensures Sweep(t, Converted(d, o), o) != ApplyFrom(t, o, d)
    decreases |d|, 0
  {
    hide Sweep, ApplyFrom;
    ReachCovers(d, o, n);
    ShapedTail(d);
    var next := o + d[0].n;
    t := Breaks(d[1..], Aligned, next, next, n);
    RetainTurnDiffers(t, d, o);
  }

  lemma {:induction false} BreaksDelete(d: Delta, o: nat, n: nat) returns (t: string)
    requires YjsShaped(d) && !KeepsPlace(d, Aligned)
    requires d[0].Delete? && o + o + 2 * Reach(d) < n
    ensures |t| == n && InRange(n, Converted(d, o)) && o + Span(d) <= n
    ensures Sweep(t, Converted(d, o), o) != ApplyFrom(t, o, d)
    decreases |d|, 0
  {
    hide Sweep, ApplyFrom;
    ReachCovers(d, o, n);
    ShapedTail(d);
    var k := d[0].n;
    t := Breaks(d[1..], Pending(k), o, o + k, n);
    DeleteTurn(t, d, o);
  }

  lemma {:induction false} BreaksInsert(d: Delta, at: Drift, pos: nat, o: nat, n: nat) returns (t: string)
    requires YjsShaped(d) && !KeepsPlace(d, at) && !at.Drifted? && Stands(at, pos, o)
    requires d[0].Insert? && pos + o + 2 * Reach(d) < n
    ensures |t| == n && InRange(n, Converted(d, pos)) && o + Span(d) <= n
    ensures Sweep(t, Converted(d, pos), o) != ApplyFrom(t, o, d)
    decreases |d|, 0
  {
    hide Sweep, ApplyFrom, Converted;
    ReachCovers(d, pos, n);
    ReachCovers(d[1..], pos + |d[0].s|, n);
    ShapedTail(d);
    if at == Pending(|d[0].s|) {
      t := Breaks(d[1..], Aligned, o, o, n);
    } else {
      t := BreaksAfterInsert(d, at, pos, o, n);
    }
    InsertTurnDiffers(t, d, pos, o);
  }

  /** The insertion has set the loop adrift. */
  lemma BreaksAfterInsert(d: Delta, at: Drift, pos: nat, o: nat, n: nat) returns (t: string)
    requires d != [] && d[0].Insert? && 0 < |d[0].s| && YjsShaped(d[1..]) && !KeepsPlace(d[1..], Drifted)
    requires !at.Drifted? && Stands(at, pos, o) && at != Pending(|d[0].s|) && !d[1..][0].Insert?
    requires pos + o + 2 * Reach(d) < n
    ensures |t| == n && InRange(n, Converted(d[1..], pos + |d[0].s|)) && o + Span(d[1..]) <= n
    ensures Sweep(t, Converted(d[1..], pos + |d[0].s|), o) != ApplyFrom(t, o, d[1..])
  {
    hide Sweep, ApplyFrom, Converted;
    assert Reach(d) == |d[0].s| + Reach(d[1..]);
    t := MisplacedAfterRetain(d[1..], pos + |d[0].s|, o, n);
  }

  lemma RetainTurnDiffers(t: string, d: Delta, o: nat)
    requires d != [] && d[0].Retain? && o + Span(d) <= |t| && InRange(|t|, Converted(d, o))
    requires Sweep(t, Converted(d[1..], o + d[0].n), o + d[0].n) != ApplyFrom(t, o + d[0].n, d[1..])
    ensures Sweep(t, Converted(d, o), o) != ApplyFrom(t, o, d)
  {
    hide Sweep, ApplyFrom;
    var next := o + d[0].n;
    var swept, applied := Sweep(t, Converted(d[1..], next), next), ApplyFrom(t, next, d[1..]);
    Prefixed(t[o..next], swept, applied);
    RetainTurn(t, d, o);
    assert Sweep(t, Converted(d, o), o) == t[o..next] + swept && ApplyFrom(t, o, d) == t[o..next] + applied;
  }

  lemma InsertTurnDiffers(t: string, d: Delta, pos: nat, o: nat)
    requires d != [] && d[0].Insert? && pos <= o && o + Span(d) <= |t|
    requires InRange(|t|, Converted(d, pos)) && InRange(|t|, Converted(d[1..], pos + |d[0].s|))
    requires Sweep(t, Converted(d[1..], pos + |d[0].s|), o) != ApplyFrom(t, o, d[1..])
    ensures Sweep(t, Converted(d, pos), o) != ApplyFrom(t, o, d)
  {
    hide Sweep, ApplyFrom, Converted;
    InsertTurn(t, d, pos, o);
    Prefixed(d[0].s, Sweep(t, Converted(d[1..], pos + |d[0].s|), o), ApplyFrom(t, o, d[1..]));
  }

  lemma Prefixed(x: string, a: string, b: string)
    ensures x + a == x + b ==> a == b
  {
    assert a == (x + a)[|x|..];
    assert b == (x + b)[|x|..];
  }

  /** Dispatching the converted list works on every text exactly when the delta keeps its place. */
  lemma DispatchWorksExactly(d: Delta)
    requires YjsShaped(d)
    ensures (forall t: string | Span(d) <= |t| :: Dispatch(t, Converted(d, 0)) == Some(ApplyDelta(t, d)))
       <==> KeepsPlace(d, Aligned)
  {
    if KeepsPlace(d, Aligned) {
      forall t: string | Span(d) <= |t| ensures Dispatch(t, Converted(d, 0)) == Some(ApplyDelta(t, d)) {
        KeptPlace(t, d, Aligned, 0, 0);
      }
    } else {
      var t := Breaks(d, Aligned, 0, 0, 2 * Reach(d) + 1);
      assert Dispatch(t, Converted(d, 0)) != Some(ApplyDelta(t, d));
    }
  }

  /** One hunk: retain, then delete, then insert, each left out when empty. */
  function Hunk(before: nat, removed: nat, added: string): Delta {
    if before == 0 then HunkEdit(removed, added) else [Retain(before)] + HunkEdit(removed, added)
  }

  function HunkEdit(removed: nat, added: string): Delta {
    if removed == 0 then HunkInsert(added) else [Delete(removed)] + HunkInsert(added)
  }

  function HunkInsert(added: string): Delta {
    if added == "" then [] else [Insert(added)]
  }

  lemma HunkEditKeepsPlace(t: string, at: nat, removed: nat, added: string)
    requires at + removed <= |t|
    ensures var d := HunkEdit(removed, added);
            YjsShaped(d) && KeepsPlace(d, Aligned) && Span(d) == removed
            && ApplyFrom(t, at, d) == added + t[at + removed..]
            && (d != [] ==> !d[0].Retain?)
  {
    InsertKeepsPlace(t, at + removed, if removed == 0 then Aligned else Pending(removed), added);
    if removed != 0 {
      assert HunkEdit(removed, added)[1..] == HunkInsert(added);
    }
  }

  lemma InsertKeepsPlace(t: string, o: nat, at: Drift, added: string)
    requires !at.Drifted? && o <= |t|
    ensures var d := HunkInsert(added);
            YjsShaped(d) && KeepsPlace(d, at) && Span(d) == 0 && ApplyFrom(t, o, d) == added + t[o..]
  {
    var d := HunkInsert(added);
    if added == "" {
      assert d == [] && "" + t[o..] == t[o..];
    } else {
      assert d == [Insert(added)] && d[1..] == [];
      assert ApplyFrom(t, o, d) == added + ApplyFrom(t, o, d[1..]);
    }
  }

  lemma HunkKeepsPlace(t: string, before: nat, removed: nat, added: string)
    requires before + removed <= |t|
    ensures var d := Hunk(before, removed, added);
            YjsShaped(d) && KeepsPlace(d, Aligned) && Span(d) == before + removed
            && ApplyDelta(t, d) == t[..before] + (added + t[before + removed..])
  {
    var d, edit := Hunk(before, removed, added), HunkEdit(removed, added);
    HunkEditKeepsPlace(t, before, removed, added);
    if before == 0 {
      assert "" + ApplyFrom(t, 0, edit) == ApplyFrom(t, 0, edit);
    } else {
      assert d[1..] == edit;
      forall i | 0 < i < |d| ensures !SameKind(d[i - 1], d[i]) {
        assert d[i] == edit[i - 1];
      }
      assert t[0..before] == t[..before];
    }
  }

  /** In particular it works for every delta with a single hunk. */
  lemma OneHunkWorks(t: string, before: nat, removed: nat, added: string)
    requires before + removed <= |t|
    ensures Dispatch(t, Converted(Hunk(before, removed, added), 0)) == Some(t[..before] + added + t[before + removed..])
  {
    HunkKeepsPlace(t, before, removed, added);
    Regroup(t[..before], added, t[before + removed..]);
    DispatchWorksExactly(Hunk(before, removed, added));
  }

  /** Two insertions are enough to go wrong: the second one lands a unit too far. */
  lemma TwoHunksFail()
    ensures var d := [Insert("x"), Retain(1), Insert("y")];
            YjsShaped(d) && ApplyDelta("ab", d) == "xayb" && Dispatch("ab", Converted(d, 0)) == Some("xaby")
  {
    var d := [Insert("x"), Retain(1), Insert("y")];
    assert d[1..] == [Retain(1), Insert("y")] && d[1..][1..] == [Insert("y")] && [Insert("y")][1..] == [];
    assert "ab"[1..] == "b" && "ab"[..1] == "a";
    assert ApplyFrom("ab", 1, [Insert("y")]) == "yb";
    var first, second := Change(0, 0, "x"), Change(2, 2, "y");
    assert Converted(d, 0) == [first, second];
    assert [first, second][1..] == [second] && [second][1..] == [];
    assert "ab"[2..] == "" && "ab"[0..2] == "ab" && "ab"[0..0] == "";
    assert Sweep("ab", [], 2) == "";
    assert Sweep("ab", [second], 0) == "ab" + ("y" + "") == "aby";
    assert Sweep("ab", [first, second], 0) == "" + ("x" + "aby");
    assert InRange(2, [first, second]);
    assert "" + ("x" + "aby") == "xaby";
  }
}
