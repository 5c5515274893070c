/** The editor component: a CodeMirror view and a Yjs text that mirror each other
(markdown-yjs-editor.component.ts:285-396, markdown-yjs-session.ts:19-132).

Every change of either side fires the other side's listener, so the two could echo each other
forever. Two things stop that: the session's listeners look at the transaction's origin, and the
update listener returns while `applyingRemotePatch` is up. */
module EditorSync {
  import opened TextEdits
  import opened DeltaConverter
  import opened SessionEdits

  datatype Origin = Local | Remote

  /** What a bystander can see of the component. */
  datatype Editor = Editor(view: string, text: string, outgoing: nat, applyingRemotePatch: bool)

  datatype Event =
    | Typed(iterated: seq<Change>)   // a transaction of the view, as `iterChanges` reports it
    | Received(delta: Delta)         // a remote update, as the delta Yjs computes for it

  /** The edits both translators get right on every text. */
  predicate Translatable(e: Event) {
    match e
    case Typed(cs) => cs != [] && Iterated(cs) && AllButLastKeepLength(cs)
    case Received(d) => YjsShaped(d) && KeepsPlace(d, Aligned)
  }

  /** The event makes sense for the present texts. */
  predicate Possible(ed: Editor, e: Event) {
    match e
    case Typed(cs) => InRange(|ed.view|, cs)
    case Received(d) => Span(d) <= |ed.text|
  }

  class MarkdownYjsEditor {
    var view: string
    const session: SharedText
    var applyingRemotePatch: bool
    var outgoing: nat            // updates emitted on `yjsUpdate`
    var shownText: string        // the `doc` signal

    ghost function Now(): Editor
      reads this, session
    {
      Editor(view, session.text, outgoing, applyingRemotePatch)
    }

    /** Idle and in agreement. */
    ghost predicate Synced()
      reads this, session
    {
      view == session.text && !applyingRemotePatch
    }

    constructor (content: string)
      ensures Synced() && view == content && outgoing == 0 && fresh(session)
    {
      session := new SharedText(content);
      view := content;
      applyingRemotePatch := false;
      outgoing := 0;
      shownText := content;
    }

    /** The session's `update` handler. */
    method OnDocUpdate(origin: Origin)
      modifies this`outgoing
      ensures outgoing == old(outgoing) + (if origin == Local then 1 else 0)
    {
      if origin == Local {
        outgoing := outgoing + 1;
      }
    }

    /** The listener registered with `onDelta`. */
    method OnDelta(delta: Delta, origin: Origin)
      requires origin == Remote ==> InRange(|view|, Converted(delta, 0))
      modifies this`view, this`applyingRemotePatch, this`shownText
      ensures shownText == session.text
      ensures origin == Local ==> view == old(view) && applyingRemotePatch == old(applyingRemotePatch)
      ensures origin == Remote ==>
                view == Sweep(old(view), Converted(delta, 0), 0)
                && applyingRemotePatch == (old(applyingRemotePatch) && Converted(delta, 0) == [])
    {
      shownText := session.text;
      if origin == Local {
        return;
      }
      var changes := Convert(delta);
      if |changes| == 0 {
        assert view[0..] == view;
        return;
      }
      applyingRemotePatch := true;
      DispatchPatch(changes);
      applyingRemotePatch := false;
    }

    /** `view.dispatch` of a remote patch: the view changes, then the listener runs and returns. */
    method DispatchPatch(changes: seq<Change>)
      requires applyingRemotePatch && InRange(|view|, changes)
      modifies this`view
      ensures view == Sweep(old(view), changes, 0)
    {
      view := Sweep(view, changes, 0);
      var relayed := MustRelay(true);
      assert !relayed;
    }

    /** The tests at the head of the update listener. */
    method MustRelay(docChanged: bool) returns (relay: bool)
      ensures relay == (docChanged && !applyingRemotePatch)
    {
      relay := true;
      if !docChanged {
        return false;
      }
      if applyingRemotePatch {
        return false;
      }
    }

    /** A transaction typed into the view. */
    method Type(iterated: seq<Change>)
      requires Synced() && iterated != [] && InRange(|view|, iterated)
      modifies this, session
      ensures view == Sweep(old(view), iterated, 0) && outgoing == old(outgoing) + 1
      ensures !applyingRemotePatch && shownText == session.text
      ensures Fits(old(session.text), Piped(iterated)) ==> Now() == After(old(Now()), Typed(iterated))
    {
      view := Sweep(view, iterated, 0);
      var relay := MustRelay(true);
      if relay {
        var changes := CollectLocalChanges(iterated);
        session.ApplyLocalChanges(changes);
        OnDelta([], Local);
        OnDocUpdate(Local);
      }
    }

    /** `applyRemoteUpdate`, whose effect on the text Yjs reports as `delta`. */
    method Receive(delta: Delta)
      requires Synced() && Span(delta) <= |session.text| && InRange(|view|, Converted(delta, 0))
      modifies this, session
      ensures Now() == After(old(Now()), Received(delta))
    {
      session.text := ApplyDelta(session.text, delta);
      if delta != [] {
        OnDelta(delta, Remote);
      } else {
        assert view[0..] == view;
      }
      OnDocUpdate(Remote);
    }

    /** `setContent` of a mounted editor: one replacement of everything, or nothing at all. */
    method SetContent(value: string)
      requires Synced()
      modifies this, session
      ensures Synced() && view == value
      ensures outgoing == old(outgoing) + (if value == old(view) then 0 else 1)
    {
      var current := view;
      if current == value {
        return;
      }
      var change := Change(0, |current|, value);
      OneChange(current, change);
      Type([change]);
      assert Replace(current, change) == value;
    }
  }

  lemma OneChange(t: string, c: Change)
    requires Within(|t|, c)
    ensures Fits(t, Piped([c])) && Sequentially(t, Piped([c])) == Sweep(t, [c], 0) == Replace(t, c)
  {
    assert [c][1..] == [];
    assert Sequentially(t, [c]) == Replace(t, c);
    RebasedUnmoved([c]);
    PipedWorks(t, [c]);
  }

  /** The component after one event. */
  function After(ed: Editor, e: Event): Editor
    requires e.Typed? ==> Possible(ed, e) && Fits(ed.text, Piped(e.iterated))
    requires e.Received? ==> Possible(ed, e) && InRange(|ed.view|, Converted(e.delta, 0))
  {
    match e
    case Typed(cs) =>
      ed.(view := Sweep(ed.view, cs, 0), text := Sequentially(ed.text, Piped(cs)), outgoing := ed.outgoing + 1)
    case Received(d) => ed.(view := Sweep(ed.view, Converted(d, 0), 0), text := ApplyDelta(ed.text, d))
  }

  /** What both texts become. */
  function Meaning(t: string, e: Event): string
    requires Possible(Editor(t, t, 0, false), e)
  {
    match e
    case Typed(cs) => Sweep(t, cs, 0)
    case Received(d) => ApplyDelta(t, d)
  }

  predicate InSync(ed: Editor) {
    ed.view == ed.text && !ed.applyingRemotePatch
  }

  lemma StaysInSync(ed: Editor, e: Event)
    requires InSync(ed) && Translatable(e) && Possible(ed, e)
    ensures e.Typed? ==> Fits(ed.text, Piped(e.iterated))
    ensures e.Received? ==> InRange(|ed.view|, Converted(e.delta, 0))
    ensures var ed' := After(ed, e);
            && InSync(ed') && ed'.text == Meaning(ed.text, e)
            && ed'.outgoing == ed.outgoing + (if e.Typed? then 1 else 0)
  {
    match e
    case Typed(cs) =>
      PipedWorks(ed.text, cs);
    case Received(d) =>
      KeptPlace(ed.text, d, Aligned, 0, 0);
  }

  predicate Follows(ed: Editor, e: Event, ed': Editor) {
    && Possible(ed, e)
    && (e.Typed? ==> Fits(ed.text, Piped(e.iterated)))
    && (e.Received? ==> InRange(|ed.view|, Converted(e.delta, 0)))
    && ed' == After(ed, e)
  }

  lemma FollowsInSync(ed: Editor, e: Event, ed': Editor)
    requires InSync(ed) && Translatable(e) && Follows(ed, e, ed')
    ensures InSync(ed') && ed'.outgoing == ed.outgoing + (if e.Typed? then 1 else 0)
  {
    StaysInSync(ed, e);
  }

  /** A history of the component: translatable events, each possible when it happens. */
  predicate History(eds: seq<Editor>, es: seq<Event>) {
    && |eds| == |es| + 1
    && forall i | 0 <= i < |es| ::
         Translatable(es[i]) && Follows(eds[i], es[i], eds[i + 1])
  }

  function TypedCount(es: seq<Event>): nat {
    if es == [] then 0 else TypedCount(es[..|es| - 1]) + (if es[|es| - 1].Typed? then 1 else 0)
  }

  /** After every event the texts agree and the guard is down, and what has gone out is one update per
  local transaction: nothing received, an own echo included, is ever sent on. */
  lemma {:induction false} NoEcho(eds: seq<Editor>, es: seq<Event>, n: nat)
    requires History(eds, es) && InSync(eds[0]) && eds[0].outgoing == 0 && n <= |es|
    ensures InSync(eds[n]) && eds[n].outgoing == TypedCount(es[..n])
  {
    if n == 0 {
      assert es[..0] == [];
    } else {
      NoEcho(eds, es, n - 1);
      FollowsInSync(eds[n - 1], es[n - 1], eds[n]);
      assert es[..n][..n - 1] == es[..n - 1];
    }
  }
}
