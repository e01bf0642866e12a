/** The part of the browser's DOM the exit-check script relies on: the
    window's list of `beforeunload` listeners, maintained by the "add an event
    listener" and "remove an event listener" algorithms of section 2.7 of the
    WHATWG DOM Standard, and the event object those listeners receive. */
module DomEvents {

  /** A listener's callback. A script function is identified by the global
      name it is registered under; every listener here has capture false and
      type "beforeunload", so the callback alone identifies a listener. */
  datatype Callback = Callback(name: string)

  /** The DOM never lets the same listener appear twice in a list. */
  ghost predicate NoDuplicates(s: seq<Callback>)
  {
    forall i, j :: 0 <= i < j < |s| ==> s[i] != s[j]
  }

  /** A list headed by `a` is free of duplicates exactly when its tail is and
      does not hold `a`. */
  lemma NoDuplicatesCons(a: Callback, t: seq<Callback>)
    ensures NoDuplicates([a] + t) <==> a !in t && NoDuplicates(t)
  {
    var s := [a] + t;
    if a !in t && NoDuplicates(t) {
      forall i, j | 0 <= i < j < |s| ensures s[i] != s[j] {
        if i > 0 {
          assert s[i] == t[i - 1] && s[j] == t[j - 1];
        } else {
          assert s[j] == t[j - 1];
        }
      }
    }
    if NoDuplicates(s) {
      forall i, j | 0 <= i < j < |t| ensures t[i] != t[j] {
        assert t[i] == s[i + 1] && t[j] == s[j + 1];
      }
      forall k | 0 <= k < |t| ensures t[k] != a {
        assert t[k] == s[k + 1] && a == s[0];
      }
    }
  }

  /** "Add an event listener": append the callback unless an equal listener
      is already present, in which case nothing changes. */
  function Added(s: seq<Callback>, c: Callback): (r: seq<Callback>)
    ensures c in r
    ensures forall x :: x in r <==> x in s || x == c
    ensures c in s ==> r == s
    ensures c !in s ==> |r| == |s| + 1 && r[..|s|] == s
    ensures NoDuplicates(s) ==> NoDuplicates(r)
  {
    if c in s then s else s + [c]
  }

  /** "Remove an event listener": take out the listener equal to the callback,
      if there is one; the others keep their order. */
  function Removed(s: seq<Callback>, c: Callback): (r: seq<Callback>)
    ensures c !in r
    ensures forall x :: x in r <==> x in s && x != c
    ensures c !in s ==> r == s
    ensures |r| <= |s|
    ensures NoDuplicates(s) ==> NoDuplicates(r)
  {
    if |s| == 0 then []
    else if s[0] == c then Removed(s[1..], c)
    else
      assert s == [s[0]] + s[1..];
      NoDuplicatesCons(s[0], s[1..]);
      NoDuplicatesCons(s[0], Removed(s[1..], c));
      [s[0]] + Removed(s[1..], c)
  }

  /** Removing a callback that was just appended undoes the append. */
  lemma {:induction false} RemovedAfterAppend(s: seq<Callback>, c: Callback)
    ensures Removed(s + [c], c) == Removed(s, c)
  {
    if |s| > 0 {
      assert (s + [c])[1..] == s[1..] + [c];
      RemovedAfterAppend(s[1..], c);
    }
  }

  /** Removing twice is removing once. */
  lemma RemovedIdempotent(s: seq<Callback>, c: Callback)
    ensures Removed(Removed(s, c), c) == Removed(s, c)
  {
  }

  /** Adding a callback never disturbs any other listener: what remains once
      `c` is taken out is the same before and after. */
  lemma AddedKeepsOthers(s: seq<Callback>, c: Callback)
    ensures Removed(Added(s, c), c) == Removed(s, c)
  {
    if c !in s {
      RemovedAfterAppend(s, c);
    }
  }

  /** The browser window, as far as its `beforeunload` listeners go. */
  class Window {
    var beforeUnload: seq<Callback>

    ghost predicate Valid()
      reads this
    {
      NoDuplicates(beforeUnload)
    }

    /** A freshly loaded page has no `beforeunload` listener. */
    constructor ()
      ensures Valid() && beforeUnload == []
    {
      beforeUnload := [];
    }

    /** `window.addEventListener("beforeunload", c)`. */
    method AddEventListener(c: Callback)
      requires Valid()
      modifies this
      ensures Valid()
      ensures beforeUnload == Added(old(beforeUnload), c)
    {
      if c !in beforeUnload {
        beforeUnload := beforeUnload + [c];
      }
    }

    /** `window.removeEventListener("beforeunload", c)`. */
    method RemoveEventListener(c: Callback)
      requires Valid()
      modifies this
      ensures Valid()
      ensures beforeUnload == Removed(old(beforeUnload), c)
    {
      beforeUnload := Removed(beforeUnload, c);
    }
  }

  /** The `BeforeUnloadEvent` object handed to each listener. The event is
      cancelable, and listeners added by `addEventListener` are not passive. */
  class BeforeUnloadEvent {
    var defaultPrevented: bool
    var returnValue: string

    /** A dispatched `beforeunload` event starts out not canceled, with an
        empty `returnValue`. */
    constructor ()
      ensures !defaultPrevented && returnValue == ""
    {
      defaultPrevented := false;
      returnValue := "";
    }

    /** `event.preventDefault()`: sets the canceled flag of a cancelable event
        dispatched to a non-passive listener; nothing else changes. */
    method PreventDefault()
      modifies this
      ensures defaultPrevented && returnValue == old(returnValue)
    {
      defaultPrevented := true;
    }
  }
}
