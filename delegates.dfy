/** The invocation list of a C# event. `+=` (Delegate.Combine) appends a
    handler, duplicates included; `-=` (Delegate.Remove) removes the LAST
    occurrence of the handler and leaves the list alone when it is absent.
    Raising the event calls the handlers in list order, once per occurrence. */
module Delegates {

  /** Number of occurrences of `h` in `s`, counted from the end of the list. */
  function Count<H(==)>(s: seq<H>, h: H): nat
  {
    if |s| == 0 then 0
    else Count(s[..|s| - 1], h) + (if s[|s| - 1] == h then 1 else 0)
  }

  /** `-=`: the last occurrence of `h` is taken out; nothing else moves. */
  function RemovedLast<H(==)>(s: seq<H>, h: H): (r: seq<H>)
    ensures Count(s, h) == 0 ==> r == s
    ensures Count(s, h) > 0 ==> |r| == |s| - 1 && Count(r, h) == Count(s, h) - 1
    decreases |s|
  {
    if |s| == 0 then []
    else if s[|s| - 1] == h then s[..|s| - 1]
    else
      var init := s[..|s| - 1];
      var r := RemovedLast(init, h) + [s[|s| - 1]];
      assert r[..|r| - 1] == RemovedLast(init, h);
      assert Count(s, h) == 0 ==> RemovedLast(init, h) == init && r == s;
      r
  }

  /** `-=` leaves the number of occurrences of every other handler alone. */
  lemma {:induction false} RemovedLastKeepsOthers<H>(s: seq<H>, h: H, x: H)
    requires x != h
    ensures Count(RemovedLast(s, h), x) == Count(s, x)
  {
    if |s| > 0 && s[|s| - 1] != h {
      var init := s[..|s| - 1];
      RemovedLastKeepsOthers(init, h, x);
      CountSnoc(RemovedLast(init, h), s[|s| - 1], x);
    }
  }

  /** `+=` appends at the end, so counting over `s + [x]` adds one for `x`. */
  lemma CountSnoc<H>(s: seq<H>, x: H, h: H)
    ensures Count(s + [x], h) == Count(s, h) + (if x == h then 1 else 0)
  {
    assert (s + [x])[..|s|] == s;
  }

  /** Counting over a growing prefix, the form a dispatch loop needs. */
  lemma CountPrefix<H>(s: seq<H>, i: nat, h: H)
    requires i < |s|
    ensures Count(s[..i + 1], h) == Count(s[..i], h) + (if s[i] == h then 1 else 0)
  {
    assert s[..i + 1][..i] == s[..i];
  }

  /** A handler is in the list exactly when it occurs at least once. */
  lemma {:induction false} CountPositiveIffIn<H>(s: seq<H>, h: H)
    ensures Count(s, h) > 0 <==> h in s
  {
    if |s| > 0 {
      CountPositiveIffIn(s[..|s| - 1], h);
      assert s == s[..|s| - 1] + [s[|s| - 1]];
    }
  }
}
