/** Small shared datatypes and string helpers. */
module Base {

  /** A value that may be absent: a Go context slot that holds nothing, or a nil error. */
  datatype Option<+T> = None | Some(value: T)

  /** The position of the first `c` in `s`. */
  function IndexOf(s: string, c: char): (i: nat)
    requires c in s
    ensures i < |s| && s[i] == c && c !in s[..i]
  {
    if s[0] == c then 0 else 1 + IndexOf(s[1..], c)
  }

  /** In `head + [c] + tail`, the first `c` is the one after `head` when `head` has none. */
  lemma {:induction false} IndexOfAfterHead(head: string, c: char, tail: string)
    requires c !in head
    ensures c in head + [c] + tail
    ensures IndexOf(head + [c] + tail, c) == |head|
  {
    var s := head + [c] + tail;
    assert s[|head|] == c;
  }
}
