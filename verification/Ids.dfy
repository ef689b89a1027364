/** User identifiers. A client's ID is the `sub` claim of its token; a token without one is
    refused before anything else happens, so an ID is never empty. An ID is a sequence of
    UTF-16 code units, which is what a Dart string is. */
module Ids {
  type CodeUnit = c: int | 0 <= c < 0x1_0000

  type UserId = s: seq<CodeUnit> | s != [] witness [0]

  /** Dart's `a.compareTo(b) < 0`: lexicographic order by code unit. */
  predicate Precedes(a: seq<CodeUnit>, b: seq<CodeUnit>)
    decreases a
  {
    if b == [] then false
    else if a == [] then true
    else if a[0] != b[0] then a[0] < b[0]
    else Precedes(a[1..], b[1..])
  }

  /** At index `k` the order of `a` and `b` is decided in favour of `a`: they agree before it, and
      there `a` has ended or has the smaller code unit. */
  predicate DecidedAt(a: seq<CodeUnit>, b: seq<CodeUnit>, k: nat) {
    k <= |a| && k < |b| && a[..k] == b[..k] && (k == |a| || a[k] < b[k])
  }

  /** The order is that of the first difference: an ID precedes another iff it is a proper prefix
      of it or has the smaller code unit at the first index at which they differ. */
  lemma {:induction false} PrecedesIffDecided(a: seq<CodeUnit>, b: seq<CodeUnit>)
    ensures Precedes(a, b) <==> exists k: nat :: DecidedAt(a, b, k)
    decreases a
  {
    forall k: nat | DecidedAt(a, b, k) && k > 0 ensures a != [] && a[0] == b[0] { FirstUnits(a, b, k); }
    if b != [] && (a == [] || a[0] < b[0]) {
      assert DecidedAt(a, b, 0);
    } else if a != [] && b != [] && a[0] == b[0] {
      PrecedesIffDecided(a[1..], b[1..]);
      if k: nat :| DecidedAt(a[1..], b[1..], k) { LaterDecision(a, b, k); }
      if k: nat :| DecidedAt(a, b, k) && k > 0 { LaterDecision(a, b, k - 1); }
    }
  }

  lemma FirstUnits(a: seq<CodeUnit>, b: seq<CodeUnit>, k: nat)
    requires DecidedAt(a, b, k)
    ensures b != [] && (k > 0 ==> a != [] && a[0] == b[0])
  {
    if k > 0 { assert a[0] == a[..k][0] && b[0] == b[..k][0]; }
  }

  lemma LaterDecision(a: seq<CodeUnit>, b: seq<CodeUnit>, k: nat)
    requires a != [] && b != [] && a[0] == b[0]
    ensures DecidedAt(a[1..], b[1..], k) <==> DecidedAt(a, b, k + 1)
  {
    if k + 1 <= |a| && k + 1 <= |b| {
      assert a[..k + 1] == [a[0]] + a[1..][..k] && b[..k + 1] == [b[0]] + b[1..][..k];
      assert a[..k + 1] == b[..k + 1] ==> a[..k + 1][1..] == b[..k + 1][1..];
    }
  }

  lemma {:induction false} PrecedesIsTransitive(a: seq<CodeUnit>, b: seq<CodeUnit>, c: seq<CodeUnit>)
    requires Precedes(a, b) && Precedes(b, c)
    ensures Precedes(a, c)
    decreases a
  {
    if a != [] && a[0] == b[0] && b[0] == c[0] { PrecedesIsTransitive(a[1..], b[1..], c[1..]); }
  }

  /** Of two distinct IDs exactly one precedes the other, and no ID precedes itself. */
  lemma {:induction false} PrecedesIsAStrictChoice(a: seq<CodeUnit>, b: seq<CodeUnit>)
    ensures a == b ==> !Precedes(a, b)
    ensures a != b ==> (Precedes(a, b) <==> !Precedes(b, a))
    decreases a
  {
    if a != [] && b != [] && a[0] == b[0] {
      PrecedesIsAStrictChoice(a[1..], b[1..]);
      assert a == [a[0]] + a[1..] && b == [b[0]] + b[1..];
    }
  }
}
