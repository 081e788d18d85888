/**
 * Conversation addressing: the key `[a, b].sort().join("_")` that the chat
 * server, the message route and the client all derive from two user ids.
 */
module Addressing {

  /** The character that joins the two ids; Mongo ObjectId strings never contain it. */
  const Separator: char := '_'

  /** An id that can take part in a conversation key without ambiguity. */
  predicate WellFormedId(s: string)
  {
    Separator !in s
  }

  /**
   * Strict lexicographic order on strings, character by character, a proper
   * prefix coming first: the comparison JavaScript's default `sort` applies
   * to two strings.
   */
  predicate LexLess(a: string, b: string)
  {
    if a == [] then b != []
    else if b == [] then false
    else if a[0] != b[0] then a[0] < b[0]
    else LexLess(a[1..], b[1..])
  }

  lemma {:induction false} LexLessAsymmetric(a: string, b: string)
    ensures !(LexLess(a, b) && LexLess(b, a))
  {
    if a != [] && b != [] && a[0] == b[0] {
      LexLessAsymmetric(a[1..], b[1..]);
    }
  }

  lemma {:induction false} LexLessTotal(a: string, b: string)
    ensures a == b || LexLess(a, b) || LexLess(b, a)
  {
    if a != [] && b != [] && a[0] == b[0] {
      LexLessTotal(a[1..], b[1..]);
      if a[1..] == b[1..] {
        assert a == [a[0]] + a[1..] && b == [b[0]] + b[1..];
      }
    }
  }

  /**
   * `[a, b].sort().join("_")`: the sort leaves the pair as it is unless the
   * second id is smaller than the first.
   */
  function ConversationId(a: string, b: string): (r: string)
    ensures r == a + [Separator] + b || r == b + [Separator] + a
    ensures |r| == |a| + |b| + 1
  {
    if LexLess(b, a) then b + [Separator] + a else a + [Separator] + b
  }

  /** The key does not depend on which of the two users is named first. */
  lemma Commutative(a: string, b: string)
    ensures ConversationId(a, b) == ConversationId(b, a)
  {
    LexLessAsymmetric(a, b);
    LexLessTotal(a, b);
  }

  /** The smaller id always comes first in the key. */
  lemma SmallerIdFirst(a: string, b: string)
    ensures LexLess(a, b) ==> ConversationId(a, b) == a + [Separator] + b
    ensures LexLess(b, a) ==> ConversationId(a, b) == b + [Separator] + a
  {
    LexLessAsymmetric(a, b);
  }

  /** Position of the first separator (the length when there is none). */
  function FirstSeparator(w: string): (k: nat)
    ensures k <= |w|
  {
    if w == [] || w[0] == Separator then 0 else 1 + FirstSeparator(w[1..])
  }

  lemma {:induction false} FirstSeparatorOfJoin(x: string, y: string)
    requires WellFormedId(x)
    ensures FirstSeparator(x + [Separator] + y) == |x|
  {
    if x != [] {
      assert (x + [Separator] + y)[1..] == x[1..] + [Separator] + y;
      FirstSeparatorOfJoin(x[1..], y);
    }
  }

  /** A join of two ids can be split back into exactly those two ids. */
  lemma SplitJoin(x: string, y: string, u: string, v: string)
    requires WellFormedId(x) && WellFormedId(u)
    requires x + [Separator] + y == u + [Separator] + v
    ensures x == u && y == v
  {
    var w := x + [Separator] + y;
    FirstSeparatorOfJoin(x, y);
    FirstSeparatorOfJoin(u, v);
    assert x == w[..|x|] == u;
    assert y == w[|x| + 1..] == v;
  }

  /**
   * Two pairs of well-formed ids give the same key only when they are the
   * same unordered pair: distinct conversations never share a key.
   */
  lemma Injective(a: string, b: string, c: string, d: string)
    requires WellFormedId(a) && WellFormedId(b) && WellFormedId(c) && WellFormedId(d)
    requires ConversationId(a, b) == ConversationId(c, d)
    ensures (a == c && b == d) || (a == d && b == c)
  {
    var x, y := if LexLess(b, a) then b else a, if LexLess(b, a) then a else b;
    var u, v := if LexLess(d, c) then d else c, if LexLess(d, c) then c else d;
    SplitJoin(x, y, u, v);
  }
}
