/**
 * What the two service classes share: the `Authorization` header built from the stored
 * token, and REST paths made of fixed segments and numeric ids.
 */
module Api {
  import opened Wrappers
  import Text

  /**
   * The services' bearer header: `Bearer ` and the stored token, where a missing token
   * is rendered as the text `null`.
   */
  function BearerHeader(token: Option<string>): (h: string)
    ensures |h| >= 7 && h[..7] == "Bearer "
    ensures token.Some? ==> h[7..] == token.value
    ensures token.None? ==> h[7..] == "null"
  {
    "Bearer " + (if token.Some? then token.value else "null")
  }

  /** A stored token is recovered from its header, so distinct tokens give distinct headers. */
  lemma BearerHeaderInjective(a: string, b: string)
    requires BearerHeader(Some(a)) == BearerHeader(Some(b))
    ensures a == b
  {
    assert a == BearerHeader(Some(a))[7..];
  }

  /** A missing token and the stored text `null` cannot be told apart by the server. */
  lemma BearerHeaderOfMissingToken()
    ensures BearerHeader(None) == BearerHeader(Some("null"))
  {
  }

  /** The position of the first `c` in `s`, or `|s|` when there is none. */
  function IndexOf(s: string, c: char): (i: nat)
    ensures i <= |s|
    ensures forall j :: 0 <= j < i ==> s[j] != c
    ensures i < |s| ==> s[i] == c
  {
    if s == [] then 0 else if s[0] == c then 0 else 1 + IndexOf(s[1..], c)
  }

  lemma {:induction false} IndexOfBefore(x: string, c: char, y: string)
    requires c !in x
    ensures IndexOf(x + [c] + y, c) == |x|
  {
    if x != [] {
      assert (x + [c] + y)[1..] == x[1..] + [c] + y;
      IndexOfBefore(x[1..], c, y);
    }
  }

  /** A string split at its first `/` is split uniquely. */
  lemma SplitAtSlash(x: string, y: string, x2: string, y2: string)
    requires '/' !in x && '/' !in x2
    requires x + "/" + y == x2 + "/" + y2
    ensures x == x2 && y == y2
  {
    IndexOfBefore(x, '/', y);
    IndexOfBefore(x2, '/', y2);
    assert x == (x + "/" + y)[..|x|];
    assert x2 == (x2 + "/" + y2)[..|x2|];
    assert y == (x + "/" + y)[|x| + 1..];
    assert y2 == (x2 + "/" + y2)[|x2| + 1..];
  }

  /** The path of one record under a collection: the base, a slash and the id. */
  function IdPath(base: string, id: int): (p: string)
    ensures |p| > |base| + 1 && p[..|base| + 1] == base + "/"
    ensures p[|base| + 1..] == Text.IntText(id)
  {
    base + "/" + Text.IntText(id)
  }

  /** Distinct ids under one base address distinct resources. */
  lemma IdPathInjective(base: string, a: int, b: int)
    requires IdPath(base, a) == IdPath(base, b)
    ensures a == b
  {
    Text.IntTextInjective(a, b);
  }

  /** The path of a nested child resource: base, parent id, segment and, when given, child id. */
  function ChildPath(base: string, parent: int, segment: string, child: Option<int>): (p: string)
    ensures child.None? ==> p == IdPath(base, parent) + "/" + segment
    ensures child.Some? ==> p == IdPath(IdPath(base, parent) + "/" + segment, child.value)
  {
    var collection := IdPath(base, parent) + "/" + segment;
    if child.Some? then IdPath(collection, child.value) else collection
  }

  lemma PrefixCancel(a: string, x: string, y: string)
    requires a + x == a + y
    ensures x == y
  {
    assert x == (a + x)[|a|..];
    assert y == (a + y)[|a|..];
  }

  /** The text after `base/` in a nested path: the parent id, the segment and the child id. */
  lemma ChildPathShape(base: string, parent: int, segment: string, child: int)
    ensures ChildPath(base, parent, segment, Some(child))
         == (base + "/") + (Text.IntText(parent) + "/" + (segment + "/" + Text.IntText(child)))
  {
    var b, tp, tc := base + "/", Text.IntText(parent), Text.IntText(child);
    var collection := IdPath(base, parent) + "/" + segment;
    assert IdPath(base, parent) == b + tp;
    assert collection == b + (tp + "/" + segment);
    assert ChildPath(base, parent, segment, Some(child)) == collection + "/" + tc;
    assert collection + "/" + tc == b + (tp + "/" + segment + "/" + tc);
    assert tp + "/" + segment + "/" + tc == tp + "/" + (segment + "/" + tc);
  }

  /** A nested path names its parent, its collection and its child uniquely. */
  lemma ChildPathInjective(base: string, s1: string, s2: string, p1: int, c1: int, p2: int, c2: int)
    requires '/' !in s1 && '/' !in s2
    requires ChildPath(base, p1, s1, Some(c1)) == ChildPath(base, p2, s2, Some(c2))
    ensures p1 == p2 && s1 == s2 && c1 == c2
  {
    var t1, t2 := Text.IntText(p1), Text.IntText(p2);
    var r1, r2 := s1 + "/" + Text.IntText(c1), s2 + "/" + Text.IntText(c2);
    ChildPathShape(base, p1, s1, c1);
    ChildPathShape(base, p2, s2, c2);
    PrefixCancel(base + "/", t1 + "/" + r1, t2 + "/" + r2);
    assert '/' !in t1 && '/' !in t2;
    SplitAtSlash(t1, r1, t2, r2);
    SplitAtSlash(s1, Text.IntText(c1), s2, Text.IntText(c2));
    Text.IntTextInjective(p1, p2);
    Text.IntTextInjective(c1, c2);
  }
}
