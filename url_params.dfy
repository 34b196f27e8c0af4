/**
 * `URLSearchParams` as the ordered list of `(key, value)` pairs that the services append.
 * Percent-encoding by `toString()` is not modelled.
 */
module UrlParams {
  import opened Js
  import Seqs

  type Params = seq<(string, string)>

  /** The condition a service tests before appending a key. */
  datatype Gate =
    | WhenTruthy   // `if (filter.k) params.append(...)`
    | WhenDefined  // `if (filter.k !== undefined) params.append(...)`

  predicate Passes(g: Gate, v: JsValue) {
    match g
    case WhenTruthy => Truthy(v)
    case WhenDefined => v != Undefined
  }

  /** The pair a passing key contributes: the key and the value's `toString()`. */
  function Pair(o: Obj, k: string): (string, string) {
    (k, ToText(Get(o, k)))
  }

  /**
   * Reference definition: the pairs that a sequence of gated appends produces from
   * object `o`, in the order of `spec`.
   */
  function Select(o: Obj, spec: seq<(string, Gate)>): Params {
    if spec == [] then []
    else
      (if Passes(spec[0].1, Get(o, spec[0].0)) then [Pair(o, spec[0].0)] else [])
      + Select(o, spec[1..])
  }

  function Keys(ps: Params): seq<string> {
    Seqs.Map(ps, (p: (string, string)) => p.0)
  }

  function SpecKeys(spec: seq<(string, Gate)>): seq<string> {
    Seqs.Map(spec, (e: (string, Gate)) => e.0)
  }

  predicate Distinct(ks: seq<string>) {
    forall i, j :: 0 <= i < j < |ks| ==> ks[i] != ks[j]
  }

  /** Selecting over two halves of a spec concatenates the two results. */
  lemma {:induction false} SelectAppend(o: Obj, a: seq<(string, Gate)>, b: seq<(string, Gate)>)
    ensures Select(o, a + b) == Select(o, a) + Select(o, b)
  {
    if a != [] {
      assert (a + b)[1..] == a[1..] + b;
      SelectAppend(o, a[1..], b);
    } else {
      assert a + b == b;
    }
  }

  /** One more gated append extends the result at its end. */
  lemma {:induction false} SelectSnoc(o: Obj, spec: seq<(string, Gate)>, e: (string, Gate))
    ensures Select(o, spec + [e])
         == Select(o, spec) + (if Passes(e.1, Get(o, e.0)) then [Pair(o, e.0)] else [])
  {
    if spec == [] {
      assert [] + [e] == [e];
    } else {
      assert (spec + [e])[0] == spec[0];
      assert (spec + [e])[1..] == spec[1..] + [e];
      SelectSnoc(o, spec[1..], e);
    }
  }

  /** The pairs one gated append contributes. */
  function Step(o: Obj, e: (string, Gate)): (r: Params)
    ensures |r| <= 1
    ensures r != [] <==> Passes(e.1, Get(o, e.0))
    ensures r != [] ==> r[0].0 == e.0 && r[0].1 == ToText(Get(o, e.0))
  {
    if Passes(e.1, Get(o, e.0)) then [Pair(o, e.0)] else []
  }

  /**
   * One line of a query builder, `if (<gate passes on o[k]>) params.append(k, String(o[k]))`,
   * run after the lines `done`.
   */
  method AppendWhen(params: Params, o: Obj, ghost done: seq<(string, Gate)>, e: (string, Gate))
    returns (r: Params)
    requires params == Select(o, done)
    ensures r == Select(o, done + [e])
  {
    SelectSnoc(o, done, e);
    if Passes(e.1, Get(o, e.0)) {
      r := params + [(e.0, ToText(Get(o, e.0)))];
    } else {
      r := params;
    }
  }

  /**
   * The state of a builder after its first `i + 1` appends: the one after `i` appends,
   * extended by the pairs of append `i`.
   */
  lemma SelectPrefix(o: Obj, spec: seq<(string, Gate)>, i: nat)
    requires i < |spec|
    ensures Select(o, spec[..i + 1]) == Select(o, spec[..i]) + Step(o, spec[i])
  {
    assert spec[..i + 1] == spec[..i] + [spec[i]];
    SelectSnoc(o, spec[..i], spec[i]);
  }

  /**
   * Every produced pair comes from a key of `spec` whose gate passed, carries that key's
   * text, and the produced keys appear in `spec` order (they are `spec`'s passing keys).
   */
  lemma {:induction false} SelectIsFilteredSpec(o: Obj, spec: seq<(string, Gate)>)
    ensures Select(o, spec)
         == Seqs.Map(Seqs.Filter(spec, (e: (string, Gate)) => Passes(e.1, Get(o, e.0))),
                     (e: (string, Gate)) => Pair(o, e.0))
  {
    if spec != [] {
      SelectIsFilteredSpec(o, spec[1..]);
    }
  }

  /** A key is present in the result iff it is in `spec` and its gate passes. */
  lemma {:induction false} SelectHasKey(o: Obj, spec: seq<(string, Gate)>, k: string)
    ensures k in Keys(Select(o, spec)) <==> exists g :: (k, g) in spec && Passes(g, Get(o, k))
  {
    if spec != [] {
      SelectHasKey(o, spec[1..], k);
      var r := Select(o, spec);
      var head := if Passes(spec[0].1, Get(o, spec[0].0)) then [Pair(o, spec[0].0)] else [];
      assert r == head + Select(o, spec[1..]);
      assert Keys(r) == Keys(head) + Keys(Select(o, spec[1..]));
      assert spec == [spec[0]] + spec[1..];
      if exists g :: (k, g) in spec && Passes(g, Get(o, k)) {
        var g :| (k, g) in spec && Passes(g, Get(o, k));
        if (k, g) != spec[0] {
          assert (k, g) in spec[1..];
        }
      }
    } else {
      assert Keys([]) == [];
    }
  }

  lemma DistinctCons(k: string, ks: seq<string>)
    ensures Distinct([k] + ks) <==> k !in ks && Distinct(ks)
  {
    var l := [k] + ks;
    if k !in ks && Distinct(ks) {
      forall i, j | 0 <= i < j < |l| ensures l[i] != l[j] {
        assert l[j] == ks[j - 1];
        if i > 0 { assert l[i] == ks[i - 1]; }
      }
    }
    if Distinct(l) {
      forall i, j | 0 <= i < j < |ks| ensures ks[i] != ks[j] {
        assert ks[i] == l[i + 1] && ks[j] == l[j + 1];
      }
    }
    if k in ks {
      var j :| 0 <= j < |ks| && ks[j] == k;
      assert l[j + 1] == l[0];
    }
  }

  lemma {:induction false} SelectKeysFromSpec(o: Obj, spec: seq<(string, Gate)>, k: string)
    requires k in Keys(Select(o, spec))
    ensures k in SpecKeys(spec)
  {
    if spec != [] {
      var head := if Passes(spec[0].1, Get(o, spec[0].0)) then [Pair(o, spec[0].0)] else [];
      assert Select(o, spec) == head + Select(o, spec[1..]);
      assert Keys(Select(o, spec)) == Keys(head) + Keys(Select(o, spec[1..]));
      assert SpecKeys(spec) == [spec[0].0] + SpecKeys(spec[1..]);
      if k != spec[0].0 {
        SelectKeysFromSpec(o, spec[1..], k);
      }
    }
  }

  /** With distinct keys in `spec`, no key is appended twice. */
  lemma {:induction false} SelectDistinct(o: Obj, spec: seq<(string, Gate)>)
    requires Distinct(SpecKeys(spec))
    ensures Distinct(Keys(Select(o, spec)))
  {
    if spec != [] {
      var k, rest := spec[0].0, spec[1..];
      assert SpecKeys(spec) == [k] + SpecKeys(rest);
      DistinctCons(k, SpecKeys(rest));
      SelectDistinct(o, rest);
      var tail := Select(o, rest);
      var head := if Passes(spec[0].1, Get(o, k)) then [Pair(o, k)] else [];
      assert Select(o, spec) == head + tail;
      assert Keys(head + tail) == Keys(head) + Keys(tail);
      if head != [] {
        assert Keys(head) == [k];
        if k in Keys(tail) {
          SelectKeysFromSpec(o, rest, k);
        }
        DistinctCons(k, Keys(tail));
      } else {
        assert Keys(head + tail) == Keys(tail);
      }
    }
  }

  /** Nothing passes in an empty object's gates except none: an empty object gives no pairs. */
  lemma {:induction false} SelectEmpty(spec: seq<(string, Gate)>)
    ensures Select(map[], spec) == []
  {
    if spec != [] {
      SelectEmpty(spec[1..]);
    }
  }

  /** When no gate of `spec` passes, nothing is appended. */
  lemma {:induction false} SelectNonePass(o: Obj, spec: seq<(string, Gate)>)
    requires forall e :: e in spec ==> !Passes(e.1, Get(o, e.0))
    ensures Select(o, spec) == []
  {
    if spec != [] {
      assert spec[0] in spec;
      assert forall e :: e in spec[1..] ==> e in spec;
      SelectNonePass(o, spec[1..]);
    }
  }

  /**
   * When `keep` says of each key of `spec` whether its gate passes, the produced keys are
   * `spec`'s keys filtered by `keep`, in order.
   */
  lemma {:induction false} SelectKeys(o: Obj, spec: seq<(string, Gate)>, keep: string -> bool)
    requires forall e :: e in spec ==> keep(e.0) == Passes(e.1, Get(o, e.0))
    ensures Keys(Select(o, spec)) == Seqs.Filter(SpecKeys(spec), keep)
  {
    if spec != [] {
      var e, rest := spec[0], spec[1..];
      var tail := Select(o, rest);
      assert e in spec;
      assert forall x :: x in rest ==> x in spec;
      SelectKeys(o, rest, keep);
      assert Select(o, spec) == Step(o, e) + tail;
      KeysAppend(Step(o, e), tail);
      var sk := SpecKeys(spec);
      assert sk[0] == e.0 && sk[1..] == SpecKeys(rest);
      assert Keys(Step(o, e)) == (if keep(e.0) then [e.0] else []);
    }
  }

  lemma KeysAppend(a: Params, b: Params)
    ensures Keys(a + b) == Keys(a) + Keys(b)
  {
    var l, r := Keys(a + b), Keys(a) + Keys(b);
    forall i | 0 <= i < |l| ensures l[i] == r[i] {
      if i < |a| {
        assert (a + b)[i] == a[i];
      } else {
        assert (a + b)[i] == b[i - |a|];
      }
    }
  }

  /** Every produced pair carries the text of its key's value. */
  lemma {:induction false} SelectValues(o: Obj, spec: seq<(string, Gate)>)
    ensures forall p :: p in Select(o, spec) ==> p.1 == ToText(Get(o, p.0))
  {
    if spec != [] {
      SelectValues(o, spec[1..]);
      assert Select(o, spec) == Step(o, spec[0]) + Select(o, spec[1..]);
    }
  }
}
