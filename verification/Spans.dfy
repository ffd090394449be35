/** Byte spans of a file, and what it means for a list of them to be an orderly cover. */
module Spans {
  datatype Span = Span(offset: nat, length: nat) {
    function End(): nat {
      offset + length
    }

    predicate Has(i: int) {
      offset <= i < End()
    }
  }

  // Non-empty, one after the other, without overlap, all within `lo` .. `hi`.
  ghost predicate Ordered(spans: seq<Span>, lo: nat, hi: nat) {
    && (forall k :: 0 <= k < |spans| ==> lo <= spans[k].offset && spans[k].length > 0 && spans[k].End() <= hi)
    && (forall k, l :: 0 <= k < l < |spans| ==> spans[k].End() <= spans[l].offset)
  }

  ghost predicate Covered(spans: seq<Span>, i: int) {
    exists k :: 0 <= k < |spans| && spans[k].Has(i)
  }

  ghost predicate Together(spans: seq<Span>, i: int, j: int) {
    exists k :: 0 <= k < |spans| && spans[k].Has(i) && spans[k].Has(j)
  }

  lemma OrderedConcat(a: seq<Span>, b: seq<Span>, lo: nat, mid: nat, hi: nat)
    requires lo <= mid <= hi && Ordered(a, lo, mid) && Ordered(b, mid, hi)
    ensures Ordered(a + b, lo, hi)
  {
    forall k, l | 0 <= k < l < |a + b|
      ensures (a + b)[k].End() <= (a + b)[l].offset
    {
      if k < |a| <= l {
        assert (a + b)[k] == a[k] && (a + b)[l] == b[l - |a|];
      }
    }
  }

  lemma CoveredConcat(a: seq<Span>, b: seq<Span>, i: int)
    ensures Covered(a + b, i) <==> Covered(a, i) || Covered(b, i)
  {
    var s := a + b;
    if Covered(s, i) {
      var k :| 0 <= k < |s| && s[k].Has(i);
      assert k < |a| ==> a[k].Has(i);
      assert k >= |a| ==> b[k - |a|].Has(i);
    }
    if Covered(a, i) {
      var k :| 0 <= k < |a| && a[k].Has(i);
      assert s[k].Has(i);
    }
    if Covered(b, i) {
      var k :| 0 <= k < |b| && b[k].Has(i);
      assert s[|a| + k].Has(i);
    }
  }

  // Two orderly lists with the same spans are the same list.
  lemma {:induction false} OrderedByElements(a: seq<Span>, b: seq<Span>, lo: nat, hi: nat)
    requires Ordered(a, lo, hi) && Ordered(b, lo, hi)
    requires forall s :: s in a <==> s in b
    ensures a == b
  {
    if a == [] {
      HasElement(b);
    } else {
      assert a[0] in b;
      assert b[0] in a;
      FirstIsLeast(a, b[0], lo, hi);
      FirstIsLeast(b, a[0], lo, hi);
      assert a[0] == b[0];
      forall s
        ensures s in a[1..] <==> s in b[1..]
      {
        NotAgain(a, s, lo, hi);
        NotAgain(b, s, lo, hi);
      }
      OrderedByElements(a[1..], b[1..], lo, hi);
    }
  }

  lemma HasElement(a: seq<Span>)
    ensures a == [] || exists s :: s in a
  {
    assert a == [] || a[0] in a;
  }

  lemma FirstIsLeast(a: seq<Span>, s: Span, lo: nat, hi: nat)
    requires Ordered(a, lo, hi) && s in a
    ensures s == a[0] || a[0].offset < s.offset
  {
  }

  lemma NotAgain(a: seq<Span>, s: Span, lo: nat, hi: nat)
    requires Ordered(a, lo, hi) && a != []
    ensures s in a[1..] <==> s in a && s != a[0]
  {
    assert a == [a[0]] + a[1..];
  }
}
