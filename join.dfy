/** Python's `sep.join(parts)` on strings, and what it promises. */
module StringJoin {

  /** `sep.join(xs)`: the empty list gives "", one part gives that part, otherwise the parts in
      order with `sep` between each neighbouring pair. */
  function Join(sep: string, xs: seq<string>): string
    decreases |xs|
  {
    if |xs| == 0 then ""
    else if |xs| == 1 then xs[0]
    else xs[0] + sep + Join(sep, xs[1..])
  }

  /** Sum of the lengths of the parts. */
  function TotalLength(xs: seq<string>): nat
    decreases |xs|
  {
    if |xs| == 0 then 0 else |xs[0]| + TotalLength(xs[1..])
  }

  /** Where part `i` starts in `Join(sep, xs)`: every earlier part and its separator come first. */
  function Offset(sep: string, xs: seq<string>, i: nat): nat
    requires i <= |xs|
  {
    TotalLength(xs[..i]) + |sep| * i
  }

  lemma {:induction false} TotalLengthAppend(xs: seq<string>, ys: seq<string>)
    ensures TotalLength(xs + ys) == TotalLength(xs) + TotalLength(ys)
    decreases |xs|
  {
    if |xs| == 0 {
      assert xs + ys == ys;
    } else {
      assert (xs + ys)[1..] == xs[1..] + ys;
      TotalLengthAppend(xs[1..], ys);
    }
  }

  /** The length of a join of n >= 1 parts is the parts' total length plus n - 1 separators. */
  lemma {:induction false} JoinLength(sep: string, xs: seq<string>)
    requires |xs| >= 1
    ensures |Join(sep, xs)| == TotalLength(xs) + |sep| * (|xs| - 1)
    decreases |xs|
  {
    if |xs| > 1 {
      var tail := xs[1..];
      JoinLength(sep, tail);
      assert Join(sep, xs) == xs[0] + sep + Join(sep, tail);
      assert TotalLength(xs) == |xs[0]| + TotalLength(tail);
      assert |sep| * (|xs| - 1) == |sep| * (|tail| - 1) + |sep|;
    }
  }

  /** Joining a concatenation of two non-empty lists is joining each and putting one separator
      between the two results. */
  lemma {:induction false} JoinAppend(sep: string, xs: seq<string>, ys: seq<string>)
    requires |xs| >= 1 && |ys| >= 1
    ensures Join(sep, xs + ys) == Join(sep, xs) + sep + Join(sep, ys)
    decreases |xs|
  {
    if |xs| == 1 {
      assert (xs + ys)[1..] == ys;
    } else {
      assert (xs + ys)[1..] == xs[1..] + ys;
      JoinAppend(sep, xs[1..], ys);
    }
  }

  /** Part `i + 1` starts one part and one separator after part `i`. */
  lemma OffsetNext(sep: string, xs: seq<string>, i: nat)
    requires i < |xs|
    ensures Offset(sep, xs, i + 1) == Offset(sep, xs, i) + |xs[i]| + |sep|
  {
    assert xs[..i + 1] == xs[..i] + [xs[i]];
    TotalLengthAppend(xs[..i], [xs[i]]);
  }

  /** Past the first part, offsets are those in the tail shifted by the first part and one
      separator. */
  lemma OffsetTail(sep: string, xs: seq<string>, i: nat)
    requires 0 < i <= |xs|
    ensures Offset(sep, xs, i) == |xs[0]| + |sep| + Offset(sep, xs[1..], i - 1)
  {
    assert xs[..i][0] == xs[0];
    assert xs[..i][1..] == xs[1..][..i - 1];
    assert |sep| * i == |sep| + |sep| * (i - 1);
  }

  /** Order is preserved: part `i` sits unchanged at `Offset(sep, xs, i)`, and when a later part
      exists, exactly one separator follows it. */
  lemma {:induction false} JoinPartAt(sep: string, xs: seq<string>, i: nat)
    requires i < |xs|
    ensures Offset(sep, xs, i) + |xs[i]| <= |Join(sep, xs)|
    ensures Join(sep, xs)[Offset(sep, xs, i)..Offset(sep, xs, i) + |xs[i]|] == xs[i]
    ensures i + 1 < |xs| ==>
              Offset(sep, xs, i) + |xs[i]| + |sep| <= |Join(sep, xs)| &&
              Join(sep, xs)[Offset(sep, xs, i) + |xs[i]|..Offset(sep, xs, i) + |xs[i]| + |sep|] == sep
    decreases |xs|
  {
    var j := Join(sep, xs);
    if i == 0 {
      assert xs[..0] == [];
      assert Offset(sep, xs, 0) == 0;
    } else {
      var tail := xs[1..];
      JoinPartAt(sep, tail, i - 1);
      OffsetTail(sep, xs, i);
      var rest := Join(sep, tail);
      assert j == xs[0] + sep + rest;
      var k := |xs[0]| + |sep|;
      var ot := Offset(sep, tail, i - 1);
      assert xs[i] == tail[i - 1];
      assert j[k + ot..k + ot + |xs[i]|] == rest[ot..ot + |xs[i]|];
      if i + 1 < |xs| {
        var o := ot + |xs[i]|;
        assert j[k + o..k + o + |sep|] == rest[o..o + |sep|];
      }
    }
  }
}
