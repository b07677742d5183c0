/** Order-preserving selection over sequences: what `filter`, and a `reduce`
    that pushes some elements' images, compute. */
module Seqs {
  import opened Wrappers

  /** The images `f` gives, in order, dropping the elements it maps to None. */
  function FilterMap<A, B>(s: seq<A>, f: A -> Option<B>): seq<B>
  {
    if s == [] then []
    else (match f(s[0]) case Some(b) => [b] case None => []) + FilterMap(s[1..], f)
  }

  /** `s.filter(keep)` */
  function Filter<A>(s: seq<A>, keep: A -> bool): seq<A>
  {
    FilterMap(s, (x: A) => if keep(x) then Some(x) else None)
  }

  /** `idx` lists in increasing order exactly the positions of `s` that `f`
      keeps, and `r` holds their images in that order. */
  ghost predicate SelectedAt<A, B>(s: seq<A>, f: A -> Option<B>, r: seq<B>, idx: seq<nat>)
  {
    && |idx| == |r|
    && (forall j :: 0 <= j < |idx| ==> idx[j] < |s| && f(s[idx[j]]) == Some(r[j]))
    && (forall j, j' :: 0 <= j < j' < |idx| ==> idx[j] < idx[j'])
    && (forall i :: 0 <= i < |s| && f(s[i]).Some? ==> exists j :: 0 <= j < |idx| && idx[j] == i)
  }

  /** FilterMap keeps exactly the elements `f` accepts, in their order. */
  lemma {:induction false} FilterMapSelects<A, B>(s: seq<A>, f: A -> Option<B>) returns (idx: seq<nat>)
    ensures SelectedAt(s, f, FilterMap(s, f), idx)
    ensures |FilterMap(s, f)| <= |s|
  {
    if s == [] {
      idx := [];
    } else {
      var rest := FilterMapSelects(s[1..], f);
      idx := ExtendSelection(s, f, FilterMap(s[1..], f), rest);
    }
  }

  /** A selection from the tail extends to one from the whole sequence,
      with the head's image in front when `f` keeps the head. */
  lemma ExtendSelection<A, B>(s: seq<A>, f: A -> Option<B>, tail: seq<B>, rest: seq<nat>) returns (idx: seq<nat>)
    requires s != [] && SelectedAt(s[1..], f, tail, rest)
    ensures SelectedAt(s, f, (match f(s[0]) case Some(b) => [b] case None => []) + tail, idx)
  {
    var shifted := Shift(rest);
    ShiftSelects(s, f, tail, rest);
    match f(s[0])
    case Some(b) =>
      idx := [0] + shifted;
      KeptHead(s, f, b, tail, shifted);
    case None =>
      idx := shifted;
      assert [] + tail == tail;
      DroppedHead(s, f, tail, shifted);
  }

  function Shift(idx: seq<nat>): (r: seq<nat>)
    ensures |r| == |idx| && forall j :: 0 <= j < |idx| ==> r[j] == idx[j] + 1
  {
    seq(|idx|, j requires 0 <= j < |idx| => idx[j] + 1)
  }

  /** Positions in the tail, shifted by one, select the same images from the whole sequence. */
  lemma ShiftSelects<A, B>(s: seq<A>, f: A -> Option<B>, tail: seq<B>, rest: seq<nat>)
    requires s != [] && SelectedAt(s[1..], f, tail, rest)
    ensures var sh := Shift(rest);
      && |sh| == |tail|
      && (forall j :: 0 <= j < |sh| ==> 1 <= sh[j] < |s| && f(s[sh[j]]) == Some(tail[j]))
      && (forall j, j' :: 0 <= j < j' < |sh| ==> sh[j] < sh[j'])
      && (forall i :: 1 <= i < |s| && f(s[i]).Some? ==> exists j :: 0 <= j < |sh| && sh[j] == i)
  {
    ShiftImages(s, f, tail, rest);
    ShiftCovers(s, f, tail, rest);
  }

  lemma ShiftImages<A, B>(s: seq<A>, f: A -> Option<B>, tail: seq<B>, rest: seq<nat>)
    requires s != [] && SelectedAt(s[1..], f, tail, rest)
    ensures var sh := Shift(rest);
      forall j :: 0 <= j < |sh| ==> 1 <= sh[j] < |s| && f(s[sh[j]]) == Some(tail[j])
  {
    var sh := Shift(rest);
    forall j | 0 <= j < |sh|
      ensures 1 <= sh[j] < |s| && f(s[sh[j]]) == Some(tail[j])
    {
      assert s[sh[j]] == s[1..][rest[j]];
    }
  }

  lemma ShiftCovers<A, B>(s: seq<A>, f: A -> Option<B>, tail: seq<B>, rest: seq<nat>)
    requires s != [] && SelectedAt(s[1..], f, tail, rest)
    ensures var sh := Shift(rest);
      forall i :: 1 <= i < |s| && f(s[i]).Some? ==> exists j :: 0 <= j < |sh| && sh[j] == i
  {
    var sh := Shift(rest);
    forall i | 1 <= i < |s| && f(s[i]).Some?
      ensures exists j :: 0 <= j < |sh| && sh[j] == i
    {
      assert s[i] == s[1..][i - 1];
      var j :| 0 <= j < |rest| && rest[j] == i - 1;
      assert sh[j] == i;
    }
  }

  lemma KeptHead<A, B>(s: seq<A>, f: A -> Option<B>, b: B, tail: seq<B>, sh: seq<nat>)
    requires s != [] && f(s[0]) == Some(b)
    requires |sh| == |tail|
    requires forall j :: 0 <= j < |sh| ==> 1 <= sh[j] < |s| && f(s[sh[j]]) == Some(tail[j])
    requires forall j, j' :: 0 <= j < j' < |sh| ==> sh[j] < sh[j']
    requires forall i :: 1 <= i < |s| && f(s[i]).Some? ==> exists j :: 0 <= j < |sh| && sh[j] == i
    ensures SelectedAt(s, f, [b] + tail, [0] + sh)
  {
    var idx := [0] + sh;
    KeptHeadImages(s, f, b, tail, sh);
    forall i | 0 <= i < |s| && f(s[i]).Some?
      ensures exists j :: 0 <= j < |idx| && idx[j] == i
    {
      if i == 0 {
        assert idx[0] == 0;
      } else {
        var j :| 0 <= j < |sh| && sh[j] == i;
        assert idx[j + 1] == i;
      }
    }
  }

  /** With the head in front, positions still select their images in
      increasing order. */
  lemma KeptHeadImages<A, B>(s: seq<A>, f: A -> Option<B>, b: B, tail: seq<B>, sh: seq<nat>)
    requires s != [] && f(s[0]) == Some(b)
    requires |sh| == |tail|
    requires forall j :: 0 <= j < |sh| ==> 1 <= sh[j] < |s| && f(s[sh[j]]) == Some(tail[j])
    requires forall j, j' :: 0 <= j < j' < |sh| ==> sh[j] < sh[j']
    ensures forall j :: 0 <= j < |sh| + 1 ==> ([0] + sh)[j] < |s| && f(s[([0] + sh)[j]]) == Some(([b] + tail)[j])
    ensures forall j, j' :: 0 <= j < j' < |sh| + 1 ==> ([0] + sh)[j] < ([0] + sh)[j']
  {
  }

  lemma DroppedHead<A, B>(s: seq<A>, f: A -> Option<B>, tail: seq<B>, sh: seq<nat>)
    requires s != [] && f(s[0]).None?
    requires |sh| == |tail|
    requires forall j :: 0 <= j < |sh| ==> 1 <= sh[j] < |s| && f(s[sh[j]]) == Some(tail[j])
    requires forall j, j' :: 0 <= j < j' < |sh| ==> sh[j] < sh[j']
    requires forall i :: 1 <= i < |s| && f(s[i]).Some? ==> exists j :: 0 <= j < |sh| && sh[j] == i
    ensures SelectedAt(s, f, tail, sh)
  {
  }

  /** FilterMap over one more element appends that element's image, if any. */
  lemma FilterMapSnoc<A, B>(s: seq<A>, x: A, f: A -> Option<B>)
    ensures FilterMap(s + [x], f) == FilterMap(s, f) + (match f(x) case Some(b) => [b] case None => [])
  {
    FilterMapConcat(s, [x], f);
    assert [x][1..] == [];
  }

  /** FilterMap distributes over concatenation, so it can be computed by a
      loop that appends each element's image. */
  lemma {:induction false} FilterMapConcat<A, B>(a: seq<A>, b: seq<A>, f: A -> Option<B>)
    ensures FilterMap(a + b, f) == FilterMap(a, f) + FilterMap(b, f)
  {
    if a == [] {
      assert a + b == b;
    } else {
      assert (a + b)[0] == a[0];
      assert (a + b)[1..] == a[1..] + b;
      FilterMapConcat(a[1..], b, f);
    }
  }
}
