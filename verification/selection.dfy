/** Order-preserving selection: `xs.map(f).filter(Boolean)` and the
    `if (!ok) return null` skips inside a `.map`, stated once with the
    indices of the kept elements as a witness. */
module Selection {

  import opened Js

  /** The present values of `opts`, in their original order. */
  function Choose<T>(opts: seq<Option<T>>): (r: seq<T>)
    ensures |r| <= |opts|
    ensures (forall i :: 0 <= i < |opts| ==> opts[i].Some?) ==> |r| == |opts|
    ensures (forall i :: 0 <= i < |opts| ==> opts[i].None?) ==> r == []
    decreases |opts|
  {
    if |opts| == 0 then []
    else
      var last := opts[|opts| - 1];
      Choose(opts[..|opts| - 1]) + (if last.Some? then [last.value] else [])
  }

  ghost predicate StrictlyIncreasing(idx: seq<nat>) {
    forall k, l :: 0 <= k < l < |idx| ==> idx[k] < idx[l]
  }

  /** The positions of the present values of `opts`, in increasing order. */
  function KeptIndices<T>(opts: seq<Option<T>>): (idx: seq<nat>)
    ensures forall k :: 0 <= k < |idx| ==> idx[k] < |opts|
    decreases |opts|
  {
    if |opts| == 0 then []
    else
      var n := |opts| - 1;
      if opts[n].Some? then KeptIndices(opts[..n]) + [n] else KeptIndices(opts[..n])
  }

  /** The kept indices are exactly the positions holding a value, each
      listed once, in increasing order. */
  lemma {:induction false} KeptIndicesExact<T>(opts: seq<Option<T>>)
    ensures forall k :: 0 <= k < |KeptIndices(opts)| ==> opts[KeptIndices(opts)[k]].Some?
    ensures forall i :: 0 <= i < |opts| && opts[i].Some? ==> i in KeptIndices(opts)
    ensures StrictlyIncreasing(KeptIndices(opts))
    decreases |opts|
  {
    if |opts| > 0 {
      var n := |opts| - 1;
      var front := opts[..n];
      KeptIndicesExact(front);
      var ci, ri := KeptIndices(front), KeptIndices(opts);
      assert ri == ci + (if opts[n].Some? then [n] else []);
      forall k | 0 <= k < |ri|
        ensures opts[ri[k]].Some?
      {
        if k < |ci| {
          assert front[ci[k]] == opts[ci[k]];
        }
      }
      forall i | 0 <= i < |opts| && opts[i].Some?
        ensures i in ri
      {
        if i < n {
          assert front[i] == opts[i];
        }
      }
    }
  }

  /** `Choose` keeps exactly the present values, one per kept index and in
      index order: element `k` of the result is the value at the `k`-th
      kept position. */
  lemma {:induction false} ChooseFollowsKeptIndices<T>(opts: seq<Option<T>>)
    ensures |Choose(opts)| == |KeptIndices(opts)|
    ensures forall k :: 0 <= k < |Choose(opts)| ==>
              opts[KeptIndices(opts)[k]] == Some(Choose(opts)[k])
    decreases |opts|
  {
    if |opts| > 0 {
      var n := |opts| - 1;
      var front := opts[..n];
      ChooseFollowsKeptIndices(front);
      var c, ci := Choose(front), KeptIndices(front);
      var r, ri := Choose(opts), KeptIndices(opts);
      assert r == c + (if opts[n].Some? then [opts[n].value] else []);
      assert ri == ci + (if opts[n].Some? then [n] else []);
      forall k | 0 <= k < |r|
        ensures opts[ri[k]] == Some(r[k])
      {
        if k < |c| {
          assert r[k] == c[k] && ri[k] == ci[k];
          assert front[ci[k]] == opts[ci[k]];
        }
      }
    }
  }

  /** The chosen values are the present values at the kept indices, every
      present position is kept, and the kept indices increase. */
  lemma ChooseKept<T>(opts: seq<Option<T>>)
    ensures var r, idx := Choose(opts), KeptIndices(opts);
            |r| == |idx| && StrictlyIncreasing(idx)
            && (forall i :: 0 <= i < |opts| ==> (opts[i].Some? <==> i in idx))
            && forall k :: 0 <= k < |r| ==> idx[k] < |opts| && opts[idx[k]] == Some(r[k])
  {
    ChooseFollowsKeptIndices(opts);
    KeptIndicesExact(opts);
  }

  /** A present first position is chosen first. */
  lemma ChooseFirst<T>(opts: seq<Option<T>>)
    ensures |opts| > 0 && opts[0].Some? ==> |Choose(opts)| > 0 && Choose(opts)[0] == opts[0].value
  {
    if |opts| > 0 && opts[0].Some? {
      ChooseKept(opts);
      var idx := KeptIndices(opts);
      assert 0 in idx;
      assert idx[0] == 0;
    }
  }

  /** Appending one position appends its value, if present. */
  lemma ChooseSnoc<T>(opts: seq<Option<T>>, o: Option<T>)
    ensures Choose(opts + [o]) == Choose(opts) + (if o.Some? then [o.value] else [])
  {
    assert (opts + [o])[..|opts|] == opts;
  }

  /** A value is chosen exactly when it is present at some position. */
  lemma {:induction false} ChooseMembership<T>(opts: seq<Option<T>>, x: T)
    ensures x in Choose(opts) <==> exists i :: 0 <= i < |opts| && opts[i] == Some(x)
    decreases |opts|
  {
    if |opts| > 0 {
      var n := |opts| - 1;
      ChooseMembership(opts[..n], x);
      if x in Choose(opts) && x !in Choose(opts[..n]) {
        assert opts[n] == Some(x);
      }
      if exists i :: 0 <= i < |opts| && opts[i] == Some(x) {
        var i :| 0 <= i < |opts| && opts[i] == Some(x);
        if i < n {
          assert opts[..n][i] == Some(x);
        }
      }
    }
  }

  /** With every position present nothing is dropped: element `k` of the
      result is the value at position `k`. */
  lemma {:induction false} ChooseAllPresent<T>(opts: seq<Option<T>>)
    requires forall i :: 0 <= i < |opts| ==> opts[i].Some?
    ensures |Choose(opts)| == |opts|
    ensures forall k :: 0 <= k < |opts| ==> opts[k] == Some(Choose(opts)[k])
    decreases |opts|
  {
    if |opts| > 0 {
      var n := |opts| - 1;
      var front := opts[..n];
      ChooseAllPresent(front);
      forall k | 0 <= k < |opts|
        ensures opts[k] == Some(Choose(opts)[k])
      {
        if k < n {
          assert front[k] == opts[k];
        }
      }
    }
  }
}
