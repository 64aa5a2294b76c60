/** The array operation the guild's message lists rely on: `pull`, which
    removes every element equal to its argument (the in-memory counterpart
    of MongoDB's `$pull` update operator). */
module MongooseArray {

  /** `array.pull(x)`: the elements of `xs` other than `x`, in their order. */
  function Pull<T(==)>(xs: seq<T>, x: T): (r: seq<T>)
    ensures x !in r
    ensures |r| <= |xs|
  {
    if xs == [] then []
    else if xs[0] == x then Pull(xs[1..], x)
    else [xs[0]] + Pull(xs[1..], x)
  }

  /** Pull removes every copy of `x` and keeps every copy of anything else. */
  lemma {:induction false} PullCount<T>(xs: seq<T>, x: T)
    ensures multiset(Pull(xs, x)) == multiset(xs)[x := 0]
  {
    if xs != [] {
      assert xs == [xs[0]] + xs[1..];
      PullCount(xs[1..], x);
    }
  }

  /** `s` can be obtained from `xs` by deleting elements, keeping the order
      of those that remain. */
  ghost predicate IsSubsequence<T>(s: seq<T>, xs: seq<T>)
    decreases |xs|
  {
    if s == [] then true
    else if xs == [] then false
    else (s[0] == xs[0] && IsSubsequence(s[1..], xs[1..])) || IsSubsequence(s, xs[1..])
  }

  /** Pull keeps the relative order of what remains. */
  lemma {:induction false} PullIsSubsequence<T>(xs: seq<T>, x: T)
    ensures IsSubsequence(Pull(xs, x), xs)
  {
    if xs != [] {
      PullIsSubsequence(xs[1..], x);
      var r := Pull(xs, x);
      if xs[0] == x {
        SubsequenceOfTail(r, xs);
      } else {
        assert r[0] == xs[0] && r[1..] == Pull(xs[1..], x);
      }
    }
  }

  /** A subsequence of the tail is a subsequence of the whole. */
  lemma {:induction false} SubsequenceOfTail<T>(s: seq<T>, xs: seq<T>)
    requires xs != [] && IsSubsequence(s, xs[1..])
    ensures IsSubsequence(s, xs)
  {
  }

  /** A subsequence holds no more copies of any value than the sequence. */
  lemma {:induction false} SubsequenceCount<T>(s: seq<T>, xs: seq<T>, y: T)
    requires IsSubsequence(s, xs)
    ensures multiset(s)[y] <= multiset(xs)[y]
    decreases |xs|
  {
    if s != [] {
      assert xs == [xs[0]] + xs[1..];
      if s[0] == xs[0] && IsSubsequence(s[1..], xs[1..]) {
        SubsequenceCount(s[1..], xs[1..], y);
        assert s == [s[0]] + s[1..];
      } else {
        SubsequenceCount(s, xs[1..], y);
      }
    }
  }

  /** Pull is the only order-keeping deletion that removes exactly the copies
      of `x`: any subsequence of `xs` whose multiset is `xs`'s without `x` is
      `Pull(xs, x)`. */
  lemma {:induction false} PullUnique<T>(xs: seq<T>, x: T, s: seq<T>)
    requires IsSubsequence(s, xs)
    requires multiset(s) == multiset(xs)[x := 0]
    ensures s == Pull(xs, x)
    decreases |xs|
  {
    if xs != [] {
      var h, t := xs[0], xs[1..];
      assert xs == [h] + t;
      if h == x {
        assert multiset(s) == multiset(t)[x := 0];
        if s != [] {
          assert s[0] in multiset(s);
          assert s[0] != h;
        }
        PullUnique(t, x, s);
      } else {
        assert multiset(s)[h] == multiset(t)[h] + 1;
        if IsSubsequence(s, t) {
          SubsequenceCount(s, t, h);
          assert false;
        }
        assert s == [h] + s[1..];
        forall y ensures multiset(s[1..])[y] == multiset(t)[x := 0][y] {
          assert multiset(s)[y] == multiset([h])[y] + multiset(s[1..])[y];
          assert multiset(xs)[y] == multiset([h])[y] + multiset(t)[y];
        }
        assert multiset(s[1..]) == multiset(t)[x := 0];
        PullUnique(t, x, s[1..]);
      }
    }
  }

  /** Pulling a value that is not there changes nothing. */
  lemma {:induction false} PullAbsent<T>(xs: seq<T>, x: T)
    requires x !in xs
    ensures Pull(xs, x) == xs
  {
    if xs != [] {
      PullAbsent(xs[1..], x);
      assert xs == [xs[0]] + xs[1..];
    }
  }

  /** Pull works element by element, so it distributes over concatenation. */
  lemma {:induction false} PullAppend<T>(xs: seq<T>, ys: seq<T>, x: T)
    ensures Pull(xs + ys, x) == Pull(xs, x) + Pull(ys, x)
  {
    if xs == [] {
      assert xs + ys == ys;
    } else {
      var zs := xs + ys;
      assert zs[0] == xs[0] && zs[1..] == xs[1..] + ys;
      PullAppend(xs[1..], ys, x);
      if xs[0] == x {
        assert Pull(zs, x) == Pull(xs[1..] + ys, x);
        assert Pull(xs, x) == Pull(xs[1..], x);
      } else {
        assert Pull(zs, x) == [xs[0]] + Pull(xs[1..] + ys, x);
        assert Pull(xs, x) == [xs[0]] + Pull(xs[1..], x);
      }
    }
  }

  /** Pushing `x` and then pulling it is the same as pulling it. */
  lemma PullAfterPush<T>(xs: seq<T>, x: T)
    ensures Pull(xs + [x], x) == Pull(xs, x)
  {
    PullAppend(xs, [x], x);
    assert Pull([x], x) == [];
  }

  /** Pulling twice is pulling once. */
  lemma PullIdempotent<T>(xs: seq<T>, x: T)
    ensures Pull(Pull(xs, x), x) == Pull(xs, x)
  {
    PullAbsent(Pull(xs, x), x);
  }
}
