/** Small datatypes and sequence facts shared by the loader and SQuAD models. */
module Common {

  datatype Option<T> = None | Some(value: T)

  /** The value of an operation that may raise: `Err` carries the exception. */
  datatype Result<T, E> = Ok(value: T) | Err(error: E)

  /** Left-to-right sum of a list of widths, as `reduce(lambda a, s: a + s, xs, 0)`. */
  function Sum(xs: seq<nat>): nat
  {
    if xs == [] then 0 else Sum(xs[..|xs| - 1]) + xs[|xs| - 1]
  }

  /** Concatenation of a list of lists, as `np.concatenate` along the first axis. */
  function Flatten<T>(xss: seq<seq<T>>): seq<T>
  {
    if xss == [] then [] else Flatten(xss[..|xss| - 1]) + xss[|xss| - 1]
  }

  lemma {:induction false} SumAppend(xs: seq<nat>, ys: seq<nat>)
    ensures Sum(xs + ys) == Sum(xs) + Sum(ys)
    decreases |ys|
  {
    if ys == [] {
      assert xs + ys == xs;
    } else {
      var init := ys[..|ys| - 1];
      assert (xs + ys)[..|xs + ys| - 1] == xs + init;
      SumAppend(xs, init);
    }
  }

  lemma {:induction false} FlattenAppend<T>(xss: seq<seq<T>>, yss: seq<seq<T>>)
    ensures Flatten(xss + yss) == Flatten(xss) + Flatten(yss)
    decreases |yss|
  {
    if yss == [] {
      assert xss + yss == xss;
    } else {
      var init, last := yss[..|yss| - 1], yss[|yss| - 1];
      var zs := xss + yss;
      assert zs[..|zs| - 1] == xss + init;
      assert zs[|zs| - 1] == last;
      FlattenAppend(xss, init);
      assert Flatten(zs) == Flatten(xss) + Flatten(init) + last;
      assert Flatten(xss) + Flatten(init) + last == Flatten(xss) + (Flatten(init) + last);
    }
  }

  /** Taking s[i..j] off the front of s[i..] leaves s[j..]. */
  lemma SliceSplit<T>(s: seq<T>, i: nat, j: nat)
    requires i <= j <= |s|
    ensures s[i..j] + s[j..] == s[i..]
  {
  }

  /** A prefix is the shorter prefix followed by the slice between them. */
  lemma PrefixSplit<T>(s: seq<T>, lo: nat, hi: nat)
    requires lo <= hi <= |s|
    ensures s[..hi] == s[..lo] + s[lo..hi]
  {
  }

  /** Extending a prefix by one element adds that element to its sum. */
  lemma SumPrefix(xs: seq<nat>, i: nat)
    requires i < |xs|
    ensures Sum(xs[..i + 1]) == Sum(xs[..i]) + xs[i]
  {
    assert xs[..i + 1][..i] == xs[..i];
  }

  /** Sum reads the first element as well as the last. */
  lemma {:induction false} SumFront(xs: seq<nat>)
    requires xs != []
    ensures Sum(xs) == xs[0] + Sum(xs[1..])
  {
    assert xs == [xs[0]] + xs[1..];
    SumAppend([xs[0]], xs[1..]);
    assert [xs[0]][..0] == [];
  }

  lemma {:induction false} FlattenFront<T>(xss: seq<seq<T>>)
    requires xss != []
    ensures Flatten(xss) == xss[0] + Flatten(xss[1..])
  {
    assert xss == [xss[0]] + xss[1..];
    FlattenAppend([xss[0]], xss[1..]);
    assert [xss[0]][..0] == [];
  }
}
