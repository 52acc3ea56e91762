/** Shared vocabulary of the models. */
module Prelude {

  datatype Option<+T> = None | Some(value: T)

  datatype Result<+T, +E> = Ok(value: T) | Err(error: E)

  type byte = b: int | 0 <= b < 256

  type Bytes = seq<byte>

  function Lookup<K, V>(m: map<K, V>, k: K): Option<V> {
    if k in m then Some(m[k]) else None
  }

  lemma HeadAndTail<T>(xs: seq<T>)
    requires xs != []
    ensures xs == [xs[0]] + xs[1..] && (|xs| == 1 ==> xs == [xs[0]])
  {
  }

  lemma FrontAndLast<T>(xs: seq<T>)
    requires xs != []
    ensures xs == xs[..|xs| - 1] + [xs[|xs| - 1]]
  {
  }

  lemma SplitFirst<T>(a: seq<T>, x: T, b: seq<T>)
    ensures a + ([x] + b) == (a + [x]) + b && (a + ([x] + b))[..|a|] == a
  {
  }

  lemma TakeMore<T>(xs: seq<T>, n: nat)
    requires n < |xs|
    ensures xs[..n + 1] == xs[..n] + [xs[n]]
  {
  }

  lemma PlusPlus<T>(a: seq<T>, b: seq<T>, c: seq<T>)
    ensures a + (b + c) == (a + b) + c
  {
  }

  lemma NilPlus<T>(xs: seq<T>)
    ensures [] + xs == xs && xs + [] == xs
  {
  }

  lemma TakeAndDrop<T>(xs: seq<T>, n: nat)
    requires n <= |xs|
    ensures xs == xs[..n] + xs[n..]
  {
  }

  /** The concatenation of a list of pieces. */
  function Join<T>(pieces: seq<seq<T>>): seq<T> {
    if pieces == [] then [] else Join(pieces[..|pieces| - 1]) + pieces[|pieces| - 1]
  }

  lemma {:induction false} JoinPlus<T>(a: seq<seq<T>>, b: seq<seq<T>>)
    ensures Join(a + b) == Join(a) + Join(b)
  {
    if b == [] {
      assert a + b == a;
    } else {
      var n := |b| - 1;
      assert (a + b)[..|a + b| - 1] == a + b[..n];
      JoinPlus(a, b[..n]);
      assert (Join(a) + Join(b[..n])) + b[n] == Join(a) + (Join(b[..n]) + b[n]);
    }
  }

  lemma JoinFew<T>(a: seq<T>, b: seq<T>)
    ensures Join([a]) == a && Join([a, b]) == a + b
  {
    var none: seq<seq<T>> := [];
    assert [a][..0] == none && [a, b][..1] == [a];
    assert Join(none) + a == a;
  }

  /** Pieces of `size` elements, the last one shorter if need be; none for an empty sequence. */
  function Chunks<T>(xs: seq<T>, size: nat): seq<seq<T>>
    requires size > 0
  {
    if xs == [] then [] else if |xs| <= size then [xs] else [xs[..size]] + Chunks(xs[size..], size)
  }

  /** Chunking loses nothing, and every chunk but the last is full. */
  lemma {:induction false} ChunksJoin<T>(xs: seq<T>, size: nat)
    requires size > 0
    ensures Join(Chunks(xs, size)) == xs
    ensures forall i :: 0 <= i < |Chunks(xs, size)| ==> 0 < |Chunks(xs, size)[i]| <= size
    ensures forall i :: 0 <= i < |Chunks(xs, size)| - 1 ==> |Chunks(xs, size)[i]| == size
    decreases |xs|
  {
    if xs != [] && |xs| <= size {
      JoinFew(xs, xs);
    } else if xs != [] {
      ChunksJoin(xs[size..], size);
      JoinFew(xs[..size], xs[..size]);
      JoinPlus([xs[..size]], Chunks(xs[size..], size));
    }
  }

  /** The next chunk of a loop that has cut `done` elements off. */
  lemma NextChunk<T>(xs: seq<T>, done: nat, size: nat)
    requires size > 0 && done < |xs|
    ensures var end := if done + size < |xs| then done + size else |xs|;
            Chunks(xs[done..], size) == [xs[done..end]] + Chunks(xs[end..], size)
  {
    if |xs| - done <= size {
      assert xs[done..] == xs[done..|xs|] && xs[|xs|..] == [];
    } else {
      assert xs[done..][..size] == xs[done..done + size] && xs[done..][size..] == xs[done + size..];
    }
  }

  /** The images of all elements, one after the other. */
  function Flat<S, T>(xs: seq<S>, image: S -> seq<T>): seq<T> {
    if xs == [] then [] else image(xs[0]) + Flat(xs[1..], image)
  }

  lemma {:induction false} FlatPlus<S, T>(a: seq<S>, b: seq<S>, image: S -> seq<T>)
    ensures Flat(a + b, image) == Flat(a, image) + Flat(b, image)
  {
    if a == [] {
      assert a + b == b;
    } else {
      FlatPlus(a[1..], b, image);
      assert (a + b)[1..] == a[1..] + b;
      assert (image(a[0]) + Flat(a[1..], image)) + Flat(b, image) ==
        image(a[0]) + (Flat(a[1..], image) + Flat(b, image));
    }
  }

  lemma FlatFew<S, T>(a: S, b: S, image: S -> seq<T>)
    ensures Flat([a], image) == image(a) && Flat([a, b], image) == image(a) + image(b)
  {
    assert [a, b][1..] == [b] && [b][1..] == [] && [a][1..] == [];
    assert image(a) + Flat([], image) == image(a) && image(b) + Flat([], image) == image(b);
  }

  lemma FlatMore<S, T>(xs: seq<S>, i: nat, image: S -> seq<T>)
    requires i < |xs|
    ensures Flat(xs[..i + 1], image) == Flat(xs[..i], image) + image(xs[i])
  {
    assert xs[..i + 1] == xs[..i] + [xs[i]];
    FlatPlus(xs[..i], [xs[i]], image);
    FlatFew(xs[i], xs[i], image);
  }
}
