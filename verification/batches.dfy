/**
 * What both batch loops share: the pipeline configuration, the model of
 * `load_db` (it fills the batch with up to `capacity` records and returns
 * how many it read), and the partition of the input into batches that the
 * loops are proved to produce.
 */
module Batches {

  /** The configuration the batch loops read: the capacity of a batch
      (`batch_size`, assumed equal to the `capacity_bam_rec` that
      `init_db` gives every batch) and the `--debug-break` flag. */
  datatype Config = Config(capacity: int, debugBreak: bool)

  /**
   * `load_db` modelled on an input of `available` remaining records: it
   * reads a full batch when there is enough input, and otherwise all that
   * is left, so a short count means the input is exhausted.
   */
  function LoadCount(capacity: int, available: nat): (n: nat)
    requires capacity >= 1
    ensures n <= capacity && n <= available
    ensures n == capacity || n == available
  {
    if available < capacity then available else capacity
  }

  /**
   * The batches a loop that runs while the last load was full produces:
   * full batches while at least `capacity` records remain, then one short
   * batch with the rest, which is empty when the input length is a
   * multiple of the capacity.
   */
  function Chunks<R>(capacity: int, xs: seq<R>): seq<seq<R>>
    requires capacity >= 1
    decreases |xs|
  {
    if |xs| < capacity then [xs]
    else [xs[..capacity]] + Chunks(capacity, xs[capacity..])
  }

  /** The records of a sequence of batches, in batch order. */
  function Concat<R>(bs: seq<seq<R>>): seq<R> {
    if |bs| == 0 then [] else Concat(bs[..|bs| - 1]) + bs[|bs| - 1]
  }

  lemma ConcatAppend<R>(bs: seq<seq<R>>, b: seq<R>)
    ensures Concat(bs + [b]) == Concat(bs) + b
  {
    assert (bs + [b])[..|bs|] == bs;
  }

  lemma {:induction false} ConcatPrepend<R>(b: seq<R>, bs: seq<seq<R>>)
    ensures Concat([b] + bs) == b + Concat(bs)
    decreases |bs|
  {
    if |bs| == 0 {
      assert [b] + bs == [] + [b];
      ConcatAppend([], b);
    } else {
      var init := bs[..|bs| - 1];
      var last := bs[|bs| - 1];
      assert bs == init + [last];
      assert [b] + bs == ([b] + init) + [last];
      calc {
        Concat([b] + bs);
        { ConcatAppend([b] + init, last); }
        Concat([b] + init) + last;
        { ConcatPrepend(b, init); }
        b + Concat(init) + last;
        { ConcatAppend(init, last); }
        b + Concat(bs);
      }
    }
  }

  /** The batches are a partition of the input: together they hold every
      record once, in input order; all of them are full except the last,
      which is short (possibly empty). */
  lemma {:induction false} ChunksPartition<R>(capacity: int, xs: seq<R>)
    requires capacity >= 1
    ensures |Chunks(capacity, xs)| >= 1
    ensures Concat(Chunks(capacity, xs)) == xs
    ensures forall i :: 0 <= i < |Chunks(capacity, xs)| - 1 ==> |Chunks(capacity, xs)[i]| == capacity
    ensures |Chunks(capacity, xs)[|Chunks(capacity, xs)| - 1]| < capacity
    decreases |xs|
  {
    if |xs| < capacity {
      ConcatAppend([], xs);
      assert [] + [xs] == [xs];
    } else {
      var rest := Chunks(capacity, xs[capacity..]);
      ChunksPartition(capacity, xs[capacity..]);
      ConcatPrepend(xs[..capacity], rest);
      assert xs[..capacity] + xs[capacity..] == xs;
      var all := Chunks(capacity, xs);
      assert all == [xs[..capacity]] + rest;
      forall i | 0 <= i < |all| - 1
        ensures |all[i]| == capacity
      {
        if i > 0 {
          assert all[i] == rest[i - 1];
        }
      }
    }
  }

  /** N records in batches of C make floor(N / C) + 1 batches. */
  lemma {:induction false} ChunksCount<R>(capacity: int, xs: seq<R>)
    requires capacity >= 1
    ensures |Chunks(capacity, xs)| == |xs| / capacity + 1
    decreases |xs|
  {
    if |xs| >= capacity {
      ChunksCount(capacity, xs[capacity..]);
      DivStep(|xs|, capacity);
    }
  }

  lemma DivStep(n: int, c: int)
    requires c >= 1 && n >= c
    ensures (n - c) / c + 1 == n / c
  {
    var q := (n - c) / c;
    var r := (n - c) % c;
    assert n - c == q * c + r;
    assert n == (q + 1) * c + r;
    DivUnique(n, c, q + 1, r);
  }

  lemma DivUnique(n: int, c: int, q: int, r: int)
    requires c >= 1 && 0 <= r < c && n == q * c + r
    ensures n / c == q
  {
    var q0 := n / c;
    var r0 := n % c;
    assert n == q0 * c + r0;
    assert (q - q0) * c == r0 - r;
    if q > q0 {
      MulAtLeast(q - q0, c);
    } else if q < q0 {
      MulAtLeast(q0 - q, c);
    }
  }

  lemma MulAtLeast(k: int, c: int)
    requires k >= 1 && c >= 1
    ensures k * c >= c
  {
  }

  /** The first batch is the first `capacity` records, or all of them. */
  lemma FirstChunk<R>(capacity: int, xs: seq<R>)
    requires capacity >= 1
    ensures Chunks(capacity, xs)[0] == xs[..LoadCount(capacity, |xs|)]
  {
  }

  /**
   * How far a batch loop has come: while the last load was full (or before
   * the first load), the batches so far followed by the batches of the
   * unread input are the batches of the whole input; once a load came back
   * short, the batches so far are all of them.
   */
  ghost predicate Pending<R>(capacity: int, input: seq<R>, batches: seq<seq<R>>, cursor: nat, status: int)
    requires capacity >= 1
  {
    && cursor <= |input|
    && if status >= capacity then batches + Chunks(capacity, input[cursor..]) == Chunks(capacity, input)
       else batches == Chunks(capacity, input)
  }

  /** One `load_db` call keeps `Pending`: it appends the next batch of the
      partition and advances the input cursor by the count it returns. */
  lemma LoadStep<R>(capacity: int, input: seq<R>, batches: seq<seq<R>>, cursor: nat, status: int)
    requires capacity >= 1 && status >= capacity
    requires Pending(capacity, input, batches, cursor, status)
    ensures var n := LoadCount(capacity, |input| - cursor);
      Pending(capacity, input, batches + [input[cursor..cursor + n]], cursor + n, n)
  {
    var rest := input[cursor..];
    var n := LoadCount(capacity, |input| - cursor);
    assert input[cursor..cursor + n] == rest[..n];
    if n == capacity && |rest| >= capacity {
      assert input[cursor + n..] == rest[capacity..];
      assert batches + [rest[..capacity]] + Chunks(capacity, rest[capacity..])
             == batches + Chunks(capacity, rest);
    } else {
      assert rest[..n] == rest;
    }
  }

  /** Once a loop that stopped after its first batch has loaded, that batch
      is the first batch of the partition. */
  lemma PendingSingle<R>(capacity: int, input: seq<R>, batches: seq<seq<R>>, cursor: nat, status: int)
    requires capacity >= 1 && |batches| == 1
    requires Pending(capacity, input, batches, cursor, status)
    ensures batches[0] == Chunks(capacity, input)[0]
  {
    if status >= capacity {
      assert (batches + Chunks(capacity, input[cursor..]))[0] == batches[0];
    }
  }

}
