/** Splitting the list of image files into the batches that go out one message each,
    and the two batch-number formulas the progress text shows. */
module Batching {

  /** At most this many attachments go into one message. */
  const MAX_FILES_PER_MESSAGE: nat := 10

  function Min(a: int, b: int): int {
    if a <= b then a else b
  }

  /** The concatenation of a sequence of sequences, in order. */
  function Flatten<T>(ss: seq<seq<T>>): seq<T> {
    if ss == [] then [] else ss[0] + Flatten(ss[1..])
  }

  lemma {:induction false} FlattenAppend<T>(a: seq<seq<T>>, b: seq<seq<T>>)
    ensures Flatten(a + b) == Flatten(a) + Flatten(b)
  {
    if a == [] {
      assert a + b == b;
    } else {
      assert (a + b)[1..] == a[1..] + b;
      FlattenAppend(a[1..], b);
    }
  }

  /** Taking one more element of a sequence appends that element. */
  lemma TakeSnoc<T>(s: seq<T>, k: nat)
    requires 0 < k <= |s|
    ensures s[..k] == s[..k - 1] + [s[k - 1]]
  {
  }

  /** Flattening one more sequence appends its elements. */
  lemma FlattenSnoc<T>(ss: seq<seq<T>>, k: nat)
    requires 0 < k <= |ss|
    ensures Flatten(ss[..k]) == Flatten(ss[..k - 1]) + ss[k - 1]
  {
    TakeSnoc(ss, k);
    FlattenAppend(ss[..k - 1], [ss[k - 1]]);
    assert [ss[k - 1]][1..] == [];
  }

  /** `total_batches` as the command computes it: `(n - 1) // 10 + 1`. Dafny's `/` with a
      positive divisor rounds towards minus infinity, as Python's `//` does, so the
      formula is the same for every n (it gives 0 for n = 0). The result is the
      ceiling of n / 10: the fewest batches of at most ten that hold n files. */
  function TotalBatches(n: nat): (r: nat)
    ensures (r - 1) * MAX_FILES_PER_MESSAGE < n <= r * MAX_FILES_PER_MESSAGE
  {
    (n - 1) / MAX_FILES_PER_MESSAGE + 1
  }

  /** `current_batch` as the command computes it from the loop offset i: `i // 10 + 1`.
      The result is the 1-based number of the batch that holds the file at offset i. */
  function CurrentBatch(i: nat): (r: nat)
    ensures 1 <= r
    ensures (r - 1) * MAX_FILES_PER_MESSAGE <= i < r * MAX_FILES_PER_MESSAGE
  {
    i / MAX_FILES_PER_MESSAGE + 1
  }

  /** The loop offsets 0, 10, 20, ... that the command visits for n files are numbered
      1, 2, ..., TotalBatches(n), and each of them lies inside the list. */
  lemma BatchNumbering(n: nat, j: nat)
    requires j < TotalBatches(n)
    ensures j * MAX_FILES_PER_MESSAGE < n
    ensures CurrentBatch(j * MAX_FILES_PER_MESSAGE) == j + 1
    ensures 1 <= CurrentBatch(j * MAX_FILES_PER_MESSAGE) <= TotalBatches(n)
  {
  }

  /** Reference definition of the batching: nothing for no files, all of them when they
      fit in one batch, otherwise the first ten followed by the batches of the rest. There
      are ceil(n / 10) batches. */
  function Chunks<T>(s: seq<T>): (r: seq<seq<T>>)
    ensures |r| == TotalBatches(|s|)
    decreases |s|
  {
    if s == [] then []
    else if |s| <= MAX_FILES_PER_MESSAGE then [s]
    else [s[..MAX_FILES_PER_MESSAGE]] + Chunks(s[MAX_FILES_PER_MESSAGE..])
  }

  lemma MulSucc(j: nat)
    ensures (j + 1) * MAX_FILES_PER_MESSAGE == j * MAX_FILES_PER_MESSAGE + MAX_FILES_PER_MESSAGE
  {
  }

  /** Beyond the first batch, the batches of a long list are those of the rest. */
  lemma ChunksUnfold<T>(s: seq<T>, j: nat)
    requires |s| > MAX_FILES_PER_MESSAGE
    requires 0 < j < |Chunks(s)|
    ensures Chunks(s)[j] == Chunks(s[MAX_FILES_PER_MESSAGE..])[j - 1]
  {
  }

  /** Every batch holds between one and ten files, and every batch but the last holds
      exactly ten. */
  lemma {:induction false} ChunkSizes<T>(s: seq<T>)
    ensures forall j :: 0 <= j < |Chunks(s)| ==> 0 < |Chunks(s)[j]| <= MAX_FILES_PER_MESSAGE
    ensures forall j :: 0 <= j < |Chunks(s)| - 1 ==> |Chunks(s)[j]| == MAX_FILES_PER_MESSAGE
    decreases |s|
  {
    if |s| > MAX_FILES_PER_MESSAGE {
      var rest := s[MAX_FILES_PER_MESSAGE..];
      ChunkSizes(rest);
      forall j | 0 < j < |Chunks(s)|
        ensures Chunks(s)[j] == Chunks(rest)[j - 1]
      {
        ChunksUnfold(s, j);
      }
    }
  }

  /** The batches, concatenated in order, give back the list exactly: no file is lost,
      repeated or moved. */
  lemma {:induction false} ChunksFlatten<T>(s: seq<T>)
    ensures Flatten(Chunks(s)) == s
    decreases |s|
  {
    if s == [] {
    } else if |s| <= MAX_FILES_PER_MESSAGE {
      assert [s][1..] == [];
      assert s + [] == s;
    } else {
      var rest := s[MAX_FILES_PER_MESSAGE..];
      ChunksFlatten(rest);
      var cs := Chunks(s);
      assert cs[1..] == Chunks(rest);
      assert s == s[..MAX_FILES_PER_MESSAGE] + rest;
    }
  }

  /** The batch at position j of the reference batching is the slice `s[i:i + 10]` the
      command takes at loop offset i = 10 * j (Python's slice stops at the end of the list). */
  lemma {:induction false} ChunkAt<T>(s: seq<T>, j: nat)
    requires j < |Chunks(s)|
    ensures j * MAX_FILES_PER_MESSAGE < |s|
    ensures Chunks(s)[j] == s[j * MAX_FILES_PER_MESSAGE .. Min(j * MAX_FILES_PER_MESSAGE + MAX_FILES_PER_MESSAGE, |s|)]
  {
    var m := MAX_FILES_PER_MESSAGE;
    if j == 0 {
      assert Chunks(s)[0] == s[..Min(m, |s|)];
    } else {
      var rest := s[m..];
      var lo := (j - 1) * m;
      var hi := Min(lo + m, |rest|);
      assert j * m == lo + m by {
        MulSucc(j - 1);
      }
      assert Chunks(s)[j] == Chunks(rest)[j - 1] by {
        ChunksUnfold(s, j);
      }
      assert Chunks(rest)[j - 1] == rest[lo..hi] && lo < |rest| by {
        ChunkAt(rest, j - 1);
      }
      assert rest[lo..hi] == s[lo + m .. hi + m];
    }
  }

  /** The first k batches hold exactly the first 10 * k files (all of them once k reaches
      the number of batches). */
  lemma {:induction false} ChunksPrefix<T>(s: seq<T>, k: nat)
    requires k <= |Chunks(s)|
    ensures Flatten(Chunks(s)[..k]) == s[..Min(k * MAX_FILES_PER_MESSAGE, |s|)]
  {
    if k > 0 {
      ChunksPrefix(s, k - 1);
      FlattenSnoc(Chunks(s), k);
      ChunkAt(s, k - 1);
      var lo := (k - 1) * MAX_FILES_PER_MESSAGE;
      assert Min(lo, |s|) == lo;
      assert s[..lo] + s[lo .. Min(lo + MAX_FILES_PER_MESSAGE, |s|)] == s[..Min(k * MAX_FILES_PER_MESSAGE, |s|)];
    }
  }

  /** Ten files go out as a single batch of ten. */
  lemma TenFilesOneBatch<T>(s: seq<T>)
    requires |s| == 10
    ensures Chunks(s) == [s]
  {
  }

  /** Eleven files go out as a batch of ten followed by a batch of one. */
  lemma ElevenFilesTwoBatches<T>(s: seq<T>)
    requires |s| == 11
    ensures Chunks(s) == [s[..10], s[10..]]
    ensures |Chunks(s)[0]| == 10 && |Chunks(s)[1]| == 1
  {
    assert Chunks(s[10..]) == [s[10..]];
  }
}
