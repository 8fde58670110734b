/** Uploading a list in consecutive fixed-size batches, as the Python
    loaders do with `for i in range(0, len(data), size): data[i:i + size]`.
    Each batch is sent whatever happened to the previous one; the outcome
    of each send is an input. */
module Chunking {

  /** The batches `range(0, len(s), size)` slices out of s. */
  function Chunks<T>(s: seq<T>, size: nat): (r: seq<seq<T>>)
    requires size > 0
    ensures forall c :: c in r ==> 0 < |c| <= size
    decreases |s|
  {
    if s == [] then []
    else if |s| <= size then [s]
    else [s[..size]] + Chunks(s[size..], size)
  }

  function Flatten<T>(parts: seq<seq<T>>): seq<T> {
    if parts == [] then [] else parts[0] + Flatten(parts[1..])
  }

  /** The batches cover the list, in order, without gaps or overlaps. */
  lemma {:induction false} ChunksCover<T>(s: seq<T>, size: nat)
    requires size > 0
    ensures Flatten(Chunks(s, size)) == s
    decreases |s|
  {
    if |s| > size {
      ChunksCover(s[size..], size);
      assert s == s[..size] + s[size..];
    }
  }

  /** There are ceil(|s| / size) batches, stated without division: size
      times the count is at least |s| and less than |s| + size. Every
      batch but the last is full. */
  lemma {:induction false} ChunkCount<T>(s: seq<T>, size: nat)
    requires size > 0
    ensures |s| <= |Chunks(s, size)| * size < |s| + size
    ensures forall k :: 0 <= k < |Chunks(s, size)| - 1 ==> |Chunks(s, size)[k]| == size
    decreases |s|
  {
    if |s| > size {
      var r, t := Chunks(s, size), Chunks(s[size..], size);
      ChunkCount(s[size..], size);
      assert r == [s[..size]] + t;
      MulSucc(|t|, size);
      forall k | 0 <= k < |r| - 1 ensures |r[k]| == size {
        if k > 0 {
          assert r[k] == t[k - 1];
        }
      }
    }
  }

  lemma MulSucc(a: nat, b: nat)
    ensures (a + 1) * b == a * b + b
  {
  }

  /** One step of the loop: the batch starting at i ends at the smaller of
      i + size and |s|, and the rest are the batches of what follows it. */
  lemma ChunksStep<T>(s: seq<T>, i: nat, size: nat)
    requires size > 0 && i < |s|
    ensures var end := if i + size <= |s| then i + size else |s|;
      Chunks(s[i..], size) == [s[i..end]] + Chunks(s[end..], size)
  {
    var t := s[i..];
    if |t| <= size {
      assert t == s[i..|s|];
      assert s[|s|..] == [];
    } else {
      assert t[..size] == s[i..i + size] && t[size..] == s[i + size..];
    }
  }

  /** The loop's step: sending the batch at i keeps the sent batches
      followed by the remaining ones equal. */
  lemma SentStep<T>(sent: seq<seq<T>>, s: seq<T>, i: nat, size: nat)
    requires size > 0 && i < |s|
    ensures var end := if i + size <= |s| then i + size else |s|;
      (sent + [s[i..end]]) + Chunks(s[end..], size) == sent + Chunks(s[i..], size)
  {
    var end := if i + size <= |s| then i + size else |s|;
    ChunksStep(s, i, size);
    assert (sent + [s[i..end]]) + Chunks(s[end..], size) == sent + ([s[i..end]] + Chunks(s[end..], size));
  }

  /** The 1-based numbers of the first `count` batches whose send failed,
      in sending order. */
  function Failed(count: nat, sentOk: nat -> bool): seq<nat> {
    if count == 0 then [] else Failed(count - 1, sentOk) + (if sentOk(count - 1) then [] else [count])
  }

  /** A batch number is logged as failed exactly when that send failed,
      each at most once and in increasing order. */
  lemma {:induction false} FailedMembers(count: nat, sentOk: nat -> bool)
    ensures forall n :: n in Failed(count, sentOk) <==> 1 <= n <= count && !sentOk(n - 1)
    ensures forall k :: 0 < k < |Failed(count, sentOk)| ==> Failed(count, sentOk)[k - 1] < Failed(count, sentOk)[k]
  {
    if count > 0 {
      var p, r := Failed(count - 1, sentOk), Failed(count, sentOk);
      FailedMembers(count - 1, sentOk);
      forall k | 0 < k < |r| ensures r[k - 1] < r[k] {
        if k < |p| {
          assert r[k - 1] == p[k - 1] && r[k] == p[k];
        } else {
          assert r[k - 1] == p[k - 1] && p[k - 1] in p;
        }
      }
    }
  }

  /** The upload loop: every batch is sent in order, and the numbers
      (1-based, as logged) of the batches whose send failed are collected
      while the loop goes on. */
  method SendBatches<T>(data: seq<T>, size: nat, sentOk: nat -> bool) returns (sent: seq<seq<T>>, failed: seq<nat>)
    requires size > 0
    ensures sent == Chunks(data, size)
    ensures failed == Failed(|sent|, sentOk)
  {
    sent := [];
    failed := [];
    var i := 0;
    while i < |data|
      invariant 0 <= i <= |data|
      invariant sent + Chunks(data[i..], size) == Chunks(data, size)
      invariant failed == Failed(|sent|, sentOk)
      decreases |data| - i
    {
      var end := if i + size <= |data| then i + size else |data|;
      var batch := data[i..end];
      SentStep(sent, data, i, size);
      failed := failed + if sentOk(|sent|) then [] else [|sent| + 1];
      sent := sent + [batch];
      i := end;
    }
    assert sent + Chunks(data[i..], size) == sent;
  }
}
