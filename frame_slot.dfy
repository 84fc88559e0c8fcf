/**
 * The latest-frame slot of app/jni/src/camera.c as values: what
 * `processYUVImage` does to the `cImage` fields `data`, `length`, `width`,
 * `height` and `new`. The imperative model in camera.dfy is proved against
 * these functions.
 */
module FrameSlot {
  import opened Wrappers

  function Max(a: int, b: int): (m: int)
  {
    if a < b then b else a
  }

  /**
   * The slot: the storage (`None` is a null `data` pointer), the high-water
   * mark `length`, the dimensions of the last stored frame, and the `new` flag.
   */
  datatype SlotState = SlotState(data: Option<seq<bv8>>, length: nat, width: int, height: int, isNew: bool)

  /** The state `cImage_New` leaves: a zero-filled struct. */
  const Empty := SlotState(None, 0, 0, 0, false)

  /** Allocated storage always holds exactly `length` bytes. */
  predicate Valid(s: SlotState)
  {
    s.data.Some? ==> |s.data.value| == s.length
  }

  /** The bytes `calloc` hands back. */
  function Zeros(n: nat): (z: seq<bv8>)
    ensures |z| == n && forall i :: 0 <= i < n ==> z[i] == 0
  {
    seq(n, _ => 0)
  }

  /** GetByteArrayRegion into `buf`: its prefix is replaced, its tail is kept. */
  function CopyIn(buf: seq<bv8>, bytes: seq<bv8>): (r: seq<bv8>)
    requires |bytes| <= |buf|
  {
    bytes + buf[|bytes|..]
  }

  /**
   * Whether a frame of `n` bytes makes the slot reallocate. The source tests
   * only `n > length`; a missing buffer after a failed growth must be
   * reallocated too.
   */
  predicate MustGrow(s: SlotState, n: nat)
  {
    n > s.length || (s.data.None? && n > 0)
  }

  /**
   * One call of processYUVImage with the corrected growth test. Growth raises
   * `length` and drops the old storage before allocating; if the allocation
   * fails, `data` stays null and nothing else changes. Otherwise the frame's
   * bytes overwrite the storage's prefix and the frame becomes the latest one.
   */
  function Submitted(s: SlotState, bytes: seq<bv8>, width: int, height: int, allocOk: bool): (r: SlotState)
    requires Valid(s)
    ensures Valid(r)
    ensures r.length == Max(s.length, |bytes|)
  {
    var n := |bytes|;
    if MustGrow(s, n) then
      var len := Max(s.length, n);
      if allocOk then SlotState(Some(CopyIn(Zeros(len), bytes)), len, width, height, true)
      else s.(data := None, length := len)
    else
      var data := if s.data.None? then None else Some(CopyIn(s.data.value, bytes));
      s.(data := data, width := width, height := height, isNew := true)
  }

  /**
   * processYUVImage exactly as written, with `None` for the call that copies a
   * non-empty frame through a null `data` pointer. It agrees with `Submitted`
   * everywhere else, and fails exactly when an earlier growth left no storage
   * and the frame is no larger than the recorded length.
   */
  function SubmittedAsWritten(s: SlotState, bytes: seq<bv8>, width: int, height: int, allocOk: bool)
    : (r: Option<SlotState>)
    requires Valid(s)
    ensures r.None? <==> s.data.None? && 0 < |bytes| <= s.length
    ensures r.Some? ==> r.value == Submitted(s, bytes, width, height, allocOk)
  {
    var n := |bytes|;
    if n > s.length then
      if allocOk then
        assert CopyIn(Zeros(n), bytes) == bytes;
        Some(SlotState(Some(bytes), n, width, height, true))
      else Some(s.(data := None, length := n))
    else if s.data.None? && n > 0 then None
    else
      var data := if s.data.None? then None else Some(CopyIn(s.data.value, bytes));
      Some(s.(data := data, width := width, height := height, isNew := true))
  }

  /**
   * The input that shows the fault: a growth whose allocation fails, then any
   * non-empty frame no larger than the failed one.
   */
  lemma NullCopyAfterFailedGrowth(s: SlotState, big: seq<bv8>, small: seq<bv8>, w1: int, h1: int, w2: int, h2: int)
    requires Valid(s) && |big| > s.length && 0 < |small| <= |big|
    ensures SubmittedAsWritten(s, big, w1, h1, false).Some?
    ensures SubmittedAsWritten(SubmittedAsWritten(s, big, w1, h1, false).value, small, w2, h2, true).None?
  {
  }

  /**
   * A submission that does not hit an allocation failure stores the frame:
   * its bytes are the storage's prefix, the bytes after them are those the
   * storage held before (or zeros from a fresh allocation), its dimensions are
   * recorded and `new` is set.
   */
  lemma SubmitStores(s: SlotState, bytes: seq<bv8>, width: int, height: int, allocOk: bool)
    requires Valid(s)
    requires allocOk || !MustGrow(s, |bytes|)
    ensures var r := Submitted(s, bytes, width, height, allocOk);
            r.isNew && r.width == width && r.height == height
            && (|bytes| > 0 ==> r.data.Some? && r.data.value[..|bytes|] == bytes)
            && (s.data.Some? && !MustGrow(s, |bytes|) ==> r.data.value[|bytes|..] == s.data.value[|bytes|..])
            && (MustGrow(s, |bytes|) ==> forall i :: |bytes| <= i < r.length ==> r.data.value[i] == 0)
  {
  }

  /**
   * A failed growth: the old storage is gone, `length` is already raised, and
   * `new`, `width` and `height` are untouched.
   */
  lemma SubmitAllocFailure(s: SlotState, bytes: seq<bv8>, width: int, height: int)
    requires Valid(s) && MustGrow(s, |bytes|)
    ensures var r := Submitted(s, bytes, width, height, false);
            r.data.None? && r.length == Max(s.length, |bytes|) && r.length >= |bytes|
            && r.isNew == s.isNew && r.width == s.width && r.height == s.height
  {
  }

  /**
   * A smaller frame after a larger one overwrites only its own prefix: the
   * larger frame's bytes past it are still there.
   */
  lemma SmallerFrameKeepsTail(s: SlotState, b1: seq<bv8>, b2: seq<bv8>, w1: int, h1: int, w2: int, h2: int, allocOk: bool)
    requires Valid(s) && 0 < |b2| <= |b1|
    requires allocOk || !MustGrow(s, |b1|)
    ensures var r := Submitted(Submitted(s, b1, w1, h1, allocOk), b2, w2, h2, false);
            r.length == Max(s.length, |b1|) && r.data.Some?
            && r.data.value[..|b2|] == b2 && r.data.value[|b2|..|b1|] == b1[|b2|..]
            && r.width == w2 && r.height == h2 && r.isNew
  {
    var s1 := Submitted(s, b1, w1, h1, allocOk);
    SubmitStores(s, b1, w1, h1, allocOk);
    assert !MustGrow(s1, |b2|);
    SubmitStores(s1, b2, w2, h2, false);
    var r := Submitted(s1, b2, w2, h2, false);
    assert r.data.value[|b2|..|b1|] == s1.data.value[|b2|..|b1|];
    assert s1.data.value[..|b1|] == b1;
  }

  /** One submission of the producer, with the outcome of its allocation. */
  datatype Submission = Submission(bytes: seq<bv8>, width: int, height: int, allocOk: bool)

  /** A sequence of submissions with no texture update in between. */
  function SubmittedAll(s: SlotState, subs: seq<Submission>): (r: SlotState)
    requires Valid(s)
    ensures Valid(r)
    decreases |subs|
  {
    if subs == [] then s
    else
      var x := subs[0];
      SubmittedAll(Submitted(s, x.bytes, x.width, x.height, x.allocOk), subs[1..])
  }

  /** The size of the largest frame submitted. */
  function LargestFrame(subs: seq<Submission>): (m: nat)
    ensures forall i :: 0 <= i < |subs| ==> |subs[i].bytes| <= m
    ensures subs != [] ==> exists i :: 0 <= i < |subs| && |subs[i].bytes| == m
  {
    if subs == [] then 0
    else
      var rest := LargestFrame(subs[1..]);
      if |subs[0].bytes| >= rest then |subs[0].bytes|
      else
        assert forall i :: 1 <= i < |subs| ==> subs[i] == subs[1..][i - 1];
        rest
  }

  /**
   * `length` is a high-water mark: after any submissions it is the larger of
   * its old value and the largest frame, so it never decreases.
   */
  lemma {:induction false} LengthIsHighWaterMark(s: SlotState, subs: seq<Submission>)
    requires Valid(s)
    ensures SubmittedAll(s, subs).length == Max(s.length, LargestFrame(subs))
    decreases |subs|
  {
    if subs != [] {
      var x := subs[0];
      var s1 := Submitted(s, x.bytes, x.width, x.height, x.allocOk);
      LengthIsHighWaterMark(s1, subs[1..]);
    }
  }

  /** Submitting a sequence and then one more frame is submitting the longer sequence. */
  lemma {:induction false} SubmittedAllSnoc(s: SlotState, subs: seq<Submission>, x: Submission)
    requires Valid(s)
    ensures SubmittedAll(s, subs + [x])
            == Submitted(SubmittedAll(s, subs), x.bytes, x.width, x.height, x.allocOk)
    decreases |subs|
  {
    if subs == [] {
      assert [x][1..] == [];
    } else {
      var y := subs[0];
      assert (subs + [x])[0] == y && (subs + [x])[1..] == subs[1..] + [x];
      SubmittedAllSnoc(Submitted(s, y.bytes, y.width, y.height, y.allocOk), subs[1..], x);
    }
  }

  /**
   * Latest wins: whatever came before, a last submission whose allocation
   * succeeds leaves exactly its own dimensions and its bytes at the front of
   * the storage, marked new.
   */
  lemma LatestWins(s: SlotState, subs: seq<Submission>)
    requires Valid(s) && subs != [] && subs[|subs| - 1].allocOk
    ensures var last := subs[|subs| - 1];
            var r := SubmittedAll(s, subs);
            r.isNew && r.width == last.width && r.height == last.height
            && (|last.bytes| > 0 ==> r.data.Some? && |last.bytes| <= |r.data.value|
                                     && r.data.value[..|last.bytes|] == last.bytes)
  {
    var n := |subs| - 1;
    assert subs == subs[..n] + [subs[n]];
    SubmittedAllSnoc(s, subs[..n], subs[n]);
    var last := subs[n];
    SubmitStores(SubmittedAll(s, subs[..n]), last.bytes, last.width, last.height, last.allocOk);
  }
}
