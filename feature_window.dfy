// The feature-window fill callback `sample_accel` and the static `readings`
// buffer it fills (src/main.cpp:39-72). The classifier pulls its input through
// this callback: each call fetches ceil(length / 3) accelerometer samples,
// writes them as x, y, z triples into `readings` from index 0, and copies the
// first `length` values into the caller's buffer.

module FeatureWindow {
  import opened Sensor

  /** The number of fetches the fill loop makes for `length` features, one
      per step of 3: ceil(length / 3). */
  function SamplesFor(length: nat): (n: nat)
    ensures 3 * n >= length && 3 * n < length + 3
  {
    if length == 0 then 0
    else if length <= 3 then 1
    else 1 + SamplesFor(length - 3)
  }

  /** The loop writes readings[i], readings[i + 1] and readings[i + 2] for
      i = 0, 3, ... below `length`; this says those writes stay in a buffer of
      `frameSize` values, or that the length guard rejects the call first. */
  predicate WritesFit(frameSize: nat, length: nat) {
    length > frameSize || 3 * SamplesFor(length) <= frameSize
  }

  /** The guard `length > frameSize` keeps every write in bounds exactly when
      the frame size is a multiple of 3; otherwise length == frameSize passes
      the guard and the last triple runs past the end. */
  lemma GuardSufficientIffFrameOfTriples(frameSize: nat)
    ensures (forall length: nat :: WritesFit(frameSize, length)) <==> frameSize % 3 == 0
  {
    if frameSize % 3 == 0 {
      forall length: nat ensures WritesFit(frameSize, length) {
        if length <= frameSize {
          var m := frameSize / 3;
          assert frameSize == 3 * m;
          assert SamplesFor(length) <= m;
        }
      }
    } else {
      assert !WritesFit(frameSize, frameSize);
    }
  }

  /** The values the fill loop writes for the samples `rs`, in order: the
      converted x, y and z of each sample. */
  function Flatten(rs: seq<Reading>): (vs: seq<real>)
    ensures |vs| == 3 * |rs|
  {
    if rs == [] then []
    else
      var last := rs[|rs| - 1];
      Flatten(rs[..|rs| - 1]) + [ToFloat(last.x), ToFloat(last.y), ToFloat(last.z)]
  }

  /** Values 3k, 3k + 1 and 3k + 2 of `w` are the converted x, y and z of `r`. */
  predicate TripleHolds(w: seq<real>, k: nat, r: Reading) {
    3 * k + 2 < |w| && w[3 * k] == ToFloat(r.x) && w[3 * k + 1] == ToFloat(r.y) && w[3 * k + 2] == ToFloat(r.z)
  }

  /** Triple k of the flattened values is sample k. */
  lemma {:induction false} FlattenAt(rs: seq<Reading>, k: nat)
    requires k < |rs|
    ensures TripleHolds(Flatten(rs), k, rs[k])
  {
    if k < |rs| - 1 {
      FlattenAt(rs[..|rs| - 1], k);
    }
  }

  /** A buffer holding `window` after the samples `rs` were written as triples from index 0. */
  function Overwrite(window: seq<real>, rs: seq<Reading>): (w: seq<real>)
    requires 3 * |rs| <= |window|
    ensures |w| == |window|
  {
    Flatten(rs) + window[3 * |rs|..]
  }

  /** Triple k of the overwritten buffer is sample k. */
  lemma OverwriteAt(window: seq<real>, rs: seq<Reading>, k: nat)
    requires 3 * |rs| <= |window| && k < |rs|
    ensures TripleHolds(Overwrite(window, rs), k, rs[k])
  {
    FlattenAt(rs, k);
  }

  /** Writing the next sample's triple into the overwritten buffer overwrites one more sample. */
  lemma OverwriteNext(window: seq<real>, rs: seq<Reading>, r: Reading)
    requires 3 * |rs| + 3 <= |window|
    ensures var n := 3 * |rs|;
      Overwrite(window, rs)[n := ToFloat(r.x)][n + 1 := ToFloat(r.y)][n + 2 := ToFloat(r.z)]
        == Overwrite(window, rs + [r])
  {
    var n := 3 * |rs|;
    var triple := [ToFloat(r.x), ToFloat(r.y), ToFloat(r.z)];
    assert (rs + [r])[..|rs|] == rs;
    assert Flatten(rs + [r]) == Flatten(rs) + triple;
    var before := Overwrite(window, rs);
    var written := before[n := triple[0]][n + 1 := triple[1]][n + 2 := triple[2]];
    var expected := Flatten(rs) + triple + window[n + 3..];
    forall j | 0 <= j < |window| ensures written[j] == expected[j] {
      if j < n {
        assert written[j] == before[j] == Flatten(rs)[j];
      } else if j >= n + 3 {
        assert written[j] == before[j] == window[j];
      }
    }
    assert written == expected;
  }

  /** The samples delivered by at most `n` fetches starting at fetch number
      `start`, stopping at the first failed fetch. */
  function Leading(feed: nat -> Fetch, start: nat, n: nat): (rs: seq<Reading>)
    ensures |rs| <= n
    ensures forall j :: start <= j < start + |rs| ==> feed(j) == Sampled(rs[j - start])
    ensures |rs| < n ==> feed(start + |rs|).Failed?
    decreases n
  {
    if n == 0 then []
    else
      match feed(start)
      case Failed => []
      case Sampled(r) => [r] + Leading(feed, start + 1, n - 1)
  }

  /** The fetches numbered `start` onwards delivered the samples `got`, in order. */
  ghost predicate DeliveredRun(feed: nat -> Fetch, start: nat, got: seq<Reading>) {
    forall j :: start <= j < start + |got| ==> feed(j) == Sampled(got[j - start])
  }

  /** A delivered run grows by the sample of the next fetch when that fetch succeeds. */
  lemma DeliveredRunExtends(feed: nat -> Fetch, start: nat, got: seq<Reading>, r: Reading)
    requires DeliveredRun(feed, start, got)
    requires feed(start + |got|) == Sampled(r)
    ensures DeliveredRun(feed, start, got + [r])
  {
    var got' := got + [r];
    forall j | start <= j < start + |got'| ensures feed(j) == Sampled(got'[j - start]) {
      if j < start + |got| {
        assert got'[j - start] == got[j - start];
      }
    }
  }

  /** Leading is the one delivered run that ends at the bound or at a failed fetch. */
  lemma LeadingIsMaximalRun(feed: nat -> Fetch, start: nat, n: nat, got: seq<Reading>)
    requires |got| <= n
    requires DeliveredRun(feed, start, got)
    requires |got| < n ==> feed(start + |got|).Failed?
    ensures Leading(feed, start, n) == got
  {
    var rs := Leading(feed, start, n);
    forall k | 0 <= k < |rs| ensures rs[k] == got[k] {
      assert Sampled(rs[k]) == feed(start + k) == Sampled(got[k]);
    }
  }

  /** Once the delivered samples are written as triples, triple k holds the
      sample of fetch start + k. */
  lemma OverwriteLeading(window: seq<real>, feed: nat -> Fetch, start: nat, n: nat)
    requires 3 * n <= |window|
    ensures var rs := Leading(feed, start, n);
      forall j :: start <= j < start + |rs| ==>
        feed(j).Sampled? && TripleHolds(Overwrite(window, rs), j - start, feed(j).reading)
  {
    var rs := Leading(feed, start, n);
    forall j | start <= j < start + |rs|
      ensures feed(j).Sampled? && TripleHolds(Overwrite(window, rs), j - start, feed(j).reading)
    {
      OverwriteAt(window, rs, j - start);
    }
  }

  /** The effect of one call: its return code, the new `readings`, the new
      contents of the caller's buffer and the number of sensor fetches. */
  datatype Outcome = Outcome(rc: int, window: seq<real>, out: seq<real>, fetches: nat)

  /** What one call of sample_accel does to a buffer holding `window`, a
      caller's buffer holding `out`, and a sensor whose next fetch is number
      `start`. The `offset` argument has no part in it. */
  function SampleAccelSpec(window: seq<real>, out: seq<real>,
                           feed: nat -> Fetch, start: nat, length: nat): (o: Outcome)
    requires WritesFit(|window|, length) && length <= |out|
    ensures o.rc == 0 || o.rc == 1
    ensures |o.window| == |window| && |o.out| == |out|
  {
    if length > |window| then Outcome(1, window, out, 0)
    else
      var n := SamplesFor(length);
      var rs := Leading(feed, start, n);
      var filled := Overwrite(window, rs);
      if |rs| < n then Outcome(1, filled, out, |rs| + 1)
      else Outcome(0, filled, filled[..length] + out[length..], n)
  }

  /** A length above the frame size fails with 1 before any fetch and changes nothing. */
  lemma GuardRejectsUntouched(window: seq<real>, out: seq<real>,
                              feed: nat -> Fetch, start: nat, length: nat)
    requires length > |window| && length <= |out|
    ensures SampleAccelSpec(window, out, feed, start, length) == Outcome(1, window, out, 0)
  {
  }

  /** The call succeeds exactly when the length passes the guard and each of
      the ceil(length / 3) fetches it needs succeeds. */
  lemma SuccessIffAllFetchesSucceed(window: seq<real>, out: seq<real>,
                                    feed: nat -> Fetch, start: nat, length: nat)
    requires WritesFit(|window|, length) && length <= |out|
    ensures SampleAccelSpec(window, out, feed, start, length).rc == 0
        <==> length <= |window| && forall j :: start <= j < start + SamplesFor(length) ==> feed(j).Sampled?
  {
    if length <= |window| {
      var rs := Leading(feed, start, SamplesFor(length));
      if |rs| < SamplesFor(length) {
        assert SampleAccelSpec(window, out, feed, start, length).rc == 1;
        assert !feed(start + |rs|).Sampled?;
      } else {
        assert SampleAccelSpec(window, out, feed, start, length).rc == 0;
      }
    }
  }

  /** On success exactly ceil(length / 3) samples are fetched and the
      caller's buffer receives the first `length` values of the buffer and
      keeps the rest. */
  lemma SuccessCopiesPrefix(window: seq<real>, out: seq<real>,
                            feed: nat -> Fetch, start: nat, length: nat)
    requires WritesFit(|window|, length) && length <= |out|
    requires SampleAccelSpec(window, out, feed, start, length).rc == 0
    ensures var o := SampleAccelSpec(window, out, feed, start, length);
      && o.fetches == SamplesFor(length)
      && o.out[..length] == o.window[..length]
      && o.out[length..] == out[length..]
  {
    var o := SampleAccelSpec(window, out, feed, start, length);
    assert o.out == o.window[..length] + out[length..];
  }

  /** On success triple k of the buffer holds the sample of the k-th fetch
      of the call, for each of the ceil(length / 3) fetches. */
  lemma SuccessFillsTriples(window: seq<real>, out: seq<real>,
                            feed: nat -> Fetch, start: nat, length: nat)
    requires WritesFit(|window|, length) && length <= |out|
    requires SampleAccelSpec(window, out, feed, start, length).rc == 0
    ensures var o := SampleAccelSpec(window, out, feed, start, length);
      forall j :: start <= j < start + SamplesFor(length) ==>
        feed(j).Sampled? && TripleHolds(o.window, j - start, feed(j).reading)
  {
    var rs := Leading(feed, start, SamplesFor(length));
    OverwriteLeading(window, feed, start, SamplesFor(length));
    assert |rs| == SamplesFor(length);
  }

  /** A failed fetch aborts the call with 1: the caller's buffer is untouched,
      the failing fetch is the last one made, and only the triples of the
      samples fetched before it have been overwritten. */
  lemma FailureAbortsAtFirstError(window: seq<real>, out: seq<real>,
                                  feed: nat -> Fetch, start: nat, length: nat)
    requires length <= |window| && WritesFit(|window|, length) && length <= |out|
    requires SampleAccelSpec(window, out, feed, start, length).rc == 1
    ensures var o := SampleAccelSpec(window, out, feed, start, length);
      && o.out == out
      && 1 <= o.fetches <= SamplesFor(length)
      && feed(start + o.fetches - 1).Failed?
      && (forall j :: start <= j < start + o.fetches - 1 ==>
            feed(j).Sampled? && TripleHolds(o.window, j - start, feed(j).reading))
      && o.window[3 * (o.fetches - 1)..] == window[3 * (o.fetches - 1)..]
  {
    var rs := Leading(feed, start, SamplesFor(length));
    var o := SampleAccelSpec(window, out, feed, start, length);
    assert o.window == Overwrite(window, rs) && o.fetches == |rs| + 1;
    OverwriteLeading(window, feed, start, SamplesFor(length));
  }

  /** Whatever the outcome, no value at or beyond index 3 * ceil(length / 3) changes. */
  lemma TailUnchanged(window: seq<real>, out: seq<real>,
                      feed: nat -> Fetch, start: nat, length: nat)
    requires WritesFit(|window|, length) && length <= |out|
    ensures var o := SampleAccelSpec(window, out, feed, start, length);
      forall j :: 3 * SamplesFor(length) <= j < |window| ==> o.window[j] == window[j]
  {
    if length <= |window| {
      var rs := Leading(feed, start, SamplesFor(length));
      var o := SampleAccelSpec(window, out, feed, start, length);
      forall j | 3 * SamplesFor(length) <= j < |window| ensures o.window[j] == window[j] {
        assert o.window[j] == window[3 * |rs|..][j - 3 * |rs|];
      }
    }
  }

  /** A successful call that requests the whole frame (a multiple of 3)
      leaves no old value behind: its outcome does not depend on what the
      buffer held. */
  lemma FullFrameForgetsOldWindow(w1: seq<real>, w2: seq<real>, out: seq<real>,
                                  feed: nat -> Fetch, start: nat)
    requires |w1| == |w2| && |w1| % 3 == 0 && |w1| <= |out|
    ensures var o1 := SampleAccelSpec(w1, out, feed, start, |w1|);
      var o2 := SampleAccelSpec(w2, out, feed, start, |w2|);
      o1.rc == 0 ==> o1 == o2
  {
    GuardSufficientIffFrameOfTriples(|w1|);
    assert WritesFit(|w1|, |w1|);
    var n := SamplesFor(|w1|);
    assert 3 * n == |w1|;
  }

  /** The code around `sample_accel`: the static `readings` buffer and the
      accelerometer it fetches from. */
  class Collector {
    /** EI_CLASSIFIER_DSP_INPUT_FRAME_SIZE. */
    const frameSize: nat
    /** The static `readings` buffer. */
    const readings: array<real>
    /** The accelerometer device `accel`. */
    const accel: Accelerometer

    ghost predicate Valid()
      reads this
    {
      readings.Length == frameSize
    }

    constructor (frameSize: nat, accel: Accelerometer)
      ensures Valid() && fresh(readings)
      ensures this.frameSize == frameSize && this.accel == accel
    {
      this.frameSize := frameSize;
      this.accel := accel;
      readings := new real[frameSize];
    }

    /** The get_data callback: returns 0 on success and 1 on a rejected
        length or a failed fetch. `offset` is accepted and ignored. */
    method SampleAccel(offset: nat, length: nat, out: array<real>) returns (rc: int)
      requires Valid()
      requires WritesFit(frameSize, length)
      requires length <= out.Length && out != readings
      modifies readings, out, accel
      ensures var o := SampleAccelSpec(old(readings[..]), old(out[..]), accel.feed, old(accel.fetches), length);
        && rc == o.rc
        && readings[..] == o.window
        && out[..] == o.out
        && accel.fetches == old(accel.fetches) + o.fetches
    {
      if length > frameSize {
        return 1;
      }
      var ok := Fill(length);
      if !ok {
        return 1;
      }
      Copy(out, readings, length);
      rc := 0;
    }

    /** The sampling loop of sample_accel: one fetch per step of 3, its
        triple written from index 0, stopping at the first failed fetch. */
    method Fill(length: nat) returns (ok: bool)
      requires Valid()
      requires 3 * SamplesFor(length) <= frameSize
      modifies readings, accel
      ensures var got := Leading(accel.feed, old(accel.fetches), SamplesFor(length));
        && ok == (|got| == SamplesFor(length))
        && accel.fetches == old(accel.fetches) + |got| + (if ok then 0 else 1)
        && readings[..] == Overwrite(old(readings[..]), got)
    {
      ghost var start := accel.fetches;
      ghost var window := readings[..];
      ghost var samples := SamplesFor(length);
      ghost var got: seq<Reading> := [];
      var i := 0;
      while i < length
        invariant i == 3 * |got| && |got| <= samples
        invariant accel.fetches == start + |got|
        invariant DeliveredRun(accel.feed, start, got)
        invariant readings[..] == Overwrite(window, got)
      {
        var f := accel.SampleFetch();
        if f.Failed? {
          LeadingIsMaximalRun(accel.feed, start, samples, got);
          return false;
        }
        StoreSample(i, f.reading, got, window);
        DeliveredRunExtends(accel.feed, start, got, f.reading);
        i := i + 3;
        got := got + [f.reading];
      }
      LeadingIsMaximalRun(accel.feed, start, samples, got);
      return true;
    }

    /** The three stores of one loop step: the converted x, y and z of `r`
        go to readings[i], readings[i + 1] and readings[i + 2]. */
    method StoreSample(i: nat, r: Reading, ghost got: seq<Reading>, ghost window: seq<real>)
      requires i == 3 * |got| && i + 3 <= readings.Length == |window|
      requires readings[..] == Overwrite(window, got)
      modifies readings
      ensures readings[..] == Overwrite(window, got + [r])
    {
      readings[i] := ToFloat(r.x);
      readings[i + 1] := ToFloat(r.y);
      readings[i + 2] := ToFloat(r.z);
      OverwriteNext(window, got, r);
      assert readings[..] == Overwrite(window, got)[i := ToFloat(r.x)][i + 1 := ToFloat(r.y)][i + 2 := ToFloat(r.z)];
    }
  }

  /** memcpy of the first `length` values of `src` into `dst`. */
  method Copy(dst: array<real>, src: array<real>, length: nat)
    requires length <= dst.Length && length <= src.Length && dst != src
    modifies dst
    ensures dst[..] == src[..length] + old(dst[..])[length..]
  {
    forall j | 0 <= j < length {
      dst[j] := src[j];
    }
    assert dst[..] == src[..length] + old(dst[..])[length..];
  }
}
