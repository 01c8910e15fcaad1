/** The capture side of audio.rs: the input callbacks that keep the first channel of
    each whole frame, and the writer thread that resamples the mono stream to 16000 Hz
    and converts each sample to 16-bit PCM.

    The writer is given twice: `WriteSamplesAsWritten` runs the source's step
    `NextAsWritten`, and `WriteSamples` runs the corrected step `Next`, whose output
    does not depend on how the input is chunked.  In each pair, the name ending in
    `AsWritten` is the source's version and the name without it the corrected one. */
module Capture {
  import opened Wrappers
  import opened Arith
  import opened Resampler

  /** A sample of an `i16` input stream. */
  newtype i16 = x: int | -32768 <= x < 32768

  /** A sample of a `u16` input stream. */
  newtype u16 = x: int | 0 <= x < 65536

  // ---------------------------------------------------------------------------
  // Normalisation of one input sample to a real in about [-1, 1]

  /** `frame[0] as f32 / i16::MAX as f32`. */
  function NormI16(x: i16): real
  {
    x as real / 32767.0
  }

  /** `(frame[0] as f32 - 32768.0) / 32768.0`. */
  function NormU16(x: u16): real
  {
    (x as real - 32768.0) / 32768.0
  }

  /** An `f32` sample is sent as it is. */
  function NormF32(x: real): real
  {
    x
  }

  /** Every `i16` sample maps into [-1, 1] except the most negative one, which maps a
      little below -1; zero maps to zero and the sign is kept. */
  lemma {:induction false} NormI16Range(x: i16)
    ensures -1.0 <= NormI16(x) <= 1.0 <==> x != -32768
    ensures NormI16(x) == 1.0 <==> x == 32767
    ensures (NormI16(x) < 0.0 <==> x < 0) && (NormI16(x) == 0.0 <==> x == 0)
  {
    if x == -32768 {
      assert NormI16(x) == -32768.0 / 32767.0;
    }
  }

  /** Every `u16` sample maps into [-1, 1): the offset 32768 maps to zero and 0 to -1. */
  lemma {:induction false} NormU16Range(x: u16)
    ensures -1.0 <= NormU16(x) < 1.0
    ensures NormU16(x) == -1.0 <==> x == 0
    ensures NormU16(x) == 0.0 <==> x == 32768
  {
  }

  // ---------------------------------------------------------------------------
  // Down-mix: the first channel of every whole frame

  /** The first sample of each whole frame of `channels` samples from offset `start` on,
      frame by frame as `chunks_exact(channels)` yields them; a trailing partial frame is
      dropped. */
  function FrameHeadsFrom<T>(data: seq<T>, channels: nat, start: nat): seq<T>
    requires channels > 0
    decreases |data| - start
  {
    if |data| < start + channels then [] else [data[start]] + FrameHeadsFrom(data, channels, start + channels)
  }

  /** The first sample of each whole frame of `data`. */
  function FrameHeads<T>(data: seq<T>, channels: nat): seq<T>
    requires channels > 0
  {
    FrameHeadsFrom(data, channels, 0)
  }

  /** From offset `start`, there is one head per whole frame, and head k is sample
      `start + k * channels`. */
  lemma {:induction false} FrameHeadsFromIndex<T>(data: seq<T>, channels: nat, start: nat)
    requires channels > 0 && start <= |data|
    ensures |FrameHeadsFrom(data, channels, start)| == (|data| - start) / channels
    ensures forall k :: 0 <= k < |FrameHeadsFrom(data, channels, start)| ==>
      start + k * channels < |data| && FrameHeadsFrom(data, channels, start)[k] == data[start + k * channels]
    decreases |data| - start
  {
    var n := |data| - start;
    var heads := FrameHeadsFrom(data, channels, start);
    if |data| < start + channels {
      DivModOf(0, channels, n);
    } else {
      var rest := FrameHeadsFrom(data, channels, start + channels);
      FrameHeadsFromIndex(data, channels, start + channels);
      DivAddMul(1, n - channels, channels);
      assert heads == [data[start]] + rest;
      forall k | 0 <= k < |heads|
        ensures start + k * channels < |data| && heads[k] == data[start + k * channels]
      {
        if k > 0 {
          MulAdd(k - 1, 1, channels);
          assert heads[k] == rest[k - 1];
        }
      }
    }
  }

  /** There is one head per whole frame, and head k is sample `k * channels`. */
  lemma {:induction false} FrameHeadsIndex<T>(data: seq<T>, channels: nat)
    requires channels > 0
    ensures |FrameHeads(data, channels)| == |data| / channels
    ensures forall k :: 0 <= k < |FrameHeads(data, channels)| ==>
      k * channels < |data| && FrameHeads(data, channels)[k] == data[k * channels]
  {
    FrameHeadsFromIndex(data, channels, 0);
  }

  /** The body of an input callback: with zero channels nothing is sent (`None`),
      otherwise the mono chunk holds the normalised first sample of every whole frame. */
  method FirstChannel<T>(data: seq<T>, channels: nat, norm: T -> real) returns (sent: Option<seq<real>>)
    ensures sent == None <==> channels == 0
    ensures sent != None ==> sent.value == MapNorm(norm, FrameHeads(data, channels))
  {
    if channels == 0 {
      return None;
    }
    var mono: seq<real> := [];
    ghost var heads: seq<T> := [];
    var at := 0;
    while at + channels <= |data|
      invariant at <= |data|
      invariant heads + FrameHeadsFrom(data, channels, at) == FrameHeads(data, channels)
      invariant mono == MapNorm(norm, heads)
      decreases |data| - at
    {
      AppendAssoc(heads, [data[at]], FrameHeadsFrom(data, channels, at + channels));
      mono := mono + [norm(data[at])];
      heads := heads + [data[at]];
      at := at + channels;
    }
    assert heads + [] == heads;
    sent := Some(mono);
  }

  /** Normalises a sequence of samples one by one. */
  function MapNorm<T>(norm: T -> real, xs: seq<T>): (ys: seq<real>)
    ensures |ys| == |xs| && forall k :: 0 <= k < |xs| ==> ys[k] == norm(xs[k])
  {
    seq(|xs|, k requires 0 <= k < |xs| => norm(xs[k]))
  }

  /** The `i16` callback (`build_stream_i16`). */
  method CallbackI16(data: seq<i16>, channels: nat) returns (sent: Option<seq<real>>)
    ensures sent == None <==> channels == 0
    ensures sent != None ==> sent.value == MapNorm(NormI16, FrameHeads(data, channels))
  {
    sent := FirstChannel(data, channels, NormI16);
  }

  /** The `u16` callback (`build_stream_u16`). */
  method CallbackU16(data: seq<u16>, channels: nat) returns (sent: Option<seq<real>>)
    ensures sent == None <==> channels == 0
    ensures sent != None ==> sent.value == MapNorm(NormU16, FrameHeads(data, channels))
  {
    sent := FirstChannel(data, channels, NormU16);
  }

  /** The `f32` callback (`build_stream_f32`). */
  method CallbackF32(data: seq<real>, channels: nat) returns (sent: Option<seq<real>>)
    ensures sent == None <==> channels == 0
    ensures sent != None ==> sent.value == FrameHeads(data, channels)
  {
    sent := FirstChannel(data, channels, NormF32);
    if sent != None {
      assert MapNorm(NormF32, FrameHeads(data, channels)) == FrameHeads(data, channels);
    }
  }

  // ---------------------------------------------------------------------------
  // Conversion to 16-bit PCM

  /** A float-to-integer `as` cast: rounds toward zero. */
  function Truncate(x: real): (n: int)
    ensures 0.0 <= x ==> 0 <= n && n as real <= x < n as real + 1.0
    ensures x < 0.0 ==> n <= 0 && n as real - 1.0 < x <= n as real
  {
    if 0.0 <= x then x.Floor else -((-x).Floor)
  }

  /** `(sample.clamp(-1.0, 1.0) * i16::MAX as f32) as i16`. */
  function ToPcm16(sample: real): int
  {
    var clamped := if sample < -1.0 then -1.0 else if 1.0 < sample then 1.0 else sample;
    Truncate(clamped * 32767.0)
  }

  /** The written value lies in [-32767, 32767]; samples at or beyond full scale give
      the end points, and inside the range the value is the scaled sample rounded toward
      zero. */
  lemma {:induction false} ToPcm16Range(sample: real)
    ensures -32767 <= ToPcm16(sample) <= 32767
    ensures 1.0 <= sample ==> ToPcm16(sample) == 32767
    ensures sample <= -1.0 ==> ToPcm16(sample) == -32767
    ensures 0.0 <= sample <= 1.0 ==>
      0 <= ToPcm16(sample) && ToPcm16(sample) as real <= sample * 32767.0 < ToPcm16(sample) as real + 1.0
    ensures -1.0 <= sample < 0.0 ==>
      ToPcm16(sample) <= 0 && ToPcm16(sample) as real - 1.0 < sample * 32767.0 <= ToPcm16(sample) as real
  {
    if -1.0 <= sample <= 1.0 {
      if 0.0 <= sample {
        MulLeReal(sample, 1.0, 32767.0);
      } else {
        MulLeReal(-1.0, sample, 32767.0);
      }
    }
  }

  /** A louder input never gives a smaller written value. */
  lemma {:induction false} ToPcm16Monotone(s: real, t: real)
    requires s <= t
    ensures ToPcm16(s) <= ToPcm16(t)
  {
    ToPcm16Range(s);
    ToPcm16Range(t);
    var cs := if s < -1.0 then -1.0 else if 1.0 < s then 1.0 else s;
    var ct := if t < -1.0 then -1.0 else if 1.0 < t then 1.0 else t;
    MulLeReal(cs, ct, 32767.0);
  }

  /** Every sample of a resampled sequence converted to PCM, in order. */
  function PcmAll(samples: seq<real>): (pcm: seq<int>)
    ensures |pcm| == |samples|
  {
    if samples == [] then [] else PcmAll(samples[..|samples| - 1]) + [ToPcm16(samples[|samples| - 1])]
  }

  /** Converting a concatenation converts each part. */
  lemma {:induction false} PcmAllAppend(a: seq<real>, b: seq<real>)
    ensures PcmAll(a + b) == PcmAll(a) + PcmAll(b)
    decreases |b|
  {
    if b == [] {
      assert a + b == a;
    } else {
      var c := b[..|b| - 1];
      PcmAllAppend(a, c);
      assert (a + b)[..|a + b| - 1] == a + c;
    }
  }

  /** Sample k of the PCM output is sample k of the input converted, and lies in
      [-32767, 32767]. */
  lemma {:induction false} PcmAllRange(samples: seq<real>)
    ensures forall k :: 0 <= k < |samples| ==>
      PcmAll(samples)[k] == ToPcm16(samples[k]) && -32767 <= PcmAll(samples)[k] <= 32767
    decreases |samples|
  {
    if samples != [] {
      var init := samples[..|samples| - 1];
      PcmAllRange(init);
      ToPcm16Range(samples[|samples| - 1]);
      forall k | 0 <= k < |init|
        ensures samples[k] == init[k]
      {
      }
    }
  }

  // ---------------------------------------------------------------------------
  // The writer thread

  /** The inner `while let Some(sample) = resampler.next()` loop of `writer_thread`:
      writes a PCM sample for every sample `next` yields until it yields `None`. */
  method WriteDrained(r: LinearResampler, written: seq<int>) returns (written': seq<int>)
    requires r.inRate > 0
    modifies r
    ensures var d := Drain(r.inRate, old(r.num), old(r.buf));
      written' == written + PcmAll(d.outs) && r.num == d.num && r.buf == d.buf
  {
    ghost var d := Drain(r.inRate, r.num, r.buf);
    ghost var got: seq<real> := [];
    written' := written;
    var more := true;
    while more
      invariant written' == written + PcmAll(got)
      invariant more ==> got + Drain(r.inRate, r.num, r.buf).outs == d.outs
      invariant more ==> Drain(r.inRate, r.num, r.buf).num == d.num && Drain(r.inRate, r.num, r.buf).buf == d.buf
      invariant !more ==> got == d.outs && r.num == d.num && r.buf == d.buf
      decreases if more then 1 + |Drain(r.inRate, r.num, r.buf).outs| else 0
    {
      var out := r.Next();
      match out {
        case None =>
          assert got + [] == got;
          more := false;
        case Some(sample) =>
          AppendAssoc(got, [sample], Drain(r.inRate, r.num, r.buf).outs);
          PcmAllAppend(got, [sample]);
          AppendAssoc(written, PcmAll(got), PcmAll([sample]));
          written' := written' + [ToPcm16(sample)];
          got := got + [sample];
      }
    }
  }

  lemma AppendAssoc<T>(a: seq<T>, b: seq<T>, c: seq<T>)
    ensures (a + b) + c == a + (b + c)
  {
  }

  /** The inner loop of `writer_thread` with the source's step `next`. */
  method WriteDrainedAsWritten(r: LinearResampler, written: seq<int>) returns (written': seq<int>)
    requires r.inRate > 0 && r.num < OutRate
    modifies r
    ensures var d := DrainAsWritten(r.inRate, old(r.num), old(r.buf));
      written' == written + PcmAll(d.outs) && r.num == d.num && r.buf == d.buf
  {
    ghost var d := DrainAsWritten(r.inRate, r.num, r.buf);
    ghost var got: seq<real> := [];
    written' := written;
    var more := true;
    while more
      invariant r.num < OutRate
      invariant written' == written + PcmAll(got)
      invariant more ==> got + DrainAsWritten(r.inRate, r.num, r.buf).outs == d.outs
      invariant more ==> DrainAsWritten(r.inRate, r.num, r.buf).num == d.num && DrainAsWritten(r.inRate, r.num, r.buf).buf == d.buf
      invariant !more ==> got == d.outs && r.num == d.num && r.buf == d.buf
      decreases if more then 1 + |DrainAsWritten(r.inRate, r.num, r.buf).outs| else 0
    {
      var out := r.NextAsWritten();
      match out {
        case None =>
          assert got + [] == got;
          more := false;
        case Some(sample) =>
          AppendAssoc(got, [sample], DrainAsWritten(r.inRate, r.num, r.buf).outs);
          PcmAllAppend(got, [sample]);
          AppendAssoc(written, PcmAll(got), PcmAll([sample]));
          written' := written' + [ToPcm16(sample)];
          got := got + [sample];
      }
    }
  }

  /** One chunk of the outer loop of `writer_thread`: push it, then drain. */
  method WriteChunk(r: LinearResampler, chunk: seq<real>, written: seq<int>) returns (written': seq<int>)
    requires r.inRate > 0
    modifies r
    ensures var d := Drain(r.inRate, old(r.num), old(r.buf) + chunk);
      written' == written + PcmAll(d.outs) && r.num == d.num && r.buf == d.buf
  {
    r.Push(chunk);
    written' := WriteDrained(r, written);
  }

  /** The loop of `writer_thread`: for every chunk received, push it and write a PCM
      sample for every resampled sample `next` yields.  The result is the sequence of
      values passed to `write_sample`: the PCM conversion of the resampled stream, which
      is the whole input interpolated at positions 0, ratio, 2 ratio, and so on. */
  method WriteSamples(inRate: nat, chunks: seq<seq<real>>) returns (written: seq<int>)
    requires inRate > 0
    ensures written == PcmAll(Stream(inRate, chunks))
    ensures written == PcmAll(RefFrom(inRate, Concat(chunks), 0))
    ensures forall k :: 0 <= k < |written| ==> -32767 <= written[k] <= 32767
  {
    var r := new LinearResampler(inRate);
    written := [];
    ghost var outs: seq<real> := [];
    var pending := chunks;
    while pending != []
      invariant r.inRate == inRate && written == PcmAll(outs)
      invariant outs + StreamFrom(inRate, r.num, r.buf, pending) == Stream(inRate, chunks)
      decreases |pending|
    {
      ghost var d := Drain(inRate, r.num, r.buf + pending[0]);
      written := WriteChunk(r, pending[0], written);
      PcmAllAppend(outs, d.outs);
      AppendAssoc(outs, d.outs, StreamFrom(inRate, d.num, d.buf, pending[1..]));
      outs := outs + d.outs;
      pending := pending[1..];
    }
    assert outs + [] == outs;
    StreamMatchesReference(inRate, chunks);
    PcmAllRange(Stream(inRate, chunks));
  }

  /** One chunk of the outer loop of `writer_thread` with the source's step. */
  method WriteChunkAsWritten(r: LinearResampler, chunk: seq<real>, written: seq<int>) returns (written': seq<int>)
    requires r.inRate > 0 && r.num < OutRate
    modifies r
    ensures var d := DrainAsWritten(r.inRate, old(r.num), old(r.buf) + chunk);
      written' == written + PcmAll(d.outs) && r.num == d.num && r.buf == d.buf
  {
    r.Push(chunk);
    written' := WriteDrainedAsWritten(r, written);
  }

  /** The loop of `writer_thread` with the source's step: the values passed to
      `write_sample` are the PCM conversion of the source's resampled stream.  When
      the input arrives as one chunk this is the whole input interpolated at positions
      0, ratio, 2 ratio, and so on; on other chunkings it can differ. */
  method WriteSamplesAsWritten(inRate: nat, chunks: seq<seq<real>>) returns (written: seq<int>)
    requires inRate > 0
    ensures written == PcmAll(StreamAsWritten(inRate, chunks))
    ensures |chunks| == 1 ==> written == PcmAll(RefFrom(inRate, chunks[0], 0))
    ensures forall k :: 0 <= k < |written| ==> -32767 <= written[k] <= 32767
  {
    var r := new LinearResampler(inRate);
    written := [];
    ghost var outs: seq<real> := [];
    var pending := chunks;
    while pending != []
      invariant r.inRate == inRate && r.num < OutRate && written == PcmAll(outs)
      invariant outs + StreamAsWrittenFrom(inRate, r.num, r.buf, pending) == StreamAsWritten(inRate, chunks)
      decreases |pending|
    {
      ghost var d := DrainAsWritten(inRate, r.num, r.buf + pending[0]);
      written := WriteChunkAsWritten(r, pending[0], written);
      PcmAllAppend(outs, d.outs);
      AppendAssoc(outs, d.outs, StreamAsWrittenFrom(inRate, d.num, d.buf, pending[1..]));
      outs := outs + d.outs;
      pending := pending[1..];
    }
    assert outs + [] == outs;
    if |chunks| == 1 {
      assert chunks == [chunks[0]];
      OneChunkAsWritten(inRate, chunks[0]);
    }
    PcmAllRange(StreamAsWritten(inRate, chunks));
  }
}
