/** The streaming linear resampler of the capture pipeline (`LinearResampler` in audio.rs).

    Samples are `real`s.  The output rate is the one the writer thread uses, 16000 Hz.
    The read position is kept exact: it is always `num / OutRate` for a natural number
    `num`, so adding the ratio `inRate / OutRate` is `num + inRate`, its integer part is
    `num / OutRate` and its fractional part is `num % OutRate`.

    Two versions of one step are defined.  `PullAsWritten` follows the source: after a
    sample it reduces the position by the number of samples it meant to drop, even when
    the buffer held fewer.  `Pull` reduces it by the number actually dropped.  The
    resampler object has both steps: `NextAsWritten` and the corrected `Next`.

    Naming: a member whose name contains `AsWritten` is about the source's step; the
    pairs `PullAsWritten`/`Pull`, `DrainAsWritten`/`Drain`, `StreamAsWritten`/`Stream`,
    `NextAsWritten`/`Next` and `OutputCountBoundAsWritten`/`OutputCountBound` are the
    source's and the corrected version of one thing. */
module Resampler {
  import opened Wrappers
  import opened Arith

  /** `out_sample_rate` of the writer thread. */
  const OutRate: nat := 16000

  // ---------------------------------------------------------------------------
  // One output sample

  /** `s0 + (s1 - s0) * frac`: linear interpolation between two neighbouring samples. */
  function Lerp(s0: real, s1: real, frac: real): real
  {
    s0 + (s1 - s0) * frac
  }

  /** With a weight in [0, 1) the interpolated sample lies between its two neighbours,
      and weight 0 gives the left one. */
  lemma {:induction false} LerpBetween(s0: real, s1: real, frac: real)
    requires 0.0 <= frac < 1.0
    ensures s0 <= s1 ==> s0 <= Lerp(s0, s1, frac) <= s1
    ensures s1 <= s0 ==> s1 <= Lerp(s0, s1, frac) <= s0
    ensures frac == 0.0 ==> Lerp(s0, s1, frac) == s0
  {
    var d := s1 - s0;
    ScaleBounds(d, frac);
    assert Lerp(s0, s1, frac) == s0 + d * frac;
  }

  /** The fractional part of the position `num / OutRate`. */
  function Fraction(num: nat): (f: real)
    ensures 0.0 <= f < 1.0
  {
    (num % OutRate) as real / OutRate as real
  }

  /** The position `num / OutRate` as a real number. */
  function Position(num: nat): real
  {
    num as real / OutRate as real
  }

  /** `buf` after `k` calls of `pop_front`: each call removes the front sample, and a
      call on an empty buffer does nothing. */
  function DropFront(buf: seq<real>, k: nat): (r: seq<real>)
    ensures |r| == if k <= |buf| then |buf| - k else 0
    decreases k
  {
    if k == 0 || buf == [] then buf else DropFront(buf[1..], k - 1)
  }

  /** Popping `k` samples leaves the buffer from index `min(k, len)` on. */
  lemma {:induction false} DropFrontSlice(buf: seq<real>, k: nat)
    ensures DropFront(buf, k) == buf[Min(k, |buf|)..]
    decreases k
  {
    if k > 0 && buf != [] {
      DropFrontSlice(buf[1..], k - 1);
      assert buf[1..][Min(k - 1, |buf| - 1)..] == buf[Min(k, |buf|)..];
    }
  }

  /** The sample at index `i` after popping `k` is the one that was at `k + i`. */
  lemma {:induction false} DropFrontIndex(buf: seq<real>, k: nat, i: nat)
    requires k + i < |buf|
    ensures DropFront(buf, k)[i] == buf[k + i]
    decreases k
  {
    if k > 0 {
      DropFrontIndex(buf[1..], k - 1, i);
    }
  }

  /** Popping `a` samples and then `b` pops `a + b`. */
  lemma {:induction false} DropFrontTwice(buf: seq<real>, a: nat, b: nat)
    ensures DropFront(DropFront(buf, a), b) == DropFront(buf, a + b)
    decreases a
  {
    if a > 0 && buf != [] {
      DropFrontTwice(buf[1..], a - 1, b);
    } else if buf == [] {
      assert DropFront([], b) == [];
    }
  }

  /** Samples pushed at the back do not change what popping removes from the front, as
      long as the front holds at least as many as are popped. */
  lemma {:induction false} DropFrontAppend(buf: seq<real>, more: seq<real>, k: nat)
    requires k <= |buf|
    ensures DropFront(buf, k) + more == DropFront(buf + more, k)
    decreases k
  {
    if k > 0 {
      assert (buf + more)[1..] == buf[1..] + more;
      DropFrontAppend(buf[1..], more, k - 1);
    }
  }

  /** What one call of `next` yields: the sample (if any), the new position numerator
      and the new buffer. */
  datatype Pulled = Pulled(out: Option<real>, num: nat, buf: seq<real>)

  /** `LinearResampler::next` as the source writes it: after the sample, the position
      advances by the ratio, `floor(pos)` samples are popped from the front (a pop on
      an empty buffer does nothing) and `pos` is reduced by `floor(pos)`. */
  function PullAsWritten(inRate: nat, num: nat, buf: seq<real>): (r: Pulled)
    ensures r.out == None <==> num / OutRate + 1 >= |buf|
    ensures r.out == None ==> r.num == num && r.buf == buf
    ensures r.out != None ==> r.num < OutRate
  {
    var i0 := num / OutRate;
    if i0 + 1 >= |buf| then Pulled(None, num, buf)
    else
      var advanced := num + inRate;
      var dropCount := advanced / OutRate;
      Pulled(Some(Lerp(buf[i0], buf[i0 + 1], Fraction(num))),
             advanced % OutRate, DropFront(buf, dropCount))
  }

  /** `LinearResampler::next` with the position reduced by the number of samples that
      were actually popped. */
  function Pull(inRate: nat, num: nat, buf: seq<real>): (r: Pulled)
    ensures r.out == None <==> num / OutRate + 1 >= |buf|
    ensures r.out == None ==> r.num == num && r.buf == buf
  {
    var i0 := num / OutRate;
    if i0 + 1 >= |buf| then Pulled(None, num, buf)
    else
      var advanced := num + inRate;
      var evicted := Min(advanced / OutRate, |buf|);
      Pulled(Some(Lerp(buf[i0], buf[i0 + 1], Fraction(num))),
             advanced - evicted * OutRate, DropFront(buf, advanced / OutRate))
  }

  /** The integer and fractional parts of the position `num / OutRate`. */
  lemma {:induction false} PositionParts(num: nat)
    ensures Position(num).Floor == num / OutRate
    ensures Position(num) - (num / OutRate) as real == Fraction(num)
  {
    RealQuotient(num, OutRate);
  }

  /** A produced sample is the interpolation at the read position: between the samples
      at `floor(pos)` and `floor(pos) + 1`, weighted by `pos - floor(pos)`, so it lies
      between them; both versions of the step agree on it. */
  lemma {:induction false} PullSample(inRate: nat, num: nat, buf: seq<real>)
    requires num / OutRate + 1 < |buf|
    ensures var pos := Position(num); var i0 := pos.Floor; var out := Pull(inRate, num, buf).out;
      && 0 <= i0 && i0 + 1 < |buf|
      && out == Some(Lerp(buf[i0], buf[i0 + 1], pos - i0 as real))
      && PullAsWritten(inRate, num, buf).out == out
      && (buf[i0] <= buf[i0 + 1] ==> buf[i0] <= out.value <= buf[i0 + 1])
      && (buf[i0 + 1] <= buf[i0] ==> buf[i0 + 1] <= out.value <= buf[i0])
  {
    PositionParts(num);
    var i0 := num / OutRate;
    var f := Fraction(num);
    var out := Lerp(buf[i0], buf[i0 + 1], f);
    LerpBetween(buf[i0], buf[i0 + 1], f);
    assert Pull(inRate, num, buf).out == Some(out);
    assert PullAsWritten(inRate, num, buf).out == Some(out);
  }

  /** The source's step: the new position is `(pos + ratio) - floor(pos + ratio)`, in [0, 1),
      while the buffer loses only `min(floor(pos + ratio), len)` samples. */
  lemma {:induction false} PullAsWrittenAdvances(inRate: nat, num: nat, buf: seq<real>)
    requires num / OutRate + 1 < |buf|
    ensures var r := PullAsWritten(inRate, num, buf);
      var p := Position(num) + inRate as real / OutRate as real;
      && 0 <= p.Floor
      && Position(r.num) == p - p.Floor as real
      && 0.0 <= Position(r.num) < 1.0
      && r.buf == DropFront(buf, p.Floor)
  {
    var advanced := num + inRate;
    assert Position(num) + inRate as real / OutRate as real == Position(advanced);
    PositionParts(advanced);
  }

  /** The corrected step: the new position is `pos + ratio` minus the number of samples
      actually popped, which is `min(floor(pos + ratio), len)`. */
  lemma {:induction false} PullAdvances(inRate: nat, num: nat, buf: seq<real>)
    requires num / OutRate + 1 < |buf|
    ensures var r := Pull(inRate, num, buf);
      var p := Position(num) + inRate as real / OutRate as real;
      && 0 <= p.Floor
      && r.buf == DropFront(buf, p.Floor)
      && Position(r.num) == p - Min(p.Floor, |buf|) as real
  {
    var advanced := num + inRate;
    assert Position(num) + inRate as real / OutRate as real == Position(advanced);
    PositionParts(advanced);
  }

  // ---------------------------------------------------------------------------
  // Draining until `next` returns None, and streaming chunk by chunk

  datatype Drained = Drained(outs: seq<real>, num: nat, buf: seq<real>)

  /** The samples `while let Some(s) = next()` collects with the source's step, and the
      state it leaves. */
  function DrainAsWritten(inRate: nat, num: nat, buf: seq<real>): (d: Drained)
    requires inRate > 0 && num < OutRate
    ensures d.num < OutRate
    decreases |buf|, OutRate - num
  {
    var p := PullAsWritten(inRate, num, buf);
    if p.out == None then Drained([], num, buf)
    else
      var rest := DrainAsWritten(inRate, p.num, p.buf);
      Drained([p.out.value] + rest.outs, rest.num, rest.buf)
  }

  /** The samples produced with the source's step when the chunks are pushed one after
      another and the resampler is drained after each push. */
  function StreamAsWrittenFrom(inRate: nat, num: nat, buf: seq<real>, chunks: seq<seq<real>>): seq<real>
    requires inRate > 0 && num < OutRate
    decreases |chunks|
  {
    if chunks == [] then []
    else
      var d := DrainAsWritten(inRate, num, buf + chunks[0]);
      d.outs + StreamAsWrittenFrom(inRate, d.num, d.buf, chunks[1..])
  }

  /** What the writer loop gets from a fresh resampler, with the source's step. */
  function StreamAsWritten(inRate: nat, chunks: seq<seq<real>>): seq<real>
    requires inRate > 0
  {
    StreamAsWrittenFrom(inRate, 0, [], chunks)
  }

  /** The samples `while let Some(s) = next()` collects, and the state it leaves. */
  function Drain(inRate: nat, num: nat, buf: seq<real>): (d: Drained)
    requires inRate > 0
    decreases |buf|, OutRate - num
  {
    var p := Pull(inRate, num, buf);
    if p.out == None then Drained([], num, buf)
    else
      var rest := Drain(inRate, p.num, p.buf);
      Drained([p.out.value] + rest.outs, rest.num, rest.buf)
  }

  /** The samples produced when the chunks are pushed one after another and the
      resampler is drained after each push. */
  function StreamFrom(inRate: nat, num: nat, buf: seq<real>, chunks: seq<seq<real>>): seq<real>
    requires inRate > 0
    decreases |chunks|
  {
    if chunks == [] then []
    else
      var d := Drain(inRate, num, buf + chunks[0]);
      d.outs + StreamFrom(inRate, d.num, d.buf, chunks[1..])
  }

  /** What the writer loop gets from a fresh resampler. */
  function Stream(inRate: nat, chunks: seq<seq<real>>): seq<real>
    requires inRate > 0
  {
    StreamFrom(inRate, 0, [], chunks)
  }

  // ---------------------------------------------------------------------------
  // Reference: the whole input interpolated at positions 0, ratio, 2 ratio, ...

  /** The input interpolated at absolute position `p / OutRate`. */
  function RefSample(xs: seq<real>, p: nat): real
    requires p / OutRate + 1 < |xs|
  {
    Lerp(xs[p / OutRate], xs[p / OutRate + 1], Fraction(p))
  }

  /** The position numerator one output later: the position advanced by the ratio. */
  function Advance(inRate: nat, p: nat): nat
  {
    p + inRate
  }

  /** Moving on by the ratio either reaches a later sample or, within the same sample,
      a later fraction. */
  lemma {:induction false} RefProgress(inRate: nat, p: nat)
    requires inRate > 0
    ensures || Advance(inRate, p) / OutRate > p / OutRate
            || (Advance(inRate, p) / OutRate == p / OutRate && Advance(inRate, p) % OutRate > p % OutRate)
  {
  }

  /** Samples at positions `p`, `p + ratio`, ... as long as both neighbours exist. */
  function RefFrom(inRate: nat, xs: seq<real>, p: nat): seq<real>
    requires inRate > 0
    decreases |xs| - p / OutRate, OutRate - p % OutRate
  {
    if p / OutRate + 1 >= |xs| then []
    else [RefSample(xs, p)] + RefFrom(inRate, xs, Advance(inRate, p))
  }

  /** The first of the positions `p`, `p + ratio`, ... that has no right neighbour. */
  function RefStop(inRate: nat, xs: seq<real>, p: nat): (q: nat)
    requires inRate > 0
    ensures p <= q && q / OutRate + 1 >= |xs|
    decreases |xs| - p / OutRate, OutRate - p % OutRate
  {
    if p / OutRate + 1 >= |xs| then p
    else RefStop(inRate, xs, Advance(inRate, p))
  }

  /** The `j`-th reference sample from `p` is the input at position `p + j * ratio`. */
  lemma {:induction false} RefFromIndex(inRate: nat, xs: seq<real>, p: nat, j: nat)
    requires inRate > 0 && j < |RefFrom(inRate, xs, p)|
    ensures (p + j * inRate) / OutRate + 1 < |xs|
    ensures RefFrom(inRate, xs, p)[j] == RefSample(xs, p + j * inRate)
    decreases j
  {
    if j > 0 {
      RefFromIndex(inRate, xs, Advance(inRate, p), j - 1);
      assert Advance(inRate, p) + (j - 1) * inRate == p + j * inRate by { MulSub(j, 1, inRate); }
    }
  }

  /** The reference samples stop at position `p + count * ratio`. */
  lemma {:induction false} RefStopCount(inRate: nat, xs: seq<real>, p: nat)
    requires inRate > 0
    ensures RefStop(inRate, xs, p) == p + |RefFrom(inRate, xs, p)| * inRate
    decreases |xs| - p / OutRate, OutRate - p % OutRate
  {
    if p / OutRate + 1 < |xs| {
      RefProgress(inRate, p);
      RefStopCount(inRate, xs, Advance(inRate, p));
      MulAdd(|RefFrom(inRate, xs, Advance(inRate, p))|, 1, inRate);
    }
  }

  /** The samples from `p` are the input at positions `p + j * ratio` for every `j`
      while both neighbours exist, and stop at the first position where one is missing. */
  lemma {:induction false} RefFromAt(inRate: nat, xs: seq<real>, p: nat)
    requires inRate > 0
    ensures var outs := RefFrom(inRate, xs, p);
      && (forall j :: 0 <= j < |outs| ==> (p + j * inRate) / OutRate + 1 < |xs|
                                          && outs[j] == RefSample(xs, p + j * inRate))
      && (p + |outs| * inRate) / OutRate + 1 >= |xs|
  {
    forall j | 0 <= j < |RefFrom(inRate, xs, p)|
      ensures (p + j * inRate) / OutRate + 1 < |xs|
      ensures RefFrom(inRate, xs, p)[j] == RefSample(xs, p + j * inRate)
    {
      RefFromIndex(inRate, xs, p, j);
    }
    RefStopCount(inRate, xs, p);
  }

  /** The reference samples of a prefix of the input, followed by those of the whole
      input from where the prefix ran out, are the reference samples of the whole input. */
  lemma {:induction false} RefFromPrefix(inRate: nat, xs: seq<real>, m: nat, p: nat)
    requires inRate > 0 && m <= |xs|
    ensures RefFrom(inRate, xs[..m], p) + RefFrom(inRate, xs, RefStop(inRate, xs[..m], p))
            == RefFrom(inRate, xs, p)
    decreases |xs| - p / OutRate, OutRate - p % OutRate
  {
    if p / OutRate + 1 < m {
      RefProgress(inRate, p);
      RefFromPrefix(inRate, xs, m, Advance(inRate, p));
      assert RefSample(xs[..m], p) == RefSample(xs, p);
    }
  }

  // ---------------------------------------------------------------------------
  // Both versions against the reference

  /** One step of the source's step at absolute position `p`, with the input buffered
      from `floor(p / OutRate)` on: it yields the reference sample at `p` and leaves the
      input buffered from `floor((p + ratio) / OutRate)` on at position `p + ratio`. */
  lemma {:induction false} StepAsWritten(inRate: nat, xs: seq<real>, p: nat)
    requires inRate > 0 && p / OutRate + 1 < |xs|
    ensures var r := PullAsWritten(inRate, p % OutRate, DropFront(xs, p / OutRate));
      var q := Advance(inRate, p);
      && r.out == Some(RefSample(xs, p))
      && r.num == q % OutRate
      && r.buf == DropFront(xs, q / OutRate)
  {
    var e, num := p / OutRate, p % OutRate;
    DivModOf(0, OutRate, num);
    DropFrontIndex(xs, e, 0);
    DropFrontIndex(xs, e, 1);
    DivAddMul(e, num + inRate, OutRate);
    DropFrontTwice(xs, e, (num + inRate) / OutRate);
  }

  /** With all input pushed at once, the source's step gives the reference samples. */
  lemma {:induction false} DrainAsWrittenFrom(inRate: nat, xs: seq<real>, p: nat)
    requires inRate > 0
    ensures DrainAsWritten(inRate, p % OutRate, DropFront(xs, p / OutRate)).outs
            == RefFrom(inRate, xs, p)
    decreases |xs| - p / OutRate, OutRate - p % OutRate
  {
    if p / OutRate + 1 < |xs| {
      StepAsWritten(inRate, xs, p);
      RefProgress(inRate, p);
      DrainAsWrittenFrom(inRate, xs, Advance(inRate, p));
    }
  }

  /** The source's own test, generalised: input pushed as one chunk is resampled to the
      reference samples by the source's step. */
  lemma {:induction false} OneChunkAsWritten(inRate: nat, xs: seq<real>)
    requires inRate > 0
    ensures StreamAsWritten(inRate, [xs]) == RefFrom(inRate, xs, 0)
  {
    DrainAsWrittenFrom(inRate, xs, 0);
    assert [] + xs == DropFront(xs, 0 / OutRate) && 0 % OutRate == 0;
    var d := DrainAsWritten(inRate, 0, [] + xs);
    assert [xs][1..] == [];
    assert StreamAsWritten(inRate, [xs]) == d.outs + StreamAsWrittenFrom(inRate, d.num, d.buf, []);
  }

  /** One corrected step on the input buffered from index `e` on, at absolute position
      `p = e * OutRate + num`: it yields the reference sample at `p` and leaves the input
      buffered from `floor((p + ratio) / OutRate)` on, at position `p + ratio` when that
      index is within the input and otherwise at the position where the input ends. */
  lemma {:induction false} StepAt(inRate: nat, xs: seq<real>, e: nat, num: nat, p: nat)
    requires inRate > 0 && e <= |xs| && p == e * OutRate + num
    requires num / OutRate + 1 < |xs| - e
    ensures p / OutRate + 1 < |xs|
    ensures var r := Pull(inRate, num, DropFront(xs, e)); var q := Advance(inRate, p);
      && r.out == Some(RefSample(xs, p))
      && r.buf == DropFront(xs, q / OutRate)
      && (q / OutRate <= |xs| ==> r.num == q % OutRate)
      && (q / OutRate > |xs| ==> |xs| * OutRate + r.num == q)
  {
    DivAddMul(e, num, OutRate);
    DropFrontIndex(xs, e, num / OutRate);
    DropFrontIndex(xs, e, num / OutRate + 1);
    var drop := (num + inRate) / OutRate;
    DivAddMul(e, num + inRate, OutRate);
    MulAdd(e, Min(drop, |xs| - e), OutRate);
    DropFrontTwice(xs, e, drop);
  }

  /** Draining the input buffered from `floor(p / OutRate)` on, at absolute position `p`,
      gives the reference samples from `p`. */
  lemma {:induction false} DrainFrom(inRate: nat, xs: seq<real>, p: nat)
    requires inRate > 0 && p / OutRate <= |xs|
    ensures Drain(inRate, p % OutRate, DropFront(xs, p / OutRate)).outs == RefFrom(inRate, xs, p)
    decreases |xs| - p / OutRate, OutRate - p % OutRate
  {
    if p / OutRate + 1 < |xs| {
      StepAt(inRate, xs, p / OutRate, p % OutRate, p);
      RefProgress(inRate, p);
      var q := Advance(inRate, p);
      if q / OutRate <= |xs| {
        DrainFrom(inRate, xs, q);
      } else {
        assert RefFrom(inRate, xs, q) == [];
      }
    }
  }

  /** Draining from `floor(p / OutRate)` at absolute position `p` leaves the input
      buffered from some index `e` on, at the absolute position where the reference
      samples stop. */
  lemma {:induction false} DrainFromLeaves(inRate: nat, xs: seq<real>, p: nat) returns (e: nat)
    requires inRate > 0 && p / OutRate <= |xs|
    ensures var d := Drain(inRate, p % OutRate, DropFront(xs, p / OutRate));
      e <= |xs| && d.buf == DropFront(xs, e) && e * OutRate + d.num == RefStop(inRate, xs, p)
    decreases |xs| - p / OutRate, OutRate - p % OutRate
  {
    if p / OutRate + 1 < |xs| {
      StepAt(inRate, xs, p / OutRate, p % OutRate, p);
      RefProgress(inRate, p);
      var q := Advance(inRate, p);
      if q / OutRate <= |xs| {
        e := DrainFromLeaves(inRate, xs, q);
      } else {
        e := |xs|;
        assert RefStop(inRate, xs, q) == q;
      }
    } else {
      e := p / OutRate;
    }
  }

  /** Draining from any state gives the reference samples of the input from its absolute
      position `p = e * OutRate + num`. */
  lemma {:induction false} DrainAt(inRate: nat, xs: seq<real>, e: nat, num: nat, p: nat)
    requires inRate > 0 && e <= |xs| && p == e * OutRate + num
    ensures Drain(inRate, num, DropFront(xs, e)).outs == RefFrom(inRate, xs, p)
  {
    if num / OutRate + 1 < |xs| - e {
      StepAt(inRate, xs, e, num, p);
      var q := Advance(inRate, p);
      if q / OutRate <= |xs| {
        DrainFrom(inRate, xs, q);
      } else {
        assert RefFrom(inRate, xs, q) == [];
      }
    } else {
      DivAddMul(e, num, OutRate);
    }
  }

  /** Draining from any state leaves the input buffered from some index `e'` on, at the
      absolute position where the reference samples from `p = e * OutRate + num` stop. */
  lemma {:induction false} DrainAtLeaves(inRate: nat, xs: seq<real>, e: nat, num: nat, p: nat)
    returns (e': nat)
    requires inRate > 0 && e <= |xs| && p == e * OutRate + num
    ensures var d := Drain(inRate, num, DropFront(xs, e));
      e' <= |xs| && d.buf == DropFront(xs, e') && e' * OutRate + d.num == RefStop(inRate, xs, p)
  {
    if num / OutRate + 1 < |xs| - e {
      StepAt(inRate, xs, e, num, p);
      var q := Advance(inRate, p);
      if q / OutRate <= |xs| {
        e' := DrainFromLeaves(inRate, xs, q);
      } else {
        e' := |xs|;
        assert RefStop(inRate, xs, q) == q;
      }
    } else {
      DivAddMul(e, num, OutRate);
      e' := e;
    }
  }

  /** Draining stops at the first state in which `next` returns None. */
  lemma {:induction false} DrainEnds(inRate: nat, num: nat, buf: seq<real>)
    requires inRate > 0
    ensures var d := Drain(inRate, num, buf); Pull(inRate, d.num, d.buf).out == None
    decreases |buf|, OutRate - num
  {
    var r := Pull(inRate, num, buf);
    if r.out != None {
      DrainEnds(inRate, r.num, r.buf);
    }
  }

  /** `c0 + c1 + ...`: the input the chunks carry. */
  function Concat(chunks: seq<seq<real>>): seq<real>
  {
    if chunks == [] then [] else chunks[0] + Concat(chunks[1..])
  }

  /** Streaming the remaining chunks from a drained state, in which the first `m` inputs
      have been pushed and those from index `e` on are still buffered at absolute
      position `p`, gives the reference samples of the whole input from `p`. */
  lemma {:induction false} StreamFromAt(inRate: nat, xs: seq<real>, chunks: seq<seq<real>>,
                                         m: nat, e: nat, num: nat, p: nat)
    requires inRate > 0 && e <= m <= |xs| && p == e * OutRate + num
    requires Concat(chunks) == xs[m..] && p / OutRate + 1 >= m
    ensures StreamFrom(inRate, num, DropFront(xs[..m], e), chunks) == RefFrom(inRate, xs, p)
    decreases |chunks|
  {
    if chunks == [] {
      assert xs[m..] == [];
    } else {
      var m' := m + |chunks[0]|;
      assert xs[m..] == chunks[0] + Concat(chunks[1..]);
      assert xs[..m] + chunks[0] == xs[..m'];
      DropFrontAppend(xs[..m], chunks[0], e);
      DrainAt(inRate, xs[..m'], e, num, p);
      var e' := DrainAtLeaves(inRate, xs[..m'], e, num, p);
      var d := Drain(inRate, num, DropFront(xs[..m'], e));
      assert Concat(chunks[1..]) == xs[m'..];
      StreamFromAt(inRate, xs, chunks[1..], m', e', d.num, RefStop(inRate, xs[..m'], p));
      RefFromPrefix(inRate, xs, m', p);
    }
  }

  /** However the input is cut into chunks, the resampler produces the reference
      samples of the whole input. */
  lemma {:induction false} StreamMatchesReference(inRate: nat, chunks: seq<seq<real>>)
    requires inRate > 0
    ensures Stream(inRate, chunks) == RefFrom(inRate, Concat(chunks), 0)
  {
    var xs := Concat(chunks);
    assert DropFront(xs[..0], 0) == [];
    StreamFromAt(inRate, xs, chunks, 0, 0, 0, 0);
  }

  /** A 3:1 ratio with the input split after two samples: the source's step restarts
      the second chunk at its first sample instead of one sample in, so its second
      output is 2 where the unsplit input gives 3. */
  lemma {:induction false} SplitChunkAsWritten()
    ensures StreamAsWritten(48000, [[0.0, 1.0], [2.0, 3.0, 4.0, 5.0]]) == [0.0, 2.0]
    ensures RefFrom(48000, [0.0, 1.0, 2.0, 3.0, 4.0, 5.0], 0) == [0.0, 3.0]
    ensures Stream(48000, [[0.0, 1.0], [2.0, 3.0, 4.0, 5.0]]) == [0.0, 3.0]
  {
    var c0, c1 := [0.0, 1.0], [2.0, 3.0, 4.0, 5.0];
    assert [] + c0 == c0;
    assert PullAsWritten(48000, 0, c0) == Pulled(Some(0.0), 0, []);
    assert DrainAsWritten(48000, 0, c0) == Drained([0.0], 0, []);
    assert [] + c1 == c1;
    DropFrontSlice(c1, 3);
    assert PullAsWritten(48000, 0, c1) == Pulled(Some(2.0), 0, [5.0]);
    assert DrainAsWritten(48000, 0, c1) == Drained([2.0], 0, [5.0]);
    var xs := [0.0, 1.0, 2.0, 3.0, 4.0, 5.0];
    assert RefSample(xs, 0) == 0.0;
    assert RefSample(xs, 48000) == 3.0;
    assert RefFrom(48000, xs, 96000) == [];
    assert Concat([c0, c1]) == xs by {
      assert Concat([c0, c1][1..]) == c1 + Concat([]);
    }
    StreamMatchesReference(48000, [c0, c1]);
  }

  // ---------------------------------------------------------------------------
  // On a ramp the interpolation is exact

  /** The input `f(n) = n`. */
  function Ramp(n: nat): (xs: seq<real>)
    ensures |xs| == n && forall i :: 0 <= i < n ==> xs[i] == i as real
  {
    seq(n, i requires 0 <= i < n => i as real)
  }

  lemma {:induction false} RefSampleOnRamp(n: nat, p: nat)
    requires p / OutRate + 1 < n
    ensures RefSample(Ramp(n), p) == Position(p)
  {
    PositionParts(p);
  }

  /** On `f(n) = n`, output `k` is the position `k * ratio` itself, and the outputs
      continue exactly while `floor(k * ratio) + 1 < n`.  With the input pushed as one
      chunk, the source's step gives the same samples. */
  lemma {:induction false} RampOutputs(inRate: nat, n: nat)
    requires inRate > 0
    ensures var outs := Stream(inRate, [Ramp(n)]);
      && (forall k :: 0 <= k < |outs| ==> outs[k] == Position(k * inRate))
      && (forall k :: 0 <= k < |outs| ==> (k * inRate) / OutRate + 1 < n)
      && (|outs| * inRate) / OutRate + 1 >= n
      && StreamAsWritten(inRate, [Ramp(n)]) == outs
  {
    StreamMatchesReference(inRate, [Ramp(n)]);
    OneChunkAsWritten(inRate, Ramp(n));
    assert Concat([Ramp(n)]) == Ramp(n);
    RefFromAt(inRate, Ramp(n), 0);
    var outs := Stream(inRate, [Ramp(n)]);
    forall k | 0 <= k < |outs|
      ensures outs[k] == Position(k * inRate)
    {
      RefSampleOnRamp(n, 0 + k * inRate);
    }
  }

  /** The source's test, which pushes the whole ramp at once and runs the source's
      step: 48000 -> 16000 on `f(n) = n` for 480 inputs gives between 100 and 1000
      outputs, and output `k` is `3 k`. */
  lemma {:induction false} IntegerRatioTest()
    ensures var outs := StreamAsWritten(48000, [Ramp(480)]);
      && 100 <= |outs| <= 1000
      && forall k :: 0 <= k < 100 ==> outs[k] == (3 * k) as real
  {
    RampOutputs(48000, 480);
    var outs := StreamAsWritten(48000, [Ramp(480)]);
    assert |outs| >= 160;
    var last := |outs| - 1;
    assert (last * 48000) / OutRate + 1 < 480;
  }

  /** With the corrected step, from `n` inputs at most `floor(n / ratio) + 1` samples
      come out, however the input is chunked. */
  lemma {:induction false} OutputCountBound(inRate: nat, chunks: seq<seq<real>>)
    requires inRate > 0
    ensures |Stream(inRate, chunks)| <= (|Concat(chunks)| * OutRate) / inRate + 1
  {
    var xs := Concat(chunks);
    StreamMatchesReference(inRate, chunks);
    RefFromAt(inRate, xs, 0);
    var outs := Stream(inRate, chunks);
    if |outs| > 0 {
      var k := |outs| - 1;
      assert (0 + k * inRate) / OutRate + 1 < |xs|;
      DivLt(|xs| * OutRate, inRate, k);
    }
  }

  /** With the source's step the bound fails: at a 3:1 ratio, four chunks of two
      samples give one output each, four in all, where eight inputs allow three. */
  lemma {:induction false} OutputCountBoundAsWritten()
    ensures |StreamAsWritten(48000, [[0.0, 1.0], [2.0, 3.0], [4.0, 5.0], [6.0, 7.0]])| == 4
    ensures |Concat([[0.0, 1.0], [2.0, 3.0], [4.0, 5.0], [6.0, 7.0]])| == 8
    ensures (8 * OutRate) / 48000 + 1 == 3
  {
    var chunks: seq<seq<real>> := [[0.0, 1.0], [2.0, 3.0], [4.0, 5.0], [6.0, 7.0]];
    forall a: real, b: real
      ensures DrainAsWritten(48000, 0, [] + [a, b]) == Drained([a], 0, [])
    {
      assert [] + [a, b] == [a, b];
      assert DropFront([a, b], 3) == [] by { DropFrontSlice([a, b], 3); }
      assert PullAsWritten(48000, 0, [a, b]) == Pulled(Some(a), 0, []);
    }
    assert chunks[1..] == [[2.0, 3.0], [4.0, 5.0], [6.0, 7.0]];
    assert chunks[1..][1..] == [[4.0, 5.0], [6.0, 7.0]];
    assert chunks[1..][1..][1..] == [[6.0, 7.0]];
    assert chunks[1..][1..][1..][1..] == [];
    assert StreamAsWrittenFrom(48000, 0, [], [[6.0, 7.0]]) == [6.0];
    assert StreamAsWrittenFrom(48000, 0, [], [[4.0, 5.0], [6.0, 7.0]]) == [4.0, 6.0];
    assert StreamAsWrittenFrom(48000, 0, [], chunks[1..]) == [2.0, 4.0, 6.0];
    assert Concat(chunks) == [0.0, 1.0] + Concat(chunks[1..]);
    assert Concat(chunks[1..]) == [2.0, 3.0] + Concat(chunks[1..][1..]);
    assert Concat(chunks[1..][1..]) == [4.0, 5.0] + Concat(chunks[1..][1..][1..]);
    assert Concat(chunks[1..][1..][1..]) == [6.0, 7.0] + Concat([]);
  }

  // ---------------------------------------------------------------------------
  // The resampler object

  /** `LinearResampler` made for input rate `inRate`: the read position `num / OutRate`
      and the buffered, not yet consumed input samples. */
  class LinearResampler {
    const inRate: nat
    var num: nat
    var buf: seq<real>

    /** `ratio = in_rate / out_rate`. */
    function Ratio(): real
    {
      inRate as real / OutRate as real
    }

    /** The read position `pos`. */
    function Pos(): real
      reads this
    {
      Position(num)
    }

    /** `LinearResampler::new(in_rate, 16000)`. */
    constructor (inRate: nat)
      ensures this.inRate == inRate
      ensures Ratio() == inRate as real / 16000.0 && Pos() == 0.0 && buf == []
    {
      this.inRate := inRate;
      num := 0;
      buf := [];
    }

    /** `LinearResampler::push`: appends at the back, in order. */
    method Push(samples: seq<real>)
      modifies this
      ensures buf == old(buf) + samples && num == old(num)
    {
      buf := buf + samples;
    }

    /** Calls `pop_front` `count` times; returns how many samples were there to pop. */
    method PopFront(count: nat) returns (popped: nat)
      modifies this
      ensures popped == Min(count, |old(buf)|)
      ensures buf == DropFront(old(buf), count) && num == old(num)
    {
      popped := 0;
      var k := 0;
      while k < count
        invariant 0 <= k <= count && popped == Min(k, |old(buf)|)
        invariant buf == DropFront(old(buf), k) && num == old(num)
      {
        DropFrontTwice(old(buf), k, 1);
        if |buf| > 0 {
          buf := buf[1..];
          popped := popped + 1;
        }
        k := k + 1;
      }
    }

    /** `LinearResampler::next` as the source writes it: after the pops, the position
        is reduced by the number of samples it meant to pop. */
    method NextAsWritten() returns (out: Option<real>)
      modifies this
      ensures Pulled(out, num, buf) == PullAsWritten(inRate, old(num), old(buf))
    {
      var i0 := num / OutRate;
      var i1 := i0 + 1;
      if i1 >= |buf| {
        return None;
      }
      var sample := Lerp(buf[i0], buf[i1], Fraction(num));
      var advanced := num + inRate;
      var dropCount := advanced / OutRate;
      var _ := PopFront(dropCount);
      num := advanced - dropCount * OutRate;
      out := Some(sample);
    }

    /** `LinearResampler::next`, reducing the position by the samples actually popped. */
    method Next() returns (out: Option<real>)
      modifies this
      ensures Pulled(out, num, buf) == Pull(inRate, old(num), old(buf))
    {
      var i0 := num / OutRate;
      var i1 := i0 + 1;
      if i1 >= |buf| {
        return None;
      }
      var sample := Lerp(buf[i0], buf[i1], Fraction(num));
      var advanced := num + inRate;
      var dropCount := advanced / OutRate;
      var popped := PopFront(dropCount);
      num := advanced - popped * OutRate;
      out := Some(sample);
    }
  }
}
