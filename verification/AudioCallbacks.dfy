// The two PortAudio callbacks of audio_record.c as the code runs them, loops
// over frames of two samples; module AudioHandOff has the same steps interleaved.
module AudioCallbacks {
  import opened AudioHandOff

  // The indices are uint32_t; their wrap-around is a multiple of the ring.
  function U32(k: nat): nat { k % 0x1_0000_0000 }

  lemma WrapIsHarmless(k: nat)
    ensures U32(k) % RING_SIZE == k % RING_SIZE
    ensures U32(U32(k) + 1) == U32(k + 1)
  {}

  lemma SmallIndex(k: nat)
    ensures k < RING_SIZE ==> U32(k) == k
  {}

  lemma WrittenNone(ring: seq<int>, base: nat)
    requires base < RING_SIZE && |ring| == 2 * RING_SIZE
    ensures Written(ring, base, []) == ring
  {}

  lemma {:induction false} WrittenMore(ring: seq<int>, base: nat, s: seq<int>, x: int)
    requires base < RING_SIZE && |ring| == 2 * RING_SIZE
    ensures Slot(base, |s|) < |ring|
    ensures Written(ring, base, s + [x]) == Written(ring, base, s)[Slot(base, |s|) := x]
  {
    assert (s + [x])[..|s|] == s;
  }

  class PaData {
    var recordIndex: nat
    var playIndex: nat
    const recordedSamples: array<int>
    var readDone: nat
    var writeDone: nat

    ghost predicate Valid()
      reads this
    {
      recordedSamples.Length == 2 * RING_SIZE && recordIndex < RING_SIZE && playIndex < RING_SIZE
    }

    constructor ()
      ensures Valid() && fresh(recordedSamples)
      ensures recordIndex == 0 && playIndex == 0 && readDone == 1 && writeDone == 0
    {
      recordIndex, playIndex, readDone, writeDone := 0, 0, 1, 0;
      recordedSamples := new int[2 * RING_SIZE](i => 0);
    }

    method RecordCallback(input: seq<int>, framesPerBuffer: nat)
      requires Valid() && readDone > 0 && |input| == 2 * framesPerBuffer
      modifies this, recordedSamples
      ensures Valid() && readDone == old(readDone) - 1 && writeDone == old(writeDone) + 1
      ensures recordedSamples[..] == Written(old(recordedSamples[..]), old(recordIndex), input)
      ensures recordIndex == (old(recordIndex) + |input|) % RING_SIZE && playIndex == old(playIndex)
    {
      hide U32, Written;
      var widx := recordIndex;
      ghost var ring, base := recordedSamples[..], recordIndex;
      var wptr := widx;
      readDone := readDone - 1;
      WrittenNone(ring, base);
      SmallIndex(base);
      for i := 0 to framesPerBuffer
        modifies recordedSamples
        invariant wptr == base && widx == U32(base + 2 * i)
        invariant recordedSamples[..] == Written(ring, base, input[..2 * i])
      {
        WrapIsHarmless(base + 2 * i);
        WrapIsHarmless(base + 2 * i + 1);
        Put(ring, wptr, input, 2 * i, widx);
        widx := U32(widx + 1);
        Put(ring, wptr, input, 2 * i + 1, widx);
        widx := U32(widx + 1);
      }
      assert input[..2 * framesPerBuffer] == input;
      writeDone := writeDone + 1;
      WrapIsHarmless(base + |input|);
      recordIndex := widx % RING_SIZE;
    }

    // wptr[widx++ % BUFFER_SIZE] = *rptr++
    method Put(ghost ring: seq<int>, wptr: nat, input: seq<int>, k: nat, widx: nat)
      requires k < |input| && wptr < RING_SIZE && recordedSamples.Length == 2 * RING_SIZE == |ring|
      requires widx == U32(wptr + k) && recordedSamples[..] == Written(ring, wptr, input[..k])
      modifies recordedSamples
      ensures recordedSamples[..] == Written(ring, wptr, input[..k + 1])
    {
      WrapIsHarmless(wptr + k);
      WrittenMore(ring, wptr, input[..k], input[k]);
      assert input[..k + 1] == input[..k] + [input[k]];
      recordedSamples[wptr + widx % RING_SIZE] := input[k];
    }

    method PlayCallback(output: array<int>, framesPerBuffer: nat)
      requires Valid() && writeDone > 0 && output.Length == 2 * framesPerBuffer && output != recordedSamples
      modifies this, output
      ensures Valid() && readDone == old(readDone) + 1 && writeDone == old(writeDone) - 1
      ensures output[..] == Read(recordedSamples[..], old(playIndex), output.Length)
      ensures playIndex == (old(playIndex) + output.Length) % RING_SIZE && recordIndex == old(recordIndex)
    {
      hide U32;
      var ridx := playIndex;
      var rptr := ridx;
      writeDone := writeDone - 1;
      SmallIndex(rptr);
      ghost var want := Read(recordedSamples[..], rptr, output.Length);
      for i := 0 to framesPerBuffer
        modifies output
        invariant ridx == U32(rptr + 2 * i)
        invariant output[..2 * i] == want[..2 * i]
      {
        WrapIsHarmless(rptr + 2 * i);
        output[2 * i] := recordedSamples[rptr + ridx % RING_SIZE];
        ridx := U32(ridx + 1);
        WrapIsHarmless(rptr + 2 * i + 1);
        output[2 * i + 1] := recordedSamples[rptr + ridx % RING_SIZE];
        ridx := U32(ridx + 1);
      }
      WrapIsHarmless(rptr + output.Length);
      readDone := readDone + 1;
      playIndex := ridx % RING_SIZE;
    }
  }
}
