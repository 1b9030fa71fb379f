# Proofs about the SoundScreen signal chain

SoundScreen records speech, transforms and filters it, and plays it over
Bluetooth. This project models the parts of it whose correctness is hardest to
see in the code, and proves them in Dafny 4.11. `dafny verify dfyconfig.toml`
checks everything.

Every algorithm that changes memory is a method on arrays or objects, proved
against a function of its inputs; the laws of that function are lemmas.

**The FFT** (`kiss_fft.c`, `kissfft.hh`, `kiss_fftr.c`, `kiss_fastfir.c`).
Numbers are exact pairs of reals. `Twiddles` states what the twiddle table must
satisfy, `Dft` the transform as a sum, `ButterflySpec`, `Kernels`,
`Butterflies` and `GenericButterfly` the five in-place kernels, `MixedRadix` the
recursion over the factor list, `Factor` both factorisers and the search for a
fast size, `Inversion` and `Transform` allocation, the strided entry point and
the round trip. `RealSpectrum`, `RealSynthesis`, `RealTransform`, `Convolution` and
`FastConvolution` carry this to the real transforms and to block convolution.

**The filters** (`jfastfir.cpp`). `SlowFir` is the ring filter, `FastFir`
the delay line that hides block processing from its caller, down to the proof
that it computes the same convolution as the slow one.

**AVDTP** (`avdtp.c`). `Signalling` and `Reassembly` cut a message into packets
and put it together, `Capabilities` prints and reads capability lists,
`RequestQueue` is the two-class queue with one outstanding request, `Discovery`
and `DiscoveryQueue` what the discovery of end points puts through that queue and
how it fares among everything else there. `SessionState` is everything a
session keeps as one value, with the steps that change it and the invariant
`Good`, `SessionCommands` what the peer's commands come to. A `Change` of module
`SessionRuns` is all that one call of a handler does to this value;
`AvdtpSession` has the handlers themselves, changing session, end points and
streams in place, and those called from outside return the change they made: the
value afterwards is `Changed` of the value before (`Session.Made`). So what
`SessionRuns` proves of every run of changes holds of every sequence of calls, up
to the first that puts a second stream on an end point. `DiscoveryRuns` follows a
discovery through such runs. `SessionLaws`, `ChangeLaws`, `CommandLaws` and
`AnswerLaws` say in plain terms, with the states, octets and error codes written
out, what each change makes of a session, when a command is accepted and why
not, what an answer comes to, and in which ways alone an end point changes its
state. `SessionWitnesses` runs the handlers where the code
goes wrong.

**AVRCP** (`avrcp-lib.c`). `Continuation` is the continuation protocol on values
with the peer's reassembler, `AvrcpSession` the session that fills vectors.

**Pairing** (`bluetooth.c`). `Pairing` has the five flags per device, the two
lists, the cache and the notifications as values and their runs, `PairingLaws` says
what they come to in terms of flags, lists and notices, `DeviceStore` has
the device records and lists on the heap.

**The recorder** (`audio_record.c`). `AudioHandOff` interleaves the two callbacks
step by step, `AudioCallbacks` runs their loops.

`Complex`, `Sums`, `Arith`, `Samples`, `Bytes`, `Options` and `Lists` hold
common definitions.

## What the code does differently from what it promises

- The OpenMP branch of `kf_work` recurses even when one factor pair is the whole
  list; it then reads a pair nobody wrote. That is so exactly for nfft <= 5.
- `prepare` multiplies p*p in 32 bits; for lengths near 2^31 the product wraps,
  which only delays its cut-off. Both factorisers still agree.
- `avdtp_send` announces one packet too many exactly when the last packet is
  full; the receiver then refuses the message. Payloads over 255 octets lose
  their length to `data_size`, which is one octet.
- `JFastFIRFilter::Update` with no samples flushes the block filter without
  moving its offset; the delay line survives exactly when there was nothing to
  flush. So independence of the chunking holds for non-empty chunks.
- With a response one longer than the transform no sample is good, and
  `kff_nocopy` never ends once a block is there (`NocopyEnds`); a longer one makes
  the allocator write outside its buffer.
- When a queued AVDTP request cannot be sent it is lost (`FailedSendLoses`),
  whatever waits behind it stays there (`FailedSendStalls`) until another request
  is submitted, which overtakes it (`OvertakesExactly`).
- `avdtp_set_configuration` relies on its caller for a free end point, and
  `setconf_cb` on the end point having stayed free while the application took
  its time: two configurations of one end point answered later leave two streams
  of it (`BothAnsweredLate`), or the first without its end point
  (`SecondNotSent`). Nothing else disturbs the session (`ChangedGood`).
- `avdtp_parse_rej` ends a discovery without removing its idle source, and a
  left-over DISCOVER may be answered while a later discovery waits in its source:
  then `process_discover` runs without a discovery (`SourceRunsAlone`), or ends one
  whose capability requests are unanswered (`FiresEarly`). The main loop prevents
  both: the channel has a lower priority than the source, so a waiting source runs
  first, and with that order neither happens (`RanInOrder`, `CompletesInOrder`).
  They need `avdtp_discover` to be called by another source of that low priority,
  in the same turn of the main loop in which the answer is there already.
- A discovery that could not be asked for has no callback, and
  `avdtp_parse_rej` calls it all the same (`ChangedNullCalls`). It happens when a
  DISCOVER that waited in the queue outlives its own discovery
  (`UnsetCallbackCalled`).
- A second OPEN in CONFIGURED overwrites the number of the running timer. The
  first timer then fires whatever becomes of the stream, and aborts it even when
  it is connected (`FirstTimerFires`).
- A device that is thrown out of the full cache while pairing is forgotten
  without a word to Android; only then may its states repeat.
- `abort_continuing` does not compare the PDU it is asked to abort, and a
  response of several vectors cut before the last one hands on entries nobody
  filled.
- A buffer longer than the ring is recorded over its own beginning.

## Model

| member | source | states |
|---|---|---|
| Twiddles.RowSum | Downloads/SoundScreen-master/kiss_fft130_jfork1.0.0/kiss_fft.c:355-361 | the twiddle table is orthogonal: the d-th powers sum to n when n divides d and to 0 otherwise |
| Twiddles.PowersFormTable | Downloads/SoundScreen-master/kiss_fft130_jfork1.0.0/kiss_fft.c:355-361 | the powers of any primitive n-th root of unity with the right quarter turn satisfy every table law the transforms rely on |
| Twiddles.UnitRootsExist | Downloads/SoundScreen-master/kiss_fft130_jfork1.0.0/kiss_fft.c:355-361 | such roots exist for lengths 1, 2 and 4 in both directions, so the laws are not empty |
| Dft.DecimationInTime | Downloads/SoundScreen-master/kiss_fft130_jfork1.0.0/kiss_fft.c:238-302 | a transform of length p*m over a strided input is p transforms of length m recombined with twiddles |
| GenericButterfly.IndexStep | Downloads/SoundScreen-master/kiss_fft130_jfork1.0.0/kiss_fft.c:224-229 | one conditional subtraction is enough: the running index stays below 2*Norig before it and is the exact residue after it |
| Butterflies.KfBfly2 | Downloads/SoundScreen-master/kiss_fft130_jfork1.0.0/kiss_fft.c:21-42 | in place, for every m, stride, direction and contents: exactly the array the generic butterfly leaves with p = 2, and nothing outside its p*m entries changes |
| Butterflies.KfBfly3 | Downloads/SoundScreen-master/kiss_fft130_jfork1.0.0/kiss_fft.c:92-134 | in place, for every m, stride, direction and contents: exactly the array the generic butterfly leaves with p = 3, and nothing outside its p*m entries changes |
| Butterflies.KfBfly4 | Downloads/SoundScreen-master/kiss_fft130_jfork1.0.0/kiss_fft.c:44-90 | in place, for every m, stride, direction and contents: exactly the array the generic butterfly leaves with p = 4, and nothing outside its p*m entries changes |
| Butterflies.KfBfly5 | Downloads/SoundScreen-master/kiss_fft130_jfork1.0.0/kiss_fft.c:136-195 | in place, for every m, stride, direction and contents: exactly the array the generic butterfly leaves with p = 5, and nothing outside its p*m entries changes |
| GenericButterfly.KfBflyGeneric | Downloads/SoundScreen-master/kiss_fft130_jfork1.0.0/kiss_fft.c:198-235 | in place: entry u+q1*m becomes the twiddled p-point sum of column u, nothing else changes |
| ButterflySpec.EntryIsSmallTransform | Downloads/SoundScreen-master/kiss_fft130_jfork1.0.0/kiss_fft.c:198-235 | that entry is a p-point transform of the twiddled column |
| Kernels.ThirdRoot | Downloads/SoundScreen-master/kiss_fft130_jfork1.0.0/kiss_fft.c:92-134 | what the radix-3 kernel takes for granted: the cube root has real part -1/2 and its square is its conjugate |
| Kernels.QuarterRoot | Downloads/SoundScreen-master/kiss_fft130_jfork1.0.0/kiss_fft.c:44-90 | what the radix-4 kernel takes for granted: the fourth root is -i forward and +i inverse, its square is -1 |
| MixedRadix.KfWork | Downloads/SoundScreen-master/kiss_fft130_jfork1.0.0/kiss_fft.c:238-302 | for every factor list that fits the length: Fout[k] is the transform sum over the strided input for every k, and entries outside Fout[0..p*m) are untouched |
| MixedRadix.StageTransforms | Downloads/SoundScreen-master/kiss_fft130_jfork1.0.0/kiss_fft.c:272-301 | once all p sub-transforms are in place, whatever order they were done in, the butterfly completes the transform of length p*m |
| Transform.KfWorkOmp | Downloads/SoundScreen-master/kiss_fft130_jfork1.0.0/kiss_fft.c:248-270 | the OpenMP branch, sub-transforms in any order: same array as kf_work, except that it reads past the factor list exactly when nfft <= 5 |
| Transform.SinglePairLengths | Downloads/SoundScreen-master/kiss_fft130_jfork1.0.0/kiss_fft.c:248-330 | the factor list is one pair of radix at most 5 exactly for n <= 5 |
| Factor.KfFactor | Downloads/SoundScreen-master/kiss_fft130_jfork1.0.0/kiss_fft.c:309-330 | terminates for every n from 1 to 2^31-1 and writes exactly the canonical pair list, at most 60 of the 64 ints, nothing behind it; each radix times its cofactor is the previous cofactor, the last is 1 |
| Factor.RadicesFourOrPrime | Downloads/SoundScreen-master/kiss_fft130_jfork1.0.0/kiss_fft.c:309-330 | every radix written is 4 or a prime, or 1 when n is 1 |
| Factor.PairsChain | Downloads/SoundScreen-master/kiss_fft130_jfork1.0.0/kiss_fft.c:309-330 | the pairs chain down from n: p_i * m_i = m_(i-1), ending at 1 |
| Factor.PairCount | Downloads/SoundScreen-master/kiss_fft130_jfork1.0.0/kiss_fft.c:309-330 | a list of k pairs needs n >= 2^k |
| Factor.BufferSuffices | Downloads/SoundScreen-master/kiss_fft130_jfork1.0.0/kiss_fft.c:309-330 | the fixed buffer never overflows below 2^31 |
| Factor.NoMoreFactors | Downloads/SoundScreen-master/kiss_fft130_jfork1.0.0/kiss_fft.c:316-323 | the cut-off at the square root is sound: with no divisor below p and p*p > n, what is left is the next radix |
| Factor.Prepare | Downloads/SoundScreen-master/kiss_fft130_jfork1.0.0/kissfft.hh:31-48 | the C++ factoriser, with its cut-off at the current remainder and its 32-bit product, yields the same list as kf_factor |
| Factor.CutOffIsSound | Downloads/SoundScreen-master/kiss_fft130_jfork1.0.0/kissfft.hh:33-42 | the wrapped product p*p is above n only when n has no further divisor, and is above n when n is 1 |
| FastSize.KissFftNextFastSize | Downloads/SoundScreen-master/kiss_fft130_jfork1.0.0/kiss_fft.c:396-408 | terminates for every n >= 1 and returns the smallest k >= n with no prime factor but 2, 3 and 5; for n up to 2125764000, itself such a size, that and every number tried is at most 2125764000 |
| FastSize.PowersAreFast | Downloads/SoundScreen-master/kiss_fft130_jfork1.0.0/kiss_fft.c:396-408 | why the search ends: the powers of two are such sizes and exceed any n |
| Transform.KissFftAlloc | Downloads/SoundScreen-master/kiss_fft130_jfork1.0.0/kiss_fft.c:339-368 | the configuration it fills has a twiddle table with all the laws and a factor list that fits, for both directions |
| Transform.TableIsFilled | Downloads/SoundScreen-master/kiss_fft130_jfork1.0.0/kiss_fft.c:355-361 | mirroring every phase turns a forward table into a valid inverse one |
| Transform.KissFftStride | Downloads/SoundScreen-master/kiss_fft130_jfork1.0.0/kiss_fft.c:371-383 | fout[k] is the transform of the strided input for every k, also when fin is fout and the temporary buffer is used |
| Transform.ForwardThenInverse | Downloads/SoundScreen-master/kiss_fft130_jfork1.0.0/kiss_fft.c:385-388 | an inverse transform of a forward transform, in place, leaves nfft times the input |
| Inversion.RoundTrip | Downloads/SoundScreen-master/kiss_fft130_jfork1.0.0/kiss_fft.c:339-388 | the same on values, for every length and input, from the orthogonality of the table |
| RealTransform.KissFftr | Downloads/SoundScreen-master/kiss_fft130_jfork1.0.0/tools/kiss_fftr.c:67-121 | bins 0..nfft/2 are those of the full-length transform of the real samples |
| RealTransform.ForwardBins | Downloads/SoundScreen-master/kiss_fft130_jfork1.0.0/tools/kiss_fftr.c:107-120 | the two bins computed at each step are bin k and bin m-k of the full-length transform |
| RealTransform.KissFftri | Downloads/SoundScreen-master/kiss_fft130_jfork1.0.0/tools/kiss_fftr.c:123-159 | for any bins: nfft times the real samples that have them, whatever the imaginary parts of the outer two, and nothing outside its nfft entries changes |
| RealSynthesis.SamplesExist | Downloads/SoundScreen-master/kiss_fft130_jfork1.0.0/tools/kiss_fftr.c:123-159 | whatever the bins, there are real samples with them |
| RealSynthesis.SamplesDetermined | Downloads/SoundScreen-master/kiss_fft130_jfork1.0.0/tools/kiss_fftr.c:123-159 | and no two different sequences of samples have the same |
| RealTransform.InverseBins | Downloads/SoundScreen-master/kiss_fft130_jfork1.0.0/tools/kiss_fftr.c:138-152 | the two entries of each step are twice the packed half-length spectrum |
| RealTransform.KissFftrAlloc | Downloads/SoundScreen-master/kiss_fft130_jfork1.0.0/tools/kiss_fftr.c:27-65 | fails exactly for odd lengths; otherwise the half-length table and the super twiddles belong to one full-length table |
| Convolution.ConvolutionTheorem | Downloads/SoundScreen-master/kiss_fft130_jfork1.0.0/tools/kiss_fastfir.c:130-144 | the spectrum of a circular convolution is the product of the spectra, for every length |
| Convolution.GoodSamples | Downloads/SoundScreen-master/kiss_fft130_jfork1.0.0/tools/kiss_fastfir.c:106-144 | with the impulse response rotated as in the allocator, the first nfft-|imp|+1 circular items are those of direct convolution |
| FastConvolution.ChooseLength | Downloads/SoundScreen-master/kiss_fft130_jfork1.0.0/tools/kiss_fastfir.c:38-49 | the shift loop ends with the length of its recursive form |
| FastConvolution.ChosenLength | Downloads/SoundScreen-master/kiss_fft130_jfork1.0.0/tools/kiss_fastfir.c:38-49 | that is the power of two from twice to, exclusively, four times the response, or 4 for a response of one |
| FastConvolution.KissFastfirAlloc | Downloads/SoundScreen-master/kiss_fft130_jfork1.0.0/tools/kiss_fastfir.c:22-128 | for every non-empty response and length: it writes outside its buffer exactly when the response is longer than the length by more than one; for one no longer than the length it stores the scaled spectrum of the rotated response |
| FastConvolution.FastConv1Buf | Downloads/SoundScreen-master/kiss_fft130_jfork1.0.0/tools/kiss_fastfir.c:130-144 | one block through the spectrum is the circular convolution with the impulse response |
| FastConvolution.NocopyEnds | Downloads/SoundScreen-master/kiss_fft130_jfork1.0.0/tools/kiss_fastfir.c:156-161 | the loop over whole blocks ends if and only if there is no block or a block has good samples |
| FastConvolution.KffNocopy | Downloads/SoundScreen-master/kiss_fft130_jfork1.0.0/tools/kiss_fastfir.c:149-163 | None exactly when that loop does not end; otherwise every item written is the direct convolution at its place and fewer than nfft samples stay behind |
| FastConvolution.KffFlush | Downloads/SoundScreen-master/kiss_fft130_jfork1.0.0/tools/kiss_fastfir.c:165-183 | what a flush writes is the direct convolution of the waiting samples, as far as they reach; the count is negative exactly when fewer than N-1 wait |
| FastConvolution.KissFastfir | Downloads/SoundScreen-master/kiss_fft130_jfork1.0.0/tools/kiss_fastfir.c:185-202 | nwrite + new offset = nread + old offset, the new offset is below nfft, the unread samples move to the front, every item is the direct convolution; with no new samples it flushes the waiting ones and leaves the offset alone |
| SlowFir.JSlowFIRFilter.Update | Downloads/SoundScreen-master/FIR_filter/jfastfir.cpp:125-155 | through the wrapping ring index, for every non-empty kernel: each sample becomes the sum of x[n-(N-1)+i]*Cof[i] over all samples since the reset, zeros before |
| SlowFir.JSlowFIRFilter.SetKernel | Downloads/SoundScreen-master/FIR_filter/jfastfir.cpp:113-123 | a new kernel starts from silence |
| SlowFir.RingPush | Downloads/SoundScreen-master/FIR_filter/jfastfir.cpp:143-152 | writing one sample at the write position and stepping on, with the wrap, leaves the last N samples oldest first from the new position |
| SlowFir.CutAnywhere | Downloads/SoundScreen-master/FIR_filter/jfastfir.cpp:125-155 | the answers do not depend on how the stream is cut into calls |
| FastFir.JFastFIRFilter.Update | Downloads/SoundScreen-master/FIR_filter/jfastfir.cpp:202-260 | for every call with samples: the data becomes the next part of nfft zeros followed by the direct convolution of the whole stream, and the invariant remainder_ptr + idx_inbuf = nfft holds again; an empty call flushes instead, and the delay line survives exactly when the offset was |imp|-1 |
| FastFir.JFastFIRFilter.Store | Downloads/SoundScreen-master/FIR_filter/jfastfir.cpp:205-214 | the input buffer always has room for the new samples and keeps the old ones |
| FastFir.JFastFIRFilter.Serve | Downloads/SoundScreen-master/FIR_filter/jfastfir.cpp:219-258 | data followed by the new remainder is the old remainder followed by the block output; every copy stays inside its buffer and the branch for missing items is never taken |
| FastFir.JFastFIRFilter.SetKernel | Downloads/SoundScreen-master/FIR_filter/jfastfir.cpp:179-195 | an empty kernel changes nothing; any other restarts the delay line with nfft zeros, and the filter is in order exactly when the kernel is no longer than the transform |
| FastFir.JFastFIRFilter.SetKernelByRule | Downloads/SoundScreen-master/FIR_filter/jfastfir.cpp:172-177 | with no length given, at least four and less than eight times the kernel is used, which always fits |
| FastFir.RoundedUpFits | Downloads/SoundScreen-master/FIR_filter/jfastfir.cpp:183-183 | the rounded length is at least the one asked for and less than twice it |
| FastFir.RoundedUpPower | Downloads/SoundScreen-master/FIR_filter/jfastfir.cpp:183-183 | and a power of two |
| FastFir.LineAdvances | Downloads/SoundScreen-master/FIR_filter/jfastfir.cpp:202-260 | on values: a step that conserves items keeps the delay line and gives its caller the delayed stream |
| FastFir.LineFlushed | Downloads/SoundScreen-master/FIR_filter/jfastfir.cpp:216-217 | after a flush the delay line holds exactly when nothing was flushed |
| FastFir.CutAnywhere | Downloads/SoundScreen-master/FIR_filter/jfastfir.cpp:202-260 | the delayed answers do not depend on how the stream is cut into non-empty calls |
| FastFir.FastIsSlowDelayed | Downloads/SoundScreen-master/FIR_filter/jfastfir.cpp:125-155 | the fast filter is the slow filter with the reversed kernel, nfft-(N-1) samples later |
| Signalling.Sender.Send | Downloads/SoundScreen-master/bluez-5.43/android/avdtp.c:465-557 | puts on the channel exactly the packets of the message, in order, up to the first the socket refuses, and reports whether all went |
| Signalling.Header | Downloads/SoundScreen-master/bluez-5.43/android/avdtp.c:87-91 | transaction label, packet type and message type can be read back from the header octet |
| Reassembly.InBuf.ParseData | Downloads/SoundScreen-master/bluez-5.43/android/avdtp.c:1856-1980 | in place, for every packet: result and new buffer state are those of the step function |
| Reassembly.AnyPacket | Downloads/SoundScreen-master/bluez-5.43/android/avdtp.c:1856-1980 | for any packet in any state: refused, with nothing changed, exactly when a message is begun within another or its header cut off, or goes on outside one, with another label or against the count; refused when it overruns 1024 octets; otherwise the octets land behind those before, and the message is complete exactly when no more packets are expected |
| Reassembly.PacketsCarryAll | Downloads/SoundScreen-master/bluez-5.43/android/avdtp.c:465-557 | for every length: each packet fits the outgoing MTU and the pieces after their headers are the data in order |
| Reassembly.AnnouncedCount | Downloads/SoundScreen-master/bluez-5.43/android/avdtp.c:504-517 | before it is cut to an octet the announced count is the number of packets, or one more exactly when the last packet is full |
| Reassembly.FragmentThenReassemble | Downloads/SoundScreen-master/bluez-5.43/android/avdtp.c:1856-1980 | fed to a peer with imtu >= omtu the packets give PARSE_FRAGMENT until the last and then the same payload, signal, label and type, if and only if the payload is at most 255 octets and is sent whole or its last packet is not full |
| Reassembly.LongSinglePacket | Downloads/SoundScreen-master/bluez-5.43/android/avdtp.c:1868-1980 | a whole message is accepted up to 1024 octets, but its length is cut to one octet |
| Capabilities.CapsToList | Downloads/SoundScreen-master/bluez-5.43/android/avdtp.c:1120-1160 | returns all the capabilities that can be read, the last codec among them, and whether delay reporting is listed |
| Capabilities.CodecIsTheLast | Downloads/SoundScreen-master/bluez-5.43/android/avdtp.c:1120-1158 | the codec is the last media codec capability with at least two octets; without one it stays as it was |
| Capabilities.PrintRequest | Downloads/SoundScreen-master/bluez-5.43/android/avdtp.c:3156-3172 | the request octets are the two end point numbers and the capabilities one after the other |
| Capabilities.ReadPrinted | Downloads/SoundScreen-master/bluez-5.43/android/avdtp.c:1120-1160 | reading what was printed gives every capability list back |
| Capabilities.PrintRead | Downloads/SoundScreen-master/bluez-5.43/android/avdtp.c:1120-1160 | for any octets: what was read prints to a prefix, and the rest is shorter than 2 or declares a length that overruns |
| Capabilities.ConfigurationTravels | Downloads/SoundScreen-master/bluez-5.43/android/avdtp.c:3121-3191 | printed, fragmented, reassembled and read, a configuration reaches the peer unchanged |
| RequestQueue.RunKeeps | Downloads/SoundScreen-master/bluez-5.43/android/avdtp.c:2231-2238 | over every run in which dequeued requests can be sent: nothing waits while nothing is outstanding, each class leaves in the order it came, every accepted request is answered, outstanding or waiting exactly once |
| RequestQueue.PriorityFirst | Downloads/SoundScreen-master/bluez-5.43/android/avdtp.c:2965-2987 | no normal request is taken while a priority one waits |
| RequestQueue.FailedSendStalls | Downloads/SoundScreen-master/bluez-5.43/android/avdtp.c:2389-2393 | after an answer requests wait behind nothing exactly when the next one could not be sent and there were others |
| RequestQueue.FailedSendLoses | Downloads/SoundScreen-master/bluez-5.43/android/avdtp.c:2389-2393 | an accepted request is lost by an answer exactly when one waited and could not be sent |
| RequestQueue.ReplyKeepsOrder | Downloads/SoundScreen-master/bluez-5.43/android/avdtp.c:2965-2987 | an answer never disturbs the order of a class, whether the next request can be sent or not |
| RequestQueue.OvertakesExactly | Downloads/SoundScreen-master/bluez-5.43/android/avdtp.c:2359-2393 | a submitted request overtakes those of its class exactly when it is sent at once while some wait, and differs from them |
| RequestQueue.StalledRequestIsOvertaken | Downloads/SoundScreen-master/bluez-5.43/android/avdtp.c:2359-2368 | an example run of five events, for any requests: the one behind a lost request is overtaken |
| DiscoveryRuns.DiscoveryCompletes | Downloads/SoundScreen-master/bluez-5.43/android/avdtp.c:2424-2516 | after every run of a new session: if a DISCOVER answer comes during a discovery with a callback, and whatever follows loses no capability request, the answers come in the order asked, and the callback has fired if and only if all n have come, at once for n = 0, or the discovery waited in an idle source that ran first |
| DiscoveryRuns.CompletesInOrder | Downloads/SoundScreen-master/bluez-5.43/android/avdtp.c:2155-2163 | if a waiting source runs before anything more comes through the channel, such a discovery waits in none, and the callback has fired if and only if all n answers have come |
| DiscoveryRuns.AnswersStored | Downloads/SoundScreen-master/bluez-5.43/android/avdtp.c:2479-2516 | in every run, whatever is lost, each end point that was answered for has the capabilities of its last answer |
| DiscoveryRuns.ChangeEvents | Downloads/SoundScreen-master/bluez-5.43/android/avdtp.c:2359-2422 | whatever a handler does to the queue is a sequence of six kinds of events, none of which drops a capability request unless the change is one that loses it |
| DiscoveryRuns.RanOrdered | Downloads/SoundScreen-master/bluez-5.43/android/avdtp.c:2395-2422 | in every run of a session capability requests wait in the priority queue only and DISCOVER in the other only, and none of the former waits while one of the latter is outstanding |
| DiscoveryQueue.StepOnCourse | Downloads/SoundScreen-master/bluez-5.43/android/avdtp.c:2965-2987 | submitting, answering and dropping other requests leaves the capability requests together and in order |
| DiscoveryQueue.AnsweredOnCourse | Downloads/SoundScreen-master/bluez-5.43/android/avdtp.c:2637-2658 | they are answered in order, and looking at the next request in line tells whether another capability answer is to come |
| SessionState.IdleGood | Downloads/SoundScreen-master/bluez-5.43/android/avdtp.c:846-929 | when an end point goes idle its stream is attached nowhere, no waiting request names it, it is no awaited transport, and everything else the session keeps still holds |
| SessionState.CancelledGood | Downloads/SoundScreen-master/bluez-5.43/android/avdtp.c:2248-2348 | cancelling the outstanding request keeps the session in order, whether it aborts a stream or gives the session up |
| SessionState.LostGood | Downloads/SoundScreen-master/bluez-5.43/android/avdtp.c:1015-1030 | losing the connection leaves no stream, no discovery and a session in order |
| SessionState.NothingAttached | Downloads/SoundScreen-master/bluez-5.43/android/avdtp.c:1015-1030 | with no stream left every end point is idle and free and no waiting request names a stream |
| SessionState.ConfiguringNeedsAFreeEndPoint | Downloads/SoundScreen-master/bluez-5.43/android/avdtp.c:3121-3191 | avdtp_set_configuration keeps the session in order if and only if the end point is free, which it does not check, whether its request goes out or not |
| SessionState.TakenExactlyWhenFree | Downloads/SoundScreen-master/bluez-5.43/android/avdtp.c:1263-1290 | attaching a stream to its end point, as setconf_cb does without looking, keeps the session in order if and only if the end point is still free |
| SessionState.DetachedGood | Downloads/SoundScreen-master/bluez-5.43/android/avdtp.c:670-698 | and so does stream_free on a stream that is not attached |
| SessionState.AcceptingGood | Downloads/SoundScreen-master/bluez-5.43/android/avdtp.c:2518-2614 | accepted answers keep the session in order and attach no stream |
| CommandLaws.WalkedPlainly | Downloads/SoundScreen-master/bluez-5.43/android/avdtp.c:1548-1606 | START and SUSPEND, in plain terms: the end points moved are exactly those named by the longest run of octets that each name, by their upper six bits, a different end point with a stream, in the state required, to which the application consents; the walk succeeds exactly when that is every octet; otherwise the first one beyond fails, with 0x12 for no such end point or stream, 0x31 for one in another state or named before, and else with the error of the application, and does not move |
| CommandLaws.StreamsPlainly | Downloads/SoundScreen-master/bluez-5.43/android/avdtp.c:1567-1593 | the streams that went are those of the end points named, in order |
| CommandLaws.RefusedPlainly | Downloads/SoundScreen-master/bluez-5.43/android/avdtp.c:1583-1589 | a START stopped by the application leaves that stream marked as starting; one stopped for another reason leaves none marked but those that went |
| CommandLaws.StartAndSuspend | Downloads/SoundScreen-master/bluez-5.43/android/avdtp.c:1548-1714 | START takes end points from OPEN to STREAMING and SUSPEND back, and a START or SUSPEND of this side is lost exactly when it asks for a stream that went |
| CommandLaws.OpenPlainly | Downloads/SoundScreen-master/bluez-5.43/android/avdtp.c:1498-1546 | OPEN is accepted exactly in CONFIGURED with consent; once the acceptance is sent the stream is awaited; which OPEN of this side is lost; whether the session survives |
| CommandLaws.ClosePlainly | Downloads/SoundScreen-master/bluez-5.43/android/avdtp.c:1608-1657 | CLOSE is accepted exactly in OPEN and STREAMING with consent, and the end point is then CLOSING; which CLOSE of this side is lost |
| CommandLaws.AbortPlainly | Downloads/SoundScreen-master/bluez-5.43/android/avdtp.c:1716-1744 | ABORT is accepted exactly for an end point with a stream, which is ABORTING once the acceptance is sent; any OPEN, START, SUSPEND or CLOSE of this side for it is lost |
| CommandLaws.DelayPlainly | Downloads/SoundScreen-master/bluez-5.43/android/avdtp.c:1752-1802 | DELAY_REPORT: 0x12 without a stream, 0x31 outside CONFIGURED, OPEN and STREAMING, otherwise as the application says |
| CommandLaws.ConfigurationPlainly | Downloads/SoundScreen-master/bluez-5.43/android/avdtp.c:1292-1375 | SET_CONFIGURATION, check by check: 0x13 for a taken end point, 0x23 for a media transport capability with data, 0x29 when the application says no; when the stream is attached and configured, when the peer end point forgets its stream, and whether the session survives |
| CommandLaws.NoSuchEnd | Downloads/SoundScreen-master/bluez-5.43/android/avdtp.c:1498-1802 | a command for a number no end point has changes nothing and is answered with 0x12, except for ABORT, which is not answered |
| CommandLaws.OtherCommands | Downloads/SoundScreen-master/bluez-5.43/android/avdtp.c:1377-1434 | commands that only read change nothing, and a command too short ends the session |
| SessionLaws.AcceptedAnswer | Downloads/SoundScreen-master/bluez-5.43/android/avdtp.c:2518-2614 | an accepted START makes its end point STREAMING, SUSPEND OPEN, CLOSE CLOSING, SET_CONFIGURATION CONFIGURED; OPEN makes the stream the one awaited; ABORT frees the end point and drops the stream everywhere; no other end point or stream changes |
| SessionLaws.EntersOnly | Downloads/SoundScreen-master/bluez-5.43/android/avdtp.c:846-929 | the life cycle, over every change: an end point enters STREAMING only by an accepted START or a START command that names it, OPEN only by a connection, an accepted SUSPEND or a SUSPEND command that names it, CONFIGURED only by an accepted SET_CONFIGURATION or a stream attached for the peer, CLOSING and ABORTING only by a CLOSE or an ABORT, IDLE only by an accepted ABORT, a lost channel, a cancelled request or the end of the session |
| ChangeLaws.TimedOut | Downloads/SoundScreen-master/bluez-5.43/android/avdtp.c:2248-2348 | a timeout sends an ABORT for the first stream to the peer end point the request names; the session is given up exactly when there is none, when the ABORT cannot be sent, and for SET_CONFIGURATION, DISCOVER, GET_CAPABILITIES and ABORT |
| ChangeLaws.AbortPlainly | Downloads/SoundScreen-master/bluez-5.43/android/avdtp.c:3321-3345 | aborting a stream cancels its request when that waits for its answer, and otherwise submits a priority ABORT, unless the stream is unknown or being aborted |
| ChangeLaws.NeverOpensPlainly | Downloads/SoundScreen-master/bluez-5.43/android/avdtp.c:599-612 | a transport that never opens is no longer awaited and its stream is aborted |
| ChangeLaws.IdlePlainly | Downloads/SoundScreen-master/bluez-5.43/android/avdtp.c:721-929 | field by field what a stream going idle leaves: the free end point, the other streams, the requests that do not name it, the peer end point without a stream, and of its outstanding request nothing, or an ABORT without a stream |
| ChangeLaws.OthersStay | Downloads/SoundScreen-master/bluez-5.43/android/avdtp.c:760-778 | the requests that stay keep their order |
| ChangeLaws.RequestMade | Downloads/SoundScreen-master/bluez-5.43/android/avdtp.c:2359-2393 | a request becomes outstanding when none is and the channel takes it, waits last in its class behind an outstanding one, and is gone otherwise |
| ChangeLaws.NextAfterAnswer | Downloads/SoundScreen-master/bluez-5.43/android/avdtp.c:2078-2104 | after any answer that is not about discovery the oldest request leaves, priority first, behind the delay report of a sink just configured; one the channel does not take is gone |
| ChangeLaws.AfterCommandPlainly | Downloads/SoundScreen-master/bluez-5.43/android/avdtp.c:2027-2043 | after a command the session is given up, or lets the next request go in place of the one that lost to the command, or stays |
| Reassembly.FedOneByOne | Downloads/SoundScreen-master/bluez-5.43/android/avdtp.c:2003-2025 | packets are taken one by one, cut to the MTU, up to the first that is empty or refused |
| ChangeLaws.ChannelLost | Downloads/SoundScreen-master/bluez-5.43/android/avdtp.c:2001-2022 | a lost channel leaves no stream, no discovery and only idle and free end points; the callback of a discovery has fired and its source is gone |
| ChangeLaws.AnswerTooShort | Downloads/SoundScreen-master/bluez-5.43/android/avdtp.c:2078-2104 | and so does an answer too short |
| ChangeLaws.ConfiguresPlainly | Downloads/SoundScreen-master/bluez-5.43/android/avdtp.c:3121-3191 | field by field what avdtp_set_configuration makes of a free end point, accepted or not |
| ChangeLaws.LatePlainly | Downloads/SoundScreen-master/bluez-5.43/android/avdtp.c:1263-1290 | and what a late acceptance does |
| ChangeLaws.ConnectsPlainly | Downloads/SoundScreen-master/bluez-5.43/android/avdtp.c:2923-2941 | the stream awaited is OPEN and no longer awaited |
| ChangeLaws.DiscoversPlainly | Downloads/SoundScreen-master/bluez-5.43/android/avdtp.c:3028-3052 | avdtp_discover: served from an idle source when an end point is known, asked otherwise, with a callback exactly when it was accepted |
| ChangeLaws.SourceRuns | Downloads/SoundScreen-master/bluez-5.43/android/avdtp.c:3017-3026 | an idle source ends whatever discovery is in progress |
| ChangeLaws.DiscoveryDeclined | Downloads/SoundScreen-master/bluez-5.43/android/avdtp.c:2742-2768 | a rejected discovery request ends the discovery, fires its callback or calls one that is not set, and leaves its source |
| ChangeLaws.CapabilitiesFiled | Downloads/SoundScreen-master/bluez-5.43/android/avdtp.c:2479-2516 | the list and the delay mark of the end point asked about are replaced, its stream stays; the discovery is over exactly when the request next in line asks for no capabilities |
| ChangeLaws.EndPointsFound | Downloads/SoundScreen-master/bluez-5.43/android/avdtp.c:2424-2477 | every end point asked about is known afterwards, with the first stream to it and what was known of its capabilities; one priority request each, in order; without any the discovery is over |
| Discovery.OctetSays | Downloads/SoundScreen-master/bluez-5.43/android/avdtp.c:116-123 | an octet of a DISCOVER answer: the number in the upper six bits, the in-use mark in bit 1 |
| Discovery.AskedExactly | Downloads/SoundScreen-master/bluez-5.43/android/avdtp.c:2437-2456 | for any octets of a DISCOVER answer: an end point is asked about if and only if it is listed and is known, has a stream of this side, or is listed as not in use |
| Discovery.QueriesGrow | Downloads/SoundScreen-master/bluez-5.43/android/avdtp.c:2437-2456 | in the order of the list: each further entry is asked about exactly when it is known, has a stream, or was listed as not in use so far |
| AnswerLaws.AcceptancePlainly | Downloads/SoundScreen-master/bluez-5.43/android/avdtp.c:2629-2697 | an acceptance by its octets and the outstanding request: which capability request follows DISCOVER, that fewer than six octets of capabilities end the session, which stream it is about |
| AnswerLaws.RejectionPlainly | Downloads/SoundScreen-master/bluez-5.43/android/avdtp.c:2742-2858 | a rejection needs two octets for SET_CONFIGURATION, RECONFIGURE, START, SUSPEND, CLOSE and DELAY_REPORT, one otherwise, none for SECURITY_CONTROL; a shorter one and a rejected ABORT end the session, a rejected discovery request ends the discovery, any other nothing |
| AnswerLaws.VersionRaised | Downloads/SoundScreen-master/bluez-5.43/android/avdtp.c:1321-1341 | delay reporting in a proper configuration raises the version to 1.3, and nothing else does |
| SessionRuns.ChangedGood | Downloads/SoundScreen-master/bluez-5.43/android/avdtp.c:846-929 | each change a handler makes keeps the session in order if and only if it puts no stream on an end point that has one |
| SessionRuns.RanGood | Downloads/SoundScreen-master/bluez-5.43/android/avdtp.c:846-929 | so over every run without such a change a session in order stays in order |
| SessionRuns.ChangedTied | Downloads/SoundScreen-master/bluez-5.43/android/avdtp.c:3017-3052 | an idle source waits exactly while a discovery is in it: each change keeps that if and only if it is not the rejection of a discovery request while a later discovery waits in its source |
| SessionRuns.RanTied | Downloads/SoundScreen-master/bluez-5.43/android/avdtp.c:3017-3052 | so over every run without such a rejection, up to a clash of two streams on an end point, process_discover finds the discovery it is for |
| SessionRuns.RanInOrder | Downloads/SoundScreen-master/bluez-5.43/android/avdtp.c:2155-2163 | and that is so of every run in the order of the main loop, in which a waiting source runs before anything more comes through the channel |
| SessionRuns.ChangedNullCalls | Downloads/SoundScreen-master/bluez-5.43/android/avdtp.c:2742-2768 | a callback that is not set is called exactly when a discovery request is rejected during a discovery that has none |
| SessionRuns.RanCallbacks | Downloads/SoundScreen-master/bluez-5.43/android/avdtp.c:3028-3052 | over every run, up to a clash, in which each avdtp_discover call that had to ask could, no callback is called that is not set |
| SessionRuns.RanListens | Downloads/SoundScreen-master/bluez-5.43/android/avdtp.c:2063-2064 | in every run, up to a clash, while the channel is watched, the outstanding request has its timeout running, which session_cb removes without asking |
| SessionRuns.FindsTalk | Downloads/SoundScreen-master/bluez-5.43/android/avdtp.c:2424-2477 | what a DISCOVER answer does to a session is the step module Discovery has for it |
| SessionRuns.DescribesTalk | Downloads/SoundScreen-master/bluez-5.43/android/avdtp.c:2479-2516 | and so is what a capability answer does |
| SessionRuns.EveryReachableState | Downloads/SoundScreen-master/bluez-5.43/android/avdtp.c:670-698 | in every state reachable from a new session while no stream is put on a taken end point: the streams are, once each, those attached to local end points; inuse marks exactly these; end points without a stream are IDLE; pending_open and all requests name only attached streams; no discovery callback fires twice |
| SessionWitnesses.BothAnsweredLate | Downloads/SoundScreen-master/bluez-5.43/android/avdtp.c:1263-1290 | a run of the handlers: two configurations of one end point answered later leave two streams of it |
| SessionWitnesses.SecondNotSent | Downloads/SoundScreen-master/bluez-5.43/android/avdtp.c:1263-1290 | and if the second acceptance cannot be sent, the first stream loses its end point |
| SessionWitnesses.SourceRunsAlone | Downloads/SoundScreen-master/bluez-5.43/android/avdtp.c:3017-3052 | a run of the handlers, the channel served before a waiting source, in which process_discover finds no discovery |
| SessionWitnesses.FiresEarly | Downloads/SoundScreen-master/bluez-5.43/android/avdtp.c:3017-3052 | a run of the handlers, in that order too, in which the callback fires while a capability request is unanswered |
| SessionWitnesses.FirstTimerFires | Downloads/SoundScreen-master/bluez-5.43/android/avdtp.c:1498-1546 | a run of the handlers in which the timer of a first OPEN fires after a second OPEN and the connection, and the stream is aborted |
| SessionWitnesses.UnsetCallbackCalled | Downloads/SoundScreen-master/bluez-5.43/android/avdtp.c:2742-2768 | a run of the handlers in which a callback is called that was never set |
| AvdtpSession.Session.GoIdle | Downloads/SoundScreen-master/bluez-5.43/android/avdtp.c:896-923 | avdtp_sep_set_state to IDLE changes the session exactly as the value-level step says |
| AvdtpSession.Session.SetState | Downloads/SoundScreen-master/bluez-5.43/android/avdtp.c:846-895 | any other state: only that end point moves; a configured sink submits its delay report exactly when delay reporting was agreed; the marks and timers that follow the state |
| AvdtpSession.Session.HandleUnansweredReq | Downloads/SoundScreen-master/bluez-5.43/android/avdtp.c:780-844 | a request being answered stays, an ABORT loses its stream, any other is given up |
| AvdtpSession.Session.CleanupQueue | Downloads/SoundScreen-master/bluez-5.43/android/avdtp.c:760-778 | exactly the requests that do not name the stream stay, in order |
| AvdtpSession.Session.StreamFree | Downloads/SoundScreen-master/bluez-5.43/android/avdtp.c:670-698 | the end point is free, whatever stream it had, and the peer end point forgets its stream |
| AvdtpSession.Session.FinalizeDiscovery | Downloads/SoundScreen-master/bluez-5.43/android/avdtp.c:931-950 | ends the discovery in progress: its callback fires if one is set, its idle source is removed if it waits in one |
| AvdtpSession.Session.ConnectionLost | Downloads/SoundScreen-master/bluez-5.43/android/avdtp.c:1015-1030 | every stream goes idle in turn, then discovery ends |
| AvdtpSession.Session.SendReq | Downloads/SoundScreen-master/bluez-5.43/android/avdtp.c:2359-2393 | sent when nothing is outstanding, queued in its class otherwise, dropped when it cannot be sent |
| AvdtpSession.Session.SendRequest | Downloads/SoundScreen-master/bluez-5.43/android/avdtp.c:2395-2422 | the same, except that nothing but ABORT is sent for a stream being aborted |
| AvdtpSession.Session.ProcessQueue | Downloads/SoundScreen-master/bluez-5.43/android/avdtp.c:2965-2987 | the next request, priority first, becomes outstanding |
| AvdtpSession.Session.CancelRequest | Downloads/SoundScreen-master/bluez-5.43/android/avdtp.c:2248-2348 | exactly when an ABORT for the named stream goes out does the session live on |
| AvdtpSession.Session.OpenRequest | Downloads/SoundScreen-master/bluez-5.43/android/avdtp.c:3193-3208 | asks exactly for an attached stream not yet open and not being aborted |
| AvdtpSession.Session.StartRequest | Downloads/SoundScreen-master/bluez-5.43/android/avdtp.c:3225-3270 | asks exactly in OPEN, unless the peer is to start, a close is under way or a start is pending |
| AvdtpSession.Session.CloseRequest | Downloads/SoundScreen-master/bluez-5.43/android/avdtp.c:3272-3302 | closes, or aborts a stream that is not open or whose request waits when there is no time |
| AvdtpSession.Session.SuspendRequest | Downloads/SoundScreen-master/bluez-5.43/android/avdtp.c:3304-3319 | asks exactly beyond OPEN and before a close |
| AvdtpSession.Session.AbortRequest | Downloads/SoundScreen-master/bluez-5.43/android/avdtp.c:3321-3345 | cancels the outstanding request of the stream, or submits a priority ABORT |
| AvdtpSession.Session.DelayReport | Downloads/SoundScreen-master/bluez-5.43/android/avdtp.c:3347-3370 | submits a priority report exactly in CONFIGURED or STREAMING with delay reporting agreed |
| AvdtpSession.Session.SetConfigurationRequest | Downloads/SoundScreen-master/bluez-5.43/android/avdtp.c:3121-3191 | a new stream with the capabilities is attached exactly when its request is accepted; the session stays in order if and only if the end point was free |
| AvdtpSession.Session.SetconfCb | Downloads/SoundScreen-master/bluez-5.43/android/avdtp.c:1263-1290 | a stream is attached and CONFIGURED exactly when the acceptance could be sent, now or later; the session stays in order if and only if the answer is an error or the end point is still free |
| AvdtpSession.Session.SetconfCmd | Downloads/SoundScreen-master/bluez-5.43/android/avdtp.c:1292-1375 | the code the first failing check asks for, which peer end point forgets its stream, the stream made and handed out, attached at once or waiting, the delay report a sink submits, and the version raised by delay reporting |
| AvdtpSession.Session.OpenCmd | Downloads/SoundScreen-master/bluez-5.43/android/avdtp.c:1498-1546 | accepts exactly in CONFIGURED with consent; then and only then the stream is the one awaited, and a timer is started whether one runs or not |
| AvdtpSession.Session.StartCmd | Downloads/SoundScreen-master/bluez-5.43/android/avdtp.c:1548-1606 | walks the listed end points from OPEN to STREAMING, answers with the error of the first that cannot go, marks a colliding request of those that went, and marks as starting exactly those that went and one the application refused; what the walk comes to is CommandLaws.WalkedPlainly |
| AvdtpSession.Session.SuspendCmd | Downloads/SoundScreen-master/bluez-5.43/android/avdtp.c:1659-1714 | the same from STREAMING to OPEN |
| AvdtpSession.Session.CloseCmd | Downloads/SoundScreen-master/bluez-5.43/android/avdtp.c:1608-1657 | accepts exactly in OPEN or STREAMING with consent and moves to CLOSING |
| AvdtpSession.Session.AbortCmd | Downloads/SoundScreen-master/bluez-5.43/android/avdtp.c:1716-1744 | no answer for a free end point; otherwise ABORTING once the acceptance is sent |
| AvdtpSession.Session.DelayReportCmd | Downloads/SoundScreen-master/bluez-5.43/android/avdtp.c:1752-1802 | stores the delay unless the end point is free, idle, closing or aborting |
| AvdtpSession.Session.CheckCollision | Downloads/SoundScreen-master/bluez-5.43/android/avdtp.c:1435-1496 | marks the outstanding request exactly when it asks the same of the same stream, or the peer aborts it |
| AvdtpSession.Session.DiscoverResp | Downloads/SoundScreen-master/bluez-5.43/android/avdtp.c:2424-2477 | the whole session afterwards: each end point worth asking about is noted and asked about in order, the discovery ends at once if there is none; which ones those are is Discovery.AskedExactly |
| AvdtpSession.Session.GetCapabilitiesResp | Downloads/SoundScreen-master/bluez-5.43/android/avdtp.c:2479-2516 | the end point asked about is known, and its list is replaced by what the answer holds |
| AvdtpSession.Session.ParseResp | Downloads/SoundScreen-master/bluez-5.43/android/avdtp.c:2629-2697 | for every signal what an acceptance comes to: discovery goes on, the stream moves, a configured sink reports its delay, or nothing happens if the stream is gone; see SessionLaws.AcceptedAnswer and ChangeLaws for what each leaves |
| AvdtpSession.Session.ParseRej | Downloads/SoundScreen-master/bluez-5.43/android/avdtp.c:2742-2858 | a short rejection or a rejected ABORT fails; a rejected discovery request ends the discovery, leaves its idle source behind and calls its callback, set or not |
| AvdtpSession.Session.RequestAccepted | Downloads/SoundScreen-master/bluez-5.43/android/avdtp.c:2063-2104 | the whole step of session_cb for an acceptance of any signal, including the next request sent |
| AvdtpSession.Session.RequestRejected | Downloads/SoundScreen-master/bluez-5.43/android/avdtp.c:2063-2104 | the whole step of session_cb for a rejection |
| AvdtpSession.Session.ReceiveAnswer | Downloads/SoundScreen-master/bluez-5.43/android/avdtp.c:2045-2104 | the whole step of session_cb for any answer: ignored if it does not fit the outstanding request, the end of the session, or settled and the next request sent |
| AvdtpSession.Session.ChannelFailed | Downloads/SoundScreen-master/bluez-5.43/android/avdtp.c:2001-2022 | a lost channel or an improper packet ends the session: no stream and no discovery is left |
| AvdtpSession.Session.ChannelInvalid | Downloads/SoundScreen-master/bluez-5.43/android/avdtp.c:1992-1996 | an invalid channel is not watched any more, and nothing else changes |
| AvdtpSession.Session.ReceiveCommand | Downloads/SoundScreen-master/bluez-5.43/android/avdtp.c:2027-2043 | the whole step of session_cb for any command, octets and answers of the application: its effect, whether the session survives, which outstanding request loses to it, the message it is answered with, the stream handed out for a configuration answered later; CommandLaws spells these out |
| AvdtpSession.Session.RequestTimeout | Downloads/SoundScreen-master/bluez-5.43/android/avdtp.c:2350-2357 | a timeout cancels the outstanding request |
| AvdtpSession.Session.StreamOpenTimeout | Downloads/SoundScreen-master/bluez-5.43/android/avdtp.c:599-612 | whichever timer fired, the one known or one whose number was overwritten: no transport is awaited any more and the stream, if attached, is aborted |
| AvdtpSession.Session.StartTimeout | Downloads/SoundScreen-master/bluez-5.43/android/avdtp.c:3210-3223 | the start the peer did not send is asked for |
| AvdtpSession.Session.SetTransport | Downloads/SoundScreen-master/bluez-5.43/android/avdtp.c:2923-2941 | exactly the stream awaited gets the channel and moves to OPEN |
| AvdtpSession.Session.TransportCb | Downloads/SoundScreen-master/bluez-5.43/android/avdtp.c:700-719 | a lost channel makes the stream idle, unless this side is aborting it |
| AvdtpSession.Session.DiscoverRequest | Downloads/SoundScreen-master/bluez-5.43/android/avdtp.c:3028-3052 | busy while a discovery is in progress; otherwise a new call, whose callback is set exactly when it can be served or its request is accepted |
| AvdtpSession.Session.ProcessDiscover | Downloads/SoundScreen-master/bluez-5.43/android/avdtp.c:3017-3026 | ends the discovery in progress, whichever it is; sound while every source still has its discovery |
| Continuation.FragmentsReassemble | Downloads/SoundScreen-master/bluez-5.43/android/avrcp-lib.c:1091-1153 | for every response and MTU the packets, START, CONTINUING and END or SINGLE, reassemble to the bytes at a receiver that follows section 6.8 of AVRCP 1.5 |
| Continuation.FragmentsFit | Downloads/SoundScreen-master/bluez-5.43/android/avrcp-lib.c:1118-1145 | their number is the length divided by MTU-7 rounded up, each fits the MTU, all but the last are full, and their bodies are the bytes |
| Continuation.PendingIsTheUnsentRest | Downloads/SoundScreen-master/bluez-5.43/android/avrcp-lib.c:1050-1204 | at every point of every run of responses, requests and aborts: what was sent for the last response and what is pending are together that response; after an abort nothing is pending |
| Continuation.DrawnToTheEnd | Downloads/SoundScreen-master/bluez-5.43/android/avrcp-lib.c:1091-1185 | whatever came before: after a response and some requests that name its PDU, one packet more than requests is out, until, at exactly as many requests as packets less one, nothing is pending and the peer has the bytes; every packet is a stable answer of the panel with the PDU, the label it answers, and a length that fits |
| Continuation.DrawnOneByOne | Downloads/SoundScreen-master/bluez-5.43/android/avrcp-lib.c:1091-1185 | each packet carries its part of the bytes, at its place and with its packet type, and the rest is pending |
| Continuation.OnlyThePendingPdu | Downloads/SoundScreen-master/bluez-5.43/android/avrcp-lib.c:1155-1171 | a request whose parameters are not exactly the one pending PDU changes nothing |
| Continuation.AbortDiscards | Downloads/SoundScreen-master/bluez-5.43/android/avrcp-lib.c:1187-1204 | an abort with exactly one parameter while something is pending discards it and is accepted with PDU 0x41; any other changes nothing |
| Continuation.ReassembledExactly | Downloads/SoundScreen-master/bluez-5.43/android/avrcp-lib.c:1118-1145 | the receiver takes exactly one single packet, or a start, continuing packets and an end, and puts their bodies together in order |
| Continuation.DrawnResponseArrives | Downloads/SoundScreen-master/bluez-5.43/android/avrcp-lib.c:1155-1185 | nothing is pending exactly when all its packets are out, and then the peer has the response whole |
| AvrcpSession.Avrcp.ContinuingNew | Downloads/SoundScreen-master/bluez-5.43/android/avrcp-lib.c:1050-1089 | the record holds all vectors without the first offset bytes |
| AvrcpSession.Avrcp.AvrcpSendInternal | Downloads/SoundScreen-master/bluez-5.43/android/avrcp-lib.c:1091-1153 | for any vectors: the packet carries what fits, the rest is pending and nothing of an earlier response; every entry handed on is filled if and only if the cut is in the last vector or nowhere |
| AvrcpSession.Avrcp.RequestContinuing | Downloads/SoundScreen-master/bluez-5.43/android/avrcp-lib.c:1155-1185 | draws the next fragment exactly for one parameter naming the pending PDU, and otherwise changes nothing; what the fragments come to is Continuation.DrawnToTheEnd |
| AvrcpSession.Avrcp.AbortContinuing | Downloads/SoundScreen-master/bluez-5.43/android/avrcp-lib.c:1187-1204 | discards the pending bytes exactly for one parameter, whatever PDU it names |
| AvrcpSession.Avrcp.GetElementAttrsRsp | Downloads/SoundScreen-master/bluez-5.43/android/avrcp-lib.c:3281-3292 | a new response discards what was pending |
| Pairing.CacheHoldsTheNewest | Downloads/SoundScreen-master/bluez-5.43/android/bluetooth.c:417-441 | the cache is least-recently-used: after any history it holds exactly the 300 most recently cached devices, in order |
| PairingLaws.ThreeHundredNewest | Downloads/SoundScreen-master/bluez-5.43/android/bluetooth.c:417-441 | the same with the number written out |
| PairingLaws.RecentOrder | Downloads/SoundScreen-master/bluez-5.43/android/bluetooth.c:417-441 | that order: every address cached so far once, the last one cached first |
| Pairing.RunKeeps | Downloads/SoundScreen-master/bluez-5.43/android/bluetooth.c:769-847 | over every run of look-ups, sightings and pairing reports: the lists stay disjoint and without repetition, a device is listed as bonded exactly when it is paired, bonded implies paired, and the cache stays within 300 |
| Pairing.EvictsOnlyTheOldest | Downloads/SoundScreen-master/bluez-5.43/android/bluetooth.c:428-436 | a device is forgotten exactly when a full cache takes another in; it is then the oldest and unpaired |
| Pairing.PairingLost | Downloads/SoundScreen-master/bluez-5.43/android/bluetooth.c:776-800 | a transport loses its pairing exactly when a report says so outside a pairing procedure; the other transport is never touched |
| Pairing.StepHeard | Downloads/SoundScreen-master/bluez-5.43/android/bluetooth.c:849-909 | after one event Android and the daemon agree on a device if and only if the event did not throw it out of the cache while pairing |
| Pairing.RunHeard | Downloads/SoundScreen-master/bluez-5.43/android/bluetooth.c:849-909 | over every run without that: the states notified for a device have no equal neighbours, never bonded next to not bonded, and end at device_bond_state, which PairingLaws.AndroidKnows spells out |
| PairingLaws.AndroidKnows | Downloads/SoundScreen-master/bluez-5.43/android/bluetooth.c:849-909 | and in terms of the daemon itself: the last notice for a device says bonding exactly while it is pairing, bonded exactly when it is not and stands in the bonded list, and neither otherwise, also for an unknown device; without a notice that is as it was at the start |
| PairingLaws.ReportTold | Downloads/SoundScreen-master/bluez-5.43/android/bluetooth.c:864-909 | a report about a known device: no notice while its state stays; the new state with the status of the report; and bonding first, with status 0, between bonded and not bonded |
| PairingLaws.UpdatedFlags | Downloads/SoundScreen-master/bluez-5.43/android/bluetooth.c:769-847 | the five flags after any report on either transport |
| PairingLaws.UpdatedLists | Downloads/SoundScreen-master/bluez-5.43/android/bluetooth.c:769-847 | a device that becomes paired leads the bonded list and leaves the cache; one that is not paired, or no more, is cached once more unless the report is no news; a paired one stays where it is |
| PairingLaws.LookedUpAndSighted | Downloads/SoundScreen-master/bluez-5.43/android/bluetooth.c:473-486 | a look-up changes nothing about a known device; a sighting takes it to the front of the cache unless it is bonded; an unknown one enters the cache unpaired |
| Pairing.CutOffIsHeardTwice | Downloads/SoundScreen-master/bluez-5.43/android/bluetooth.c:428-436 | and in that case three events make Android hear the same state twice |
| DeviceStore.Adapter.FindDevice | Downloads/SoundScreen-master/bluez-5.43/android/bluetooth.c:391-404 | finds the one known device with the address, or there is none |
| DeviceStore.Adapter.CacheDevice | Downloads/SoundScreen-master/bluez-5.43/android/bluetooth.c:417-441 | the list becomes the move-to-front, bounded one |
| DeviceStore.Adapter.GetDevice | Downloads/SoundScreen-master/bluez-5.43/android/bluetooth.c:473-486 | returns a known device with the address, creating and caching it if there was none |
| DeviceStore.Adapter.UpdateFoundDevice | Downloads/SoundScreen-master/bluez-5.43/android/bluetooth.c:1914-1967 | on the heap records: the roster becomes that of a sighting, and stays coherent |
| DeviceStore.Adapter.UpdateBredrState | Downloads/SoundScreen-master/bluez-5.43/android/bluetooth.c:769-804 | flags and lists change exactly as the value-level report says |
| DeviceStore.Adapter.UpdateLeState | Downloads/SoundScreen-master/bluez-5.43/android/bluetooth.c:806-847 | the same for LE |
| DeviceStore.Adapter.UpdateBondState | Downloads/SoundScreen-master/bluez-5.43/android/bluetooth.c:864-883 | nothing for an unchanged state, bonding in between bonded and not bonded |
| DeviceStore.Adapter.UpdateDeviceState | Downloads/SoundScreen-master/bluez-5.43/android/bluetooth.c:893-909 | records, lists and notifications together become those of the value-level report, and stay coherent; PairingLaws.ReportTold says what Android hears of it |
| AudioHandOff.HandOff | Downloads/SoundScreen-master/real_time_audio/audio_record.c:36-107 | in every interleaving: never both threads copying, every access inside the array, and the k-th played buffer is the k-th recorded one as the ring gives it back |
| AudioHandOff.FaithfulExactlyIfItFits | Downloads/SoundScreen-master/real_time_audio/audio_record.c:45-107 | what is played is what was recorded, in every interleaving, if and only if 2*framesPerBuffer <= BUFFER_SIZE |
| AudioHandOff.EchoIsIdentity | Downloads/SoundScreen-master/real_time_audio/audio_record.c:54-58 | a buffer comes back unchanged whatever it holds if and only if it fits the ring |
| AudioHandOff.SlotsCollide | Downloads/SoundScreen-master/real_time_audio/audio_record.c:56-57 | base plus wrapped index stays below 2*BUFFER_SIZE, and two samples share an element exactly when they are a ring apart |
| AudioHandOff.RingHolds | Downloads/SoundScreen-master/real_time_audio/audio_record.c:54-58 | with the numbers of the source: a reader takes the j-th sample from element index + (index + j) % 4096 of the 8192, and a writer leaves there the last of its samples that wraps to it |
| AudioHandOff.NeverStuck | Downloads/SoundScreen-master/real_time_audio/audio_record.c:50-51 | the two threads never block each other |
| AudioHandOff.RecordOneRecords | Downloads/SoundScreen-master/real_time_audio/audio_record.c:36-67 | the steps of one record callback, run together, are its loop |
| AudioHandOff.PlayOnePlays | Downloads/SoundScreen-master/real_time_audio/audio_record.c:73-107 | the steps of one play callback, run together, are its loop |
| AudioCallbacks.PaData.RecordCallback | Downloads/SoundScreen-master/real_time_audio/audio_record.c:36-67 | the loop over frames with its 32-bit index writes the buffer into the ring and moves the index on |
| AudioCallbacks.PaData.PlayCallback | Downloads/SoundScreen-master/real_time_audio/audio_record.c:73-107 | the loop over frames reads the buffer out of the ring and moves the index on |

## Left out

- Rounding, fixed point, SIMD and the computation of sines and cosines: phases come from a function that is given, floor(sqrt(n)) is given with its defining property.
- Placement of a configuration in caller memory (`mem`, `lenmem`), failing allocations, `kiss_fft_cleanup`.
- Transform.KissFftAlloc: lengths up to 2^31-1; the index products of `kf_bfly_generic` are unbounded integers, so an `int` overflow for lengths above 2^30 with radices above 5 is not modelled.
- Transform.KissFftStride: fin and fout are the same array or do not overlap; partial overlap is not modelled.
- FastFir.JFastFIRFilter.SetKernel: `pow(2, ceil(log2(n)))` is the least power of two that is at least n, and 0 for 0; negative lengths are not modelled, nor is length 1, for which the real transform is refused. The two transform configurations are made by the caller, for the length the code uses.
- FastConvolution.KissFastfir: only for responses that fit; with one longer by one it ends exactly as `KffNocopy` does.
- FastSize.KissFftNextFastSize: above 2125764000 the numbers are unbounded, while the code counts in an int.
- FastFir.JFastFIRFilter.Serve: the copy inside the remainder buffer is a move; the code uses memcpy on ranges that may overlap.
- SlowFir.JSlowFIRFilter.Update: the branch that resizes the ring is not modelled, since reset always gives the ring the length of the kernel; an empty kernel, for which the code divides by zero, is excluded.
- The filter design functions, `qjfastfir.cpp` and the copy of the FFT under AuxIVA, which add nothing new.
- Reassembly.InBuf.ParseData: packets shorter than the common header are rejected before it, in session_cb, and are not modelled.
- The search for a free AVCTP transaction label, and the counter for AVDTP labels: whether an answer carries the right label is an input of `ReceiveAnswer`.
- AVDTP sessions that share end points, registration of end points, reference counting and the state after `avdtp_free`, `avdtp_shutdown`, whose loop walks a list its body may free, and applications that call back into the session, except for the answer to a configuration.
- AvdtpSession.Session.ReceiveCommand: the capability and configuration lists in answers to commands that only read are not modelled; the marks and timers of streams are stated by the handlers of the single commands. An outstanding request that lost to an earlier command is excluded: no handler leaves one (`Unmarked`).
- AvdtpSession.Session.StartCmd: a message is its kind, signal and error code; the end point number in a rejection is the one the walk returns.
- AvdtpSession.Session.ReceiveAnswer: only while the channel is watched, as session_cb is called; that the outstanding request then has its timeout is SessionRuns.RanListens.
- AvdtpSession.Session.SetConfigurationRequest: the codec entry of a peer end point and the order of the peer's list are not modelled; peer end points are a map from their numbers.
- AvdtpSession.Session.StreamOpenTimeout: a timer that fires after `stream_free` reads memory that is gone; here the stream can still be read, and is not attached.
- Whether a queue left alone by `handle_unanswered_req`, which does not start the next request, is ever started again.
- Timers other than that they may fire while set; sockets, channels and priorities of sources.
- AvrcpSession.Avrcp.AvrcpSendInternal: the MTU is above 7 and below 65536; whether the channel took the packet is not modelled, since nothing the session keeps depends on it.
- Pairing.RunKeeps: addresses rewritten after an identity key arrives, key files, loading from storage, signature counters and the white list are not modelled; a device is matched by its address alone.
- AudioHandOff.HandOff: the semaphores start at 1 and 0. The code sets only the first: `&&` skips the second call exactly when the first succeeds, and the 0 comes from static storage. PortAudio runs each callback on its own thread, one call at a time, with a fixed number of frames.
- The speech separation code, the learning code, wave files and the demo.
