// The recorder and the player of audio_record.c: two callbacks on two threads
// hand one buffer at a time to each other through a ring and two semaphores.
// Every sample copy is a step of its own, and a schedule may interleave the
// steps of the two threads in any order.
module AudioHandOff {
  const RING_SIZE: nat := 4096 // BUFFER_SIZE; the array is twice as long

  // The element a copy loop touches: the base address already includes the index,
  // and the wrapped index is added to it.
  function Slot(base: nat, i: nat): nat { base + (base + i) % RING_SIZE }

  // The index left behind by k buffers of n samples.
  function IndexAfter(n: nat, k: nat): (r: nat)
    ensures r < RING_SIZE
  {
    if k == 0 then 0 else (IndexAfter(n, k - 1) + n) % RING_SIZE
  }

  // What a copy loop reads back.
  function Read(ring: seq<int>, base: nat, n: nat): (s: seq<int>)
    requires base < RING_SIZE && |ring| == 2 * RING_SIZE
    ensures |s| == n
  {
    seq(n, i requires 0 <= i < n => ring[Slot(base, i)])
  }

  // The ring after a copy loop wrote s.
  function Written(ring: seq<int>, base: nat, s: seq<int>): (r: seq<int>)
    requires base < RING_SIZE && |ring| == 2 * RING_SIZE
    ensures |r| == |ring|
  {
    if s == [] then ring
    else Written(ring, base, s[..|s| - 1])[Slot(base, |s| - 1) := s[|s| - 1]]
  }

  // Each position holds the last sample written to its slot: a buffer longer
  // than the ring overwrites its own beginning.
  function Echo(s: seq<int>): (r: seq<int>)
    ensures |r| == |s|
  {
    seq(|s|, i requires 0 <= i < |s| => s[i + RING_SIZE * ((|s| - 1 - i) / RING_SIZE)])
  }

  lemma EchoOneMore(s: seq<int>, x: int, i: nat)
    requires i <= |s|
    ensures Echo(s + [x])[i] == if i % RING_SIZE == |s| % RING_SIZE then x else Echo(s)[i]
  {}

  lemma SlotsCollide(base: nat, i: nat, j: nat)
    requires base < RING_SIZE
    ensures Slot(base, i) < 2 * RING_SIZE
    ensures Slot(base, i) == Slot(base, j) <==> i % RING_SIZE == j % RING_SIZE
  {}

  // Writing one more sample keeps what a reader would get in step.
  lemma ReadAfterWrite(ring: seq<int>, base: nat, s: seq<int>, x: int)
    requires base < RING_SIZE && |ring| == 2 * RING_SIZE
    requires Read(ring, base, |s|) == Echo(s)
    ensures Slot(base, |s|) < |ring|
    ensures Read(ring[Slot(base, |s|) := x], base, |s| + 1) == Echo(s + [x])
  {
    var next := ring[Slot(base, |s|) := x];
    forall i | 0 <= i <= |s| ensures next[Slot(base, i)] == Echo(s + [x])[i] {
      SlotsCollide(base, i, |s|);
      EchoOneMore(s, x, i);
      if i < |s| { assert Read(ring, base, |s|)[i] == ring[Slot(base, i)]; }
    }
  }

  lemma {:induction false} ReadWritten(ring: seq<int>, base: nat, s: seq<int>)
    requires base < RING_SIZE && |ring| == 2 * RING_SIZE
    ensures Read(Written(ring, base, s), base, |s|) == Echo(s)
  {
    if s != [] {
      var front := s[..|s| - 1];
      ReadWritten(ring, base, front);
      ReadAfterWrite(Written(ring, base, front), base, front, s[|s| - 1]);
      assert s == front + [s[|s| - 1]];
    }
  }

  // Where the samples are, with the 4096 of the source: a reader takes the j-th
  // from index plus wrapped index plus j, a writer leaves there the last sample
  // that wraps to it, and no other element changes.
  lemma RingHolds(ring: seq<int>, base: nat, s: seq<int>, j: nat)
    requires base < 4096 && |ring| == 8192 && j < |s|
    ensures base + (base + j) % 4096 < 8192
    ensures Read(ring, base, |s|)[j] == ring[base + (base + j) % 4096]
    ensures Written(ring, base, s)[base + (base + j) % 4096] == s[j + 4096 * ((|s| - 1 - j) / 4096)]
  {
    ReadWritten(ring, base, s);
    assert Read(Written(ring, base, s), base, |s|)[j] == Echo(s)[j];
    hide Written;
  }

  lemma {:induction false} OthersStay(ring: seq<int>, base: nat, s: seq<int>, e: nat)
    requires base < 4096 && |ring| == 8192 && e < 8192
    requires forall j: nat :: j < |s| ==> Slot(base, j) != e
    ensures Written(ring, base, s)[e] == ring[e]
  {
    if s != [] { OthersStay(ring, base, s[..|s| - 1], e); }
  }

  // A buffer comes back unchanged whatever it holds exactly when it fits.
  lemma EchoIsIdentity(n: nat)
    ensures (forall s: seq<int> :: |s| == n ==> Echo(s) == s) <==> n <= RING_SIZE
  {
    if n > RING_SIZE {
      var s := seq(n, i => i);
      assert Echo(s)[0] != s[0];
    } else {
      forall s: seq<int> | |s| == n ensures Echo(s) == s {}
    }
  }

  // ------------------------------------------------------------ the threads

  datatype Phase =
    | Idle
    | Waiting(index: nat)          // index read, at sem_wait
    | Copying(index: nat, i: nat)  // past sem_wait, i samples copied
    | Posted(index: nat)           // past sem_post, the new index not stored yet

  datatype State = State(
    readDone: nat, writeDone: nat, ring: seq<int>,
    recordIndex: nat, rec: Phase, input: seq<int>, recorded: seq<seq<int>>,
    playIndex: nat, play: Phase, output: seq<int>, played: seq<seq<int>>)

  datatype Step =
    | RecordCall(buffer: seq<int>) | RecordWait | RecordCopy | RecordPost | RecordStore
    | PlayCall | PlayWait | PlayCopy | PlayPost | PlayStore

  function Start(): State {
    State(1, 0, seq(2 * RING_SIZE, i => 0), 0, Idle, [], [], 0, Idle, [], [])
  }

  // A step a thread is not at, or is blocked at.
  predicate Enabled(n: nat, s: State, step: Step) {
    match step
    case RecordCall(buffer) => s.rec.Idle? && |buffer| == n
    case RecordWait => s.rec.Waiting? && s.readDone > 0
    case RecordCopy => s.rec.Copying? && s.rec.i < n
    case RecordPost => s.rec.Copying? && s.rec.i == n
    case RecordStore => s.rec.Posted?
    case PlayCall => s.play.Idle?
    case PlayWait => s.play.Waiting? && s.writeDone > 0
    case PlayCopy => s.play.Copying? && s.play.i < n
    case PlayPost => s.play.Copying? && s.play.i == n
    case PlayStore => s.play.Posted?
  }

  // The memory accesses of a step stay inside the array and the buffer.
  predicate InBounds(s: State, step: Step) {
    && (step.RecordCopy? && s.rec.Copying? ==> Slot(s.rec.index, s.rec.i) < |s.ring| && s.rec.i < |s.input|)
    && (step.PlayCopy? && s.play.Copying? ==> Slot(s.play.index, s.play.i) < |s.ring|)
  }

  function Next(n: nat, s: State, step: Step): State
    requires Enabled(n, s, step) && InBounds(s, step)
  {
    match step
    case RecordCall(buffer) => s.(rec := Waiting(s.recordIndex), input := buffer)
    case RecordWait => s.(readDone := s.readDone - 1, rec := Copying(s.rec.index, 0))
    case RecordCopy =>
      s.(ring := s.ring[Slot(s.rec.index, s.rec.i) := s.input[s.rec.i]],
         rec := Copying(s.rec.index, s.rec.i + 1))
    case RecordPost =>
      s.(writeDone := s.writeDone + 1, rec := Posted(s.rec.index + n), recorded := s.recorded + [s.input])
    case RecordStore => s.(recordIndex := s.rec.index % RING_SIZE, rec := Idle)
    case PlayCall => s.(play := Waiting(s.playIndex), output := [])
    case PlayWait => s.(writeDone := s.writeDone - 1, play := Copying(s.play.index, 0))
    case PlayCopy =>
      s.(output := s.output + [s.ring[Slot(s.play.index, s.play.i)]],
         play := Copying(s.play.index, s.play.i + 1))
    case PlayPost =>
      s.(readDone := s.readDone + 1, play := Posted(s.play.index + n), played := s.played + [s.output])
    case PlayStore => s.(playIndex := s.play.index % RING_SIZE, play := Idle)
  }

  function Holds(p: Phase): nat { if p.Copying? then 1 else 0 }

  // Where a thread that finished k buffers stands.
  ghost predicate Placed(n: nat, p: Phase, stored: nat, k: nat) {
    match p
    case Idle => stored == IndexAfter(n, k)
    case Waiting(index) => index == IndexAfter(n, k)
    case Copying(index, i) => index == IndexAfter(n, k) && i <= n
    case Posted(index) => k > 0 && index == IndexAfter(n, k - 1) + n
  }

  ghost predicate Inv(n: nat, s: State) {
    var r, p := |s.recorded|, |s.played|;
    && |s.ring| == 2 * RING_SIZE
    && s.readDone + s.writeDone + Holds(s.rec) + Holds(s.play) == 1
    && r == p + s.writeDone + Holds(s.play)
    && Placed(n, s.rec, s.recordIndex, r) && Placed(n, s.play, s.playIndex, p)
    && (s.rec.Waiting? || s.rec.Copying? ==> |s.input| == n)
    && (forall k :: 0 <= k < r ==> |s.recorded[k]| == n)
    && (forall k :: 0 <= k < p ==> s.played[k] == Echo(s.recorded[k]))
    && (s.rec.Copying? ==> Read(s.ring, s.rec.index, s.rec.i) == Echo(s.input[..s.rec.i]))
    && (r > p ==> Read(s.ring, IndexAfter(n, p), n) == Echo(s.recorded[p]))
    && (s.play.Waiting? ==> s.output == [])
    && (s.play.Copying? ==> s.output == Read(s.ring, s.play.index, s.play.i))
  }

  lemma InvInBounds(n: nat, s: State, step: Step)
    requires Inv(n, s) && Enabled(n, s, step)
    ensures InBounds(s, step)
  {}

  lemma RecordCopyKeeps(n: nat, s: State)
    requires Inv(n, s) && Enabled(n, s, RecordCopy) && InBounds(s, RecordCopy)
    ensures Inv(n, Next(n, s, RecordCopy))
  {
    hide Echo, Read, Slot, IndexAfter;
    var i := s.rec.i;
    ReadAfterWrite(s.ring, s.rec.index, s.input[..i], s.input[i]);
    assert s.input[..i + 1] == s.input[..i] + [s.input[i]];
  }

  lemma RecordPostKeeps(n: nat, s: State)
    requires Inv(n, s) && Enabled(n, s, RecordPost)
    ensures Inv(n, Next(n, s, RecordPost))
  {
    hide Echo, Read;
    assert s.input[..n] == s.input;
  }

  lemma PlayCopyKeeps(n: nat, s: State)
    requires Inv(n, s) && Enabled(n, s, PlayCopy) && InBounds(s, PlayCopy)
    ensures Inv(n, Next(n, s, PlayCopy))
  {
    var i, index := s.play.i, s.play.index;
    assert Read(s.ring, index, i + 1) == Read(s.ring, index, i) + [s.ring[Slot(index, i)]];
    hide Echo, Read, Slot, IndexAfter;
  }

  lemma PlayPostKeeps(n: nat, s: State)
    requires Inv(n, s) && Enabled(n, s, PlayPost)
    ensures Inv(n, Next(n, s, PlayPost))
  {
    hide Echo, Read;
  }

  lemma CallsKeep(n: nat, s: State, step: Step)
    requires Inv(n, s) && Enabled(n, s, step)
    requires step.RecordCall? || step.RecordWait? || step.PlayCall? || step.PlayWait?
    ensures Inv(n, Next(n, s, step))
  {
    hide Slot, IndexAfter, Echo, Read;
    if step.RecordWait? {
      assert Read(s.ring, s.rec.index, 0) == Echo(s.input[..0]);
    } else if step.PlayWait? {
      assert Read(s.ring, s.play.index, 0) == [] == s.output;
    }
  }

  lemma StoresKeep(n: nat, s: State, step: Step)
    requires Inv(n, s) && Enabled(n, s, step) && (step.RecordStore? || step.PlayStore?)
    ensures Inv(n, Next(n, s, step))
  {
    hide Echo, Read, Slot;
  }

  lemma InvStep(n: nat, s: State, step: Step)
    requires Inv(n, s) && Enabled(n, s, step) && InBounds(s, step)
    ensures Inv(n, Next(n, s, step))
  {
    match step
    case RecordCopy => RecordCopyKeeps(n, s);
    case RecordPost => RecordPostKeeps(n, s);
    case PlayCopy => PlayCopyKeeps(n, s);
    case PlayPost => PlayPostKeeps(n, s);
    case RecordStore => StoresKeep(n, s, step);
    case PlayStore => StoresKeep(n, s, step);
    case _ => CallsKeep(n, s, step);
  }

  // ---------------------------------------------------------- every schedule

  // A scheduled step that a thread is not at, or is blocked at, does nothing.
  function Scheduled(n: nat, s: State, step: Step): State {
    if Enabled(n, s, step) && InBounds(s, step) then Next(n, s, step) else s
  }

  function Exec(n: nat, s: State, schedule: seq<Step>): State {
    if schedule == [] then s
    else Scheduled(n, Exec(n, s, schedule[..|schedule| - 1]), schedule[|schedule| - 1])
  }

  lemma {:induction false} ExecKeeps(n: nat, s: State, schedule: seq<Step>)
    requires Inv(n, s)
    ensures Inv(n, Exec(n, s, schedule))
  {
    if schedule != [] {
      ExecKeeps(n, s, schedule[..|schedule| - 1]);
      var before, step := Exec(n, s, schedule[..|schedule| - 1]), schedule[|schedule| - 1];
      if Enabled(n, before, step) {
        InvInBounds(n, before, step);
        InvStep(n, before, step);
      }
    }
  }

  // In every interleaving the two threads never copy at the same time, no step
  // leaves the array, and the k-th played buffer is the k-th recorded one as
  // it reads back from the ring.
  lemma HandOff(n: nat, schedule: seq<Step>)
    ensures var s := Exec(n, Start(), schedule);
      && !(s.rec.Copying? && s.play.Copying?)
      && s.readDone + s.writeDone <= 1
      && |s.played| <= |s.recorded| <= |s.played| + 1
      && (forall k :: 0 <= k < |s.played| ==> s.played[k] == Echo(s.recorded[k]))
      && (forall step: Step :: Enabled(n, s, step) ==> InBounds(s, step))
  {
    StartHolds(n);
    ExecKeeps(n, Start(), schedule);
    var s := Exec(n, Start(), schedule);
    forall step: Step | Enabled(n, s, step) ensures InBounds(s, step) {
      InvInBounds(n, s, step);
    }
  }

  lemma StartHolds(n: nat)
    ensures Inv(n, Start())
  {}

  // The two threads are never both blocked.
  lemma NeverStuck(n: nat, schedule: seq<Step>)
    ensures var s := Exec(n, Start(), schedule);
      (exists step: Step :: !step.RecordCall? && !step.PlayCall? && Enabled(n, s, step)) || s.rec.Idle? || s.play.Idle?
  {
    StartHolds(n);
    ExecKeeps(n, Start(), schedule);
    var s := Exec(n, Start(), schedule);
    if !s.rec.Idle? && !s.play.Idle? {
      var step := if s.rec.Copying? then (if s.rec.i < n then RecordCopy else RecordPost)
        else if s.play.Copying? then (if s.play.i < n then PlayCopy else PlayPost)
        else if s.rec.Posted? then RecordStore
        else if s.play.Posted? then PlayStore
        else if s.readDone > 0 then RecordWait else PlayWait;
      assert Enabled(n, s, step);
    }
  }

  // A thread's copy loop, run through, is the callback's loop.
  function Repeated(step: Step, k: nat): seq<Step> { seq(k, i => step) }

  lemma {:induction false} ExecMore(n: nat, s: State, first: seq<Step>, after: seq<Step>)
    ensures Exec(n, s, first + after) == Exec(n, Exec(n, s, first), after)
  {
    if after == [] {
      assert first + after == first;
    } else {
      var front := after[..|after| - 1];
      ExecMore(n, s, first, front);
      assert (first + after)[..|first + after| - 1] == first + front;
    }
  }

  lemma {:induction false} RecordCopies(n: nat, s: State, k: nat)
    requires Inv(n, s) && s.rec.Copying? && s.rec.i == 0 && k <= n
    ensures Exec(n, s, Repeated(RecordCopy, k))
      == s.(ring := Written(s.ring, s.rec.index, s.input[..k]), rec := Copying(s.rec.index, k))
  {
    if k > 0 {
      assert s.input[..k][..k - 1] == s.input[..k - 1];
      RecordCopies(n, s, k - 1);
      assert Repeated(RecordCopy, k)[..k - 1] == Repeated(RecordCopy, k - 1);
      ExecKeeps(n, s, Repeated(RecordCopy, k - 1));
      InvInBounds(n, Exec(n, s, Repeated(RecordCopy, k - 1)), RecordCopy);
    }
  }

  lemma {:induction false} PlayCopies(n: nat, s: State, k: nat)
    requires Inv(n, s) && s.play.Copying? && s.play.i == 0 && s.output == [] && k <= n
    ensures Exec(n, s, Repeated(PlayCopy, k))
      == s.(output := Read(s.ring, s.play.index, k), play := Copying(s.play.index, k))
  {
    assert Read(s.ring, s.play.index, 0) == [] == s.output;
    if k > 0 {
      assert Read(s.ring, s.play.index, k) == Read(s.ring, s.play.index, k - 1) + [s.ring[Slot(s.play.index, k - 1)]];
      PlayCopies(n, s, k - 1);
      assert Repeated(PlayCopy, k)[..k - 1] == Repeated(PlayCopy, k - 1);
      ExecKeeps(n, s, Repeated(PlayCopy, k - 1));
      InvInBounds(n, Exec(n, s, Repeated(PlayCopy, k - 1)), PlayCopy);
    }
  }

  function RecordOne(n: nat, buffer: seq<int>): seq<Step> {
    [RecordCall(buffer), RecordWait] + Repeated(RecordCopy, n) + [RecordPost]
  }

  function PlayOne(n: nat): seq<Step> {
    [PlayCall, PlayWait] + Repeated(PlayCopy, n) + [PlayPost]
  }

  lemma TwoSteps(n: nat, s: State, a: Step, b: Step)
    ensures Exec(n, s, [a]) == Scheduled(n, s, a)
    ensures Exec(n, s, [a, b]) == Scheduled(n, Scheduled(n, s, a), b)
  {
    assert [a][..0] == [];
    assert [a, b][..1] == [a];
  }

  lemma RecordOneRecords(n: nat, s: State, buffer: seq<int>)
    requires Inv(n, s) && s.rec.Idle? && s.readDone == 1 && |buffer| == n
    ensures Inv(n, Exec(n, s, RecordOne(n, buffer)))
    ensures Exec(n, s, RecordOne(n, buffer))
      == s.(readDone := 0, writeDone := 1, ring := Written(s.ring, s.recordIndex, buffer),
            rec := Posted(s.recordIndex + n), input := buffer, recorded := s.recorded + [buffer])
  {
    hide Exec, Inv, Repeated;
    assert buffer[..n] == buffer;
    ExecKeeps(n, s, RecordOne(n, buffer));
    var start := [RecordCall(buffer), RecordWait];
    var waiting := RecordBegins(n, s, buffer);
    RecordCopies(n, waiting, n);
    ExecMore(n, s, start, Repeated(RecordCopy, n));
    ExecMore(n, s, start + Repeated(RecordCopy, n), [RecordPost]);
    TwoSteps(n, Exec(n, waiting, Repeated(RecordCopy, n)), RecordPost, RecordPost);
  }

  lemma RecordBegins(n: nat, s: State, buffer: seq<int>) returns (waiting: State)
    requires Inv(n, s) && s.rec.Idle? && s.readDone == 1 && |buffer| == n
    ensures waiting == Exec(n, s, [RecordCall(buffer), RecordWait]) && Inv(n, waiting)
    ensures waiting == s.(readDone := 0, rec := Copying(s.recordIndex, 0), input := buffer)
    ensures |s.ring| == 2 * RING_SIZE && s.recordIndex < RING_SIZE && s.writeDone == 0
  {
    TwoSteps(n, s, RecordCall(buffer), RecordWait);
    ExecKeeps(n, s, [RecordCall(buffer), RecordWait]);
    waiting := Exec(n, s, [RecordCall(buffer), RecordWait]);
    hide Exec;
  }

  lemma PlayOnePlays(n: nat, s: State)
    requires Inv(n, s) && s.play.Idle? && s.writeDone == 1
    ensures var heard := Read(s.ring, s.playIndex, n);
      Exec(n, s, PlayOne(n))
        == s.(readDone := 1, writeDone := 0, play := Posted(s.playIndex + n),
              output := heard, played := s.played + [heard])
  {
    var start := [PlayCall, PlayWait];
    TwoSteps(n, s, PlayCall, PlayWait);
    ExecKeeps(n, s, start);
    var waiting := Exec(n, s, start);
    PlayCopies(n, waiting, n);
    ExecMore(n, s, start, Repeated(PlayCopy, n));
    ExecMore(n, s, start + Repeated(PlayCopy, n), [PlayPost]);
    TwoSteps(n, Exec(n, waiting, Repeated(PlayCopy, n)), PlayPost, PlayPost);
    hide Exec, Inv, Repeated;
  }

  // What is played is what was recorded, in every interleaving, exactly when a
  // buffer of n samples (two per frame) fits the ring.
  ghost predicate PlaysWhatWasRecorded(n: nat, schedule: seq<Step>) {
    var s := Exec(n, Start(), schedule);
    |s.played| <= |s.recorded| && s.played == s.recorded[..|s.played|]
  }

  lemma FaithfulIfItFits(n: nat, schedule: seq<Step>)
    requires n <= RING_SIZE
    ensures PlaysWhatWasRecorded(n, schedule)
  {
    HandOff(n, schedule);
    StartHolds(n);
    ExecKeeps(n, Start(), schedule);
    EchoIsIdentity(n);
  }

  lemma FaithfulExactlyIfItFits(n: nat)
    ensures (forall schedule :: PlaysWhatWasRecorded(n, schedule)) <==> n <= RING_SIZE
  {
    if n <= RING_SIZE {
      forall schedule ensures PlaysWhatWasRecorded(n, schedule) {
        FaithfulIfItFits(n, schedule);
      }
    } else {
      EchoIsIdentity(n);
      var buffer: seq<int> :| |buffer| == n && Echo(buffer) != buffer;
      var schedule := RecordOne(n, buffer) + PlayOne(n);
      StartHolds(n);
      RecordOneRecords(n, Start(), buffer);
      PlayOnePlays(n, Exec(n, Start(), RecordOne(n, buffer)));
      ExecMore(n, Start(), RecordOne(n, buffer), PlayOne(n));
      HandOff(n, schedule);
      var s := Exec(n, Start(), schedule);
      assert s.recorded == [buffer] && s.played[0] == Echo(s.recorded[0]);
      assert !PlaysWhatWasRecorded(n, schedule);
    }
  }
}
