// What happens to the request queue of a session while the peer's end points
// are discovered: the capability requests stay together and leave in order.
module DiscoveryQueue {
  import opened Options
  import opened Bytes
  import opened RequestQueue
  import opened AvdtpMessages
  import opened Discovery

  // All that a session does to its queue: it submits requests, finishes or
  // drops the outstanding one, asks about the end points of a DISCOVER answer,
  // takes an answer about capabilities, and forgets a stream that went away.
  datatype Event<S> =
    | Submitted(priority: bool, r: PendingReq<S>, ok: bool)
    | Found(queries: seq<byte>, cmd: Signal, ok: bool)
    | Answered(ok: bool)
    | Replied(ok: bool)
    | GivenUp
    | Gone(s: S, left: Option<PendingReq<S>>)

  function Step<S(==)>(q: Pending<PendingReq<S>>, e: Event<S>): Pending<PendingReq<S>> {
    match e
    case Submitted(priority, r, ok) => SendReq(q, priority, r, ok)
    case Found(queries, cmd, ok) => Answer(q.(prio := q.prio + Asks(queries, cmd)), ok)
    case Answered(ok) => Answer(q, ok)
    case Replied(ok) => Answer(q, ok)
    case GivenUp => q.(outstanding := None)
    case Gone(s, left) => Pending(left, NotNaming(q.prio, s), NotNaming(q.normal, s))
  }

  function Run<S(==)>(q: Pending<PendingReq<S>>, events: seq<Event<S>>): Pending<PendingReq<S>>
    decreases |events|
  {
    if events == [] then q else Run(Step(q, events[0]), events[1..])
  }

  predicate IsAsk<S>(r: Option<PendingReq<S>>) { r.Some? && AsksCapabilities(r.value.signal) }

  predicate IsDiscover<S>(r: Option<PendingReq<S>>) { r.Some? && r.value.signal.Discover? }

  ghost predicate NoneAsks<S>(queue: seq<PendingReq<S>>) {
    forall i :: 0 <= i < |queue| ==> !AsksCapabilities(queue[i].signal)
  }

  ghost predicate NoneDiscovers<S>(queue: seq<PendingReq<S>>) {
    forall i :: 0 <= i < |queue| ==> !queue[i].signal.Discover?
  }

  // Capability requests wait in the priority queue only, DISCOVER in the other
  // only, and none of the former waits while one of the latter is outstanding.
  ghost predicate Ordered<S>(q: Pending<PendingReq<S>>) {
    NoneAsks(q.normal) && NoneDiscovers(q.prio) && (IsDiscover(q.outstanding) ==> NoneAsks(q.prio))
  }

  // When each of these happens.
  ghost predicate Proper<S>(q: Pending<PendingReq<S>>, e: Event<S>) {
    match e
    case Submitted(priority, r, _) =>
      && !AsksCapabilities(r.signal)
      && (r.signal.Discover? ==> !priority && (q.outstanding.None? ==> NoneAsks(q.prio)))
    case Found(_, cmd, _) => IsDiscover(q.outstanding) && AsksCapabilities(cmd)
    case Answered(_) => IsAsk(q.outstanding)
    case Gone(s, left) =>
      left == q.outstanding
      || (q.outstanding.Some? && q.outstanding.value.stream == Some(s)
          && (left == None || left == Some(q.outstanding.value.(stream := None))))
    case _ => true
  }

  ghost predicate AllProper<S>(q: Pending<PendingReq<S>>, events: seq<Event<S>>)
    decreases |events|
  {
    events == [] || (Proper(q, events[0]) && AllProper(Step(q, events[0]), events[1..]))
  }

  // No capability request is lost: none ends without an acceptance, and none
  // whose turn comes cannot be sent.
  ghost predicate Keeps<S>(q: Pending<PendingReq<S>>, e: Event<S>) {
    match e
    case Found(queries, cmd, ok) => ok || !MoreToCome(q.(prio := q.prio + Asks(queries, cmd)))
    case Answered(ok) => ok || !MoreToCome(q)
    case Replied(ok) => !IsAsk(q.outstanding) && (ok || !MoreToCome(q))
    case GivenUp => !IsAsk(q.outstanding)
    case _ => true
  }

  // Nothing but that, and no discovery request is accepted.
  ghost predicate AllKeep<S>(q: Pending<PendingReq<S>>, events: seq<Event<S>>)
    decreases |events|
  {
    events == [] || (!events[0].Found? && !events[0].Answered? && Keeps(q, events[0])
                     && AllKeep(Step(q, events[0]), events[1..]))
  }

  lemma {:induction false} RunJoin<S>(q: Pending<PendingReq<S>>, a: seq<Event<S>>, b: seq<Event<S>>)
    requires AllProper(q, a) && AllProper(Run(q, a), b)
    ensures Run(q, a + b) == Run(Run(q, a), b) && AllProper(q, a + b)
    decreases |a|
  {
    if a == [] {
      assert a + b == b;
    } else {
      RunJoin(Step(q, a[0]), a[1..], b);
      assert (a + b)[1..] == a[1..] + b;
    }
  }

  // ------------------------------------------------------------- the order

  lemma StepOrdered<S>(q: Pending<PendingReq<S>>, e: Event<S>)
    requires Ordered(q) && Proper(q, e)
    ensures Ordered(Step(q, e))
  {
    match e
    case Found(queries, cmd, ok) =>
      AsksNoDiscover<S>(queries, cmd);
      assert NoneDiscovers(q.prio + Asks(queries, cmd));
      AnswerOrdered(q.(prio := q.prio + Asks(queries, cmd)), ok);
    case Answered(ok) => AnswerOrdered(q, ok);
    case Replied(ok) => AnswerOrdered(q, ok);
    case Gone(s, left) =>
      if NoneAsks(q.prio) { NotNamingNoneAsks(q.prio, s); }
      NotNamingNoneAsks(q.normal, s);
      NotNamingNoneDiscovers(q.prio, s);
    case _ =>
  }

  lemma {:induction false} NotNamingNoneDiscovers<S>(a: seq<PendingReq<S>>, s: S)
    requires NoneDiscovers(a)
    ensures NoneDiscovers(NotNaming(a, s))
  {
    if a != [] {
      NotNamingNoneDiscovers(a[1..], s);
    }
  }

  lemma AnswerOrdered<S>(q: Pending<PendingReq<S>>, ok: bool)
    requires NoneAsks(q.normal) && NoneDiscovers(q.prio)
    ensures Ordered(Answer(q, ok))
  {}

  lemma {:induction false} AsksNoDiscover<S>(queries: seq<byte>, cmd: Signal)
    requires AsksCapabilities(cmd)
    ensures NoneDiscovers<S>(Asks(queries, cmd))
  {
    if queries != [] { AsksNoDiscover<S>(queries[1..], cmd); }
  }

  lemma {:induction false} RunOrdered<S>(q: Pending<PendingReq<S>>, events: seq<Event<S>>)
    requires Ordered(q) && AllProper(q, events)
    ensures Ordered(Run(q, events))
    decreases |events|
  {
    hide Ordered, Proper, Step;
    if events != [] {
      StepOrdered(q, events[0]);
      RunOrdered(Step(q, events[0]), events[1..]);
    }
  }

  // ------------------------------------------------------------ on course

  // The capability requests stand together in the priority queue, between what
  // came before the answer and what came after it.
  ghost predicate Together<S>(q: Pending<PendingReq<S>>, before: seq<PendingReq<S>>, rest: seq<byte>,
                              after: seq<PendingReq<S>>, cmd: Signal)
  {
    && NoneAsks(before) && NoneAsks(after) && NoneAsks(q.normal)
    && if q.outstanding.Some? && AsksCapabilities(q.outstanding.value.signal)
       then before == [] && rest != [] && q.outstanding == Some(PendingReq(cmd, rest[0], None))
            && q.prio == Asks(rest[1..], cmd) + after
       else q.prio == before + Asks(rest, cmd) + after
  }

  lemma {:induction false} NotNamingJoin<S>(a: seq<PendingReq<S>>, b: seq<PendingReq<S>>, s: S)
    ensures NotNaming(a + b, s) == NotNaming(a, s) + NotNaming(b, s)
  {
    hide NotNaming;
    if a == [] {
      assert a + b == b && NotNaming(a, s) == [] by { NotNamingNothing(s); }
    } else {
      NotNamingJoin(a[1..], b, s);
      assert (a + b)[1..] == a[1..] + b;
      NotNamingFirst(a, s);
      NotNamingFirst(a + b, s);
    }
  }

  lemma NotNamingNothing<S>(s: S)
    ensures NotNaming([], s) == []
  {}

  lemma NotNamingFirst<S>(a: seq<PendingReq<S>>, s: S)
    requires a != []
    ensures NotNaming(a, s) == (if a[0].stream == Some(s) then [] else [a[0]]) + NotNaming(a[1..], s)
  {}

  lemma {:induction false} NotNamingNoneAsks<S>(a: seq<PendingReq<S>>, s: S)
    requires NoneAsks(a)
    ensures NoneAsks(NotNaming(a, s))
  {
    if a != [] {
      NotNamingNoneAsks(a[1..], s);
    }
  }

  lemma {:induction false} NotNamingAsks<S>(queries: seq<byte>, cmd: Signal, s: S)
    ensures NotNaming(Asks(queries, cmd), s) == Asks(queries, cmd)
  {
    if queries != [] { NotNamingAsks(queries[1..], cmd, s); }
  }

  // The same, from the k-th request of the priority queue on.
  ghost predicate TogetherAt<S>(q: Pending<PendingReq<S>>, k: nat, rest: seq<byte>, cmd: Signal) {
    var n := k + if IsAsk(q.outstanding) then |rest| - 1 else |rest|;
    k <= n <= |q.prio| && Together(q, q.prio[..k], rest, q.prio[n..], cmd)
  }

  ghost predicate OnCourse<S>(q: Pending<PendingReq<S>>, rest: seq<byte>, cmd: Signal) {
    exists k: nat :: TogetherAt(q, k, rest, cmd)
  }

  lemma Course<S>(
    q: Pending<PendingReq<S>>, before: seq<PendingReq<S>>, rest: seq<byte>, after: seq<PendingReq<S>>, cmd: Signal)
    requires Together(q, before, rest, after, cmd)
    ensures OnCourse(q, rest, cmd)
  {
    var n := |before| + if IsAsk(q.outstanding) then |rest| - 1 else |rest|;
    assert q.prio[..|before|] == before && q.prio[n..] == after;
    assert TogetherAt(q, |before|, rest, cmd);
  }

  lemma CourseParts<S>(q: Pending<PendingReq<S>>, rest: seq<byte>, cmd: Signal)
    returns (before: seq<PendingReq<S>>, after: seq<PendingReq<S>>)
    requires OnCourse(q, rest, cmd)
    ensures Together(q, before, rest, after, cmd) && (IsAsk(q.outstanding) ==> before == [])
  {
    var k: nat :| TogetherAt(q, k, rest, cmd);
    before := q.prio[..k];
    after := q.prio[k + (if IsAsk(q.outstanding) then |rest| - 1 else |rest|)..];
  }

  lemma SubmitTogether<S>(
    q: Pending<PendingReq<S>>, before: seq<PendingReq<S>>, rest: seq<byte>, after: seq<PendingReq<S>>, cmd: Signal,
    priority: bool, r: PendingReq<S>, ok: bool) returns (next: seq<PendingReq<S>>)
    requires Together(q, before, rest, after, cmd) && !AsksCapabilities(r.signal)
    ensures Together(SendReq(q, priority, r, ok), before, rest, next, cmd)
  {
    next := if q.outstanding.Some? && priority then after + [r] else after;
    if q.outstanding.Some? {
      if AsksCapabilities(q.outstanding.value.signal) {
        assert Asks(rest[1..], cmd) + after + [r] == Asks(rest[1..], cmd) + (after + [r]);
      } else {
        assert before + Asks(rest, cmd) + after + [r] == before + Asks(rest, cmd) + (after + [r]);
      }
    }
  }

  // Some other request leaves: the capability requests move up.
  lemma OtherAnswered<S>(
    q: Pending<PendingReq<S>>, before: seq<PendingReq<S>>, rest: seq<byte>, after: seq<PendingReq<S>>, cmd: Signal,
    ok: bool) returns (b: seq<PendingReq<S>>, a: seq<PendingReq<S>>)
    requires Together(q, before, rest, after, cmd) && AsksCapabilities(cmd)
    requires !IsAsk(q.outstanding) && (ok || !MoreToCome(q))
    ensures Together(Answer(q, ok), b, rest, a, cmd)
  {
    b, a := before, after;
    if before != [] {
      b := before[1..];
      assert (before + Asks(rest, cmd) + after)[1..] == b + Asks(rest, cmd) + after;
    } else if rest != [] {
      assert Asks(rest, cmd) + after == [PendingReq(cmd, rest[0], None)] + (Asks(rest[1..], cmd) + after);
      assert q.prio == Asks(rest, cmd) + after;
    } else {
      assert q.prio == after;
      if after != [] { a := after[1..]; }
    }
  }

  // A capability request is answered: the next one follows at once.
  lemma AskAnswered<S>(
    q: Pending<PendingReq<S>>, rest: seq<byte>, after: seq<PendingReq<S>>, cmd: Signal, ok: bool)
    returns (a: seq<PendingReq<S>>)
    requires Together(q, [], rest, after, cmd) && AsksCapabilities(cmd)
    requires IsAsk(q.outstanding)
    ensures rest != [] && q.outstanding.value.seid == rest[0]
    ensures MoreToCome(q) <==> rest[1..] != []
    ensures ok || !MoreToCome(q) ==> Together(Answer(q, ok), [], rest[1..], a, cmd)
  {
    a := after;
    var left := rest[1..];
    if left != [] {
      assert Asks(left, cmd) + after == [PendingReq(cmd, left[0], None)] + (Asks(left[1..], cmd) + after);
    } else {
      assert q.prio == after;
      if after != [] { a := after[1..]; }
    }
  }

  lemma GoneTogether<S>(
    q: Pending<PendingReq<S>>, before: seq<PendingReq<S>>, rest: seq<byte>, after: seq<PendingReq<S>>, cmd: Signal,
    s: S, left: Option<PendingReq<S>>)
    requires Together(q, before, rest, after, cmd) && Proper(q, Gone(s, left))
    ensures Together(Step(q, Gone(s, left)), NotNaming(before, s), rest, NotNaming(after, s), cmd)
  {
    NotNamingNoneAsks(before, s);
    NotNamingNoneAsks(after, s);
    NotNamingNoneAsks(q.normal, s);
    if q.outstanding.Some? && AsksCapabilities(q.outstanding.value.signal) {
      NotNamingJoin(Asks(rest[1..], cmd), after, s);
      NotNamingAsks(rest[1..], cmd, s);
    } else {
      NotNamingJoin(before + Asks(rest, cmd), after, s);
      NotNamingJoin(before, Asks(rest, cmd), s);
      NotNamingAsks(rest, cmd, s);
    }
  }

  // Whatever else happens, the capability requests stay together, in order.
  lemma StepOnCourse<S>(q: Pending<PendingReq<S>>, e: Event<S>, rest: seq<byte>, cmd: Signal)
    requires OnCourse(q, rest, cmd) && AsksCapabilities(cmd)
    requires Proper(q, e) && Keeps(q, e) && !e.Found? && !e.Answered?
    ensures OnCourse(Step(q, e), rest, cmd)
  {
    hide OnCourse, Together, Answer, SendReq, NotNaming;
    var b, a := CourseParts(q, rest, cmd);
    match e {
      case Submitted(priority, r, ok) => a := SubmitTogether(q, b, rest, a, cmd, priority, r, ok);
      case Replied(ok) => b, a := OtherAnswered(q, b, rest, a, cmd, ok);
      case GivenUp => DroppedTogether(q, b, rest, a, cmd);
      case Gone(s, left) =>
        GoneTogether(q, b, rest, a, cmd, s, left);
        b, a := NotNaming(b, s), NotNaming(a, s);
    }
    Course(Step(q, e), b, rest, a, cmd);
  }

  lemma DroppedTogether<S>(
    q: Pending<PendingReq<S>>, before: seq<PendingReq<S>>, rest: seq<byte>, after: seq<PendingReq<S>>, cmd: Signal)
    requires Together(q, before, rest, after, cmd) && !IsAsk(q.outstanding)
    ensures Together(q.(outstanding := None), before, rest, after, cmd)
  {}

  lemma {:induction false} RunOnCourse<S>(q: Pending<PendingReq<S>>, events: seq<Event<S>>, rest: seq<byte>,
                                          cmd: Signal)
    requires OnCourse(q, rest, cmd) && AsksCapabilities(cmd) && AllProper(q, events) && AllKeep(q, events)
    ensures OnCourse(Run(q, events), rest, cmd)
    decreases |events|
  {
    hide OnCourse, Proper, Keeps, Step;
    if events != [] {
      StepOnCourse(q, events[0], rest, cmd);
      RunOnCourse(Step(q, events[0]), events[1..], rest, cmd);
    }
  }

  // The requests of a DISCOVER answer start on course: nobody else had asked.
  lemma FoundOnCourse<S>(q: Pending<PendingReq<S>>, queries: seq<byte>, cmd: Signal, ok: bool)
    requires Ordered(q) && Proper(q, Found(queries, cmd, ok)) && Keeps(q, Found(queries, cmd, ok))
    ensures OnCourse(Step(q, Found(queries, cmd, ok)), queries, cmd)
  {
    var asked := q.(prio := q.prio + Asks(queries, cmd));
    assert q.prio + Asks(queries, cmd) == q.prio + Asks(queries, cmd) + [];
    assert Together(asked, q.prio, queries, [], cmd);
    var b, a := OtherAnswered(asked, q.prio, queries, [], cmd, ok);
    Course(Answer(asked, ok), b, queries, a, cmd);
    hide Answer, OnCourse, Together;
  }

  // They are answered in order, and the one before the last still sees the last.
  lemma AnsweredOnCourse<S>(q: Pending<PendingReq<S>>, rest: seq<byte>, cmd: Signal, ok: bool)
    requires OnCourse(q, rest, cmd) && AsksCapabilities(cmd) && IsAsk(q.outstanding) && Keeps(q, Answered(ok))
    ensures rest != [] && q.outstanding.value.seid == rest[0] && (MoreToCome(q) <==> rest[1..] != [])
    ensures OnCourse(Step(q, Answered(ok)), rest[1..], cmd)
  {
    var before, after := CourseParts(q, rest, cmd);
    var a := AskAnswered(q, rest, after, cmd, ok);
    Course(Answer(q, ok), [], rest[1..], a, cmd);
    hide Answer, OnCourse, Together;
  }

  // While they wait no DISCOVER is answered.
  lemma NoDiscoverOnCourse<S>(q: Pending<PendingReq<S>>, rest: seq<byte>, cmd: Signal)
    requires OnCourse(q, rest, cmd) && Ordered(q) && rest != [] && AsksCapabilities(cmd)
    ensures !IsDiscover(q.outstanding)
  {
    var before, after := CourseParts(q, rest, cmd);
    var ask: PendingReq<S> := Asks(rest, cmd)[0];
    assert AsksCapabilities(ask.signal);
    assert !IsAsk(q.outstanding) ==> q.prio[|before|] == ask;
  }
}
