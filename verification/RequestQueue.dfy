// The request queue of an AVDTP session: one request is outstanding, the others
// wait in two first-in first-out queues, of which one goes first (avdtp.c).
module RequestQueue {
  import opened Options

  datatype Pending<R> = Pending(outstanding: Option<R>, prio: seq<R>, normal: seq<R>)

  // send_req: a request is sent when none is outstanding, and queued otherwise;
  // ok is whether the channel took it.
  function SendReq<R>(q: Pending<R>, priority: bool, r: R, ok: bool): Pending<R> {
    if q.outstanding.Some? then
      (if priority then q.(prio := q.prio + [r]) else q.(normal := q.normal + [r]))
    else if ok then q.(outstanding := Some(r))
    else q
  }

  predicate Accepts<R>(q: Pending<R>, ok: bool) { q.outstanding.Some? || ok }

  // process_queue: a request that cannot be sent is gone.
  function ProcessQueue<R>(q: Pending<R>, ok: bool): Pending<R> {
    if q.outstanding.Some? then q
    else if q.prio != [] then SendReq(q.(prio := q.prio[1..]), false, q.prio[0], ok)
    else if q.normal != [] then SendReq(q.(normal := q.normal[1..]), false, q.normal[0], ok)
    else q
  }

  // The end of session_cb: the answered request makes room for the next.
  function Answer<R>(q: Pending<R>, ok: bool): Pending<R> {
    ProcessQueue(q.(outstanding := None), ok)
  }

  datatype Event<R> = Submit(priority: bool, r: R, ok: bool) | Reply(ok: bool)

  // Per class: what was accepted, and what has left for the channel.
  datatype Log<R> = Log(prioIn: seq<R>, prioOut: seq<R>, normalIn: seq<R>, normalOut: seq<R>, answered: seq<R>)

  datatype World<R> = World(q: Pending<R>, log: Log<R>)

  function Start<R>(): World<R> { World(Pending(None, [], []), Log([], [], [], [], [])) }

  function Submitted<R>(w: World<R>, priority: bool, r: R, ok: bool): World<R> {
    var atOnce := if w.q.outstanding.None? then [r] else [];
    var log :=
      if !Accepts(w.q, ok) then w.log
      else if priority then w.log.(prioIn := w.log.prioIn + [r], prioOut := w.log.prioOut + atOnce)
      else w.log.(normalIn := w.log.normalIn + [r], normalOut := w.log.normalOut + atOnce);
    World(SendReq(w.q, priority, r, ok), log)
  }

  // A response that answers nothing is ignored.
  function Replied<R>(w: World<R>, ok: bool): World<R> {
    if w.q.outstanding.None? then w
    else
      var log := w.log.(answered := w.log.answered + [w.q.outstanding.value]);
      World(Answer(w.q, ok),
            if w.q.prio != [] then log.(prioOut := log.prioOut + [w.q.prio[0]])
            else if w.q.normal != [] then log.(normalOut := log.normalOut + [w.q.normal[0]])
            else log)
  }

  function Step<R>(w: World<R>, e: Event<R>): World<R> {
    match e
    case Submit(priority, r, ok) => Submitted(w, priority, r, ok)
    case Reply(ok) => Replied(w, ok)
  }

  function Run<R>(events: seq<Event<R>>): World<R> {
    if events == [] then Start() else Step(Run(events[..|events| - 1]), events[|events| - 1])
  }

  // Nothing waits while nothing is outstanding.
  predicate Busy<R>(q: Pending<R>) { q.outstanding.None? ==> |q.prio| == 0 && |q.normal| == 0 }

  // Each class leaves in the order it came, and what has not left waits.
  predicate InOrder<R(==)>(w: World<R>) {
    w.log.prioIn == w.log.prioOut + w.q.prio && w.log.normalIn == w.log.normalOut + w.q.normal
  }

  function Held<R>(q: Pending<R>): multiset<R> {
    if q.outstanding.Some? then multiset{q.outstanding.value} else multiset{}
  }

  // Every accepted request is answered, outstanding or waiting, exactly once.
  ghost predicate Conserved<R>(w: World<R>) {
    multiset(w.log.prioIn) + multiset(w.log.normalIn)
      == multiset(w.log.answered) + Held(w.q) + multiset(w.q.prio) + multiset(w.q.normal)
  }

  predicate RepliesSend<R>(events: seq<Event<R>>) {
    forall i :: 0 <= i < |events| && events[i].Reply? ==> events[i].ok
  }

  // What has left is answered or outstanding.
  ghost predicate Accounted<R>(w: World<R>) {
    multiset(w.log.prioOut) + multiset(w.log.normalOut) == multiset(w.log.answered) + Held(w.q)
  }

  lemma SubmitInOrder<R>(w: World<R>, priority: bool, r: R, ok: bool)
    requires Busy(w.q) && InOrder(w)
    ensures var v := Submitted(w, priority, r, ok); Busy(v.q) && InOrder(v)
  {
    if w.q.outstanding.Some? {
      assert w.log.prioIn + [r] == w.log.prioOut + (w.q.prio + [r]);
      assert w.log.normalIn + [r] == w.log.normalOut + (w.q.normal + [r]);
      assert w.log.prioOut + [] == w.log.prioOut && w.log.normalOut + [] == w.log.normalOut;
    } else {
      assert w.log.prioIn + [r] == w.log.prioOut + [r] + w.q.prio;
      assert w.log.normalIn + [r] == w.log.normalOut + [r] + w.q.normal;
    }
  }

  lemma SubmitAccounted<R>(w: World<R>, priority: bool, r: R, ok: bool)
    requires Accounted(w)
    ensures Accounted(Submitted(w, priority, r, ok))
  {
    if w.q.outstanding.Some? {
      assert w.log.prioOut + [] == w.log.prioOut && w.log.normalOut + [] == w.log.normalOut;
    } else {
      assert multiset(w.log.prioOut + [r]) == multiset(w.log.prioOut) + multiset{r};
      assert multiset(w.log.normalOut + [r]) == multiset(w.log.normalOut) + multiset{r};
      var v := Submitted(w, priority, r, ok);
      if ok {
        assert Held(v.q) == Held(w.q) + multiset{r};
        assert v.log.answered == w.log.answered;
        assert multiset(v.log.prioOut) + multiset(v.log.normalOut)
          == multiset(w.log.prioOut) + multiset(w.log.normalOut) + multiset{r};
      } else {
        assert v == w;
      }
    }
  }

  lemma ReplyInOrder<R>(w: World<R>)
    requires Busy(w.q) && InOrder(w)
    ensures var v := Replied(w, true); Busy(v.q) && InOrder(v)
  {
    if |w.q.prio| > 0 {
      assert w.log.prioIn == w.log.prioOut + [w.q.prio[0]] + w.q.prio[1..];
    } else if |w.q.normal| > 0 {
      assert w.log.normalIn == w.log.normalOut + [w.q.normal[0]] + w.q.normal[1..];
    }
  }

  lemma ReplyAccounted<R>(w: World<R>)
    requires Accounted(w)
    ensures Accounted(Replied(w, true))
  {}

  lemma InOrderConserves<R>(w: World<R>)
    requires InOrder(w) && Accounted(w)
    ensures Conserved(w)
  {}

  lemma {:induction false} RunAccounted<R>(events: seq<Event<R>>)
    requires RepliesSend(events)
    ensures Accounted(Run(events))
  {
    hide Accounted, Submitted, Replied;
    if events == [] {
      StartAccounted<R>();
    } else {
      var before, e := events[..|events| - 1], events[|events| - 1];
      RunAccounted(before);
      match e
      case Submit(priority, r, ok) => SubmitAccounted(Run(before), priority, r, ok);
      case Reply(ok) => ReplyAccounted(Run(before));
    }
  }

  lemma StartAccounted<R>()
    ensures Accounted(Start<R>())
  {}

  lemma {:induction false} RunInOrder<R>(events: seq<Event<R>>)
    requires RepliesSend(events)
    ensures Busy(Run(events).q) && InOrder(Run(events))
  {
    hide Submitted, Replied;
    if events != [] {
      var before, e := events[..|events| - 1], events[|events| - 1];
      RunInOrder(before);
      match e
      case Submit(priority, r, ok) => SubmitInOrder(Run(before), priority, r, ok);
      case Reply(ok) => ReplyInOrder(Run(before));
    }
  }

  // Over every run in which what leaves a queue can be sent.
  lemma RunKeeps<R>(events: seq<Event<R>>)
    requires RepliesSend(events)
    ensures var w := Run(events); Busy(w.q) && InOrder(w) && Conserved(w)
  {
    RunInOrder(events);
    RunAccounted(events);
    InOrderConserves(Run(events));
  }

  // No normal request leaves its queue while a priority one waits.
  lemma PriorityFirst<R>(w: World<R>, ok: bool)
    ensures Replied(w, ok).q.normal != w.q.normal ==> w.q.prio == []
    ensures Replied(w, ok).log.normalOut != w.log.normalOut ==> w.q.prio == []
  {}

  // A request that cannot be sent when its turn comes is gone: it is neither
  // answered nor waiting. That is so exactly when there was one to send.
  lemma FailedSendLoses<R>(w: World<R>, ok: bool)
    requires Conserved(w)
    ensures Conserved(Replied(w, ok)) <==> ok || w.q.outstanding.None? || (w.q.prio == [] && w.q.normal == [])
  {
    if w.q.outstanding.Some? && |w.q.prio| > 0 {
      PrioLeaves(w, ok);
      Conservation(w, Replied(w, ok), w.q.prio[0], ok);
    } else if w.q.outstanding.Some? && |w.q.normal| > 0 {
      NormalLeaves(w, ok);
      Conservation(w, Replied(w, ok), w.q.normal[0], ok);
    }
  }

  lemma PrioLeaves<R>(w: World<R>, ok: bool)
    requires w.q.outstanding.Some? && |w.q.prio| > 0
    ensures Everywhere(Replied(w, ok)) + (if ok then multiset{} else multiset{w.q.prio[0]}) == Everywhere(w)
  {
    assert w.q.prio == [w.q.prio[0]] + w.q.prio[1..];
    assert multiset(w.q.prio) == multiset{w.q.prio[0]} + multiset(w.q.prio[1..]);
  }

  lemma NormalLeaves<R>(w: World<R>, ok: bool)
    requires w.q.outstanding.Some? && |w.q.prio| == 0 && |w.q.normal| > 0
    ensures Everywhere(Replied(w, ok)) + (if ok then multiset{} else multiset{w.q.normal[0]}) == Everywhere(w)
  {
    assert w.q.normal == [w.q.normal[0]] + w.q.normal[1..];
    assert multiset(w.q.normal) == multiset{w.q.normal[0]} + multiset(w.q.normal[1..]);
  }

  ghost function Everywhere<R>(w: World<R>): multiset<R> {
    multiset(w.log.answered) + Held(w.q) + multiset(w.q.prio) + multiset(w.q.normal)
  }

  lemma Conservation<R>(w: World<R>, v: World<R>, head: R, ok: bool)
    requires Conserved(w)
    requires v.log.prioIn == w.log.prioIn && v.log.normalIn == w.log.normalIn
    requires Everywhere(v) + (if ok then multiset{} else multiset{head}) == Everywhere(w)
    ensures Conserved(v) <==> ok
  {
    if !ok {
      assert Everywhere(v)[head] + 1 == Everywhere(w)[head];
    }
  }

  // A reply after which the next request cannot be sent leaves the rest of the
  // queue waiting behind nothing, exactly when there is a rest.
  lemma FailedSendStalls<R>(w: World<R>, ok: bool)
    requires Busy(w.q)
    ensures Busy(Replied(w, ok).q) <==> ok || w.q.outstanding.None? || |w.q.prio| + |w.q.normal| <= 1
  {}

  // An answer never disturbs the order, sent or not.
  lemma ReplyKeepsOrder<R>(w: World<R>, ok: bool)
    requires InOrder(w)
    ensures InOrder(Replied(w, ok))
  {
    if |w.q.prio| > 0 {
      assert w.log.prioIn == w.log.prioOut + [w.q.prio[0]] + w.q.prio[1..];
    } else if |w.q.normal| > 0 {
      assert w.log.normalIn == w.log.normalOut + [w.q.normal[0]] + w.q.normal[1..];
    }
  }

  // A submitted request overtakes those of its class exactly when it is sent
  // at once while they wait, and differs from them.
  lemma OvertakesExactly<R>(w: World<R>, priority: bool, r: R, ok: bool)
    requires InOrder(w)
    ensures var waiting := if priority then w.q.prio else w.q.normal;
      InOrder(Submitted(w, priority, r, ok)) <==>
        w.q.outstanding.Some? || !ok || [r] + waiting == waiting + [r]
  {
    if w.q.outstanding.Some? {
      assert w.log.prioIn + [r] == w.log.prioOut + (w.q.prio + [r]);
      assert w.log.normalIn + [r] == w.log.normalOut + (w.q.normal + [r]);
      assert w.log.prioOut + [] == w.log.prioOut && w.log.normalOut + [] == w.log.normalOut;
    } else if ok {
      if priority {
        Swapped(w.log.prioOut, w.q.prio, r);
      } else {
        Swapped(w.log.normalOut, w.q.normal, r);
      }
    }
  }

  lemma Swapped<R>(out: seq<R>, waiting: seq<R>, r: R)
    ensures (out + waiting) + [r] == (out + [r]) + waiting <==> [r] + waiting == waiting + [r]
  {
    var a, b := (out + waiting) + [r], (out + [r]) + waiting;
    assert a == out + (waiting + [r]) && b == out + ([r] + waiting);
    assert a[|out|..] == waiting + [r] && b[|out|..] == [r] + waiting;
  }

  // Such a run: the request behind a lost one is overtaken by the next.
  lemma StalledRequestIsOvertaken<R>(a: R, b: R, c: R, d: R)
    requires c != d
    ensures !InOrder(Run([Submit(false, a, true)] + [Submit(false, b, true)] + [Submit(false, c, true)]
                         + [Reply(false)] + [Submit(false, d, true)]))
  {
    var e1, e2, e3 := Submit(false, a, true), Submit(false, b, true), Submit(false, c, true);
    var e4, e5 := Event<R>.Reply(false), Submit(false, d, true);
    RunOne([], e1);
    assert [] + [e1] == [e1];
    RunOne([e1], e2);
    RunOne([e1] + [e2], e3);
    RunOne([e1] + [e2] + [e3], e4);
    RunOne([e1] + [e2] + [e3] + [e4], e5);
    var w := Run([e1] + [e2] + [e3] + [e4]);
    assert w.q == Pending(None, [], [c]);
    assert w.log.normalIn == [a, b, c] && w.log.normalOut == [a, b];
    assert Submitted(w, false, d, true).log.normalIn[2] == c;
  }

  lemma RunOne<R>(events: seq<Event<R>>, e: Event<R>)
    ensures Run(events + [e]) == Step(Run(events), e)
  {
    assert (events + [e])[..|events|] == events;
  }
}
