/**
 * The bounded log buffer, and two of them in a row: the stream pushes into the pump's ring, the pump drains it
 * into events, and each delivered event is pushed into the display's ring.
 */
module LogRing {
  import opened Common

  // ---- one ring ----

  class LogRing<T> {
    var lines: seq<T>
    const cap: nat

    ghost predicate Valid()
      reads this
    {
      cap >= 1 && |lines| <= cap
    }

    /** The capacity is at least one. */
    constructor (cap: nat)
      ensures Valid() && lines == [] && this.cap == if cap < 1 then 1 else cap
    {
      this.lines, this.cap := [], if cap < 1 then 1 else cap;
    }

    /** Append one line and evict from the front until the ring fits. */
    method Push(line: T)
      requires Valid()
      modifies this
      ensures Valid() && lines == LastN(cap, old(lines) + [line])
    {
      lines := lines + [line];
      while |lines| > cap
        invariant LastN(cap, lines) == LastN(cap, old(lines) + [line])
        decreases |lines|
      {
        LastNTail(cap, lines);
        lines := lines[1..];
      }
    }

    method Extend(more: seq<T>)
      requires Valid()
      modifies this
      ensures Valid() && lines == LastN(cap, old(lines) + more)
    {
      assert old(lines) + more[..0] == old(lines);
      for i := 0 to |more|
        invariant Valid() && lines == LastN(cap, old(lines) + more[..i])
      {
        LastNAbsorbs(cap, old(lines) + more[..i], [more[i]]);
        assert old(lines) + more[..i] + [more[i]] == old(lines) + more[..i + 1];
        Push(more[i]);
      }
      assert more[..|more|] == more;
    }

    /** Take everything out: a snapshot, then a clear, under one lock. */
    method Drain() returns (batch: seq<T>)
      requires Valid()
      modifies this
      ensures Valid() && batch == old(lines) && lines == []
    {
      batch := lines;
      lines := [];
    }
  }

  lemma LastNTail<T>(n: nat, s: seq<T>)
    requires |s| > n
    ensures LastN(n, s[1..]) == LastN(n, s)
  {
  }

  // ---- two rings in a row ----

  /** Lines are named by their position in the stream. */
  datatype Cascade = Cascade(
    produced: nat,             // how many lines the stream has given
    pump: seq<nat>,            // the pump's ring
    evicted: seq<nat>,         // what the pump's ring evicted
    emitted: seq<nat>,         // all events the pump has sent
    queue: seq<nat>,           // sent but not delivered
    display: seq<nat>)         // the display's ring

  datatype Action =
    | Produce                  // the stream gives a line
    | Drain                    // the pump empties its ring into events
    | Deliver                  // the next event reaches the display
    | Drop                     // the next event is lost on a full bus

  const START: Cascade := Cascade(0, [], [], [], [], [])

  function Step(cap: nat, s: Cascade, a: Action): Cascade {
    match a
    case Produce =>
      var more := s.pump + [s.produced];
      var kept := LastN(cap, more);
      s.(produced := s.produced + 1, pump := kept, evicted := s.evicted + more[..|more| - |kept|])
    case Drain => s.(pump := [], emitted := s.emitted + s.pump, queue := s.queue + s.pump)
    case Deliver =>
      if s.queue == [] then s else s.(queue := s.queue[1..], display := LastN(cap, s.display + [s.queue[0]]))
    case Drop => if s.queue == [] then s else s.(queue := s.queue[1..])
  }

  function Run(cap: nat, actions: seq<Action>): Cascade {
    if actions == [] then START else Step(cap, Run(cap, actions[..|actions| - 1]), actions[|actions| - 1])
  }

  function Upto(n: nat): (s: seq<nat>)
    ensures |s| == n && forall i :: 0 <= i < n ==> s[i] == i
  {
    seq(n, i requires 0 <= i < n => i)
  }

  ghost predicate Increasing(s: seq<nat>) { forall i, j :: 0 <= i < j < |s| ==> s[i] < s[j] }

  ghost predicate Below(s: seq<nat>, n: nat) { forall x :: x in s ==> x < n }

  /** The last lines of the whole stream. */
  function LastLines(cap: nat, produced: nat): seq<nat> { LastN(cap, Upto(produced)) }

  /** Both rings and what is between them, cut to capacity, are the last lines of the stream. */
  ghost predicate AsOneRing(cap: nat, s: Cascade) {
    LastN(cap, s.display + s.queue + s.pump) == LastLines(cap, s.produced)
  }

  lemma ProduceKeepsOneRing(cap: nat, s: Cascade)
    requires AsOneRing(cap, s)
    ensures AsOneRing(cap, Step(cap, s, Produce))
  {
    UptoNext(s.produced);
    PushBehind(cap, s.display + s.queue, s.pump, Upto(s.produced), s.produced);
  }

  lemma PushBehind<T>(cap: nat, ahead: seq<T>, ring: seq<T>, whole: seq<T>, x: T)
    requires LastN(cap, ahead + ring) == LastN(cap, whole)
    ensures LastN(cap, ahead + LastN(cap, ring + [x])) == LastN(cap, whole + [x])
  {
    PushInto(cap, ahead, ring, x);
    LastNAbsorbs(cap, ahead + ring, [x]);
    LastNAbsorbs(cap, whole, [x]);
  }

  /** Pushing into a ring behind other lines is pushing behind all of them. */
  lemma PushInto<T>(cap: nat, ahead: seq<T>, ring: seq<T>, x: T)
    ensures LastN(cap, ahead + LastN(cap, ring + [x])) == LastN(cap, ahead + ring + [x])
  {
    LastNAbsorbsRight(cap, ahead, ring + [x]);
    assert ahead + (ring + [x]) == ahead + ring + [x];
  }

  lemma DeliverKeepsOneRing(cap: nat, s: Cascade)
    requires AsOneRing(cap, s) && s.queue != []
    ensures AsOneRing(cap, Step(cap, s, Deliver))
  {
    var rest := s.queue[1..] + s.pump;
    LastNAbsorbs(cap, s.display + [s.queue[0]], rest);
    assert s.display + [s.queue[0]] + rest == s.display + s.queue + s.pump;
    assert LastN(cap, s.display + [s.queue[0]]) + rest == LastN(cap, s.display + [s.queue[0]]) + s.queue[1..] + s.pump;
  }

  lemma DrainKeepsOneRing(cap: nat, s: Cascade)
    requires AsOneRing(cap, s)
    ensures AsOneRing(cap, Step(cap, s, Drain))
  {
    assert s.display + (s.queue + s.pump) + [] == s.display + s.queue + s.pump;
  }

  lemma {:induction false} RunIsOneRing(cap: nat, actions: seq<Action>)
    requires Drop !in actions
    ensures AsOneRing(cap, Run(cap, actions)) && |Run(cap, actions).display| <= cap
  {
    if actions != [] {
      var before, a := actions[..|actions| - 1], actions[|actions| - 1];
      RunIsOneRing(cap, before);
      var s := Run(cap, before);
      assert a in actions;
      match a
      case Produce => ProduceKeepsOneRing(cap, s);
      case Drain => DrainKeepsOneRing(cap, s);
      case Deliver => if s.queue != [] { DeliverKeepsOneRing(cap, s); }
    } else {
      assert Upto(0) == [];
    }
  }

  /** How many lines the stream had given when the pump last drained its ring. */
  function DrainedAt(cap: nat, actions: seq<Action>): nat {
    if actions == [] then 0
    else
      var before := actions[..|actions| - 1];
      if actions[|actions| - 1].Drain? then Run(cap, before).produced else DrainedAt(cap, before)
  }

  /** The display and what is on its way to it, cut to capacity, are the last lines as of the last drain. */
  ghost predicate ShowsDrained(cap: nat, s: Cascade, drained: nat) {
    LastN(cap, s.display + s.queue) == LastLines(cap, drained)
  }

  lemma DrainShows(cap: nat, s: Cascade)
    requires AsOneRing(cap, s)
    ensures ShowsDrained(cap, Step(cap, s, Drain), s.produced)
  {
    ConcatAssociates(s.display, s.queue, s.pump);
  }

  lemma DeliverShows(cap: nat, s: Cascade, drained: nat)
    requires ShowsDrained(cap, s, drained) && s.queue != []
    ensures ShowsDrained(cap, Step(cap, s, Deliver), drained)
  {
    LastNAbsorbs(cap, s.display + [s.queue[0]], s.queue[1..]);
    assert s.display + [s.queue[0]] + s.queue[1..] == s.display + s.queue;
  }

  lemma {:induction false} RunShowsDrained(cap: nat, actions: seq<Action>)
    requires Drop !in actions
    ensures ShowsDrained(cap, Run(cap, actions), DrainedAt(cap, actions))
  {
    if actions == [] {
      assert Upto(0) == [];
    } else {
      var before, a := actions[..|actions| - 1], actions[|actions| - 1];
      assert a in actions && Drop !in before;
      RunShowsDrained(cap, before);
      RunIsOneRing(cap, before);
      var s := Run(cap, before);
      match a
      case Produce =>
      case Drain => DrainShows(cap, s);
      case Deliver => if s.queue != [] { DeliverShows(cap, s, DrainedAt(cap, before)); }
    }
  }

  /**
   * Two rings of equal capacity act as one: over a lossless bus, whenever everything drained has been delivered,
   * the display shows the last lines of the whole stream as of the last drain, whatever the pump's ring evicted
   * before it and whatever the stream has given since.
   */
  lemma DisplayShowsLastLines(cap: nat, actions: seq<Action>)
    requires Drop !in actions && Run(cap, actions).queue == []
    ensures Run(cap, actions).display == LastLines(cap, DrainedAt(cap, actions))
  {
    RunShowsDrained(cap, actions);
    RunIsOneRing(cap, actions);
    var s := Run(cap, actions);
    assert s.display + s.queue == s.display;
  }

  function Count(actions: seq<Action>, a: Action): nat {
    if actions == [] then 0 else Count(actions[..|actions| - 1], a) + if actions[|actions| - 1] == a then 1 else 0
  }

  lemma RunNext(cap: nat, actions: seq<Action>, a: Action)
    ensures Run(cap, actions + [a]) == Step(cap, Run(cap, actions), a)
    ensures DrainedAt(cap, actions + [a]) == if a.Drain? then Run(cap, actions).produced else DrainedAt(cap, actions)
  {
    assert (actions + [a])[..|actions|] == actions;
  }

  lemma AppendLast(actions: seq<Action>, later: seq<Action>)
    requires later != []
    ensures actions + later == actions + later[..|later| - 1] + [later[|later| - 1]]
  {
  }

  function Remaining(queued: nat, delivered: nat): nat { if delivered <= queued then queued - delivered else 0 }

  lemma QueueNext(cap: nat, s: Cascade, a: Action, queued: nat, delivered: nat)
    requires !a.Drain? && !a.Drop? && |s.queue| == Remaining(queued, delivered)
    ensures |Step(cap, s, a).queue| == Remaining(queued, delivered + if a.Deliver? then 1 else 0)
  {
  }

  /** Until the next drain, deliveries empty the queue one by one. */
  lemma {:induction false} QueueEmpties(cap: nat, actions: seq<Action>, later: seq<Action>)
    requires Drain !in later && Drop !in later
    ensures |Run(cap, actions + later).queue| == Remaining(|Run(cap, actions).queue|, Count(later, Deliver))
    decreases |later|
  {
    if later == [] {
      assert actions + later == actions;
    } else {
      var front, a := later[..|later| - 1], later[|later| - 1];
      assert a in later;
      QueueEmpties(cap, actions, front);
      AppendLast(actions, later);
      RunNext(cap, actions + front, a);
      QueueNext(cap, Run(cap, actions + front), a, |Run(cap, actions).queue|, Count(front, Deliver));
    }
  }

  /** Until the next drain, the last drain stays the last. */
  lemma {:induction false} DrainStays(cap: nat, actions: seq<Action>, later: seq<Action>)
    requires Drain !in later
    ensures DrainedAt(cap, actions + later) == DrainedAt(cap, actions)
    decreases |later|
  {
    if later == [] {
      assert actions + later == actions;
    } else {
      var front, a := later[..|later| - 1], later[|later| - 1];
      assert a in later;
      DrainStays(cap, actions, front);
      AppendLast(actions, later);
      RunNext(cap, actions + front, a);
    }
  }

  /** After a drain, delivering what is queued brings the display up to that drain, whatever arrives meanwhile. */
  lemma CatchUp(cap: nat, actions: seq<Action>, later: seq<Action>)
    requires Drop !in actions && Drop !in later && Drain !in later
    requires Count(later, Deliver) >= |Run(cap, actions + [Drain]).queue|
    ensures Run(cap, actions + [Drain] + later).display == LastLines(cap, Run(cap, actions).produced)
  {
    RunNext(cap, actions, Drain);
    QueueEmpties(cap, actions + [Drain], later);
    DrainStays(cap, actions + [Drain], later);
    assert Drop !in actions + [Drain] + later;
    DisplayShowsLastLines(cap, actions + [Drain] + later);
  }

  // ---- nothing repeated, nothing out of order, nothing unaccounted for ----

  /** Emitted lines come in stream order without repeats, ahead of what is still in the pump's ring. */
  ghost predicate InOrder(s: Cascade) {
    Increasing(s.emitted + s.pump) && Below(s.emitted + s.pump, s.produced)
  }

  /** What is shown or under way are emitted lines, in stream order without repeats. */
  ghost predicate ShownInOrder(s: Cascade) {
    && Increasing(s.display + s.queue)
    && (forall x :: x in s.display + s.queue ==> x in s.emitted)
  }

  /** Every line of the stream is emitted, still buffered or evicted, exactly once. */
  ghost predicate Accounted(s: Cascade) {
    multiset(s.emitted) + multiset(s.pump) + multiset(s.evicted) == multiset(Upto(s.produced))
  }

  lemma IncreasingParts(a: seq<nat>, b: seq<nat>)
    requires Increasing(a + b)
    ensures Increasing(a) && Increasing(b)
    ensures forall x, y :: x in a && y in b ==> x < y
  {
    forall i, j | 0 <= i < j < |a| ensures a[i] < a[j] { assert (a + b)[i] < (a + b)[j]; }
    forall i, j | 0 <= i < j < |b| ensures b[i] < b[j] { assert (a + b)[|a| + i] < (a + b)[|a| + j]; }
    forall x, y | x in a && y in b ensures x < y {
      var i :| 0 <= i < |a| && a[i] == x;
      var j :| 0 <= j < |b| && b[j] == y;
      assert (a + b)[i] < (a + b)[|a| + j];
    }
  }

  lemma IncreasingConcat(a: seq<nat>, b: seq<nat>)
    requires Increasing(a) && Increasing(b)
    requires forall x, y :: x in a && y in b ==> x < y
    ensures Increasing(a + b)
  {
    forall i, j | 0 <= i < j < |a + b| ensures (a + b)[i] < (a + b)[j] {
      if i < |a| <= j { assert a[i] in a && b[j - |a|] in b; }
    }
  }

  lemma IncreasingLastN(cap: nat, s: seq<nat>)
    requires Increasing(s)
    ensures Increasing(LastN(cap, s)) && forall x :: x in LastN(cap, s) ==> x in s
  {
  }

  lemma ProduceKeepsOrder(cap: nat, s: Cascade)
    requires InOrder(s)
    ensures InOrder(Step(cap, s, Produce))
  {
    var more := s.pump + [s.produced];
    IncreasingParts(s.emitted, s.pump);
    forall x | x in s.pump ensures x < s.produced { assert x in s.emitted + s.pump; }
    forall x | x in s.emitted ensures x < s.produced { assert x in s.emitted + s.pump; }
    IncreasingConcat(s.pump, [s.produced]);
    IncreasingLastN(cap, more);
    IncreasingConcat(s.emitted, LastN(cap, more));
    forall x | x in s.emitted + LastN(cap, more) ensures x < s.produced + 1 {
      assert x in s.emitted || x in s.pump || x == s.produced;
    }
  }

  lemma ProduceKeepsAccount(cap: nat, s: Cascade)
    requires Accounted(s)
    ensures Accounted(Step(cap, s, Produce))
  {
    var more, after := s.pump + [s.produced], Step(cap, s, Produce);
    var cut := more[..|more| - |LastN(cap, more)|];
    CutInTwo(cap, more);
    UptoNext(s.produced);
    assert multiset(after.evicted) == multiset(s.evicted) + multiset(cut);
    MoveParts(multiset(s.emitted), multiset(s.pump), multiset(s.evicted), multiset(after.pump), multiset(cut), multiset{s.produced});
  }

  lemma MoveParts<T>(sent: multiset<T>, ring: multiset<T>, lost: multiset<T>, ring': multiset<T>, cut: multiset<T>, more: multiset<T>)
    requires ring' + cut == ring + more
    ensures sent + ring' + (lost + cut) == sent + ring + lost + more
  {
    assert sent + ring' + (lost + cut) == sent + lost + (ring' + cut);
    assert sent + ring + lost + more == sent + lost + (ring + more);
  }

  lemma CutInTwo<T>(cap: nat, s: seq<T>)
    ensures multiset(s) == multiset(s[..|s| - |LastN(cap, s)|]) + multiset(LastN(cap, s))
  {
    assert s == s[..|s| - |LastN(cap, s)|] + LastN(cap, s);
  }

  lemma UptoNext(n: nat)
    ensures Upto(n + 1) == Upto(n) + [n]
    ensures multiset(Upto(n + 1)) == multiset(Upto(n)) + multiset{n}
  {
    assert Upto(n + 1) == Upto(n) + [n];
  }

  lemma DrainKeepsShown(cap: nat, s: Cascade)
    requires InOrder(s) && ShownInOrder(s)
    ensures ShownInOrder(Step(cap, s, Drain))
  {
    IncreasingParts(s.emitted, s.pump);
    IncreasingConcat(s.display + s.queue, s.pump);
    assert s.display + (s.queue + s.pump) == s.display + s.queue + s.pump;
  }

  lemma DeliverKeepsShown(cap: nat, s: Cascade)
    requires ShownInOrder(s) && s.queue != []
    ensures ShownInOrder(Step(cap, s, Deliver))
  {
    var more := s.display + [s.queue[0]];
    assert more + s.queue[1..] == s.display + s.queue;
    IncreasingParts(more, s.queue[1..]);
    IncreasingLastN(cap, more);
    IncreasingConcat(LastN(cap, more), s.queue[1..]);
    forall x | x in LastN(cap, more) + s.queue[1..] ensures x in s.emitted {
      assert x in more + s.queue[1..];
    }
  }

  lemma DropKeepsShown(cap: nat, s: Cascade)
    requires ShownInOrder(s) && s.queue != []
    ensures ShownInOrder(Step(cap, s, Drop))
  {
    assert s.display + [s.queue[0]] + s.queue[1..] == s.display + s.queue;
    IncreasingParts(s.display + [s.queue[0]], s.queue[1..]);
    IncreasingParts(s.display, [s.queue[0]]);
    forall x, y | x in s.display && y in s.queue[1..] ensures x < y {
      assert x in s.display + [s.queue[0]];
    }
    IncreasingConcat(s.display, s.queue[1..]);
    forall x | x in s.display + s.queue[1..] ensures x in s.emitted { assert x in s.display + s.queue; }
  }

  /**
   * For every interleaving, lossy bus or not: emitted lines come in stream order without repeats, and so do the
   * lines on display; every line of the stream is emitted, buffered or evicted exactly once.
   */
  lemma {:induction false} RunAccountsForAll(cap: nat, actions: seq<Action>)
    ensures var s := Run(cap, actions); InOrder(s) && ShownInOrder(s) && Accounted(s)
  {
    if actions == [] {
      assert Upto(0) == [];
    } else {
      var before, a := actions[..|actions| - 1], actions[|actions| - 1];
      RunAccountsForAll(cap, before);
      var s := Run(cap, before);
      match a
      case Produce =>
        ProduceKeepsOrder(cap, s);
        ProduceKeepsAccount(cap, s);
      case Drain =>
        DrainKeepsShown(cap, s);
        assert s.emitted + s.pump + [] == s.emitted + s.pump;
      case Deliver => if s.queue != [] { DeliverKeepsShown(cap, s); }
      case Drop => if s.queue != [] { DropKeepsShown(cap, s); }
    }
  }

  /** Counting: emitted, buffered and evicted lines add up to what was produced. */
  lemma CountsAddUp(cap: nat, actions: seq<Action>)
    ensures var s := Run(cap, actions); |s.emitted| + |s.pump| + |s.evicted| == s.produced
  {
    RunAccountsForAll(cap, actions);
    var s := Run(cap, actions);
    assert |multiset(s.emitted) + multiset(s.pump) + multiset(s.evicted)| == |multiset(Upto(s.produced))|;
  }
}
