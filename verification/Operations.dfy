/** The application's open operation panels, and the generation numbers that keep stale events away from them. */
module Operations {
  import opened Common
  import opened Plan
  import opened RunPlan
  import opened OpPanel

  /** Generations are 64-bit numbers that wrap around. */
  const GENERATIONS: nat := 0x1_0000_0000_0000_0000

  datatype PanelEvent = Progress(event: Event) | Finish(result: Result<(), string>)

  datatype Action =
    | Issue(name: string, kind: Kind)                       // an operation is issued and its panel opened
    | Deliver(name: string, gen: nat, event: PanelEvent)
    | Close(name: string)

  datatype App = App(ops: map<string, Panel>, gens: map<string, nat>)

  const START: App := App(map[], map[])

  function Current(gens: map<string, nat>, name: string): nat { if name in gens then gens[name] else 0 }

  function Next(gens: map<string, nat>, name: string): nat { (Current(gens, name) + 1) % GENERATIONS }

  function React(p: Panel, e: PanelEvent): Panel {
    match e
    case Progress(event) => Apply(p, event)
    case Finish(result) => p.(finished := Some(result))
  }

  function Step(s: App, a: Action): App {
    match a
    case Issue(name, kind) =>
      var gen := Next(s.gens, name);
      App(s.ops[name := Start(kind, gen)], s.gens[name := gen])
    case Deliver(name, gen, event) =>
      if name in s.ops && s.ops[name].gen == gen then s.(ops := s.ops[name := React(s.ops[name], event)]) else s
    case Close(name) => s.(ops := s.ops - {name})
  }

  function Run(actions: seq<Action>): App {
    if actions == [] then START else Step(Run(actions[..|actions| - 1]), actions[|actions| - 1])
  }

  // ---- generations ----

  predicate Issues(a: Action, name: string) { a.Issue? && a.name == name }

  function IssueCount(actions: seq<Action>, name: string): nat {
    if actions == [] then 0
    else IssueCount(actions[..|actions| - 1], name) + if Issues(actions[|actions| - 1], name) then 1 else 0
  }

  lemma {:induction false} GenerationIsCount(actions: seq<Action>, name: string)
    ensures Current(Run(actions).gens, name) == IssueCount(actions, name) % GENERATIONS
  {
    if actions != [] { GenerationIsCount(actions[..|actions| - 1], name); }
  }

  /** The generation the issue at `i` gave out. */
  function IssuedAt(actions: seq<Action>, i: nat): nat
    requires i < |actions| && actions[i].Issue?
  {
    Next(Run(actions[..i]).gens, actions[i].name)
  }

  lemma {:induction false} CountGrows(actions: seq<Action>, name: string, i: nat)
    requires i <= |actions|
    ensures IssueCount(actions[..i], name) <= IssueCount(actions, name)
    ensures i < |actions| && Issues(actions[i], name) ==> IssueCount(actions[..i], name) < IssueCount(actions, name)
  {
    if i == |actions| {
      assert actions[..i] == actions;
    } else {
      CountGrows(actions[..|actions| - 1], name, i);
      assert actions[..|actions| - 1][..i] == actions[..i];
    }
  }

  /** Two issues for one name share a generation exactly when a multiple of 2^64 issues lies between them. */
  lemma ReissuedIff(actions: seq<Action>, name: string, i: nat, j: nat)
    requires i < j < |actions| && Issues(actions[i], name) && Issues(actions[j], name)
    ensures IssuedAt(actions, i) == IssuedAt(actions, j)
        <==> (IssueCount(actions[..j], name) - IssueCount(actions[..i], name)) % GENERATIONS == 0
  {
    IssuedAtIsCount(actions, i, name);
    IssuedAtIsCount(actions, j, name);
    SameRemainder(IssueCount(actions[..i], name) + 1, IssueCount(actions[..j], name) + 1);
  }

  lemma IssuedAtIsCount(actions: seq<Action>, i: nat, name: string)
    requires i < |actions| && Issues(actions[i], name)
    ensures IssuedAt(actions, i) == (IssueCount(actions[..i], name) + 1) % GENERATIONS
  {
    GenerationIsCount(actions[..i], name);
    NextAfter(IssueCount(actions[..i], name));
  }

  lemma NextAfter(c: nat)
    ensures (c % GENERATIONS + 1) % GENERATIONS == (c + 1) % GENERATIONS
  {
  }

  lemma SameRemainder(a: nat, b: nat)
    ensures a % GENERATIONS == b % GENERATIONS <==> (b - a) % GENERATIONS == 0
  {
    assert a == a / GENERATIONS * GENERATIONS + a % GENERATIONS;
    assert b == b / GENERATIONS * GENERATIONS + b % GENERATIONS;
  }

  /** Below 2^64 issues for a name no generation is given out twice. */
  lemma NeverReissued(actions: seq<Action>, name: string, i: nat, j: nat)
    requires i < j < |actions| && Issues(actions[i], name) && Issues(actions[j], name)
    requires IssueCount(actions, name) <= GENERATIONS
    ensures IssuedAt(actions, i) != IssuedAt(actions, j)
  {
    ReissuedIff(actions, name, i, j);
    CountGrows(actions[..j], name, i);
    assert actions[..j][..i] == actions[..i];
    CountGrows(actions, name, j);
  }

  // ---- a panel is the fold of its own events ----

  /** Events carry generations that were given out before. */
  ghost predicate Causal(actions: seq<Action>) {
    forall k :: 0 <= k < |actions| && actions[k].Deliver? ==> WasIssued(actions[..k], actions[k].name, actions[k].gen)
  }

  ghost predicate WasIssued(actions: seq<Action>, name: string, gen: nat) {
    exists i :: 0 <= i < |actions| && Issues(actions[i], name) && IssuedAt(actions, i) == gen
  }

  predicate IsOwn(a: Action, name: string, gen: nat) { a.Deliver? && a.name == name && a.gen == gen }

  /** All events delivered under that name and generation in the whole run. */
  function Own(actions: seq<Action>, name: string, gen: nat): seq<PanelEvent> {
    if actions == [] then []
    else
      var a := actions[|actions| - 1];
      Own(actions[..|actions| - 1], name, gen) + if IsOwn(a, name, gen) then [a.event] else []
  }

  function Fold(p: Panel, events: seq<PanelEvent>): Panel {
    if events == [] then p else React(Fold(p, events[..|events| - 1]), events[|events| - 1])
  }

  lemma FoldNext(p: Panel, events: seq<PanelEvent>, e: PanelEvent)
    ensures Fold(p, events + [e]) == React(Fold(p, events), e)
  {
    assert (events + [e])[..|events|] == events;
  }

  lemma FoldKeepsIdentity(p: Panel, e: PanelEvent)
    ensures React(p, e).gen == p.gen && React(p, e).kind == p.kind
  {
    if e.Progress? { ApplyKeepsIdentity(p, e.event); }
  }

  lemma ApplyKeepsIdentity(p: Panel, e: Event)
    ensures Apply(p, e).gen == p.gen && Apply(p, e).kind == p.kind
  {
  }

  lemma IssuedIsCounted(actions: seq<Action>, name: string, gen: nat)
    requires WasIssued(actions, name, gen) && IssueCount(actions, name) < GENERATIONS
    ensures gen <= IssueCount(actions, name)
  {
    var i :| 0 <= i < |actions| && Issues(actions[i], name) && IssuedAt(actions, i) == gen;
    IssuedAtIsCount(actions, i, name);
    CountGrows(actions, name, i);
    NextStaysBelow(IssueCount(actions[..i], name), IssueCount(actions, name));
  }

  lemma NextStaysBelow(c: nat, n: nat)
    requires c < n < GENERATIONS
    ensures (c + 1) % GENERATIONS <= n
  {
  }

  lemma CausalPrefix(actions: seq<Action>, n: nat)
    requires Causal(actions) && n <= |actions|
    ensures Causal(actions[..n])
  {
    forall k | 0 <= k < n && actions[..n][k].Deliver?
      ensures WasIssued(actions[..n][..k], actions[..n][k].name, actions[..n][k].gen)
    {
      assert actions[..n][..k] == actions[..k];
    }
  }

  /** No event carries a generation that is not out yet. */
  lemma {:induction false} NoEventsFromTheFuture(actions: seq<Action>, name: string, gen: nat)
    requires Causal(actions) && IssueCount(actions, name) < gen < GENERATIONS
    ensures Own(actions, name, gen) == []
  {
    if actions != [] {
      var before := actions[..|actions| - 1];
      CausalPrefix(actions, |actions| - 1);
      CountGrows(actions, name, |actions| - 1);
      NoEventsFromTheFuture(before, name, gen);
      if IsOwn(actions[|actions| - 1], name, gen) { IssuedIsCounted(before, name, gen); }
    }
  }

  ghost predicate IsFoldOfOwn(actions: seq<Action>, name: string) {
    var s := Run(actions);
    name in s.ops ==>
      var p := s.ops[name];
      p.gen == IssueCount(actions, name) && p == Fold(Start(p.kind, p.gen), Own(actions, name, p.gen))
  }

  lemma FoldStep(before: seq<Action>, a: Action, name: string)
    requires Causal(before) && IssueCount(before + [a], name) < GENERATIONS && IsFoldOfOwn(before, name)
    ensures IsFoldOfOwn(before + [a], name)
  {
    var all := before + [a];
    assert all[..|before|] == before;
    GenerationIsCount(before, name);
    if Issues(a, name) {
      NoEventsFromTheFuture(before, name, IssueCount(all, name));
    } else if name in Run(before).ops {
      var p := Run(before).ops[name];
      assert Own(before, name, p.gen) + [] == Own(before, name, p.gen);
      if IsOwn(a, name, p.gen) {
        FoldNext(Start(p.kind, p.gen), Own(before, name, p.gen), a.event);
        FoldKeepsIdentity(p, a.event);
      }
    }
  }

  /**
   * Over any interleaving of issued operations, delivered events and closed panels: an open panel belongs to the
   * latest operation on its name, and its state is the fold of exactly the events delivered for that operation.
   */
  lemma {:induction false} PanelFoldsItsOwnEvents(actions: seq<Action>, name: string)
    requires Causal(actions) && IssueCount(actions, name) < GENERATIONS
    ensures IsFoldOfOwn(actions, name)
  {
    if actions != [] {
      var before := actions[..|actions| - 1];
      CausalPrefix(actions, |actions| - 1);
      CountGrows(actions, name, |actions| - 1);
      PanelFoldsItsOwnEvents(before, name);
      assert actions == before + [actions[|actions| - 1]];
      FoldStep(before, actions[|actions| - 1], name);
    }
  }

  // ---- a plan run seen through the panel ----

  function AsProgress(events: seq<Event>): (r: seq<PanelEvent>)
    ensures |r| == |events| && forall i :: 0 <= i < |events| ==> r[i] == Progress(events[i])
  {
    seq(|events|, i requires 0 <= i < |events| => Progress(events[i]))
  }

  lemma {:induction false} FoldOfProgress(p: Panel, events: seq<Event>)
    ensures Fold(p, AsProgress(events)) == ApplyAll(p, events)
  {
    if events != [] {
      var front := events[..|events| - 1];
      FoldOfProgress(p, front);
      assert AsProgress(events) == AsProgress(front) + [Progress(events[|events| - 1])];
      FoldNext(p, AsProgress(front), Progress(events[|events| - 1]));
    }
  }

  /** When no event of an operation was lost, its open panel is what those events make of a fresh one. */
  lemma PanelAfterEvents(actions: seq<Action>, name: string, events: seq<Event>, result: Result<(), string>)
    requires Causal(actions) && IssueCount(actions, name) < GENERATIONS && name in Run(actions).ops
    requires Own(actions, name, Run(actions).ops[name].gen) == AsProgress(events) + [Finish(result)]
    ensures var p := Run(actions).ops[name];
      p == ApplyAll(Start(p.kind, p.gen), events).(finished := Some(result))
  {
    PanelFoldsItsOwnEvents(actions, name);
    var p := Run(actions).ops[name];
    FoldNext(Start(p.kind, p.gen), AsProgress(events), Finish(result));
    FoldOfProgress(Start(p.kind, p.gen), events);
  }

  /**
   * When no event of an operation was lost, and it ran a plan to the end after whatever events came earlier (a
   * recreation's destroy phase), its open panel shows below the earlier rows the steps of the plan in execution
   * order without repeats, all done, whatever other operations were issued and delivered in between.
   */
  lemma PanelShowsThePlanRun(actions: seq<Action>, name: string, earlier: seq<Event>, x: Execution)
    requires Causal(actions) && IssueCount(actions, name) < GENERATIONS && name in Run(actions).ops
    requires IsExecution(x) && Ordered(x) && x.result.Success?
    requires Own(actions, name, Run(actions).ops[name].gen) == AsProgress(earlier + x.events) + [Finish(Success(()))]
    requires var p := Run(actions).ops[name]; AllNew(ApplyAll(Start(p.kind, p.gen), earlier).steps, x.order)
    ensures var p := Run(actions).ops[name];
      && p.steps == ApplyAll(Start(p.kind, p.gen), earlier).steps + DoneSteps(x.order)
      && p.finished == Some(Success(())) && multiset(x.order) == multiset(Ids(x.steps))
  {
    PanelAfterEvents(actions, name, earlier + x.events, Success(()));
    var p := Run(actions).ops[name];
    var start := Start(p.kind, p.gen);
    ApplyConcat(start, earlier, x.events);
    ApplyAllFits(start, earlier);
    RunLeavesTimeline(ApplyAll(start, earlier), x);
  }

  // ---- the application's state ----

  class Application {
    var ops: map<string, OpPanel>
    var opGens: map<string, nat>

    /** Every name has a panel of its own. */
    ghost predicate Valid()
      reads this, ops.Values
    {
      && (forall n :: n in ops ==> ops[n].Valid())
      && (forall m, n :: m in ops && n in ops && m != n ==> ops[m] != ops[n])
    }

    ghost function State(): App
      reads this, ops.Values
    {
      App(map n | n in ops :: ops[n].State(), opGens)
    }

    constructor ()
      ensures Valid() && State() == START
    {
      ops, opGens := map[], map[];
    }

    method NextOpGen(name: string) returns (gen: nat)
      modifies this`opGens
      ensures gen == Next(old(opGens), name) && opGens == old(opGens)[name := gen]
    {
      gen := if name in opGens then opGens[name] else 0;
      gen := (gen + 1) % GENERATIONS;
      opGens := opGens[name := gen];
    }

    method OpenPanel(name: string, kind: Kind, gen: nat)
      requires Valid()
      modifies this`ops
      ensures Valid() && opGens == old(opGens)
      ensures State().ops == old(State().ops)[name := Start(kind, gen)]
    {
      var panel := new OpPanel(kind, gen);
      ops := ops[name := panel];
    }

    /** Stamps the operation and opens its panel in place of an older one. */
    method IssueOp(name: string, kind: Kind)
      requires Valid()
      modifies this
      ensures Valid() && State() == Step(old(State()), Issue(name, kind))
    {
      ghost var before := State();
      var gen := NextOpGen(name);
      assert State() == before.(gens := opGens);
      OpenPanel(name, kind, gen);
    }

    /** Events of another generation, or for a name without a panel, are dropped. */
    method HandleProvision(name: string, gen: nat, event: Event)
      requires Valid()
      modifies ops.Values
      ensures Valid() && ops == old(ops) && State() == Step(old(State()), Deliver(name, gen, Progress(event)))
    {
      if name in ops && ops[name].gen == gen {
        ops[name].ApplyEvent(event);
      }
    }

    method HandleProvisionDone(name: string, gen: nat, result: Result<(), string>)
      requires Valid()
      modifies ops.Values
      ensures Valid() && ops == old(ops) && State() == Step(old(State()), Deliver(name, gen, Finish(result)))
    {
      if name in ops && ops[name].gen == gen {
        ops[name].finished := Some(result);
      }
    }

    method ClosePanel(name: string)
      requires Valid()
      modifies this
      ensures Valid() && State() == Step(old(State()), Close(name))
    {
      ops := ops - {name};
    }
  }
}
