/**
 * The worker's cancellation tokens. Each running operation owns a slot named by a string key; starting an
 * operation replaces and cancels the slot's token, stopping it cancels and removes it.
 */
module WorkerSlots {
  import opened Common

  datatype Slot =
    | Install(tool: string)
    | Create(name: string)
    | Destroy(name: string)
    | Recreate(name: string)
    | Topo(name: string)
    | Logs(name: string)

  datatype Command =
    | InstallTool(tool: string)
    | CreateCluster(name: string)
    | DestroyCluster(name: string)
    | RecreateCluster(name: string)
    | CancelOp(name: string)
    | SetAutoRefresh(name: string, enabled: bool)
    | StartLogs(name: string)
    | StopLogs(name: string)
    | Untracked                    // commands that hold no token
    | Shutdown

  function Prefix(slot: Slot): (p: string)
    ensures p != []
  {
    match slot
    case Install(_) => "install:"
    case Create(_) => "create:"
    case Destroy(_) => "destroy:"
    case Recreate(_) => "recreate:"
    case Topo(_) => "topo:"
    case Logs(_) => "logs:"
  }

  function Owner(slot: Slot): string { if slot.Install? then slot.tool else slot.name }

  function Key(slot: Slot): string { Prefix(slot) + Owner(slot) }

  /** Different slots have different keys, whatever the clusters and tools are called. */
  lemma KeysAreDistinct(a: Slot, b: Slot)
    requires Key(a) == Key(b)
    ensures a == b
  {
    assert Key(a)[0] == Prefix(a)[0] && Key(b)[0] == Prefix(b)[0];
    assert Prefix(a) == Prefix(b);
    assert Key(a)[|Prefix(a)|..] == Owner(a);
    assert Key(b)[|Prefix(b)|..] == Owner(b);
  }

  // ---- on values: which token is live in which slot ----

  /** Tokens are numbered in the order they are made. */
  datatype Slots = Slots(live: map<string, nat>, minted: nat)

  const NONE: Slots := Slots(map[], 0)

  function Started(s: Slots, slot: Slot): Slots { Slots(s.live[Key(slot) := s.minted], s.minted + 1) }

  function Stopped(s: Slots, slot: Slot): Slots { s.(live := s.live - {Key(slot)}) }

  /** The slot a command starts anew. */
  function StartOf(c: Command): Option<Slot> {
    match c
    case InstallTool(tool) => Some(Install(tool))
    case CreateCluster(name) => Some(Create(name))
    case DestroyCluster(name) => Some(Destroy(name))
    case RecreateCluster(name) => Some(Recreate(name))
    case SetAutoRefresh(name, enabled) => if enabled then Some(Topo(name)) else None
    case StartLogs(name) => Some(Logs(name))
    case _ => None
  }

  /** The slots a command stops. */
  function StopsOf(c: Command): seq<Slot> {
    match c
    case CancelOp(name) => [Create(name), Destroy(name), Recreate(name)]
    case SetAutoRefresh(name, enabled) => if enabled then [] else [Topo(name)]
    case StopLogs(name) => [Logs(name)]
    case _ => []
  }

  function StoppedAll(s: Slots, slots: seq<Slot>): Slots
    decreases |slots|
  {
    if slots == [] then s else StoppedAll(Stopped(s, slots[0]), slots[1..])
  }

  function Do(s: Slots, c: Command): Slots {
    match StartOf(c)
    case Some(slot) => Started(s, slot)
    case None => StoppedAll(s, StopsOf(c))
  }

  /** After the commands, none of which is the shutdown. */
  function DoAll(commands: seq<Command>): Slots {
    if commands == [] then NONE else Do(DoAll(commands[..|commands| - 1]), commands[|commands| - 1])
  }

  /** The commands the loop handles: all before the first shutdown. */
  function Handled(commands: seq<Command>): seq<Command> {
    if commands == [] || commands[0].Shutdown? then [] else [commands[0]] + Handled(commands[1..])
  }

  predicate Starts(c: Command, slot: Slot) { StartOf(c) == Some(slot) }

  predicate Stops(c: Command, slot: Slot) { slot in StopsOf(c) }

  lemma {:induction false} StoppedAllAt(s: Slots, slots: seq<Slot>, slot: Slot)
    ensures var s' := StoppedAll(s, slots);
      && s'.minted == s.minted
      && (Key(slot) in s'.live <==> Key(slot) in s.live && slot !in slots)
      && (Key(slot) in s'.live ==> s'.live[Key(slot)] == s.live[Key(slot)])
    decreases |slots|
  {
    if slots != [] {
      StoppedAllAt(Stopped(s, slots[0]), slots[1..], slot);
      if Key(slot) == Key(slots[0]) { KeysAreDistinct(slot, slots[0]); }
    }
  }

  /** What one command does to any one slot: nothing, unless it starts or stops that very slot. */
  lemma DoAt(s: Slots, c: Command, slot: Slot)
    ensures var s' := Do(s, c);
      && (Starts(c, slot) ==> Key(slot) in s'.live && s'.live[Key(slot)] == s.minted)
      && (Stops(c, slot) ==> Key(slot) !in s'.live)
      && (!Starts(c, slot) && !Stops(c, slot) ==>
            (Key(slot) in s'.live <==> Key(slot) in s.live) && (Key(slot) in s.live ==> s'.live[Key(slot)] == s.live[Key(slot)]))
  {
    match StartOf(c)
    case Some(other) => if Key(slot) == Key(other) { KeysAreDistinct(slot, other); }
    case None => StoppedAllAt(s, StopsOf(c), slot);
  }

  /** The command at `i` started the slot and no later one started or stopped it. */
  ghost predicate LastStart(commands: seq<Command>, slot: Slot, i: int) {
    && 0 <= i < |commands| && Starts(commands[i], slot)
    && forall j :: i < j < |commands| ==> !Starts(commands[j], slot) && !Stops(commands[j], slot)
  }

  ghost predicate LiveToken(s: Slots, slot: Slot, token: nat) { Key(slot) in s.live && s.live[Key(slot)] == token }

  lemma {:induction false} StartedIsLive(commands: seq<Command>, slot: Slot, i: int)
    requires LastStart(commands, slot, i)
    ensures LiveToken(DoAll(commands), slot, DoAll(commands[..i]).minted)
  {
    var before, c := commands[..|commands| - 1], commands[|commands| - 1];
    DoAt(DoAll(before), c, slot);
    if i < |before| {
      assert LastStart(before, slot, i);
      assert before[..i] == commands[..i];
      StartedIsLive(before, slot, i);
    }
  }

  lemma {:induction false} LiveWasStarted(commands: seq<Command>, slot: Slot) returns (i: int)
    requires Key(slot) in DoAll(commands).live
    ensures LastStart(commands, slot, i)
  {
    var before, c := commands[..|commands| - 1], commands[|commands| - 1];
    DoAt(DoAll(before), c, slot);
    assert commands == before + [c];
    if Starts(c, slot) {
      i := |before|;
    } else {
      i := LiveWasStarted(before, slot);
      StillLastStart(before, c, slot, i);
    }
  }

  lemma StillLastStart(before: seq<Command>, c: Command, slot: Slot, i: int)
    requires LastStart(before, slot, i) && !Starts(c, slot) && !Stops(c, slot)
    ensures LastStart(before + [c], slot, i)
  {
    var all := before + [c];
    forall j | i < j < |all| ensures !Starts(all[j], slot) && !Stops(all[j], slot) {
      if j < |before| { assert all[j] == before[j]; }
    }
  }

  /** The slot's live token, exactly: the one its last start made, unless it was stopped since. */
  lemma LiveExactly(commands: seq<Command>, slot: Slot, token: nat)
    ensures LiveToken(DoAll(commands), slot, token)
        <==> exists i :: LastStart(commands, slot, i) && token == DoAll(commands[..i]).minted
  {
    if LiveToken(DoAll(commands), slot, token) {
      var i := LiveWasStarted(commands, slot);
      StartedIsLive(commands, slot, i);
    }
    if i :| LastStart(commands, slot, i) && token == DoAll(commands[..i]).minted {
      StartedIsLive(commands, slot, i);
    }
  }

  /** Cancelling a cluster's operation clears its three operation slots and no other slot. */
  lemma CancelClearsExactlyItsSlots(commands: seq<Command>, name: string, slot: Slot)
    ensures var s, s' := DoAll(commands), DoAll(commands + [CancelOp(name)]);
      if slot == Create(name) || slot == Destroy(name) || slot == Recreate(name) then Key(slot) !in s'.live
      else (Key(slot) in s'.live <==> Key(slot) in s.live) && (Key(slot) in s.live ==> s'.live[Key(slot)] == s.live[Key(slot)])
  {
    assert (commands + [CancelOp(name)])[..|commands|] == commands;
    DoAt(DoAll(commands), CancelOp(name), slot);
  }

  // ---- the fate of a token, in terms of the commands alone ----

  /** The command makes a token. */
  predicate MakesToken(c: Command) {
    c.InstallTool? || c.CreateCluster? || c.DestroyCluster? || c.RecreateCluster? || (c.SetAutoRefresh? && c.enabled) || c.StartLogs?
  }

  /** A later command that ends what the first one started: the same operation anew, or what cancels or stops it. */
  predicate Ends(first: Command, later: Command) {
    match first
    case InstallTool(tool) => later == InstallTool(tool)
    case CreateCluster(name) => later == CreateCluster(name) || later == CancelOp(name)
    case DestroyCluster(name) => later == DestroyCluster(name) || later == CancelOp(name)
    case RecreateCluster(name) => later == RecreateCluster(name) || later == CancelOp(name)
    case SetAutoRefresh(name, _) => later.SetAutoRefresh? && later.name == name
    case StartLogs(name) => later == StartLogs(name) || later == StopLogs(name)
    case _ => false
  }

  lemma MakesAndEnds(first: Command, later: Command)
    ensures MakesToken(first) <==> StartOf(first).Some?
    ensures MakesToken(first) ==> (Ends(first, later) <==> Starts(later, StartOf(first).value) || Stops(later, StartOf(first).value))
  {
  }

  lemma MintsOne(s: Slots, c: Command)
    ensures Do(s, c).minted == s.minted + if MakesToken(c) then 1 else 0
  {
    MakesAndEnds(c, c);
    if StartOf(c).None? { StoppedAllAt(s, StopsOf(c), Create("")); }
  }

  lemma {:induction false} MintedGrows(commands: seq<Command>, i: nat, j: nat)
    requires i < j <= |commands|
    ensures DoAll(commands[..i]).minted + (if MakesToken(commands[i]) then 1 else 0) <= DoAll(commands[..j]).minted
  {
    assert commands[..j][..j - 1] == commands[..j - 1];
    MintsOne(DoAll(commands[..j - 1]), commands[j - 1]);
    if i < j - 1 { MintedGrows(commands, i, j - 1); }
  }

  ghost predicate IsLive(s: Slots, token: nat) { exists slot :: LiveToken(s, slot, token) }

  /** The token a command made is live at the end exactly when no later command ended what it started. */
  lemma TokenFate(commands: seq<Command>, i: nat)
    requires i < |commands| && MakesToken(commands[i])
    ensures IsLive(DoAll(commands), DoAll(commands[..i]).minted) <==> forall j :: i < j < |commands| ==> !Ends(commands[i], commands[j])
  {
    var token := DoAll(commands[..i]).minted;
    MakesAndEnds(commands[i], commands[i]);
    var own := StartOf(commands[i]).value;
    forall j | i < j < |commands| ensures Ends(commands[i], commands[j]) <==> Starts(commands[j], own) || Stops(commands[j], own) {
      MakesAndEnds(commands[i], commands[j]);
    }
    LiveExactly(commands, own, token);
    if IsLive(DoAll(commands), token) {
      var slot :| LiveToken(DoAll(commands), slot, token);
      LiveExactly(commands, slot, token);
      var k: nat :| LastStart(commands, slot, k) && token == DoAll(commands[..k]).minted;
      MakesAndEnds(commands[k], commands[k]);
      if k < i { MintedGrows(commands, k, i); }
      if i < k { MintedGrows(commands, i, k); }
    }
  }

  // ---- what a shutdown leaves running ----

  /** Every key in the map is the key of some slot. */
  ghost predicate Keyed(live: map<string, nat>) { forall k :: k in live ==> exists slot :: Key(slot) == k }

  lemma StartedKeyed(s: Slots, slot: Slot)
    requires Keyed(s.live)
    ensures Keyed(Started(s, slot).live)
  {
    forall k | k in Started(s, slot).live ensures exists other :: Key(other) == k {
      if k == Key(slot) { assert Key(slot) == k; }
    }
  }

  lemma {:induction false} StoppedAllKeyed(s: Slots, slots: seq<Slot>)
    requires Keyed(s.live)
    ensures Keyed(StoppedAll(s, slots).live)
    decreases |slots|
  {
    if slots != [] { StoppedAllKeyed(Stopped(s, slots[0]), slots[1..]); }
  }

  lemma {:induction false} AllKeyed(commands: seq<Command>)
    ensures Keyed(DoAll(commands).live)
  {
    if commands != [] {
      var before, c := commands[..|commands| - 1], commands[|commands| - 1];
      AllKeyed(before);
      match StartOf(c)
      case Some(slot) => StartedKeyed(DoAll(before), slot);
      case None => StoppedAllKeyed(DoAll(before), StopsOf(c));
    }
  }

  /** No slot was started and not started anew or stopped since. */
  ghost predicate NothingLeftRunning(commands: seq<Command>) {
    forall slot, i :: !LastStart(commands, slot, i)
  }

  /** No token is live exactly when every operation that was started has been replaced or stopped since. */
  lemma NoneLiveIff(commands: seq<Command>)
    ensures DoAll(commands).live == map[] <==> NothingLeftRunning(commands)
  {
    if DoAll(commands).live == map[] {
      forall slot, i ensures !LastStart(commands, slot, i) {
        if LastStart(commands, slot, i) { StartedIsLive(commands, slot, i); }
      }
    } else {
      AllKeyed(commands);
      var k :| k in DoAll(commands).live;
      var slot :| Key(slot) == k;
      var i := LiveWasStarted(commands, slot);
      assert LastStart(commands, slot, i);
    }
  }

  /** Creating a cluster and shutting down leaves the operation's token uncancelled, whatever the name. */
  lemma CreateOutlivesShutdown(name: string)
    ensures !NothingLeftRunning(Handled([CreateCluster(name), Shutdown]))
    ensures LiveToken(DoAll(Handled([CreateCluster(name), Shutdown])), Create(name), 0)
  {
    var commands := [CreateCluster(name), Shutdown];
    assert commands[1..][0] == Shutdown;
    assert Handled(commands) == [CreateCluster(name)];
    assert LastStart(Handled(commands), Create(name), 0);
    StartedIsLive(Handled(commands), Create(name), 0);
    assert Handled(commands)[..0] == [];
  }

  // ---- the worker itself ----

  class Token {
    var cancelled: bool

    constructor ()
      ensures !cancelled
    {
      cancelled := false;
    }

    method Cancel()
      modifies this
      ensures cancelled
    {
      cancelled := true;
    }
  }

  class Worker {
    var cancels: map<string, Token>
    ghost var minted: seq<Token>           // every token made, in order
    ghost var slots: Slots                 // the slots on values

    /** Of all tokens ever made, exactly those in the map are not cancelled. */
    ghost predicate Valid()
      reads this, minted
    {
      && |minted| == slots.minted
      && (forall i, j :: 0 <= i < j < |minted| ==> minted[i] != minted[j])
      && cancels.Keys == slots.live.Keys
      && (forall k :: k in cancels ==> slots.live[k] < |minted| && cancels[k] == minted[slots.live[k]])
      && (forall i :: 0 <= i < |minted| ==> (minted[i].cancelled <==> i !in slots.live.Values))
      && OneKeyPerToken(slots.live)
    }

    constructor ()
      ensures Valid() && slots == NONE && minted == []
    {
      cancels, minted, slots := map[], [], NONE;
    }

    /** Every token made so far is still one of the made tokens; new ones are fresh. */
    twostate predicate Grown()
      reads this
    {
      && |old(minted)| <= |minted|
      && (forall i :: 0 <= i < |old(minted)| ==> minted[i] == old(minted)[i])
      && (forall i :: |old(minted)| <= i < |minted| ==> fresh(minted[i]))
    }

    /** Replaces and cancels the slot's token and makes a new one. */
    method OpToken(slot: Slot) returns (token: Token)
      requires Valid()
      modifies this, minted
      ensures Valid() && minted == old(minted) + [token] && fresh(token) && slots == Started(old(slots), slot)
      ensures !token.cancelled && Key(slot) in cancels && cancels[Key(slot)] == token
    {
      ghost var before := slots;
      Stop(slot);
      token := Mint(slot);
      StopThenStart(before, slot);
    }

    /** Makes a token for a slot that has none. */
    method Mint(slot: Slot) returns (token: Token)
      requires Valid() && Key(slot) !in cancels
      modifies this
      ensures Valid() && minted == old(minted) + [token] && fresh(token) && slots == Started(old(slots), slot)
      ensures !token.cancelled && Key(slot) in cancels && cancels[Key(slot)] == token
    {
      token := new Token();
      cancels := cancels[Key(slot) := token];
      minted := minted + [token];
      StartedValues(slots, slot);
      slots := Started(slots, slot);
    }

    /** Takes the slot's token out and cancels it. */
    method Stop(slot: Slot)
      requires Valid()
      modifies this, minted
      ensures Valid() && minted == old(minted) && slots == Stopped(old(slots), slot)
    {
      var key := Key(slot);
      if key in cancels { CancelAt(key, slots.live[key]); }
      WithoutKey(cancels, key);
      WithoutKey(slots.live, key);
      StoppedKeepsTokensApart(slots, slot);
      cancels := cancels - {key};
      forall i | 0 <= i < |minted| ensures minted[i].cancelled <==> i !in Stopped(slots, slot).live.Values {
        StoppedValueAt(slots, slot, i);
      }
      slots := Stopped(slots, slot);
    }

    /** Cancels the token under a key, which is number `t`. */
    method CancelAt(key: string, ghost t: nat)
      requires Valid() && key in cancels && slots.live[key] == t
      modifies minted
      ensures minted[t].cancelled && forall i :: 0 <= i < |minted| && i != t ==> minted[i].cancelled == old(minted[i].cancelled)
    {
      cancels[key].Cancel();
    }

    method StopAll(stops: seq<Slot>)
      requires Valid()
      modifies this, minted
      ensures Valid() && minted == old(minted) && slots == StoppedAll(old(slots), stops)
    {
      ghost var start := slots;
      for i := 0 to |stops|
        invariant Valid() && minted == old(minted)
        invariant StoppedAll(slots, stops[i..]) == StoppedAll(start, stops)
      {
        assert stops[i..][0] == stops[i] && stops[i..][1..] == stops[i + 1..];
        Stop(stops[i]);
      }
    }

    /** One command; starting an operation also hands its new token to the spawned work. */
    method Handle(c: Command)
      requires Valid()
      modifies this, minted
      ensures Valid() && Grown() && slots == Do(old(slots), c)
    {
      var start := StartOf(c);
      if start.Some? {
        var token := OpToken(start.value);
      } else {
        StopAll(StopsOf(c));
      }
    }

    /**
     * The loop, up to a shutdown or the end of the commands. The map is then dropped, which cancels nothing: all
     * tokens are cancelled only if every operation had been replaced or stopped before.
     */
    method RunLoop(commands: seq<Command>)
      requires Valid() && slots == NONE
      modifies this, minted
      ensures Valid() && slots == DoAll(Handled(commands))
      ensures (forall i :: 0 <= i < |minted| ==> minted[i].cancelled) <==> NothingLeftRunning(Handled(commands))
    {
      HandleAll(commands);
      NoneLiveIff(Handled(commands));
      if slots.live != map[] {
        ghost var k :| k in slots.live;
        assert !minted[slots.live[k]].cancelled;
      }
    }

    method HandleAll(commands: seq<Command>)
      requires Valid() && slots == NONE
      modifies this, minted
      ensures Valid() && slots == DoAll(Handled(commands))
    {
      ghost var done: seq<Command> := [];
      HandledStart(commands);
      for i := 0 to |commands|
        invariant Valid() && slots == DoAll(done) && HandledSoFar(commands, i, done)
        invariant forall k :: 0 <= k < |minted| ==> fresh(minted[k])
      {
        HandledStep(commands, i, done);
        if commands[i].Shutdown? { return; }
        Handle(commands[i]);
        done := done + [commands[i]];
      }
      HandledEnd(commands, done);
    }
  }

  /** The first `i` commands, none of which is a shutdown, are `done`. */
  ghost predicate HandledSoFar(commands: seq<Command>, i: nat, done: seq<Command>)
    requires i <= |commands|
  {
    done + Handled(commands[i..]) == Handled(commands)
  }

  lemma HandledStart(commands: seq<Command>)
    ensures HandledSoFar(commands, 0, [])
  {
    assert commands[0..] == commands;
    assert [] + Handled(commands) == Handled(commands);
  }

  lemma HandledStep(commands: seq<Command>, i: nat, done: seq<Command>)
    requires i < |commands| && HandledSoFar(commands, i, done)
    ensures commands[i].Shutdown? ==> Handled(commands) == done
    ensures !commands[i].Shutdown? ==> HandledSoFar(commands, i + 1, done + [commands[i]])
    ensures !commands[i].Shutdown? ==> DoAll(done + [commands[i]]) == Do(DoAll(done), commands[i])
  {
    assert commands[i..][0] == commands[i] && commands[i..][1..] == commands[i + 1..];
    assert (done + [commands[i]])[..|done|] == done;
    ConcatAssociates(done, [commands[i]], Handled(commands[i + 1..]));
  }

  lemma HandledEnd(commands: seq<Command>, done: seq<Command>)
    requires HandledSoFar(commands, |commands|, done)
    ensures Handled(commands) == done
  {
    assert done + [] == done;
  }

  /** Starting a slot anew is stopping it and then starting it. */
  lemma StopThenStart(s: Slots, slot: Slot)
    ensures Started(Stopped(s, slot), slot) == Started(s, slot)
  {
  }

  /** No two keys hold the same token. */
  ghost predicate OneKeyPerToken(live: map<string, nat>) {
    forall k, l :: k in live && l in live && live[k] == live[l] ==> k == l
  }

  lemma StartedValues(s: Slots, slot: Slot)
    requires OneKeyPerToken(s.live) && forall k :: k in s.live ==> s.live[k] < s.minted
    ensures var s' := Started(s, slot);
      && OneKeyPerToken(s'.live)
      && forall t: nat :: t in s'.live.Values <==>
           t == s.minted || (t in s.live.Values && !(Key(slot) in s.live && s.live[Key(slot)] == t))
  {
    var s' := Started(s, slot);
    forall t: nat | t != s.minted && t in s.live.Values && !(Key(slot) in s.live && s.live[Key(slot)] == t)
      ensures t in s'.live.Values
    {
      var k :| k in s.live && s.live[k] == t;
      assert k in s'.live && s'.live[k] == t;
    }
    assert Key(slot) in s'.live && s'.live[Key(slot)] == s.minted;
  }

  lemma WithoutKey<V>(m: map<string, V>, key: string)
    ensures (m - {key}).Keys == m.Keys - {key}
  {
  }

  lemma StoppedKeepsTokensApart(s: Slots, slot: Slot)
    requires OneKeyPerToken(s.live)
    ensures OneKeyPerToken(Stopped(s, slot).live)
  {
  }

  /** Stopping a slot takes its token, and no other, out of the live ones. */
  lemma StoppedValueAt(s: Slots, slot: Slot, t: nat)
    requires OneKeyPerToken(s.live)
    ensures var s' := Stopped(s, slot);
      t in s'.live.Values <==> t in s.live.Values && !(Key(slot) in s.live && s.live[Key(slot)] == t)
  {
    var s' := Stopped(s, slot);
    if t in s.live.Values && !(Key(slot) in s.live && s.live[Key(slot)] == t) {
      var k :| k in s.live && s.live[k] == t;
      assert k in s'.live && s'.live[k] == t;
    }
  }
}
