/**
 * The process supervisor: one pass over the server connections counts
 * those that are alive and respawns the dead ones it may respawn. A server
 * never started is always started; a started one is restarted only when
 * the supervisor keeps processes alive. A server whose received data
 * starts with `QUIT` counts as dead.
 */
module Processes {
  import opened Text

  /** A server the supervisor watches: whether its connection is alive,
      whether it has been started (the `started` attribute, which is only
      ever set to true), and how often `connect` was called on it. */
  class Server {
    var alive: bool
    var started: bool
    var connects: nat

    constructor (alive: bool)
      ensures this.alive == alive && !started && connects == 0
    {
      this.alive := alive;
      started := false;
      connects := 0;
    }

    /** One iteration of `check_processes` on this server: whether it is
        counted, with `connect` called when it is respawned. */
    method Check(data: string, keepAlive: bool) returns (counted: bool)
      modifies this
      ensures var v := Decide(old(alive), data, old(started), keepAlive);
        counted == v.counted && alive == old(alive) &&
        started == (old(started) || v.connect) && connects == old(connects) + (if v.connect then 1 else 0)
    {
      var stillAlive := alive;
      counted := false;
      if stillAlive {
        if StartsWith(data, "QUIT") {
          stillAlive := false;
        } else {
          counted := true;
        }
      }
      if !stillAlive {
        if (started && keepAlive) || !started {
          connects := connects + 1;
          started := true;
          counted := true;
        }
      }
    }
  }

  /** What one pass decides for one server. */
  datatype Verdict = Verdict(counted: bool, connect: bool)

  /** The rule of one iteration: `data` is what `recv` returned, read only
      for a server that is alive. */
  function Decide(alive: bool, data: string, started: bool, keepAlive: bool): (v: Verdict)
    ensures v.connect ==> v.counted
    ensures alive && !StartsWith(data, "QUIT") ==> v == Verdict(true, false)
    ensures (!alive || StartsWith(data, "QUIT")) && !started ==> v == Verdict(true, true)
    ensures (!alive || StartsWith(data, "QUIT")) && started ==> v == Verdict(keepAlive, keepAlive)
  {
    var stillAlive := alive && !StartsWith(data, "QUIT");
    if stillAlive then Verdict(true, false)
    else if (started && keepAlive) || !started then Verdict(true, true)
    else Verdict(false, false)
  }

  /** What the supervisor saw of one server at the start of a pass. */
  datatype Observed = Observed(alive: bool, started: bool)

  /** The number a pass returns. */
  function CountAlive(seen: seq<Observed>, data: seq<string>, keepAlive: bool): (n: nat)
    requires |data| == |seen|
    ensures n <= |seen|
  {
    if seen == [] then 0
    else
      var v := Decide(seen[0].alive, data[0], seen[0].started, keepAlive);
      (if v.counted then 1 else 0) + CountAlive(seen[1..], data[1..], keepAlive)
  }

  /** With every server alive and nothing quitting, all are counted. */
  lemma {:induction false} AllAliveCounted(seen: seq<Observed>, data: seq<string>, keepAlive: bool)
    requires |data| == |seen|
    requires forall i :: 0 <= i < |seen| ==> seen[i].alive && !StartsWith(data[i], "QUIT")
    ensures CountAlive(seen, data, keepAlive) == |seen|
    decreases |seen|
  {
    if seen != [] {
      AllAliveCounted(seen[1..], data[1..], keepAlive);
    }
  }

  /** Without keep-alive, dead servers that were started are not counted:
      the count is at most the number of the others. */
  lemma {:induction false} DeadStartedNotCounted(seen: seq<Observed>, data: seq<string>, i: nat)
    requires |data| == |seen| && i < |seen|
    requires !seen[i].alive && seen[i].started
    ensures CountAlive(seen, data, false) <= |seen| - 1
    decreases |seen|
  {
    if i > 0 {
      DeadStartedNotCounted(seen[1..], data[1..], i - 1);
    }
  }

  /** A server the pass has not reached yet. */
  ghost predicate Untouched(s: Server, o: Observed, connects: nat)
    reads s
  {
    s.alive == o.alive && s.started == o.started && s.connects == connects
  }

  /** A server after its iteration of the pass. */
  ghost predicate Visited(s: Server, o: Observed, connects: nat, data: string, keepAlive: bool)
    reads s
  {
    var v := Decide(o.alive, data, o.started, keepAlive);
    s.alive == o.alive && s.started == (o.started || v.connect) && s.connects == connects + (if v.connect then 1 else 0)
  }

  class ProcessManager {
    const servers: seq<Server>
    const keepAlive: bool

    constructor (servers: seq<Server>, keepAlive: bool)
      ensures this.servers == servers && this.keepAlive == keepAlive
    {
      this.servers := servers;
      this.keepAlive := keepAlive;
    }

    /** The servers' state as the pass finds it. */
    function Seen(): (r: seq<Observed>)
      reads servers
      ensures |r| == |servers|
    {
      seq(|servers|, i reads servers requires 0 <= i < |servers| => Observed(servers[i].alive, servers[i].started))
    }

    /** `check_processes()`, `data[i]` being what `recv` returns for the
        `i`-th server. Each server is a distinct object. */
    method CheckProcesses(data: seq<string>) returns (numAlive: nat)
      requires |data| == |servers|
      requires forall i, j :: 0 <= i < j < |servers| ==> servers[i] != servers[j]
      modifies set s | s in servers
      ensures numAlive == CountAlive(old(Seen()), data, keepAlive)
      ensures numAlive <= |servers|
      ensures forall i :: 0 <= i < |servers| ==>
        var v := Decide(old(servers[i].alive), data[i], old(servers[i].started), keepAlive);
        servers[i].alive == old(servers[i].alive) &&
        servers[i].started == (old(servers[i].started) || v.connect) &&
        servers[i].connects == old(servers[i].connects) + (if v.connect then 1 else 0)
    {
      ghost var seen := Seen();
      ghost var connects := seq(|servers|, j reads servers requires 0 <= j < |servers| => servers[j].connects);
      numAlive := 0;
      var i := 0;
      while i < |servers|
        invariant 0 <= i <= |servers|
        invariant numAlive + CountAlive(seen[i..], data[i..], keepAlive) == CountAlive(seen, data, keepAlive)
        invariant forall j :: i <= j < |servers| ==> Untouched(servers[j], seen[j], connects[j])
        invariant forall j :: 0 <= j < i ==> Visited(servers[j], seen[j], connects[j], data[j], keepAlive)
      {
        assert seen[i..][1..] == seen[i + 1..] && data[i..][1..] == data[i + 1..];
        var counted := Step(i, data, seen, connects);
        if counted {
          numAlive := numAlive + 1;
        }
        i := i + 1;
      }
      assert seen[i..] == [];
    }

    /** The iteration of the pass for the `i`-th server. */
    method Step(i: nat, data: seq<string>, ghost seen: seq<Observed>, ghost connects: seq<nat>) returns (counted: bool)
      requires i < |servers| == |data| == |seen| == |connects|
      requires forall i, j :: 0 <= i < j < |servers| ==> servers[i] != servers[j]
      requires forall j :: i <= j < |servers| ==> Untouched(servers[j], seen[j], connects[j])
      requires forall j :: 0 <= j < i ==> Visited(servers[j], seen[j], connects[j], data[j], keepAlive)
      modifies servers[i]
      ensures counted == Decide(seen[i].alive, data[i], seen[i].started, keepAlive).counted
      ensures forall j :: i < j < |servers| ==> Untouched(servers[j], seen[j], connects[j])
      ensures forall j :: 0 <= j <= i ==> Visited(servers[j], seen[j], connects[j], data[j], keepAlive)
    {
      counted := servers[i].Check(data[i], keepAlive);
    }
  }
}
