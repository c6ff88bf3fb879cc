/**
 * runPipe: two child processes joined by a pipe, observed independently. The supervisor's steps
 * and the children's exits interleave freely; a failure kills the peer, a clean exit does not.
 */
module RunPipe {
  import opened Base

  datatype Side = Source | Destination

  function Peer(side: Side): Side { if side == Source then Destination else Source }

  /** A child: not started, running and perhaps sent SIGKILL, or exited and perhaps waited for. */
  datatype Child = Absent | Running(signalled: bool) | Exited(status: int, waited: bool)

  datatype Exit = Exit(side: Side, status: int)

  /** How far the supervisor is; `Reaping` follows a destination that failed to start. */
  datatype Phase = Begin | SourceUp | Waiting | Reaping | Returned

  datatype State = State(
    phase: Phase,
    src: Child,
    dst: Child,
    channel: seq<Exit>,      // results of Wait not yet received
    received: seq<Exit>,     // results received, in order
    errors: seq<Exit>,       // waitErrors
    startFailed: bool)       // the pipe or a child could not be started

  datatype Step =
    | OpenPipe(ok: bool)
    | StartSource(ok: bool)
    | StartDestination(ok: bool)
    | ChildExits(side: Side, status: int)
    | WaitReturns(side: Side)
    | Receive
    | Reap

  const INITIAL := State(Begin, Absent, Absent, [], [], [], false)

  function ChildOf(s: State, side: Side): Child { if side == Source then s.src else s.dst }

  function WithChild(s: State, side: Side, c: Child): (r: State)
    ensures ChildOf(r, side) == c && ChildOf(r, Peer(side)) == ChildOf(s, Peer(side))
    ensures r.(src := s.src, dst := s.dst) == s
  {
    if side == Source then s.(src := c) else s.(dst := c)
  }

  /** Process.Kill: nothing happens to a child that has already exited. */
  function Kill(c: Child): Child { if c.Running? then Running(true) else c }

  predicate Enabled(s: State, step: Step) {
    match step
    case OpenPipe(ok) => s.phase == Begin && !ok
    case StartSource(_) => s.phase == Begin
    case StartDestination(_) => s.phase == SourceUp
    case ChildExits(side, status) => ChildOf(s, side).Running? && (ChildOf(s, side).signalled ==> status != 0)
    case WaitReturns(side) => s.phase == Waiting && ChildOf(s, side).Exited? && !ChildOf(s, side).waited
    case Receive => s.phase == Waiting && s.channel != []
    case Reap => s.phase == Reaping && s.src.Exited?
  }

  function Apply(s: State, step: Step): State {
    if !Enabled(s, step) then s
    else
      match step
      case OpenPipe(_) => s.(phase := Returned, startFailed := true)
      case StartSource(ok) =>
        if ok then s.(phase := SourceUp, src := Running(false)) else s.(phase := Returned, startFailed := true)
      case StartDestination(ok) =>
        if ok then s.(phase := Waiting, dst := Running(false))
        else s.(phase := Reaping, src := Kill(s.src), startFailed := true)
      case ChildExits(side, status) => WithChild(s, side, Exited(status, false))
      case WaitReturns(side) =>
        var c := ChildOf(s, side);
        WithChild(s, side, c.(waited := true)).(channel := s.channel + [Exit(side, c.status)])
      case Receive =>
        var exit := s.channel[0];
        var s1 := s.(channel := s.channel[1..], received := s.received + [exit],
                     phase := if |s.received| + 1 == 2 then Returned else Waiting);
        if exit.status == 0 then s1
        else WithChild(s1, Peer(exit.side), Kill(ChildOf(s1, Peer(exit.side)))).(errors := s.errors + [exit])
      case Reap => s.(phase := Returned, src := s.src.(waited := true))
  }

  function Run(steps: seq<Step>): State {
    if steps == [] then INITIAL else Apply(Run(steps[..|steps| - 1]), steps[|steps| - 1])
  }

  /** The failing exits, in order. */
  function Failures(exits: seq<Exit>): seq<Exit> {
    if exits == [] then []
    else Failures(exits[..|exits| - 1]) + (if exits[|exits| - 1].status != 0 then [exits[|exits| - 1]] else [])
  }

  /** The supervisor's loop over what it receives: errors in observation order, peers to kill. */
  method CollectExits(exits: seq<Exit>) returns (errors: seq<Exit>, killed: set<Side>)
    requires |exits| == 2
    ensures errors == Failures(exits)
    ensures forall side :: side in killed <==>
              exists i :: 0 <= i < 2 && exits[i].status != 0 && Peer(exits[i].side) == side
  {
    errors, killed := [], {};
    for i := 0 to 2
      invariant errors == Failures(exits[..i])
      invariant forall side :: side in killed <==>
                  exists j :: 0 <= j < i && exits[j].status != 0 && Peer(exits[j].side) == side
    {
      assert exits[..i + 1][..i] == exits[..i];
      var exit := exits[i];
      if exit.status != 0 {
        killed := killed + {Peer(exit.side)};
        errors := errors + [exit];
      }
    }
    assert exits[..2] == exits;
  }

  // ---- what every step keeps ---------------------------------------------------------------------

  function Posted(s: State): seq<Exit> { s.received + s.channel }

  ghost predicate Phases(s: State) {
    match s.phase
    case Begin => s == INITIAL
    case SourceUp =>
      s.src != Absent && s.src != Running(true) && (s.src.Exited? ==> !s.src.waited)
      && s.dst == Absent && !s.startFailed && Posted(s) == []
    case Waiting => s.src != Absent && s.dst != Absent && !s.startFailed && |s.received| < 2
    case Reaping => s.src != Absent && s.src != Running(false) && s.dst == Absent && s.startFailed && Posted(s) == []
    case Returned =>
      if s.startFailed then s.dst == Absent && (s.src == Absent || (s.src.Exited? && s.src.waited)) && Posted(s) == []
      else |s.received| == 2 && s.src.Exited? && s.dst.Exited?
  }

  /** Every result posted is the status of a waited-for child, and each child posts once. */
  ghost predicate Posts(s: State) {
    && (forall i :: 0 <= i < |Posted(s)| ==> ChildOf(s, Posted(s)[i].side) == Exited(Posted(s)[i].status, true))
    && (forall i, j :: 0 <= i < j < |Posted(s)| ==> Posted(s)[i].side != Posted(s)[j].side)
    && (!s.startFailed ==> forall side :: ChildOf(s, side).Exited? && ChildOf(s, side).waited ==>
          exists i :: 0 <= i < |Posted(s)| && Posted(s)[i].side == side)
    && s.errors == Failures(s.received)
  }

  ghost predicate FailureOf(s: State, side: Side) {
    exists i :: 0 <= i < |s.received| && s.received[i].side == side && s.received[i].status != 0
  }

  /** A kill has a cause, and a cause has its kill. */
  ghost predicate Kills(s: State) {
    && (forall side :: ChildOf(s, side) == Running(true) ==>
          FailureOf(s, Peer(side)) || (s.startFailed && side == Source))
    && (forall side :: FailureOf(s, side) ==> ChildOf(s, Peer(side)) != Running(false))
  }

  ghost predicate Inv(s: State) { Phases(s) && Posts(s) && Kills(s) }

  lemma ExitKeepsPosts(s: State, side: Side, status: int)
    requires Posts(s) && Enabled(s, ChildExits(side, status))
    ensures Posts(Apply(s, ChildExits(side, status)))
  {
    var s' := Apply(s, ChildExits(side, status));
    assert Posted(s') == Posted(s);
    forall x | ChildOf(s', x).Exited? && ChildOf(s', x).waited ensures x != side && ChildOf(s, x) == ChildOf(s', x) {
    }
    forall i | 0 <= i < |Posted(s)| ensures ChildOf(s', Posted(s)[i].side) == ChildOf(s, Posted(s)[i].side) {
      assert ChildOf(s, Posted(s)[i].side).Exited?;
    }
  }

  lemma ExitKeepsKills(s: State, side: Side, status: int)
    requires Kills(s) && Enabled(s, ChildExits(side, status))
    ensures Kills(Apply(s, ChildExits(side, status)))
  {
    forall x ensures FailureOf(Apply(s, ChildExits(side, status)), x) <==> FailureOf(s, x) {
    }
  }

  lemma ExitKeeps(s: State, side: Side, status: int)
    requires Inv(s) && Enabled(s, ChildExits(side, status))
    ensures Inv(Apply(s, ChildExits(side, status)))
  {
    ExitKeepsPosts(s, side, status);
    ExitKeepsKills(s, side, status);
    assert Posted(Apply(s, ChildExits(side, status))) == Posted(s);
  }

  lemma WaitKeeps(s: State, side: Side)
    requires Inv(s) && Enabled(s, WaitReturns(side))
    ensures Inv(Apply(s, WaitReturns(side)))
  {
    var s', c := Apply(s, WaitReturns(side)), ChildOf(s, side);
    assert Posted(s') == Posted(s) + [Exit(side, c.status)];
    forall x ensures FailureOf(s', x) <==> FailureOf(s, x) {
    }
    forall x | ChildOf(s', x).Exited? && ChildOf(s', x).waited
      ensures exists i :: 0 <= i < |Posted(s')| && Posted(s')[i].side == x
    {
      if x == side { assert Posted(s')[|Posted(s)|].side == x; }
      else {
        var i :| 0 <= i < |Posted(s)| && Posted(s)[i].side == x;
        assert Posted(s')[i].side == x;
      }
    }
  }

  lemma BothPosted(s: State)
    requires Inv(s) && |Posted(s)| >= 2
    ensures s.src.Exited? && s.dst.Exited? && |Posted(s)| == 2
  {
    var sides := seq(|Posted(s)|, i requires 0 <= i < |Posted(s)| => Posted(s)[i].side);
    DistinctBound(sides, {Source, Destination});
    assert Posted(s)[0].side != Posted(s)[1].side;
  }

  /** What receiving does to the children: the peer of a failure is killed, nobody else touched. */
  lemma ReceiveEffect(s: State)
    requires Enabled(s, Receive)
    ensures var s', exit := Apply(s, Receive), s.channel[0];
            && Posted(s') == Posted(s)
            && s'.received == s.received + [exit]
            && s'.startFailed == s.startFailed
            && s'.errors == (if exit.status != 0 then s.errors + [exit] else s.errors)
            && (forall side :: ChildOf(s', side)
                  == if side == Peer(exit.side) && exit.status != 0 then Kill(ChildOf(s, side)) else ChildOf(s, side))
  {
    var s', exit := Apply(s, Receive), s.channel[0];
    assert Posted(s') == Posted(s);
    assert ChildOf(s', Source) == s'.src && ChildOf(s', Destination) == s'.dst;
  }

  lemma ReceiveFailures(s: State, x: Side)
    requires Enabled(s, Receive)
    ensures var exit := s.channel[0];
            FailureOf(Apply(s, Receive), x) <==> FailureOf(s, x) || (exit.side == x && exit.status != 0)
  {
    ReceiveEffect(s);
    var s', exit := Apply(s, Receive), s.channel[0];
    if FailureOf(s, x) {
      var i :| 0 <= i < |s.received| && s.received[i].side == x && s.received[i].status != 0;
      assert s'.received[i] == s.received[i];
    }
    if exit.side == x && exit.status != 0 { assert s'.received[|s.received|] == exit; }
  }

  lemma ReceiveKeepsPosts(s: State)
    requires Inv(s) && Enabled(s, Receive)
    ensures Posts(Apply(s, Receive))
  {
    ReceiveEffect(s);
    var s' := Apply(s, Receive);
    assert s'.received[..|s.received|] == s.received;
    forall side | ChildOf(s', side).Exited? || ChildOf(s, side).Exited? ensures ChildOf(s, side) == ChildOf(s', side) {
    }
  }

  lemma ReceiveKeepsKills(s: State, side: Side)
    requires Kills(s) && Enabled(s, Receive)
    ensures var s' := Apply(s, Receive);
            && (ChildOf(s', side) == Running(true) ==> FailureOf(s', Peer(side)) || (s'.startFailed && side == Source))
            && (FailureOf(s', side) ==> ChildOf(s', Peer(side)) != Running(false))
  {
    ReceiveEffect(s);
    ReceiveFailures(s, side);
    ReceiveFailures(s, Peer(side));
  }

  lemma ReceiveKeepsPhases(s: State)
    requires Inv(s) && Enabled(s, Receive)
    ensures Phases(Apply(s, Receive))
  {
    var s' := Apply(s, Receive);
    ReceiveEffect(s);
    if |Posted(s)| >= 2 { BothPosted(s); }
    assert ChildOf(s', Source) == s'.src && ChildOf(s', Destination) == s'.dst;
    assert ChildOf(s, Source) == s.src && ChildOf(s, Destination) == s.dst;
  }

  lemma ReceiveKeeps(s: State)
    requires Inv(s) && Enabled(s, Receive)
    ensures Inv(Apply(s, Receive))
  {
    ReceiveKeepsPosts(s);
    ReceiveKeepsPhases(s);
    ReceiveKeepsKills(s, Source);
    ReceiveKeepsKills(s, Destination);
  }

  lemma StepKeeps(s: State, step: Step)
    requires Inv(s)
    ensures Inv(Apply(s, step))
  {
    if Enabled(s, step) {
      match step
      case ChildExits(side, status) => ExitKeeps(s, side, status);
      case WaitReturns(side) => WaitKeeps(s, side);
      case Receive => ReceiveKeeps(s);
      case Reap =>
        forall x ensures !FailureOf(Apply(s, step), x) { }
      case _ =>
        forall x ensures !FailureOf(Apply(s, step), x) { }
    }
  }

  lemma {:induction false} PipeRun(steps: seq<Step>)
    ensures Inv(Run(steps))
  {
    if steps != [] {
      PipeRun(steps[..|steps| - 1]);
      StepKeeps(Run(steps[..|steps| - 1]), steps[|steps| - 1]);
    }
  }

  // ---- the theorems ---------------------------------------------------------------------------------

  /** The error runPipe returns is nil: nothing failed to start and no wait failed. */
  predicate Nil(s: State) { !s.startFailed && s.errors == [] }

  lemma {:induction false} NoFailures(exits: seq<Exit>)
    ensures Failures(exits) == [] <==> forall i :: 0 <= i < |exits| ==> exits[i].status == 0
  {
    if exits != [] {
      var init := exits[..|exits| - 1];
      NoFailures(init);
      if Failures(exits) == [] {
        forall i | 0 <= i < |exits| ensures exits[i].status == 0 {
          if i < |init| { assert init[i].status == 0; }
        }
      }
    }
  }

  /** Both exits received: they are the children's, and the errors are those with a status. */
  lemma BothReceived(s: State)
    requires Inv(s) && s.phase == Returned && !s.startFailed
    ensures (s.errors == [] <==> s.src == Exited(0, true) && s.dst == Exited(0, true))
    ensures s.src.Exited? && s.src.waited && s.dst.Exited? && s.dst.waited
  {
    NoFailures(s.received);
    BothPosted(s);
    var a, b := Posted(s)[0], Posted(s)[1];
    assert a == s.received[0] && b == s.received[1] && a.side != b.side;
    assert ChildOf(s, a.side) == Exited(a.status, true) && ChildOf(s, b.side) == Exited(b.status, true);
  }

  /**
   * In every order of exits, when runPipe returns: the error is nil exactly when both children
   * started and exited with status zero; every child that was started has been waited for; and
   * the errors are the failing exits in the order they were observed.
   */
  lemma ReturnIsFaithful(steps: seq<Step>)
    requires Run(steps).phase == Returned
    ensures var s := Run(steps);
            && (Nil(s) <==> s.src == Exited(0, true) && s.dst == Exited(0, true))
            && (forall side :: ChildOf(s, side) != Absent ==> ChildOf(s, side).Exited? && ChildOf(s, side).waited)
            && (Nil(s) ==> s.src != Absent && s.dst != Absent)
            && s.errors == Failures(s.received)
  {
    PipeRun(steps);
    if !Run(steps).startFailed { BothReceived(Run(steps)); }
  }

  /**
   * A clean exit never kills: in every run, the destination has been sent a kill only if the
   * source's failure was received, and the source only if the destination failed or did not start.
   */
  lemma CleanExitNeverKills(steps: seq<Step>)
    ensures var s := Run(steps);
            && (s.dst == Running(true) ==> FailureOf(s, Source) && s.src.Exited? && s.src.status != 0)
            && (s.src == Running(true) ==>
                s.startFailed || (FailureOf(s, Destination) && s.dst.Exited? && s.dst.status != 0))
  {
    PipeRun(steps);
    var s := Run(steps);
    assert ChildOf(s, Source) == s.src && ChildOf(s, Destination) == s.dst;
    forall side | FailureOf(s, side) ensures ChildOf(s, side).Exited? && ChildOf(s, side).status != 0 {
      var i :| 0 <= i < |s.received| && s.received[i].side == side && s.received[i].status != 0;
      assert Posted(s)[i] == s.received[i];
    }
  }

  /** What is left to do once no child is left to run freely. */
  function Remaining(s: State): nat {
    if s.phase == Returned then 0 else 1 + Left(s.src) + Left(s.dst) + |s.channel|
  }

  function Left(c: Child): nat {
    match c
    case Absent => 0
    case Running(_) => 3
    case Exited(_, waited) => if waited then 0 else 2
  }

  lemma FailureOfOne(s: State)
    requires Inv(s) && s.errors != []
    ensures exists side :: FailureOf(s, side) && ChildOf(s, side).Exited?
  {
    NoFailures(s.received);
    var i :| 0 <= i < |s.received| && s.received[i].status != 0;
    assert Posted(s)[i] == s.received[i];
    assert FailureOf(s, s.received[i].side) && ChildOf(s, s.received[i].side).Exited?;
  }

  /** No child runs unsignalled. */
  lemma NoneFree(s: State)
    requires Inv(s) && s.phase != Returned && (s.errors != [] || s.phase == Reaping)
    ensures (s.phase == Waiting || s.phase == Reaping) && s.src != Running(false) && s.dst != Running(false)
  {
    if s.phase != Reaping {
      FailureOfOne(s);
      var side :| FailureOf(s, side) && ChildOf(s, side).Exited?;
      assert ChildOf(s, Peer(side)) != Running(false);
      assert ChildOf(s, Source) == s.src && ChildOf(s, Destination) == s.dst;
    }
  }

  lemma StepNearer(s: State, step: Step)
    requires (s.phase == Waiting || s.phase == Reaping) && Enabled(s, step)
    ensures Remaining(Apply(s, step)) < Remaining(s)
  {
    match step
    case ChildExits(side, _) => assert Apply(s, step).channel == s.channel;
    case WaitReturns(side) => assert |Apply(s, step).channel| == |s.channel| + 1;
    case Receive =>
      ReceiveEffect(s);
      KillLeft(s.src);
      KillLeft(s.dst);
      assert |Apply(s, step).channel| == |s.channel| - 1;
    case _ =>
  }

  lemma KillLeft(c: Child)
    ensures Left(Kill(c)) == Left(c)
  {
  }

  /**
   * One failure forces the end: once a failure has been received, or the destination failed to
   * start, no child is left running unsignalled; until the return some step other than an
   * unforced exit is possible, and every step brings the return nearer.
   */
  lemma FailureForcesReturn(steps: seq<Step>)
    requires var s := Run(steps); s.phase != Returned && (s.errors != [] || s.phase == Reaping)
    ensures var s := Run(steps);
            && s.src != Running(false) && s.dst != Running(false)
            && (exists step :: Enabled(s, step))
            && (forall step :: Enabled(s, step) ==> Remaining(Apply(s, step)) < Remaining(s))
  {
    PipeRun(steps);
    var s := Run(steps);
    NoneFree(s);
    if s.phase == Waiting { NextStep(s); }
    else if s.src.Running? { assert Enabled(s, ChildExits(Source, 1)); }
    else { assert Enabled(s, Reap); }
    forall step | Enabled(s, step) ensures Remaining(Apply(s, step)) < Remaining(s) { StepNearer(s, step); }
  }

  /** Both children waited for means both exits posted. */
  lemma TwoPosted(s: State)
    requires Inv(s) && s.src.Exited? && s.src.waited && s.dst.Exited? && s.dst.waited
    requires s.phase == Waiting || s.phase == Returned
    ensures |Posted(s)| >= 2 || s.startFailed
  {
    assert ChildOf(s, Source) == s.src && ChildOf(s, Destination) == s.dst;
  }

  lemma NextStep(s: State)
    requires s.phase == Waiting && Inv(s)
    ensures exists step :: Enabled(s, step)
  {
    if s.channel != [] { assert Enabled(s, Receive); }
    else if s.src.Running? { assert Enabled(s, ChildExits(Source, 1)); }
    else if s.dst.Running? { assert Enabled(s, ChildExits(Destination, 1)); }
    else if !s.src.waited { assert Enabled(s, WaitReturns(Source)); }
    else if !s.dst.waited { assert Enabled(s, WaitReturns(Destination)); }
    else { TwoPosted(s); }
  }
}
