/** The startup of `main` (main.c:45-93): check the common speed, append the free
    parameters to the `-p` ports, refuse an empty port list and a per-port speed list of
    the wrong length, then hand the lists to `ttys_open`. */
module Startup {
  import opened CArrays
  import opened BaudTable
  import opened PortOpen

  /** `Gdefault.glob_spd` (cmdlnopts.c:43): the common speed when `-t` is not given. */
  const DefaultSpeed := 57600

  /** The parsed command line as values: the `-p` ports and the `-b` speeds (`None` when the
      C list is NULL), the free parameters, and the `-t` speed. */
  datatype CmdLine = CmdLine(ports: Option<seq<string>>, speeds: Option<seq<int>>,
                             restPars: seq<string>, globSpd: int)

  /** The configuration errors `ERRX` reports before anything is opened. */
  datatype Rejection = WrongGlobalSpeed(speed: int) | NoPorts | CountMismatch(ports: nat, speeds: nat)

  /** Startup either exits on a configuration error or runs `ttys_open`. */
  datatype StartupOutcome = Rejected(why: Rejection) | Ran(run: Outcome)

  /** The port list after the free parameters are appended (main.c:50-67). */
  function MergePorts(ports: Option<seq<string>>, rest: seq<string>): Option<seq<string>>
  {
    if rest == [] then ports
    else Some((if ports.Some? then ports.value else []) + rest)
  }

  /** The ports named by either route. */
  function PortCount(c: CmdLine): nat
  {
    (if c.ports.Some? then |c.ports.value| else 0) + |c.restPars|
  }

  /** `main` up to and including the call of `ttys_open`. */
  function Startup(c: CmdLine): StartupOutcome
  {
    if c.globSpd != DefaultSpeed && c.speeds.None? && Resolve(c.globSpd).WrongSpeed? then
      Rejected(WrongGlobalSpeed(c.globSpd))
    else match MergePorts(c.ports, c.restPars)
      case None => Rejected(NoPorts)
      case Some(ps) =>
        if c.speeds.Some? && |c.speeds.value| != |ps| then
          Rejected(CountMismatch(|ps|, |c.speeds.value|))
        else
          Ran(TtysOpenSpec(ps, c.speeds, c.globSpd))
  }

  /** `glob_pars` (cmdlnopts.h:32-40), the fields startup reads and writes. */
  class GlobPars {
    var ports: array?<Option<string>>
    var speeds: array?<Option<int>>
    var restParsNum: int
    var restPars: array?<string>
    var globSpd: int

    /** What `parse_args` hands over: NULL or NULL-terminated lists, and `rest_pars_num`
        free parameters in `rest_pars`. */
    ghost predicate Valid()
      reads this, ports, speeds, restPars
    {
      && (ports != null ==> NullTerminated(ports[..]))
      && (speeds != null ==> NullTerminated(speeds[..]))
      && 0 <= restParsNum
      && (restParsNum > 0 ==> restPars != null && restPars.Length == restParsNum)
    }

    /** The parameters as values. */
    ghost function View(): CmdLine
      reads this, ports, speeds, restPars
      requires Valid()
    {
      CmdLine(if ports == null then None else Some(Entries(ports[..])),
              if speeds == null then None else Some(Entries(speeds[..])),
              if restParsNum > 0 then restPars[..] else [],
              globSpd)
    }

    constructor (ports: array?<Option<string>>, speeds: array?<Option<int>>,
                 restPars: array?<string>, globSpd: int)
      requires ports != null ==> NullTerminated(ports[..])
      requires speeds != null ==> NullTerminated(speeds[..])
      ensures Valid()
      ensures this.ports == ports && this.speeds == speeds && this.restPars == restPars
      ensures restParsNum == if restPars == null then 0 else restPars.Length
      ensures this.globSpd == globSpd
    {
      this.ports := ports;
      this.speeds := speeds;
      this.restPars := restPars;
      this.restParsNum := if restPars == null then 0 else restPars.Length;
      this.globSpd := globSpd;
    }
  }

  /** A NULL-terminated list holding `front` and then `rest` has exactly those entries. */
  lemma MergedEntries(s: seq<Option<string>>, front: seq<string>, rest: seq<string>)
    requires |s| == |front| + |rest| + 1 && s[|s| - 1].None?
    requires forall k :: 0 <= k < |front| ==> s[k] == Some(front[k])
    requires forall k :: |front| <= k < |front| + |rest| ==> s[k] == Some(rest[k - |front|])
    ensures NullTerminated(s) && Entries(s) == front + rest
  {
    CountAt(s, |front| + |rest|);
  }

  /** The reallocated port list filled in place (main.c:58-66): the first `curno` slots
      keep the `-p` ports, the next `restParsNum` slots take the free parameters in order,
      and the last slot is the NULL terminator. */
  method FillPorts(ports: array?<Option<string>>, curno: nat, restPars: array<string>)
    returns (merged: array<Option<string>>)
    requires curno > 0 ==> ports != null && curno <= ports.Length
    ensures fresh(merged) && merged.Length == curno + restPars.Length + 1
    ensures forall k :: 0 <= k < curno ==> merged[k] == ports[k]
    ensures forall k :: curno <= k < curno + restPars.Length ==> merged[k] == Some(restPars[k - curno])
    ensures merged[curno + restPars.Length].None?
  {
    var gpamount := curno + restPars.Length;
    merged := new Option<string>[gpamount + 1](_ => None);
    var i := 0;
    while i < curno
      invariant i <= curno
      invariant forall k :: 0 <= k < i ==> merged[k] == ports[k]
    {
      merged[i] := ports[i];
      i := i + 1;
    }
    var ptr := 0;    // the free parameter the C pointer `ptr` points at
    while i < gpamount
      invariant curno <= i <= gpamount && ptr == i - curno
      invariant forall k :: 0 <= k < curno ==> merged[k] == ports[k]
      invariant forall k :: curno <= k < i ==> merged[k] == Some(restPars[k - curno])
    {
      merged[i] := Some(restPars[ptr]);
      ptr := ptr + 1;
      i := i + 1;
    }
    merged[gpamount] := None;
  }

  /** Appends the free parameters after the `-p` ports (main.c:50-67), in a fresh array of
      `gpamount + 1` pointer slots (see `ReallocSlotsAsWritten` for what the source
      allocates); nothing happens without free parameters. */
  method AppendFreeParams(g: GlobPars)
    requires g.Valid()
    modifies g`ports
    ensures g.Valid()
    ensures g.View() == old(g.View()).(ports := MergePorts(old(g.View()).ports, old(g.View()).restPars))
    ensures old(g.restParsNum) == 0 ==> g.ports == old(g.ports)
    ensures old(g.restParsNum) != 0 ==> fresh(g.ports)
  {
    ghost var c := g.View();
    if g.restParsNum != 0 {
      var gpamount := CountEntries(g.ports);
      var curno := gpamount;
      gpamount := gpamount + g.restParsNum;
      ghost var front := if c.ports.Some? then c.ports.value else [];
      assert curno == |front|;
      var merged := FillPorts(g.ports, curno, g.restPars);
      assert forall k :: 0 <= k < curno ==> merged[..][k] == Some(front[k]) by {
        if g.ports != null {
          assert forall k :: 0 <= k < curno ==> g.ports[k] == g.ports[..][k];
        }
      }
      MergedEntries(merged[..], front, c.restPars);
      g.ports := merged;
    }
  }

  /** `main` from the speed check to the call of `ttys_open`. */
  method RunStartup(g: GlobPars) returns (r: StartupOutcome)
    requires g.Valid()
    modifies g
    ensures g.Valid()
    ensures r == Startup(old(g.View()))
    ensures g.speeds == old(g.speeds) && g.globSpd == old(g.globSpd)
    ensures g.restPars == old(g.restPars) && g.restParsNum == old(g.restParsNum)
    ensures r == Rejected(WrongGlobalSpeed(old(g.globSpd))) ==> g.ports == old(g.ports)
    ensures r != Rejected(WrongGlobalSpeed(old(g.globSpd))) ==>
      g.View().ports == MergePorts(old(g.View()).ports, old(g.View()).restPars)
  {
    if g.globSpd != DefaultSpeed && g.speeds == null {
      var conv := ConvSpd(g.globSpd);
      if conv.WrongSpeed? {
        return Rejected(WrongGlobalSpeed(g.globSpd));
      }
      g.speeds := null;
    }
    AppendFreeParams(g);
    if g.ports == null {
      return Rejected(NoPorts);
    }
    if g.speeds != null {
      var bdramount := CountEntries(g.speeds);
      var portsamount := CountEntries(g.ports);
      if bdramount != portsamount {
        return Rejected(CountMismatch(portsamount, bdramount));
      }
    }
    var o := TtysOpen(g.ports, g.speeds, g.globSpd);
    return Ran(o);
  }

  /** The checks `main` makes before `ttys_open`, stated on their own: a common speed other
      than the default is one the table accepts when no per-port list is given, some port is
      named, and a per-port list has one speed per port. */
  ghost predicate Validated(c: CmdLine)
  {
    && (c.globSpd != DefaultSpeed && c.speeds.None? ==> IsTableRate(c.globSpd) || c.globSpd == 0)
    && (c.ports.Some? || c.restPars != [])
    && (c.speeds.Some? ==> |c.speeds.value| == PortCount(c))
  }

  /** `ttys_open` is reached exactly when every check passes; otherwise startup exits with
      the first failing check's error and handles no port. */
  lemma RunsIffValidated(c: CmdLine)
    ensures Startup(c).Ran? <==> Validated(c)
    ensures Startup(c).Ran? ==> MergePorts(c.ports, c.restPars).Some?
  {
    ResolveSpec(c.globSpd);
  }

  /** A common speed that is neither a table rate, 0 nor the default is refused up front,
      whatever ports are named, when no per-port list is given. */
  lemma WrongGlobalSpeedRefused(c: CmdLine)
    requires c.speeds.None? && c.globSpd != DefaultSpeed
    requires !IsTableRate(c.globSpd) && c.globSpd != 0
    ensures Startup(c) == Rejected(WrongGlobalSpeed(c.globSpd))
  {
    ResolveSpec(c.globSpd);
  }

  /** With a per-port list the common speed is neither checked nor used. */
  lemma GlobalSpeedIgnoredWithList(c: CmdLine, other: int)
    requires c.speeds.Some?
    ensures Startup(c) == Startup(c.(globSpd := other))
    ensures !(Startup(c).Rejected? && Startup(c).why.WrongGlobalSpeed?)
  {
  }

  /** The free parameters follow the `-p` ports, both in their original order; without free
      parameters the list is left as it was. */
  lemma MergedPortsInOrder(ports: Option<seq<string>>, rest: seq<string>)
    ensures rest == [] ==> MergePorts(ports, rest) == ports
    ensures rest != [] ==> MergePorts(ports, rest).Some?
    ensures var front := if ports.Some? then ports.value else [];
      rest != [] ==>
        && |MergePorts(ports, rest).value| == |front| + |rest|
        && (forall i :: 0 <= i < |front| ==> MergePorts(ports, rest).value[i] == front[i])
        && (forall j :: 0 <= j < |rest| ==> MergePorts(ports, rest).value[|front| + j] == rest[j])
  {
  }

  /** Startup fails with "at least name of one port" exactly when neither `-p` nor a free
      parameter names a port (and the common speed passed its check). */
  lemma NoPortsIff(c: CmdLine)
    requires !(c.globSpd != DefaultSpeed && c.speeds.None? && Resolve(c.globSpd).WrongSpeed?)
    ensures Startup(c) == Rejected(NoPorts) <==> c.ports.None? && c.restPars == []
  {
  }

  /** A per-port list whose length differs from the number of ports is refused before any
      port is handled. */
  lemma CountMismatchRefused(c: CmdLine)
    requires c.speeds.Some? && (c.ports.Some? || c.restPars != [])
    requires |c.speeds.value| != PortCount(c)
    ensures Startup(c) == Rejected(CountMismatch(PortCount(c), |c.speeds.value|))
  {
  }

  /** With per-port speeds that all pass the table, the i-th merged port runs at the i-th
      speed's token. */
  lemma PerPortSpeedsApplied(c: CmdLine)
    requires Validated(c) && c.speeds.Some?
    requires forall i :: 0 <= i < |c.speeds.value| ==> Resolve(c.speeds.value[i]).Found?
    ensures Startup(c).Ran? && Startup(c).run.Completed?
    ensures var ps := MergePorts(c.ports, c.restPars).value;
      var v := Startup(c).run.visited;
      |v| == |ps| &&
      forall i :: 0 <= i < |ps| ==> v[i] == PortSetting(ps[i], Resolve(c.speeds.value[i]).bspeed)
  {
    RunsIffValidated(c);
    var ps := MergePorts(c.ports, c.restPars).value;
    PerPortInOrder(ps, c.speeds.value);
  }

  /** Without `-t` and `-b` every named port runs at 57600 baud. */
  lemma DefaultSpeedForAll(c: CmdLine)
    requires c.speeds.None? && c.globSpd == DefaultSpeed && (c.ports.Some? || c.restPars != [])
    ensures Startup(c).Ran? && Startup(c).run.Completed?
    ensures var ps := MergePorts(c.ports, c.restPars).value;
      var v := Startup(c).run.visited;
      |v| == |ps| && forall i :: 0 <= i < |ps| ==> v[i] == PortSetting(ps[i], B57600)
  {
    CommonRates();
    CommonSpeedForAll(MergePorts(c.ports, c.restPars).value, DefaultSpeed);
  }

  /** `-t 0` passes the up-front check, because `conv_spd(0)` matches the sentinel, and
      `ttys_open` then reads the NULL per-port list at the first port. */
  lemma ZeroGlobalSpeedReachesNullList(c: CmdLine)
    requires c.speeds.None? && c.globSpd == 0 && (c.ports.Some? || c.restPars != [])
    requires MergePorts(c.ports, c.restPars).value != []
    ensures Startup(c) == Ran(Stopped(NullSpeedList, []))
  {
    ResolveZero();
    ZeroGlobalSpeedDereferencesNull(MergePorts(c.ports, c.restPars).value);
  }

  /** Pointer size in bytes on the 64-bit Linux targets the program is built for. */
  const PointerSize := 8

  /** `realloc(Glob->ports, gpamount + 1)` as written (main.c:58): it asks for `gpamount + 1`
      bytes, which hold this many pointers. */
  function ReallocSlotsAsWritten(gpamount: nat): nat
  {
    (gpamount + 1) / PointerSize
  }

  /** As written, the allocation never has a slot for the NULL written at index `gpamount`
      (main.c:66), and with a single port it has no slot at all while slots 0 and 1 are
      written. */
  lemma ReallocAsWrittenTooSmall(gpamount: nat)
    ensures ReallocSlotsAsWritten(gpamount) <= gpamount
    ensures ReallocSlotsAsWritten(1) == 0
  {
  }
}
