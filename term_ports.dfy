/** `ttys_open` (term.c:255-264): the speed each port would be opened with. In this
    revision the loop resolves and reports a speed per port and opens nothing; each
    reported pair is a `PortSetting`. */
module PortOpen {
  import opened CArrays
  import opened BaudTable

  /** A port and the termios token it is given. */
  datatype PortSetting = PortSetting(port: string, bspeed: int)

  /** Why the loop stops early: `conv_spd` exits on a wrong speed, or the per-port speed
      list is dereferenced while it is NULL. */
  datatype Fault = BadSpeed(speed: int) | NullSpeedList

  /** The ports handled (`visited`), in order, and whether the loop ran to the end of the list. */
  datatype Outcome = Completed(visited: seq<PortSetting>) | Stopped(fault: Fault, visited: seq<PortSetting>)

  /** The outcome `o` preceded by the ports in `done`. */
  function Then(done: seq<PortSetting>, o: Outcome): (r: Outcome)
    ensures r.Completed? == o.Completed? && r.visited == done + o.visited
    ensures r.Stopped? ==> r.fault == o.fault
  {
    match o
    case Completed(s) => Completed(done + s)
    case Stopped(f, s) => Stopped(f, done + s)
  }

  /** Every port given the common token `t`. */
  function Uniform(ports: seq<string>, t: int): (s: seq<PortSetting>)
  {
    seq(|ports|, i requires 0 <= i < |ports| => PortSetting(ports[i], t))
  }

  /** The loop with a per-port speed list: the i-th port takes the token of the i-th speed,
      and the first wrong speed stops it. */
  function PerPort(ports: seq<string>, speeds: seq<int>): Outcome
    requires |speeds| >= |ports|
  {
    if ports == [] then Completed([])
    else match Resolve(speeds[0])
      case WrongSpeed(v) => Stopped(BadSpeed(v), [])
      case Found(t) => Then([PortSetting(ports[0], t)], PerPort(ports[1..], speeds[1..]))
  }

  /** `ttys_open(ports, speeds, globspeed)` on the lists' entries; `speeds` is `None` when the
      C pointer is NULL. Without a list the common token is resolved once, before the loop;
      the loop takes a port's token from the list whenever that common token is 0. */
  function TtysOpenSpec(ports: seq<string>, speeds: Option<seq<int>>, globspeed: int): Outcome
    requires speeds.Some? ==> |speeds.value| >= |ports|
  {
    if speeds.Some? then PerPort(ports, speeds.value)
    else match Resolve(globspeed)
      case WrongSpeed(v) => Stopped(BadSpeed(v), [])
      case Found(t) =>
        if t != 0 || ports == [] then Completed(Uniform(ports, t))
        else Stopped(NullSpeedList, [])
  }

  /** Handling the ports from index `p` on: the port at `p`, then the rest. */
  lemma PerPortStep(ports: seq<string>, speeds: seq<int>, p: nat)
    requires |speeds| >= |ports| && p < |ports|
    ensures PerPort(ports[p..], speeds[p..]) ==
      match Resolve(speeds[p])
      case WrongSpeed(v) => Stopped(BadSpeed(v), [])
      case Found(t) => Then([PortSetting(ports[p], t)], PerPort(ports[p + 1..], speeds[p + 1..]))
  {
    assert ports[p..][1..] == ports[p + 1..];
    assert speeds[p..][1..] == speeds[p + 1..];
  }

  lemma ThenThen(a: seq<PortSetting>, b: seq<PortSetting>, o: Outcome)
    ensures Then(a, Then(b, o)) == Then(a + b, o)
  {
    assert a + (b + o.visited) == (a + b) + o.visited;
  }

  /** `ttys_open`: walks the NULL-terminated port list, and the speed list in lockstep when
      the common speed is 0. */
  method TtysOpen(ports: array<Option<string>>, speeds: array?<Option<int>>, globspeed: int)
    returns (o: Outcome)
    requires NullTerminated(ports[..])
    requires speeds != null ==> NullTerminated(speeds[..]) && Count(speeds[..]) >= Count(ports[..])
    ensures o == TtysOpenSpec(Entries(ports[..]),
                              if speeds == null then None else Some(Entries(speeds[..])), globspeed)
  {
    ghost var P := Entries(ports[..]);
    ghost var S := if speeds == null then [] else Entries(speeds[..]);
    var commonspd := 0;
    if speeds == null {
      var c := ConvSpd(globspeed);
      if c.WrongSpeed? {
        return Stopped(BadSpeed(c.speed), []);
      }
      commonspd := c.bspeed;
    }
    var p := 0;    // how far the C pointer `ports` has advanced
    var s := 0;    // how far the C pointer `speeds` has advanced
    var visited := [];
    while ports[p].Some?
      invariant p <= |P| < ports.Length
      invariant speeds == null ==> Resolve(globspeed) == Found(commonspd)
      invariant commonspd != 0 ==> speeds == null && |visited| == p
      invariant commonspd != 0 ==> forall i :: 0 <= i < p ==> visited[i] == PortSetting(P[i], commonspd)
      invariant commonspd == 0 ==> s == p
      invariant commonspd == 0 && speeds == null ==> p == 0 && visited == []
      invariant commonspd == 0 && speeds != null ==>
        PerPort(P, S) == Then(visited, PerPort(P[p..], S[p..]))
      decreases |P| - p
    {
      assert p < |P| && ports[p].value == P[p] by {
        assert ports[..][p] == ports[p];
      }
      var spd := commonspd;
      if commonspd == 0 {
        if speeds == null {
          return Stopped(NullSpeedList, visited);
        }
        assert speeds[s].value == S[s] by {
          assert speeds[..][s] == speeds[s];
        }
        PerPortStep(P, S, p);
        var c := ConvSpd(speeds[s].value);
        if c.WrongSpeed? {
          return Stopped(BadSpeed(c.speed), visited);
        }
        ThenThen(visited, [PortSetting(P[p], c.bspeed)], PerPort(P[p + 1..], S[p + 1..]));
        spd := c.bspeed;
      }
      visited := visited + [PortSetting(ports[p].value, spd)];
      p := p + 1;
      if commonspd == 0 {
        s := s + 1;
      }
    }
    assert p == |P|;
    return Completed(visited);
  }

  /** With a per-port list, ports are handled in order, the i-th taking the token of the
      i-th speed; the loop completes exactly when every speed is in the table (or 0), and
      otherwise stops at the first wrong speed, having handled the ports before it. */
  lemma {:induction false} PerPortInOrder(ports: seq<string>, speeds: seq<int>)
    requires |speeds| >= |ports|
    ensures var o := PerPort(ports, speeds);
      && |o.visited| <= |ports|
      && (forall i :: 0 <= i < |o.visited| ==>
            Resolve(speeds[i]).Found? && o.visited[i] == PortSetting(ports[i], Resolve(speeds[i]).bspeed))
      && (o.Completed? <==> forall i :: 0 <= i < |ports| ==> Resolve(speeds[i]).Found?)
      && (o.Completed? ==> |o.visited| == |ports|)
      && (o.Stopped? ==> |o.visited| < |ports| && o.fault == BadSpeed(speeds[|o.visited|])
                         && Resolve(speeds[|o.visited|]).WrongSpeed?)
  {
    if ports != [] {
      ResolveSpec(speeds[0]);
      PerPortInOrder(ports[1..], speeds[1..]);
      var o := PerPort(ports, speeds);
      var tail := PerPort(ports[1..], speeds[1..]);
      if Resolve(speeds[0]).Found? {
        assert o == Then([PortSetting(ports[0], Resolve(speeds[0]).bspeed)], tail);
        forall i | 0 <= i < |o.visited|
          ensures Resolve(speeds[i]).Found? && o.visited[i] == PortSetting(ports[i], Resolve(speeds[i]).bspeed)
        {
          if i > 0 {
            assert o.visited[i] == tail.visited[i - 1];
          }
        }
        if !o.Completed? {
          var j := |tail.visited|;
          assert !Resolve(speeds[1..][j]).Found?;
        }
      }
    }
  }

  /** Without a per-port list every port gets the one token `conv_spd(globspeed)`, found
      once before the loop; a wrong common speed stops before the first port, even when
      the port list is empty. */
  lemma CommonSpeedForAll(ports: seq<string>, globspeed: int)
    ensures var o := TtysOpenSpec(ports, None, globspeed);
      && (Resolve(globspeed).WrongSpeed? ==> o == Stopped(BadSpeed(globspeed), []))
      && (Resolve(globspeed).Found? && Resolve(globspeed).bspeed != 0 ==>
            o.Completed? && |o.visited| == |ports| &&
            forall i :: 0 <= i < |ports| ==> o.visited[i] == PortSetting(ports[i], Resolve(globspeed).bspeed))
  {
    ResolveSpec(globspeed);
  }

  /** A common speed of 0 resolves to the sentinel's token 0, so the loop falls through to
      the per-port branch and dereferences the NULL speed list at the first port. */
  lemma ZeroGlobalSpeedDereferencesNull(ports: seq<string>)
    requires ports != []
    ensures TtysOpenSpec(ports, None, 0) == Stopped(NullSpeedList, [])
  {
    ResolveZero();
  }
}
