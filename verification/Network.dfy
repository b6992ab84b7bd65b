/** The network manager: one TAP device per VM, named after the first eight bytes of its id. */
module Network {
  import opened GoStrings
  import opened Environment
  import opened Layout

  datatype TapError = AddFailed | UpFailed | MasterFailed

  /** `tap` was deleted, or its delete command failed and it is stuck; nothing else changed. */
  predicate TapReleased(s: HostState, tap: Bytes, s': HostState) {
    || (s'.taps == s.taps - {tap} && s'.stuck == s.stuck - {tap})
    || (s'.taps == s.taps && s'.stuck == s.stuck + ({tap} * s.taps))
  }

  /** The commands that add a device, bring it up and attach it to the bridge. */
  function TapCommands(cfg: Config, tap: Bytes): seq<Cmd> {
    [TuntapAdd(tap), LinkUp(tap), LinkMaster(tap, cfg.bridgeName)]
  }

  /** The commands of a call that failed at `e`, its own cleanup included. */
  function TapIssued(cfg: Config, tap: Bytes, e: TapError): seq<Cmd> {
    match e
    case AddFailed => [TuntapAdd(tap)]
    case UpFailed => [TuntapAdd(tap), LinkUp(tap), LinkDelete(tap)]
    case MasterFailed => [TuntapAdd(tap), LinkUp(tap), LinkMaster(tap, cfg.bridgeName), LinkDelete(tap)]
  }

  /** The delete command, whatever it reported. */
  predicate IsDelete(a: Act, tap: Bytes) {
    a == Missing(tap) || (a.Did? && a.cmd == LinkDelete(tap))
  }

  method CreateTAPDevice(host: Host, cfg: Config, id: Bytes) returns (r: Result<Bytes, TapError>)
    modifies host`st, host`trace
    ensures host.st == old(host.st).(taps := host.st.taps, stuck := host.st.stuck, commands := host.st.commands)
    ensures r.Ok? ==>
      && r.value == TapName(cfg, id)
      && r.value !in old(host.st.taps)
      && host.st.taps == old(host.st.taps) + {r.value}
      && host.st.stuck == old(host.st.stuck)
      && host.st.commands == old(host.st.commands) + TapCommands(cfg, r.value)
    // A failed add, in particular one that collides with another VM's device, deletes nothing.
    ensures r == Err(AddFailed) ==>
      host.st == old(host.st).(commands := old(host.st.commands) + [TuntapAdd(TapName(cfg, id))])
    // A device this call did add is deleted again, or is stuck.
    ensures r.Err? && r != Err(AddFailed) ==>
      var tap := TapName(cfg, id);
      && tap !in old(host.st.taps)
      && TapReleased(old(host.st).(taps := old(host.st.taps) + {tap}), tap, host.st)
    ensures r.Err? ==> host.st.commands == old(host.st.commands) + TapIssued(cfg, TapName(cfg, id), r.error)
    ensures TapName(cfg, id) in old(host.st.taps) ==> r == Err(AddFailed)
    ensures TapName(cfg, id) == cfg.tapPrefix + [0x2D] + if |id| > 8 then id[..8] else id
    // Each error is the report of its own command.
    ensures old(host.trace) <= host.trace
    ensures
      var tap, t := TapName(cfg, id), Since(old(host.trace), host.trace);
      match r
      case Ok(_) => t == [Did(TuntapAdd(tap), true), Did(LinkUp(tap), true), Did(LinkMaster(tap, cfg.bridgeName), true)]
      case Err(AddFailed) => t == [Did(TuntapAdd(tap), false)]
      case Err(UpFailed) =>
        |t| == 3 && t[..2] == [Did(TuntapAdd(tap), true), Did(LinkUp(tap), false)] && IsDelete(t[2], tap)
      case Err(MasterFailed) =>
        && |t| == 4 && t[..2] == [Did(TuntapAdd(tap), true), Did(LinkUp(tap), true)]
        && t[2] == Did(LinkMaster(tap, cfg.bridgeName), false) && IsDelete(t[3], tap)
  {
    hide Since;
    var suffix := id;
    if |suffix| > 8 {
      suffix := suffix[..8];
    }
    var tapName := cfg.tapPrefix + DASH + suffix;

    ghost var t0 := host.trace;
    ghost var steps := [Did(TuntapAdd(tapName), true), Did(LinkUp(tapName), true), Did(LinkMaster(tapName, cfg.bridgeName), true)];
    var ok := host.RunTuntapAdd(tapName);
    if !ok {
      SinceIs(t0, [Did(TuntapAdd(tapName), false)], host.trace);
      return Err(AddFailed);
    }
    ok := host.RunLinkUp(tapName);
    if !ok {
      var _ := DeleteTAPDevice(host, tapName);
      SinceIs(t0, steps[..1] + [Did(LinkUp(tapName), false), host.trace[|t0| + 2]], host.trace);
      return Err(UpFailed);
    }
    ok := host.RunLinkMaster(tapName, cfg.bridgeName);
    if !ok {
      var _ := DeleteTAPDevice(host, tapName);
      SinceIs(t0, steps[..2] + [Did(LinkMaster(tapName, cfg.bridgeName), false), host.trace[|t0| + 3]], host.trace);
      return Err(MasterFailed);
    }
    SinceIs(t0, steps, host.trace);
    r := Ok(tapName);
  }

  /** A device that is already gone is no error. */
  method DeleteTAPDevice(host: Host, tap: Bytes) returns (ok: bool)
    modifies host`st, host`trace
    ensures host.st == old(host.st).(taps := host.st.taps, stuck := host.st.stuck, commands := host.st.commands)
    ensures host.st.commands == old(host.st.commands) + [LinkDelete(tap)]
    ensures TapReleased(old(host.st), tap, host.st)
    ensures ok ==> tap !in host.st.taps
    ensures !ok && tap in old(host.st.taps) ==> tap in host.st.stuck
    ensures old(host.trace) <= host.trace
    ensures
      var t := Since(old(host.trace), host.trace);
      |t| == 1 && IsDelete(t[0], tap) && (ok <==> t[0] == Did(LinkDelete(tap), true) || t[0] == Missing(tap))
  {
    var done, noDevice := host.RunLinkDelete(tap);
    ok := done || noDevice;
  }
}
