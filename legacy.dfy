/** The older revision of the toggler (denops/autocursor/mod.ts). The guards
    run when setOption is called, before a plain setTimeout; the deferred
    callback issues `set <o>` or `set no<o>` and only then records the state,
    without checking anything again. The option name is any string here: a
    name other than cursorline or cursorcolumn passes both guards and touches
    no channel. */
module Legacy {
  import opened Timers

  const CursorLineName: string := "cursorline"
  const CursorColumnName: string := "cursorcolumn"

  /** What setOption schedules: the captured `s` and `o`. */
  datatype Pending = Pending(value: bool, option: string)

  /** The Ex command applying value `s` to option `o`. */
  function Command(s: bool, o: string): (c: string)
    ensures |c| >= 4 && c[..4] == "set "
  {
    if s then "set " + o else "set no" + o
  }

  /** How the editor reads a `set <arg>` command for a boolean option: an
      argument starting with "no" turns the rest off, any other turns it on. */
  function ParseSet(c: string): Option<(string, bool)> {
    if |c| < 4 || c[..4] != "set " then None
    else if |c| >= 6 && c[4..6] == "no" then Some((c[6..], false))
    else Some((c[4..], true))
  }

  /** The command sent for (s, o) is read back as setting `o` to `s`, for every
      option name that does not itself begin with "no". */
  lemma CommandRoundTrip(s: bool, o: string)
    requires |o| < 2 || o[..2] != "no"
    ensures ParseSet(Command(s, o)) == Some((o, s))
  {
  }

  /** A channel: `cfgLine` or `cfgColumn`. */
  class Cursor {
    var enable: bool
    var state: bool
    const option: string

    constructor (option: string, enable: bool, state: bool)
      ensures this.option == option && this.enable == enable && this.state == state
    {
      this.option := option;
      this.enable := enable;
      this.state := state;
    }
  }

  /** The handlers registered with the host and the records they update. */
  class Plugin {
    const cfgLine: Cursor
    const cfgColumn: Cursor
    const host: Host<Pending>

    ghost predicate Valid()
      reads this, cfgLine, cfgColumn, host
    {
      && cfgLine != cfgColumn
      && cfgLine.option == CursorLineName && cfgColumn.option == CursorColumnName
      && host.Valid()
    }

    /** Whether setOption(s, _, o) passes its call-time guards. */
    ghost predicate Admits(s: bool, o: string)
      reads this, cfgLine, cfgColumn
      // a channel admits a request only while enabled and for a change of state
      ensures o == CursorLineName ==> (Admits(s, o) <==> cfgLine.enable && s != cfgLine.state)
      ensures o == CursorColumnName ==> (Admits(s, o) <==> cfgColumn.enable && s != cfgColumn.state)
      // any other option name passes both guards
      ensures o != CursorLineName && o != CursorColumnName ==> Admits(s, o)
    {
      && !(o == CursorLineName && (s == cfgLine.state || !cfgLine.enable))
      && !(o == CursorColumnName && (s == cfgColumn.state || !cfgColumn.enable))
    }

    /** Both channels start enabled and off. */
    constructor ()
      ensures Valid() && host.pending == map[]
      ensures cfgLine.enable && !cfgLine.state && cfgColumn.enable && !cfgColumn.state
      ensures fresh(cfgLine) && fresh(cfgColumn) && fresh(host)
    {
      cfgLine := new Cursor(CursorLineName, true, false);
      cfgColumn := new Cursor(CursorColumnName, true, false);
      host := new Host<Pending>();
    }

    /** setOption(s, w, o) at time `now`: when the guards pass, a callback is
        scheduled `w` ms later; no flag changes now. */
    method SetOption(s: bool, w: int, o: string, now: int) returns (t: Option<TimerId>)
      requires Valid()
      modifies host
      ensures Valid()
      ensures t.Some? <==> old(Admits(s, o))
      ensures t.None? ==> host.pending == old(host.pending)
      ensures t.Some? ==>
                t.value !in old(host.pending) &&
                host.pending == old(host.pending)[t.value := Timer(now + Clamp(w), Pending(s, o))]
    {
      if o == CursorLineName {
        if s == cfgLine.state || !cfgLine.enable {
          return None;
        }
      }
      if o == CursorColumnName {
        if s == cfgColumn.state || !cfgColumn.enable {
          return None;
        }
      }
      var id := host.SetTimeout(Pending(s, o), now, w);
      t := Some(id);
    }

    /** The host runs timer `t` at time `now`: the callback sends its command,
        then sets the state of the channel named `o`, whether or not that
        channel is still enabled. */
    method TimerFired(t: TimerId, now: int) returns (commands: seq<string>)
      requires Valid()
      modifies cfgLine, cfgColumn, host
      ensures Valid()
      ensures cfgLine.enable == old(cfgLine.enable) && cfgColumn.enable == old(cfgColumn.enable)
      ensures if t in old(host.pending) && old(host.pending)[t].due <= now then
                var p := old(host.pending)[t].callback;
                && host.pending == old(host.pending) - {t}
                && commands == [Command(p.value, p.option)]
                && cfgLine.state == (if p.option == CursorLineName then p.value else old(cfgLine.state))
                && cfgColumn.state == (if p.option == CursorColumnName then p.value else old(cfgColumn.state))
              else
                && host.pending == old(host.pending) && commands == []
                && cfgLine.state == old(cfgLine.state) && cfgColumn.state == old(cfgColumn.state)
    {
      var job := host.Fire(t, now);
      commands := [];
      if job.Some? {
        var s, o := job.value.value, job.value.option;
        commands := [Command(s, o)];
        if o == CursorLineName {
          cfgLine.state := s;
        }
        if o == CursorColumnName {
          cfgColumn.state := s;
        }
      }
    }

    /** changeCursor(e, o): disabling sends `set no<o>`; only `enable` of the
        channel named `o` changes, and nothing scheduled is cancelled. */
    method ChangeCursor(e: bool, o: string) returns (commands: seq<string>)
      requires Valid()
      modifies cfgLine, cfgColumn
      ensures Valid()
      ensures commands == if e then [] else [Command(false, o)]
      ensures cfgLine.enable == (if o == CursorLineName then e else old(cfgLine.enable))
      ensures cfgColumn.enable == (if o == CursorColumnName then e else old(cfgColumn.enable))
      ensures cfgLine.state == old(cfgLine.state) && cfgColumn.state == old(cfgColumn.state)
    {
      commands := [];
      if !e {
        commands := [Command(false, o)];
      }
      if o == CursorLineName {
        cfgLine.enable := e;
      }
      if o == CursorColumnName {
        cfgColumn.enable := e;
      }
    }
  }

  /** Check-then-schedule: a CursorHold request is accepted, a direct
      changeCursor(false, "cursorline") notification then disables the
      channel, and the callback still turns cursorline on and records it as
      on. (The DisableAutoCursorLine command of this revision notifies
      `changeCursorLine`, which is never registered, so it cannot cause this.) */
  method DisableAfterScheduleStillWrites() returns (commands: seq<string>, enabled: bool, state: bool)
    ensures commands == ["set nocursorline", "set cursorline"]
    ensures !enabled && state
  {
    var p := new Plugin();
    var t := p.SetOption(true, 900, CursorLineName, 0);
    var c0 := p.ChangeCursor(false, CursorLineName);
    var c1 := p.TimerFired(t.value, 900);
    assert Command(false, CursorLineName) == "set nocursorline";
    assert Command(true, CursorLineName) == "set cursorline";
    commands := c0 + c1;
    enabled, state := p.cfgLine.enable, p.cfgLine.state;
  }

  /** Two requests for the same value before the first callback runs both
      pass the guards (the state is recorded only when a callback runs), so
      the command is sent twice. */
  method RepeatedRequestWritesTwice() returns (commands: seq<string>)
    ensures commands == ["set cursorline", "set cursorline"]
  {
    var p := new Plugin();
    var t1 := p.SetOption(true, 900, CursorLineName, 0);
    var t2 := p.SetOption(true, 900, CursorLineName, 100);
    var c1 := p.TimerFired(t1.value, 900);
    var c2 := p.TimerFired(t2.value, 1000);
    assert Command(true, CursorLineName) == "set cursorline";
    commands := c1 + c2;
  }
}
