/** The option toggler of denops/autocursor/main.ts: two channels
    (cursorline, cursorcolumn), each with an `enable` flag and the `state` the
    plugin believes the option has, driven by the host's setOption,
    changeCursor and fixState requests. setOption passes its action through
    the throttle gate; the action re-checks the guards when it runs.

    The host is modelled by parameters and results: the filetype the host
    reports when an action runs, the live option values read by fixState, and
    the list of option writes (`op[opt].set(value)`) a request makes. */
module Toggler {
  import opened Timers
  import Throttle

  /** `LineOrColumn`. */
  datatype Opt = CursorLine | CursorColumn

  /** The option's name, which is also its throttle id. */
  function Name(o: Opt): string {
    match o
    case CursorLine => "cursorline"
    case CursorColumn => "cursorcolumn"
  }

  function Other(o: Opt): Opt {
    match o
    case CursorLine => CursorColumn
    case CursorColumn => CursorLine
  }

  /** One host write `op[option].set(value)`. */
  datatype Write = Write(option: Opt, value: bool)

  /** A channel's flags. */
  datatype Flags = Flags(enable: bool, state: bool)

  /** The flags of both channels: the plugin's abstract state. */
  datatype View = View(line: Flags, column: Flags) {
    function Get(o: Opt): Flags {
      match o
      case CursorLine => line
      case CursorColumn => column
    }

    function With(o: Opt, f: Flags): View {
      match o
      case CursorLine => this.(line := f)
      case CursorColumn => this.(column := f)
    }
  }

  /** What a request does: the new flags and the writes it sends to the host. */
  datatype Effect = Effect(view: View, writes: seq<Write>)

  /** The arguments the gated action captures: `value` and `opt`. */
  datatype Request = Request(value: bool, option: Opt)

  /** The gated action of setOption, run with the filetype `ft` the host
      reports at that moment. It does nothing when the value is already the
      believed state, when the channel is disabled, or when `ft` is ignored;
      otherwise it records the new state and writes the option. */
  function Gated(v: View, req: Request, ft: string, ignore: seq<string>): (e: Effect)
    ensures e.writes == [] || e.writes == [Write(req.option, req.value)]
    ensures e.writes != [] <==>
              req.value != v.Get(req.option).state && v.Get(req.option).enable && ft !in ignore
    ensures e.writes == [] ==> e.view == v
    ensures e.writes != [] ==> e.view == v.With(req.option, v.Get(req.option).(state := req.value))
    ensures e.view.Get(Other(req.option)) == v.Get(Other(req.option))
    ensures e.view.line.enable == v.line.enable && e.view.column.enable == v.column.enable
  {
    var f := v.Get(req.option);
    if req.value == f.state || !f.enable then Effect(v, [])
    else if ft in ignore then Effect(v, [])
    else Effect(v.With(req.option, f.(state := req.value)), [Write(req.option, req.value)])
  }

  /** changeCursor(enable, opt): disabling turns the option off at once;
      either way only the channel's `enable` changes. */
  function ChangeEnable(v: View, enable: bool, o: Opt): (e: Effect)
    ensures e.view.Get(o).enable == enable
    ensures e.view.Get(o).state == v.Get(o).state
    ensures e.view.Get(Other(o)) == v.Get(Other(o))
    ensures e.writes == if enable then [] else [Write(o, false)]
  {
    var f := v.Get(o);
    Effect(v.With(o, f.(enable := enable)), if enable then [] else [Write(o, false)])
  }

  /** One tick of fixState: both believed states become the live values. */
  function FixTick(v: View, liveLine: bool, liveColumn: bool): (r: View)
    ensures r.line.state == liveLine && r.column.state == liveColumn
    ensures r.line.enable == v.line.enable && r.column.enable == v.column.enable
  {
    View(v.line.(state := liveLine), v.column.(state := liveColumn))
  }

  /** Something that reaches the channel flags: a gated action running, a
      changeCursor request, or a fixState tick. */
  datatype Action =
    | RunGated(req: Request, ft: string)
    | Change(enable: bool, option: Opt)
    | Fix(liveLine: bool, liveColumn: bool)

  /** The flags and writes after `trace`, in order. */
  function Replay(v: View, ignore: seq<string>, trace: seq<Action>): Effect
    decreases |trace|
  {
    if trace == [] then Effect(v, [])
    else
      var e := match trace[0]
        case RunGated(req, ft) => Gated(v, req, ft, ignore)
        case Change(enable, o) => ChangeEnable(v, enable, o)
        case Fix(l, c) => Effect(FixTick(v, l, c), []);
      var rest := Replay(e.view, ignore, trace[1..]);
      Effect(rest.view, e.writes + rest.writes)
  }

  /** A disabled channel stays off: until some changeCursor(true, o), every
      write to `o` turns it off, whatever gated actions and fixState ticks run
      in between and in whatever order the gate lets the actions through. */
  lemma {:induction false} DisabledNeverTurnsOn(v: View, ignore: seq<string>, trace: seq<Action>, o: Opt)
    requires !v.Get(o).enable
    requires forall i :: 0 <= i < |trace| ==> trace[i] != Change(true, o)
    ensures !Replay(v, ignore, trace).view.Get(o).enable
    ensures forall w :: w in Replay(v, ignore, trace).writes && w.option == o ==> !w.value
    decreases |trace|
  {
    if trace != [] {
      var e := match trace[0]
        case RunGated(req, ft) => Gated(v, req, ft, ignore)
        case Change(enable, o') => ChangeEnable(v, enable, o')
        case Fix(l, c) => Effect(FixTick(v, l, c), []);
      assert !e.view.Get(o).enable;
      assert forall w :: w in e.writes && w.option == o ==> !w.value;
      DisabledNeverTurnsOn(e.view, ignore, trace[1..], o);
    }
  }

  /** Gated actions that run while the filetype is ignored change nothing and
      write nothing. */
  lemma {:induction false} IgnoredFileTypeInert(v: View, ignore: seq<string>, trace: seq<Action>)
    requires forall i :: 0 <= i < |trace| ==> trace[i].RunGated? && trace[i].ft in ignore
    ensures Replay(v, ignore, trace) == Effect(v, [])
    decreases |trace|
  {
    if trace != [] {
      IgnoredFileTypeInert(v, ignore, trace[1..]);
    }
  }

  /** A channel: `cfgLine` or `cfgColumn`. */
  class Cursor {
    var enable: bool
    var state: bool
    const option: Opt

    constructor (option: Opt, enable: bool, state: bool)
      ensures this.option == option && this.enable == enable && this.state == state
    {
      this.option := option;
      this.enable := enable;
      this.state := state;
    }
  }

  /** The dispatcher with the module state it closes over. */
  class Dispatcher {
    const cfgLine: Cursor
    const cfgColumn: Cursor
    const ignoreFileTypes: seq<string>
    const throttleTime: int
    const gate: Throttle.Gate<Request>

    ghost predicate Valid()
      reads this, cfgLine, cfgColumn, gate, gate.host
    {
      && cfgLine != cfgColumn
      && cfgLine.option == CursorLine && cfgColumn.option == CursorColumn
      && gate.Valid()
    }

    ghost function Channels(): View
      reads this, cfgLine, cfgColumn
    {
      View(Flags(cfgLine.enable, cfgLine.state), Flags(cfgColumn.enable, cfgColumn.state))
    }

    /** The state after start-up, with the user configuration already merged
        into `line` and `column`. */
    constructor (line: Flags, column: Flags, ignoreFileTypes: seq<string>, throttleTime: int)
      ensures Valid()
      ensures Channels() == View(line, column)
      ensures this.ignoreFileTypes == ignoreFileTypes && this.throttleTime == throttleTime
      ensures gate.slots == map[] && gate.host.pending == map[]
      ensures fresh(cfgLine) && fresh(cfgColumn) && fresh(gate) && fresh(gate.host)
    {
      cfgLine := new Cursor(CursorLine, line.enable, line.state);
      cfgColumn := new Cursor(CursorColumn, column.enable, column.state);
      this.ignoreFileTypes := ignoreFileTypes;
      this.throttleTime := throttleTime;
      var host := new Host<Request>();
      gate := new Throttle.Gate(host);
    }

    /** The body of the gated closure, run with filetype `ft`. */
    method RunAction(req: Request, ft: string) returns (writes: seq<Write>)
      requires Valid()
      modifies cfgLine, cfgColumn
      ensures Valid()
      ensures Effect(Channels(), writes) == Gated(old(Channels()), req, ft, ignoreFileTypes)
    {
      writes := [];
      var value, opt := req.value, req.option;
      if opt == CursorLine {
        if value == cfgLine.state || !cfgLine.enable {
          return;
        }
      }
      if opt == CursorColumn {
        if value == cfgColumn.state || !cfgColumn.enable {
          return;
        }
      }
      if ft in ignoreFileTypes {
        return;
      }
      if opt == CursorLine {
        cfgLine.state := value;
      }
      if opt == CursorColumn {
        cfgColumn.state := value;
      }
      writes := [Write(opt, value)];
    }

    /** setOption(value, wait, opt) at time `now`; `ft` is the filetype the host
        would report if the action runs at once. */
    method SetOption(value: bool, wait: int, opt: Opt, now: int, ft: string)
      returns (o: Throttle.Outcome, writes: seq<Write>)
      requires Valid()
      modifies cfgLine, cfgColumn, gate, gate.host
      ensures Valid()
      ensures var last := Throttle.SlotOf(old(gate.slots), Name(opt));
              var d := Throttle.Step(last, now, throttleTime + wait, old(gate.host.nextId));
              gate.slots == old(gate.slots)[Name(opt) := d.slot] && o == d.outcome
      // the option's previous pending action is always cancelled
      ensures Throttle.SlotOf(old(gate.slots), Name(opt)).timer !in gate.host.pending
      ensures o == Throttle.RunNow ==>
                Effect(Channels(), writes) == Gated(old(Channels()), Request(value, opt), ft, ignoreFileTypes) &&
                gate.host.pending == old(gate.host.pending) - {Throttle.SlotOf(old(gate.slots), Name(opt)).timer}
      ensures o.Deferred? ==>
                Channels() == old(Channels()) && writes == [] &&
                o.timer !in old(gate.host.pending) &&
                gate.host.pending == (old(gate.host.pending) - {Throttle.SlotOf(old(gate.slots), Name(opt)).timer})
                                     [o.timer := Timer(now + Clamp(throttleTime + wait), Request(value, opt))]
      // the other option's slot and pending action are untouched
      ensures Name(Other(opt)) in old(gate.slots) ==>
                var t := old(gate.slots)[Name(Other(opt))].timer;
                Name(Other(opt)) in gate.slots && gate.slots[Name(Other(opt))].timer == t &&
                (t in old(gate.host.pending) ==>
                   t in gate.host.pending && gate.host.pending[t] == old(gate.host.pending)[t])
    {
      o := gate.Call(Name(opt), Request(value, opt), now, throttleTime, wait);
      if o == Throttle.RunNow {
        writes := RunAction(Request(value, opt), ft);
      } else {
        writes := [];
      }
    }

    /** The host runs timer `t` at time `now`, reporting filetype `ft`: a live,
        due gated action runs; anything else does nothing. */
    method TimerFired(t: TimerId, now: int, ft: string) returns (writes: seq<Write>)
      requires Valid()
      modifies cfgLine, cfgColumn, gate.host
      ensures Valid()
      ensures gate.slots == old(gate.slots)
      ensures if t in old(gate.host.pending) && old(gate.host.pending)[t].due <= now
              then gate.host.pending == old(gate.host.pending) - {t} &&
                   Effect(Channels(), writes) ==
                     Gated(old(Channels()), old(gate.host.pending)[t].callback, ft, ignoreFileTypes)
              else gate.host.pending == old(gate.host.pending) && Channels() == old(Channels()) && writes == []
    {
      var job := gate.host.Fire(t, now);
      if job.Some? {
        writes := RunAction(job.value, ft);
      } else {
        writes := [];
      }
    }

    /** changeCursor(enable, opt). */
    method ChangeCursor(enable: bool, opt: Opt) returns (writes: seq<Write>)
      requires Valid()
      modifies cfgLine, cfgColumn
      ensures Valid()
      ensures Effect(Channels(), writes) == ChangeEnable(old(Channels()), enable, opt)
    {
      writes := [];
      if !enable {
        writes := [Write(opt, false)];
      }
      if opt == CursorLine {
        cfgLine.enable := enable;
      }
      if opt == CursorColumn {
        cfgColumn.enable := enable;
      }
    }

    /** One tick of the fixState interval, with the live option values. */
    method FixStateTick(liveLine: bool, liveColumn: bool)
      requires Valid()
      modifies cfgLine, cfgColumn
      ensures Valid()
      ensures Channels() == FixTick(old(Channels()), liveLine, liveColumn)
    {
      cfgLine.state := liveLine;
      cfgColumn.state := liveColumn;
    }
  }

  /** A wall-clock time in milliseconds, as `new Date().getTime()` returns it. */
  const Clock: int := 1_700_000_000_000

  /** With the default 300 ms throttle: a first request on a fresh table is
      far more than 300 ms past the empty slot's stamp 0, so it runs at once
      (here CursorMoved asks for the state the channel already has, so it
      writes nothing) and stamps the slot. A CursorHold 200 ms later, with a
      100 ms wait, is then deferred to 400 ms after itself; when it fires the
      option is written on and the believed state follows. */
  method HoldScenario() returns (moved: seq<Write>, hold: seq<Write>, fired: seq<Write>, due: int)
    ensures moved == [] && hold == [] && fired == [Write(CursorLine, true)]
    ensures due == Clock + 600
  {
    var d := new Dispatcher(Flags(true, false), Flags(true, false), ["qf"], 300);
    var o0, o;
    o0, moved := d.SetOption(false, 0, CursorLine, Clock, "rust");
    o, hold := d.SetOption(true, 100, CursorLine, Clock + 200, "rust");
    due := d.gate.host.pending[o.timer].due;
    fired := d.TimerFired(o.timer, Clock + 600, "rust");
    assert d.Channels().line.state;
  }

  /** A later request on the same option inside the window cancels the
      earlier pending action: only the latest one is left to fire. */
  method LaterRequestCancels() returns (stale: seq<Write>, latest: seq<Write>)
    ensures stale == [] && latest == [Write(CursorLine, false)]
  {
    var d := new Dispatcher(Flags(true, true), Flags(true, false), [], 300);
    var o0, w0 := d.SetOption(true, 0, CursorLine, Clock, "rust");
    var o1, w1 := d.SetOption(false, 0, CursorLine, Clock + 50, "rust");
    var o2, w2 := d.SetOption(false, 0, CursorLine, Clock + 100, "rust");
    assert o1.timer !in d.gate.host.pending;
    stale := d.TimerFired(o1.timer, Clock + 400, "rust");
    latest := d.TimerFired(o2.timer, Clock + 400, "rust");
  }

  /** Disabling a channel after an action was scheduled for it: the action
      still fires, re-checks `enable` and writes nothing; only the disable
      itself writes the option off. The first request runs at once and only
      stamps the slot, so that the second one is deferred. */
  method DisableBeforeFire() returns (writes: seq<Write>)
    ensures writes == [Write(CursorLine, false)]
  {
    var d := new Dispatcher(Flags(true, false), Flags(true, false), [], 300);
    var o0, w0 := d.SetOption(false, 0, CursorLine, Clock, "rust");
    var o, w1 := d.SetOption(true, 100, CursorLine, Clock + 200, "rust");
    var w2 := d.ChangeCursor(false, CursorLine);
    var w3 := d.TimerFired(o.timer, Clock + 600, "rust");
    writes := w0 + w1 + w2 + w3;
  }

  /** Requests for one option never cancel the other option's pending action.
      Each option's first request runs at once and stamps its slot, so that
      its second one is deferred. */
  method ChannelsIndependent() returns (line: seq<Write>, column: seq<Write>)
    ensures line == [Write(CursorLine, true)] && column == [Write(CursorColumn, true)]
  {
    var d := new Dispatcher(Flags(true, false), Flags(true, false), [], 300);
    var _, _ := d.SetOption(false, 0, CursorLine, Clock, "rust");
    var _, _ := d.SetOption(false, 0, CursorColumn, Clock, "rust");
    var ol, _ := d.SetOption(true, 0, CursorLine, Clock + 100, "rust");
    var oc, _ := d.SetOption(true, 0, CursorColumn, Clock + 110, "rust");
    line := d.TimerFired(ol.timer, Clock + 400, "rust");
    column := d.TimerFired(oc.timer, Clock + 410, "rust");
  }
}
