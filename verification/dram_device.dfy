// All banks of the device together, with the trace of the commands they accepted.
module DramDevice {
  import opened Common
  import opened DramTypes
  import opened DramBank

  // An accepted command: its cycle, and the accepting bank's row buffer at that moment.
  datatype Event = Event(cycle: nat, cmd: Cmd, rowOpen: bool, openRow: nat)

  datatype Device = Device(now: nat, banks: seq<Bank>, trace: seq<Event>)

  function InitialDevice(t: Topology): Device {
    Device(0, seq(t.Banks(), i => INITIAL), [])
  }

  ghost predicate Fits(t: Topology, d: Device) {
    && |d.banks| == t.Banks()
    && forall e :: e in d.trace ==> e.cmd.bank < t.Banks()
  }

  // Every bank sees one clock.
  function DevTick(p: Params, d: Device): Device {
    d.(now := d.now + 1, banks := seq(|d.banks|, i requires 0 <= i < |d.banks| => Tick(p, d.banks[i], d.now + 1)))
  }

  predicate CanSend(d: Device, c: Cmd) {
    c.bank < |d.banks| && Allowed(d.banks[c.bank], c.kind, d.now)
  }

  // The addressed bank handles the command; group, rank and channel push it to the others.
  function DevSend(p: Params, t: Topology, d: Device, c: Cmd): Device
    requires CanSend(d, c) && |d.banks| == t.Banks()
  {
    var b := d.banks[c.bank];
    d.(banks := seq(|d.banks|, i requires 0 <= i < |d.banks| =>
                      if i == c.bank then Handle(b, c, d.now)
                      else Push(p, t.Relate(c.bank, i), d.banks[i], c.kind, d.now)),
       trace := d.trace + [Event(d.now, c, b.rowOpen, b.openRow)])
  }

  // What an environment may do to the device: let a clock pass, or offer a command,
  // which is accepted only when its bank allows it.
  datatype Act = Clock | Offer(cmd: Cmd)

  function DevStep(p: Params, t: Topology, d: Device, a: Act): (r: Device)
    requires |d.banks| == t.Banks()
    ensures |r.banks| == t.Banks()
  {
    match a
    case Clock => DevTick(p, d)
    case Offer(c) => if CanSend(d, c) then DevSend(p, t, d, c) else d
  }

  function DevRun(p: Params, t: Topology, acts: seq<Act>): (r: Device)
    ensures |r.banks| == t.Banks()
  {
    if |acts| == 0 then InitialDevice(t)
    else DevStep(p, t, DevRun(p, t, acts[..|acts| - 1]), acts[|acts| - 1])
  }
}
