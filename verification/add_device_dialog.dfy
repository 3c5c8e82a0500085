/**
 * The add-device dialog: a form with four fields, edited one field at a
 * time; submitting it builds a device record at a random spot with random
 * load, resets the form and closes the dialog; cancelling only closes it.
 * The four `Math.random` draws and the `Date.now` clock are parameters.
 */
module AddDeviceDialog {
  import opened Topology
  import Dashboard

  /** The form's fields. */
  datatype FormData = FormData(name: string, ip: string, kind: DeviceType, snmpCommunity: string)

  /** The form as first shown and as reset after a submit. */
  function InitialForm(): FormData
  {
    FormData("", "", Router, "public")
  }

  /**
   * The record a submit hands to the page: the form's four fields, an id
   * that is the clock reading in decimal, a position in the 400 x 300 box
   * at (300, 200), status up, uptime "0d 0h", and cpu and memory drawn as
   * whole percentages below 60 and 80.
   */
  function NewDevice(form: FormData, now: nat, rx: real, ry: real, rcpu: real, rmem: real): (d: Device)
    requires InUnit(rx) && InUnit(ry) && InUnit(rcpu) && InUnit(rmem)
    ensures d.id == DecimalText(now)
    ensures d.name == form.name && d.ip == form.ip && d.kind == form.kind && d.snmpCommunity == form.snmpCommunity
    ensures d.status == Up && d.uptime == UptimeText(0, 0)
    ensures 300.0 <= d.x < 700.0 && 200.0 <= d.y < 500.0
    ensures 0 <= d.cpu <= 59 && d.cpu as real <= rcpu * 60.0 < d.cpu as real + 1.0
    ensures 0 <= d.memory <= 79 && d.memory as real <= rmem * 80.0 < d.memory as real + 1.0
  {
    assert UptimeText(0, 0) == "0d 0h" by {
      assert DecimalText(0) == "0";
    }
    Device(DecimalText(now), form.name, form.ip, 300.0 + rx * 400.0, 200.0 + ry * 300.0,
      Up, form.kind, form.snmpCommunity, "0d 0h", (rcpu * 60.0).Floor, (rmem * 80.0).Floor)
  }

  /**
   * Once the page appends a submitted device, one more device counts as up
   * and the down and warning counts are unchanged.
   */
  lemma SubmittedDeviceCountsAsUp(devices: seq<Device>, form: FormData, now: nat, rx: real, ry: real, rcpu: real, rmem: real)
    requires InUnit(rx) && InUnit(ry) && InUnit(rcpu) && InUnit(rmem)
    ensures var after := devices + [NewDevice(form, now, rx, ry, rcpu, rmem)];
      Dashboard.CountStatus(after, Up) == Dashboard.CountStatus(devices, Up) + 1 &&
      Dashboard.CountStatus(after, Down) == Dashboard.CountStatus(devices, Down) &&
      Dashboard.CountStatus(after, Warning) == Dashboard.CountStatus(devices, Warning)
  {
    var d := NewDevice(form, now, rx, ry, rcpu, rmem);
    Dashboard.CountAfterAppend(devices, d, Up);
    Dashboard.CountAfterAppend(devices, d, Down);
    Dashboard.CountAfterAppend(devices, d, Warning);
  }

  /** The dialog's form state and the open flag it shares with the page. */
  class DeviceDialog {
    var form: FormData
    var open: bool

    constructor ()
      ensures form == FormData("", "", Router, "public") && !open
    {
      form := InitialForm();
      open := false;
    }

    /** The page's "add device" button opens the dialog; the form keeps its contents. */
    method Open()
      modifies this
      ensures open && form == old(form)
    {
      open := true;
    }

    // The form methods below do not require `open`: the page only reaches
    // them while the dialog is shown, and the model states each one for
    // either value of the flag.

    /** Editing the name field changes the name and nothing else. */
    method SetName(name: string)
      modifies this
      ensures form == old(form).(name := name) && open == old(open)
    {
      form := form.(name := name);
    }

    /** Editing the address field changes the address and nothing else. */
    method SetIp(ip: string)
      modifies this
      ensures form == old(form).(ip := ip) && open == old(open)
    {
      form := form.(ip := ip);
    }

    /** Choosing a device type changes the type and nothing else. */
    method SetKind(kind: DeviceType)
      modifies this
      ensures form == old(form).(kind := kind) && open == old(open)
    {
      form := form.(kind := kind);
    }

    /** Editing the community field changes the community and nothing else. */
    method SetCommunity(snmpCommunity: string)
      modifies this
      ensures form == old(form).(snmpCommunity := snmpCommunity) && open == old(open)
    {
      form := form.(snmpCommunity := snmpCommunity);
    }

    /**
     * Submitting the form. The name and address inputs are required, so
     * with either empty nothing is emitted and nothing changes; otherwise
     * the new device is emitted, the form goes back to its defaults and the
     * dialog closes.
     */
    method Submit(now: nat, rx: real, ry: real, rcpu: real, rmem: real) returns (emitted: Option<Device>)
      requires InUnit(rx) && InUnit(ry) && InUnit(rcpu) && InUnit(rmem)
      modifies this
      ensures old(form).name == "" || old(form).ip == "" ==>
        emitted == None && form == old(form) && open == old(open)
      ensures old(form).name != "" && old(form).ip != "" ==>
        emitted == Some(NewDevice(old(form), now, rx, ry, rcpu, rmem)) &&
        form == InitialForm() && !open
    {
      if form.name == "" || form.ip == "" {
        emitted := None;
      } else {
        emitted := Some(NewDevice(form, now, rx, ry, rcpu, rmem));
        form := InitialForm();
        open := false;
      }
    }

    /** Cancel closes the dialog; it emits nothing and keeps what was typed. */
    method Cancel()
      modifies this
      ensures !open && form == old(form)
    {
      open := false;
    }
  }
}
