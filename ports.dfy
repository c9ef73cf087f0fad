/** Serial-port handling: the USB filter over the enumerated ports and the
    rules both programs use to rebuild the port selector. The enumeration
    itself (`list_ports.comports()`) is an input. */
module Ports {
  import opened Common
  import opened Text

  /** One entry of `list_ports.comports()`. */
  datatype PortInfo = PortInfo(device: string, vid: Option<int>, hwid: string, description: string)

  /** A vendor id, or "USB" in the upper-cased hardware id or description. */
  predicate LooksUsb(p: PortInfo) {
    p.vid.Some? || Contains(AsciiUpper(p.hwid), "USB") || Contains(AsciiUpper(p.description), "USB")
  }

  /** `_list_ports`: the device names of the USB-looking ports, in enumeration order. */
  function ListPorts(ports: seq<PortInfo>): seq<string> {
    if ports == [] then []
    else (if LooksUsb(ports[0]) then [ports[0].device] else []) + ListPorts(ports[1..])
  }

  /** The filter keeps the order: listing two runs of ports lists each in turn. */
  lemma {:induction false} ListPortsAppend(a: seq<PortInfo>, b: seq<PortInfo>)
    ensures ListPorts(a + b) == ListPorts(a) + ListPorts(b)
    decreases |a|
  {
    if a != [] {
      assert (a + b)[0] == a[0] && (a + b)[1..] == a[1..] + b;
      ListPortsAppend(a[1..], b);
    } else {
      assert a + b == b;
    }
  }

  /** A device is listed iff some enumerated port with that name looks like USB. */
  lemma {:induction false} ListPortsMember(ports: seq<PortInfo>, d: string)
    ensures d in ListPorts(ports) <==> exists i | 0 <= i < |ports| :: ports[i].device == d && LooksUsb(ports[i])
    decreases |ports|
  {
    if ports != [] {
      ListPortsMember(ports[1..], d);
      if d in ListPorts(ports[1..]) {
        var i :| 0 <= i < |ports[1..]| && ports[1..][i].device == d && LooksUsb(ports[1..][i]);
        assert ports[i + 1] == ports[1..][i];
      }
      if exists i | 0 <= i < |ports| :: ports[i].device == d && LooksUsb(ports[i]) {
        var i :| 0 <= i < |ports| && ports[i].device == d && LooksUsb(ports[i]);
        if i > 0 {
          assert ports[1..][i - 1] == ports[i];
        }
      }
    }
  }

  // ---------------------------------------------------------------------------
  // kodeOS.py: the OptionMenu and its StringVar

  /** One command of the Tk port menu. */
  datatype MenuEntry = MenuEntry(text: string, enabled: bool)

  /** The entries `_refresh_ports` puts into the menu. */
  function TkMenu(ports: seq<string>, noPorts: string): seq<MenuEntry> {
    if ports == [] then [MenuEntry(noPorts, false)]
    else seq(|ports|, i requires 0 <= i < |ports| => MenuEntry(ports[i], true))
  }

  /** The value `_refresh_ports` leaves in `port_var`: the current choice if it is still
      listed and not a status text, else the first port; the status text when nothing is found. */
  function TkSelection(current: string, ports: seq<string>, noPorts: string, loading: string): string {
    if ports == [] then noPorts
    else if current == noPorts || current == loading || current !in ports then ports[0]
    else current
  }

  lemma TkSelectionSpec(current: string, ports: seq<string>, noPorts: string, loading: string)
    ensures var r := TkSelection(current, ports, noPorts, loading);
      && (ports == [] ==> r == noPorts)
      && (ports != [] ==> r in ports)
      && (current in ports && current != noPorts && current != loading ==> r == current)
      && (ports != [] && (current !in ports || current == noPorts || current == loading) ==> r == ports[0])
  {
  }

  /** Refreshing twice over the same ports selects the same as refreshing once. */
  lemma TkSelectionIdempotent(current: string, ports: seq<string>, noPorts: string, loading: string)
    ensures var r := TkSelection(current, ports, noPorts, loading);
      TkSelection(r, ports, noPorts, loading) == r
  {
  }

  // ---------------------------------------------------------------------------
  // kodeOS_flet.py: the Dropdown that `_refresh_ports` recreates

  /** The state of a Flet Dropdown: selected value, label text, options, disabled flag. */
  datatype Dropdown = Dropdown(value: Option<string>, labelText: Option<string>, options: seq<string>, disabled: bool)

  /** The new dropdown `_refresh_ports(update_text)` builds from the old value. */
  function FletRefresh(oldValue: Option<string>, ports: seq<string>, updateText: bool, prompt: string, noPorts: string): Dropdown {
    if ports == [] then Dropdown(None, Some(noPorts), [], true)
    else if oldValue.Some? && oldValue.value in ports && !updateText then Dropdown(oldValue, None, ports, false)
    else Dropdown(None, Some(prompt), ports, false)
  }

  /** The options are the listed ports; a value is always one of them; the dropdown is
      disabled iff nothing was found; the old choice survives only a plain refresh that still lists it. */
  lemma FletRefreshSpec(oldValue: Option<string>, ports: seq<string>, updateText: bool, prompt: string, noPorts: string)
    ensures var d := FletRefresh(oldValue, ports, updateText, prompt, noPorts);
      && d.options == ports
      && (d.disabled <==> ports == [])
      && (d.value.Some? ==> d.value.value in d.options)
      && (d.value == oldValue <==> (oldValue.Some? && oldValue.value in ports && !updateText) || (oldValue.None?))
      && (d.value.None? <==> d.labelText.Some?)
  {
  }

  /** A plain refresh over the same ports changes nothing more the second time. */
  lemma FletRefreshIdempotent(oldValue: Option<string>, ports: seq<string>, updateText: bool, prompt: string, noPorts: string)
    ensures var d := FletRefresh(oldValue, ports, updateText, prompt, noPorts);
      FletRefresh(d.value, ports, false, prompt, noPorts) == d
  {
  }
}
