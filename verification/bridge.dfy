/**
 * Bridge: remote controls (the abstraction) drive devices (the
 * implementation) through the primitive operations enable, disable and
 * setVolume, and report what they did as a message.
 */
module Bridge {
  import opened Text

  /** The volume after a step up: +10 while that stays within 100. */
  function Raised(volume: int): (raised: int)
    ensures volume <= raised
    ensures 0 <= volume <= 100 ==> 0 <= raised <= 100
  {
    if volume <= 90 then volume + 10 else volume
  }

  /** The volume after a step down: -10 while that stays at or above 0. */
  function Lowered(volume: int): (lowered: int)
    ensures lowered <= volume
    ensures 0 <= volume <= 100 ==> 0 <= lowered <= 100
  {
    if volume >= 10 then volume - 10 else volume
  }

  function PowerMessage(wasEnabled: bool): string {
    if wasEnabled then "RemoteControl: Turning off the device." else "RemoteControl: Turning on the device."
  }

  function IncreaseMessage(volume: int): string {
    "RemoteControl: Increasing volume to " + IntToString(volume) + "."
  }

  function DecreaseMessage(volume: int): string {
    "RemoteControl: Decreasing volume to " + IntToString(volume) + "."
  }

  /** What a device shows: whether it is on, and its volume. */
  datatype DeviceState = DeviceState(enabled: bool, volume: int)

  /** The buttons of the two remotes; Mute exists only on the advanced one. */
  datatype Button = Power | Up | Down | Mute

  /** The effect of one button press on the device. */
  function Press(s: DeviceState, b: Button): (pressed: DeviceState)
    ensures b == Power <==> pressed.enabled != s.enabled
    ensures b == Power ==> pressed.volume == s.volume
  {
    match b
    case Power => s.(enabled := !s.enabled)
    case Up => s.(volume := Raised(s.volume))
    case Down => s.(volume := Lowered(s.volume))
    case Mute => s.(volume := 0)
  }

  /** The effect of pressing the buttons in order. */
  function PressAll(s: DeviceState, buttons: seq<Button>): DeviceState
    decreases |buttons|
  {
    if buttons == [] then s else PressAll(Press(s, buttons[0]), buttons[1..])
  }

  predicate InRange(s: DeviceState) {
    0 <= s.volume <= 100
  }

  /** No sequence of presses takes the volume out of 0..100. */
  lemma {:induction false} PressAllKeepsRange(s: DeviceState, buttons: seq<Button>)
    requires InRange(s)
    ensures InRange(PressAll(s, buttons))
    decreases |buttons|
  {
    if buttons != [] {
      PressAllKeepsRange(Press(s, buttons[0]), buttons[1..]);
    }
  }

  /** Volume buttons never switch the device on or off. */
  lemma {:induction false} VolumeButtonsKeepPower(s: DeviceState, buttons: seq<Button>)
    requires Power !in buttons
    ensures PressAll(s, buttons).enabled == s.enabled
    decreases |buttons|
  {
    if buttons != [] {
      assert buttons[0] != Power;
      VolumeButtonsKeepPower(Press(s, buttons[0]), buttons[1..]);
    }
  }

  /**
   * The power button never changes the volume, and an even number of presses
   * restores the state.
   */
  lemma {:induction false} PowerKeepsVolume(s: DeviceState, buttons: seq<Button>)
    requires forall i :: 0 <= i < |buttons| ==> buttons[i] == Power
    ensures PressAll(s, buttons) ==
      if |buttons| % 2 == 0 then s else s.(enabled := !s.enabled)
    decreases |buttons|
  {
    if buttons != [] {
      PowerKeepsVolume(Press(s, buttons[0]), buttons[1..]);
    }
  }

  /** A TV or a Radio; the two differ only in their initial volume. */
  class Device {
    var enabled: bool
    var volume: int

    /** The volume never leaves 0..100. */
    ghost predicate Valid()
      reads this
    {
      0 <= volume <= 100
    }

    function State(): DeviceState
      reads this
    {
      DeviceState(enabled, volume)
    }

    constructor TV()
      ensures Valid() && !enabled && volume == 50
    {
      enabled := false;
      volume := 50;
    }

    constructor Radio()
      ensures Valid() && !enabled && volume == 30
    {
      enabled := false;
      volume := 30;
    }

    method Enable()
      modifies this
      ensures enabled && volume == old(volume)
    {
      enabled := true;
    }

    method Disable()
      modifies this
      ensures !enabled && volume == old(volume)
    {
      enabled := false;
    }

    /** Accepts only a volume in 0..100; any other value is ignored. */
    method SetVolume(volume: int)
      modifies this
      ensures this.volume == if 0 <= volume <= 100 then volume else old(this.volume)
      ensures enabled == old(enabled)
      ensures old(Valid()) ==> Valid()
    {
      if 0 <= volume && volume <= 100 {
        this.volume := volume;
      }
    }
  }

  /** The basic remote control. */
  class RemoteControl {
    const device: Device

    constructor (device: Device)
      ensures this.device == device
    {
      this.device := device;
    }

    /** Flips the power, reporting "off" exactly when the device was on; the volume is kept. */
    method TogglePower() returns (message: string)
      modifies device
      ensures device.enabled == !old(device.enabled)
      ensures device.volume == old(device.volume)
      ensures message == PowerMessage(old(device.enabled))
      ensures device.State() == Press(old(device.State()), Power)
    {
      if device.enabled {
        device.Disable();
        message := PowerMessage(true);
      } else {
        device.Enable();
        message := PowerMessage(false);
      }
    }

    /** Adds 10 unless that would pass 100, and reports the volume after the update. */
    method VolumeUp() returns (message: string)
      requires device.Valid()
      modifies device
      ensures device.Valid()
      ensures device.State() == Press(old(device.State()), Up)
      ensures device.volume == Raised(old(device.volume))
      ensures device.enabled == old(device.enabled)
      ensures message == IncreaseMessage(device.volume)
    {
      var volume := device.volume;
      device.SetVolume(volume + 10);
      message := IncreaseMessage(device.volume);
    }

    /** Subtracts 10 unless that would go below 0, and reports the volume after the update. */
    method VolumeDown() returns (message: string)
      requires device.Valid()
      modifies device
      ensures device.Valid()
      ensures device.State() == Press(old(device.State()), Down)
      ensures device.volume == Lowered(old(device.volume))
      ensures device.enabled == old(device.enabled)
      ensures message == DecreaseMessage(device.volume)
    {
      var volume := device.volume;
      device.SetVolume(volume - 10);
      message := DecreaseMessage(device.volume);
    }
  }

  /** The extended remote: everything the basic one does, plus mute. */
  class AdvancedRemoteControl {
    const remote: RemoteControl

    constructor (device: Device)
      ensures remote.device == device
    {
      remote := new RemoteControl(device);
    }

    /** Sets the volume to 0 and leaves the power alone. */
    method Mute() returns (message: string)
      modifies remote.device
      ensures remote.device.volume == 0 && remote.device.Valid()
      ensures remote.device.enabled == old(remote.device.enabled)
      ensures message == "AdvancedRemoteControl: Muting the device."
      ensures remote.device.State() == Press(old(remote.device.State()), Button.Mute)
    {
      remote.device.SetVolume(0);
      message := "AdvancedRemoteControl: Muting the device.";
    }
  }

  /** The four calls of the client code: power, volume up, volume down twice. */
  method ClientCode(remote: RemoteControl) returns (messages: seq<string>)
    requires remote.device.Valid()
    modifies remote.device
    ensures remote.device.Valid() && remote.device.enabled == !old(remote.device.enabled)
    ensures var up := Raised(old(remote.device.volume));
            messages == [PowerMessage(old(remote.device.enabled)), IncreaseMessage(up),
                         DecreaseMessage(Lowered(up)), DecreaseMessage(Lowered(Lowered(up)))]
            && remote.device.volume == Lowered(Lowered(up))
    ensures remote.device.State() == PressAll(old(remote.device.State()), [Power, Up, Down, Down])
  {
    var power := remote.TogglePower();
    var up := remote.VolumeUp();
    var down1 := remote.VolumeDown();
    var down2 := remote.VolumeDown();
    messages := [power, up, down1, down2];
  }

  /** The example script: a TV remote and an advanced Radio remote, each run through the client code. */
  method RemoteScenario() returns (tv: seq<string>, radio: seq<string>)
    ensures tv == ["RemoteControl: Turning on the device.", IncreaseMessage(60),
                   DecreaseMessage(50), DecreaseMessage(40)]
    ensures radio == ["RemoteControl: Turning on the device.", IncreaseMessage(40),
                      DecreaseMessage(30), DecreaseMessage(20)]
  {
    var television := new Device.TV();
    var tvRemote := new RemoteControl(television);
    tv := ClientCode(tvRemote);
    var receiver := new Device.Radio();
    var radioRemote := new AdvancedRemoteControl(receiver);
    radio := ClientCode(radioRemote.remote);
  }
}
