/** Model of the tri-state key driver's decoding: the GPIO levels of the
    slider's keys select the switch state MUTE, DO_NOT_DISTURB or NORMAL,
    by one rule on the old two-key hardware and another on the new
    three-key hardware. */
module TriStateKey {

  /** tri_mode_t; MODE_MAX_NUM only counts the modes and is not a state. */
  datatype Mode = Unknown | Mute | DoNotDisturb | Normal

  /** hw_type: which board revision the device tree describes. */
  datatype HwType = HwOld | HwNew

  const EINVAL: int := 22

  /** The wiring table of the old hardware: (KEY1 level, KEY2 level, mode), high = true. */
  const PinTable: seq<(bool, bool, Mode)> := [
    (false, true, Mute),
    (true, true, DoNotDisturb),
    (true, false, Normal)
  ]

  /** The old hardware's nested test: KEY2 low means NORMAL, otherwise KEY1 picks DND or MUTE. */
  function OldHwMode(key1High: bool, key2High: bool): Mode
  {
    if !key2High then Normal
    else if key1High then DoNotDisturb
    else Mute
  }

  /** The new hardware's rule read as a priority: KEY1 low beats KEY3 low beats
      KEY2 low; with every key high the state stays as it was. */
  function NewHwMode(key1High: bool, key2High: bool, key3High: bool, current: Mode): Mode
  {
    if !key1High then Mute
    else if !key3High then DoNotDisturb
    else if !key2High then Normal
    else current
  }

  /** The old hardware's decoder reproduces every row of the wiring table,
      and always yields a real mode. */
  lemma OldHwMatchesPinTable(key1High: bool, key2High: bool)
    ensures forall row :: row in PinTable ==> OldHwMode(row.0, row.1) == row.2
    ensures OldHwMode(key1High, key2High) != Unknown
    ensures !key2High ==> OldHwMode(key1High, key2High) == Normal
  {
  }

  /** With KEY3 high, the new hardware agrees with the old on the MUTE and
      NORMAL rows of the wiring table; the DND row (both keys high) keeps the
      state on the new hardware, which signals DND through KEY3 instead. */
  lemma NewHwOnPinTable(current: Mode)
    ensures NewHwMode(false, true, true, current) == OldHwMode(false, true) == Mute
    ensures NewHwMode(true, false, true, current) == OldHwMode(true, false) == Normal
    ensures NewHwMode(true, true, true, current) == current
    ensures NewHwMode(true, true, false, current) == DoNotDisturb
  {
  }

  class TriStateKeyDevice {
    /** sdev.state, the value switch_set_state last wrote. */
    var state: Mode
    var hwVersion: HwType
    var key3Gpio: int

    /** Zero-initialised driver data: state MODE_UNKNOWN, hw_version hw_old. */
    constructor ()
      ensures state == Unknown && hwVersion == HwOld
    {
      state := Unknown;
      hwVersion := HwOld;
      key3Gpio := 0;
    }

    /** The key3 lookup during device-tree parsing: a GPIO other than
        -EINVAL means the three-key hardware. */
    method SelectHwVersion(key3Lookup: int)
      modifies this`key3Gpio, this`hwVersion
      ensures key3Gpio == key3Lookup
      ensures hwVersion == HwNew <==> key3Lookup != -EINVAL
    {
      key3Gpio := key3Lookup;
      if key3Gpio != -EINVAL {
        hwVersion := HwNew;
      } else {
        hwVersion := HwOld;
      }
    }

    /** switch_dev_work for the sampled key levels (high = true). On the new
        hardware three tests write in turn, so the last matching write wins. */
    method SwitchDevWork(key1High: bool, key2High: bool, key3High: bool)
      modifies this`state
      ensures hwVersion == HwOld ==> state == OldHwMode(key1High, key2High)
      ensures hwVersion == HwNew ==> state == NewHwMode(key1High, key2High, key3High, old(state))
    {
      if hwVersion == HwOld {
        if !key2High {
          state := Normal;
        } else {
          if key1High {
            state := DoNotDisturb;
          } else {
            state := Mute;
          }
        }
      } else if hwVersion == HwNew {
        if !key2High {
          state := Normal;
        }
        if !key3High {
          state := DoNotDisturb;
        }
        if !key1High {
          state := Mute;
        }
      }
    }
  }
}
