/** The flag masks of the Create 2 Open Interface sensor bitfields, as the
    library's constant tables give them.  Each mask is a single binary digit. */
module CreateOi {

  // Charging sources available (packet 34)
  const CHARGE_SOURCE_INTERNAL := 0x01
  const CHARGE_SOURCE_HOME_BASE := 0x02

  // Buttons (packet 18)
  const BUTTON_CLEAN := 0x01
  const BUTTON_SPOT := 0x02
  const BUTTON_DOCK := 0x04
  const BUTTON_MINUTE := 0x08
  const BUTTON_HOUR := 0x10
  const BUTTON_DAY := 0x20
  const BUTTON_SCHEDULE := 0x40
  const BUTTON_CLOCK := 0x80

  // Wheel overcurrents (packet 14)
  const OVERCURRENT_SIDE_BRUSH := 0x01
  const OVERCURRENT_MAIN_BRUSH := 0x02
  const OVERCURRENT_RIGHT_WHEEL := 0x04
  const OVERCURRENT_LEFT_WHEEL := 0x08

  // Bumps and wheel drops (packet 7)
  const BUMP_RIGHT := 0x01
  const BUMP_LEFT := 0x02
  const WHEEL_DROP_RIGHT := 0x04
  const WHEEL_DROP_LEFT := 0x08

  // Light bumper (packet 45)
  const LIGHT_BUMPER_LEFT := 0x01
  const LIGHT_BUMPER_FRONT_LEFT := 0x02
  const LIGHT_BUMPER_CENTER_LEFT := 0x04
  const LIGHT_BUMPER_CENTER_RIGHT := 0x08
  const LIGHT_BUMPER_FRONT_RIGHT := 0x10
  const LIGHT_BUMPER_RIGHT := 0x20

  // Stasis (packet 58)
  const STASIS_TOGGLING := 0x01
  const STASIS_DISABLED := 0x02
}
