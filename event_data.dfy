/** The payload classes handed out by a device event: `Motion` and `DeviceInfo`.
    Both are still placeholders whose `operator bool` always answers false. */
module EventData {

  /** A mouse movement. The class declares no axes yet (they are still to do), and
      its timestamp is not modelled, so every movement is the same value. */
  datatype Motion = Motion {

    /** The `operator bool` of the class, a placeholder that is never true. */
    predicate Valid() {
      false
    }
  }

  /** Information about a device: its name and its identifier. */
  datatype DeviceInfo = DeviceInfo(name: string, id: string) {

    /** The `operator bool` of the class, a placeholder that is never true. */
    predicate Valid() {
      false
    }
  }

  /** A default-constructed device information: both strings are empty. */
  function DefaultDeviceInfo(): DeviceInfo {
    DeviceInfo([], [])
  }

  /** Neither payload class ever tests true as currently written. */
  lemma PlaceholdersTestFalse(m: Motion, d: DeviceInfo)
    ensures !m.Valid() && !d.Valid()
  {
  }
}
