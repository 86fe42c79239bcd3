/**
 * Shared vocabulary of the visualizer: the recognised hand gestures, the
 * camera-mode label kept in the view state, and the optional planet id
 * (`string | null` in the source, `Option<string>` here).
 */
module Types {

  /** The hand gestures the gesture layer can report. */
  datatype GestureType = Idle | OpenHand | ClosedFist | Pointing | Victory

  /** The label the store keeps for the camera. `Free` is declared by the
      state type but no setter ever stores it. */
  datatype CameraMode = Orbital | Locked | Free

  /** `T | null`: `None` stands for JavaScript's `null`. */
  datatype Option<T> = None | Some(value: T)

  /** JavaScript truthiness of a `string | null`: `null` and the empty
      string are falsy, every other string is truthy. */
  predicate Truthy(id: Option<string>)
  {
    id.Some? && id.value != ""
  }
}
