/** Value types shared by the drone behaviours: optional values, positions,
    the drone's operating mode and colours. */
module DroneTypes {

  datatype Option<+T> = None | Some(value: T)

  /** A Unity world position (Vector3); only compared and offset, never
      measured, so the floating-point geometry stays outside the model. */
  datatype Point = Point(x: real, y: real, z: real)

  /** enumDronMode. Its declaration is not part of this model: Patrol, Scan
      and Attack are the values the drone scripts name, and Other(n) stands
      for any further value of the enumeration. */
  datatype DronMode = Patrol | Scan | Attack | Other(code: int)

  /** A Unity Color, as four channels. */
  datatype Color = Color(r: real, g: real, b: real, a: real)
}
