/** The key record shared by the layout and the hit test (`PianoKey` in types.ts). */
module PianoTypes {

  datatype KeyType = White | Black

  /** One key rectangle in keyboard-local coordinates. The frequency is carried
      as an opaque value: nothing in the model computes with it. */
  datatype PianoKey = PianoKey(
    note: string,
    keyType: KeyType,
    frequency: real,
    x: int,
    y: int,
    width: int,
    height: int)
}
