/**
 * Engine-side values the game scripts work with: sprite assets, which cards
 * compare by identity and save files refer to by name, and positions
 * (Vector3). Positions are integral here: the grid generator only produces
 * multiples of 60 (spacing 120 and halves of it), which floats hold exactly.
 */
module Engine {
  /** A sprite asset: `asset` stands for the object's identity, `name` for its asset name. */
  datatype Sprite = Sprite(name: string, asset: nat)

  datatype Vector3 = Vector3(x: int, y: int, z: int)

  const Zero: Vector3 := Vector3(0, 0, 0)
}
