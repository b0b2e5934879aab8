// Per-type enemy statistics.

module EnemyData {

  datatype EnemyKind = Candy | Chips | Soda | Cake

  datatype EnemyConfig = EnemyConfig(width: real, height: real, hp: real, speed: real,
                                     damage: int, score: int)

  function ConfigOf(kind: EnemyKind): EnemyConfig
  {
    match kind
    case Candy => EnemyConfig(28.0, 28.0, 25.0, 1.5, 10, 100)
    case Chips => EnemyConfig(28.0, 32.0, 40.0, 2.0, 15, 200)
    case Soda => EnemyConfig(24.0, 36.0, 30.0, 2.5, 20, 250)
    case Cake => EnemyConfig(48.0, 48.0, 80.0, 1.0, 25, 400)
  }

  /** The body colour each type's death burst uses. */
  function ColorOf(kind: EnemyKind): string
  {
    match kind
    case Candy => "#ff69b4"
    case Chips => "#ffa500"
    case Soda => "#dc143c"
    case Cake => "#deb887"
  }

  // Chips: ranged.
  const CHIPS_PROJECTILE_SPEED: real := 3.0
  const CHIPS_PROJECTILE_DAMAGE: int := 10
  const CHIPS_FIRE_RATE: int := 90
  const CHIPS_DETECTION_RANGE: real := 200.0

  // Soda: charger.
  const SODA_CHARGE_SPEED: real := 5.0
  const SODA_DETECTION_RANGE: real := 150.0
  const SODA_EXPLOSION_RADIUS: real := 64.0
  const SODA_EXPLOSION_DAMAGE: int := 15

  // Cake: tank that calls for help.
  const CAKE_SPAWN_MINIONS_AT_HP_PERCENT: real := 0.5
}
