// The item table and the factory that builds a collectible from a named
// configuration.

module Items {
  import opened Wrappers
  import opened PowerUps
  import opened Collectibles

  /** One table entry; 0 and "" stand for a property the entry does not have. */
  datatype ItemConfig = ItemConfig(kind: string, value: ItemValue, score: int, duration: int,
                                   displayName: string)

  /** `ItemConfigs[name]`: the seven known items, nothing for any other name. */
  function ItemConfigOf(name: string): (r: Option<ItemConfig>)
    ensures r.Some? <==> name in {"coin", "coinLarge", "healthSmall", "healthLarge",
                                  "powerCreatine", "powerProtein", "powerPreWorkout"}
    ensures r.Some? ==> r.value.kind in {"coin", "health", "powerup"}
    ensures r.Some? && r.value.kind != "powerup" ==> r.value.value.Amount? && r.value.value.n > 0
    ensures r.Some? && r.value.kind == "coin" ==> r.value.score == r.value.value.n
    ensures r.Some? && r.value.kind == "powerup" ==> r.value.duration > 0 && r.value.score > 0
  {
    match name
    case "coin" => Some(ItemConfig("coin", Amount(10), 10, 0, ""))
    case "coinLarge" => Some(ItemConfig("coin", Amount(50), 50, 0, ""))
    case "healthSmall" => Some(ItemConfig("health", Amount(25), 0, 0, ""))
    case "healthLarge" => Some(ItemConfig("health", Amount(50), 0, 0, ""))
    case "powerCreatine" => Some(ItemConfig("powerup", PowerType(CREATINE), 25, 12, "CREATINE"))
    case "powerProtein" => Some(ItemConfig("powerup", PowerType(PROTEIN_SHAKE), 20, 10, "PROTEIN SHAKE"))
    case "powerPreWorkout" => Some(ItemConfig("powerup", PowerType(PRE_WORKOUT), 30, 8, "PRE-WORKOUT"))
    case _ => None
  }

  /**
   * Every supplement entry names a power-up type the power-up table knows,
   * under the same display name.
   */
  lemma PowerupEntriesAreKnownTypes(name: string)
    requires ItemConfigOf(name).Some? && ItemConfigOf(name).value.kind == "powerup"
    ensures var c := ItemConfigOf(name).value;
      c.value.PowerType? &&
      c.value.name in {CREATINE, PROTEIN_SHAKE, PRE_WORKOUT} &&
      InfoOf(c.value.name).Some? && InfoOf(c.value.name).value.displayName == c.displayName
  {
  }

  /**
   * `createCollectible`: null for an unknown name; otherwise a fresh,
   * uncollected item at (x, y) with the entry's type, value, score,
   * duration and display name, remembering the name it came from.
   */
  method CreateCollectible(name: string, x: real, y: real, bobPhase: real) returns (c: Collectible?)
    ensures c == null <==> ItemConfigOf(name).None?
    ensures c != null ==> fresh(c) && !c.collected && c.x == x && c.y == y
    ensures c != null ==>
      var cfg := ItemConfigOf(name).value;
      c.kind == cfg.kind && c.value == cfg.value && c.configName == name &&
      c.score == cfg.score && c.duration == cfg.duration && c.displayName == cfg.displayName
  {
    var config := ItemConfigOf(name);
    if config.None? {
      return null;
    }
    c := new Collectible(x, y, config.value.kind, config.value.value, bobPhase);
    c.configName := name;
    c.score := config.value.score;
    c.duration := config.value.duration;
    c.displayName := config.value.displayName;
  }
}
