/**
 * The stats every fighting character carries (player, followers) and the
 * three stat operations: melee attack, healing and stamina recovery.
 */
module Characters {
  import opened Wrappers
  import opened Geometry

  /** The fill colour of a sprite, kept only as a tag. */
  datatype Colour = Green | Red | Blue | Turquoise | Purple | Yellow | Orange

  datatype Weapon = Weapon(name: string, damage: int)

  /** Every character sprite is a 40 x 40 square. */
  const CharacterSize := 40

  /**
   * Adding `amount` to `current` without going above `cap`: the result is the
   * smaller of the two, so a non-negative amount applied to a value already
   * within the cap never lowers it and never exceeds the cap.
   */
  function CappedAdd(cap: int, current: int, amount: int): (r: int)
    ensures r <= cap && r <= current + amount
    ensures r == cap || r == current + amount
    ensures 0 <= amount && current <= cap ==> current <= r <= cap
  {
    if cap <= current + amount then cap else current + amount
  }

  /** The extra damage a weapon adds to a melee hit; none without a weapon. */
  function WeaponBonus(weapon: Option<Weapon>): int
  {
    if weapon.Some? then weapon.value.damage else 0
  }

  class Character {
    const name: string
    var rect: Rect
    var maxHealth: int
    var health: int
    var maxStamina: int
    var stamina: int
    var attackPower: int
    var weapon: Option<Weapon>
    var direction: Direction
    var colour: Colour

    /** A character centred on (`x`, `y`), at full health and stamina, unarmed and facing right. */
    constructor (name: string, x: int, y: int, colour: Colour, health: int, stamina: int, attackPower: int)
      ensures this.name == name && this.colour == colour
      ensures rect == CenteredRect(x, y, CharacterSize, CharacterSize)
      ensures maxHealth == health && this.health == health
      ensures maxStamina == stamina && this.stamina == stamina
      ensures this.attackPower == attackPower
      ensures weapon == None && direction == Right
    {
      this.name := name;
      rect := CenteredRect(x, y, CharacterSize, CharacterSize);
      maxHealth := health;
      this.health := health;
      maxStamina := stamina;
      this.stamina := stamina;
      this.attackPower := attackPower;
      weapon := None;
      direction := Right;
      this.colour := colour;
    }

    /**
     * A melee hit costs one stamina point and takes the attack power plus
     * the weapon's damage off the target's health; with no stamina left
     * nothing happens.
     */
    method Attack(target: Character)
      modifies this`stamina, target`health
      ensures old(stamina) > 0 ==>
        target.health == old(target.health) - (attackPower + WeaponBonus(weapon)) &&
        stamina == old(stamina) - 1
      ensures old(stamina) <= 0 ==> target.health == old(target.health) && stamina == old(stamina)
    {
      if stamina > 0 {
        var damage := attackPower + WeaponBonus(weapon);
        target.health := target.health - damage;
        stamina := stamina - 1;
      }
    }

    method Heal(amount: int)
      modifies this`health
      ensures health == CappedAdd(maxHealth, old(health), amount)
    {
      health := CappedAdd(maxHealth, health, amount);
    }

    method RestoreStamina(amount: int)
      modifies this`stamina
      ensures stamina == CappedAdd(maxStamina, old(stamina), amount)
    {
      stamina := CappedAdd(maxStamina, stamina, amount);
    }

    method EquipWeapon(w: Weapon)
      modifies this`weapon
      ensures weapon == Some(w)
    {
      weapon := Some(w);
    }
  }
}
