// Timed power-ups (fitness supplements): each one counts down and, while
// active, multiplies a stat, grants a feature or scales the player. The
// manager keeps at most one entry per type and folds the entries into
// aggregate modifiers.

module PowerUps {
  import opened Wrappers
  import opened MathUtil

  const CREATINE: string := "creatine"
  const PROTEIN_SHAKE: string := "protein_shake"
  const PRE_WORKOUT: string := "pre_workout"

  /** The scale cap of the manager's aggregate. */
  const MAX_SCALE: real := 1.5

  datatype Info = Info(displayName: string, color: string, icon: string, scale: real)

  /** `PowerUpInfo[type]`: known for the three supplement types only. */
  function InfoOf(t: string): (r: Option<Info>)
    ensures r.Some? <==> t == CREATINE || t == PROTEIN_SHAKE || t == PRE_WORKOUT
    ensures r.Some? ==> 1.0 < r.value.scale <= 1.3 && r.value.displayName != ""
  {
    if t == CREATINE then Some(Info("CREATINE", "#FF4444", "CR", 1.2))
    else if t == PROTEIN_SHAKE then Some(Info("PROTEIN SHAKE", "#44FF44", "PR", 1.15))
    else if t == PRE_WORKOUT then Some(Info("PRE-WORKOUT", "#FFFF00", "PW", 1.3))
    else None
  }

  /** The info a new power-up carries: the table entry, or a neutral one named after the type. */
  function InfoOrDefault(t: string): (r: Info)
    ensures InfoOf(t).Some? ==> r == InfoOf(t).value
    ensures InfoOf(t).None? ==> r == Info(t, "#FFF", "?", 1.0)
  {
    if InfoOf(t).Some? then InfoOf(t).value else Info(t, "#FFF", "?", 1.0)
  }

  /**
   * The modifier table of an active power-up: creatine doubles damage,
   * protein shake gives speed 1.5 and jump 1.3, pre-workout speed 1.5;
   * every other stat and type gives 1.
   */
  function TypeModifier(t: string, stat: string): (r: real)
    ensures r >= 1.0
    ensures r != 1.0 <==>
      (t == CREATINE && stat == "damage") ||
      (t == PROTEIN_SHAKE && (stat == "speed" || stat == "jump")) ||
      (t == PRE_WORKOUT && stat == "speed")
    ensures t == CREATINE && stat == "damage" ==> r == 2.0
    ensures (t == PROTEIN_SHAKE || t == PRE_WORKOUT) && stat == "speed" ==> r == 1.5
    ensures t == PROTEIN_SHAKE && stat == "jump" ==> r == 1.3
  {
    if t == CREATINE then (if stat == "damage" then 2.0 else 1.0)
    else if t == PROTEIN_SHAKE then (if stat == "speed" then 1.5 else if stat == "jump" then 1.3 else 1.0)
    else if t == PRE_WORKOUT then (if stat == "speed" then 1.5 else 1.0)
    else 1.0
  }

  class PowerUp {
    const kind: string
    const duration: real
    var timeRemaining: real
    var active: bool
    var flashTime: real

    constructor (t: string, d: real)
      ensures kind == t && duration == d && timeRemaining == d && active && flashTime == 0.0
    {
      kind, duration, timeRemaining, active, flashTime := t, d, d, true, 0.0;
    }

    /** The display info, fixed by the type at construction. */
    function Details(): Info
    {
      InfoOrDefault(kind)
    }

    /** Counts down while active and switches off once no time is left; never switches back on. */
    method Update(dt: real)
      modifies this
      ensures !old(active) ==> unchanged(this)
      ensures old(active) ==>
        timeRemaining == old(timeRemaining) - dt && flashTime == old(flashTime) + 0.2 &&
        active == (timeRemaining > 0.0)
      ensures active ==> old(active)
    {
      if !active {
        return;
      }
      timeRemaining := timeRemaining - dt;
      flashTime := flashTime + 0.2;
      if timeRemaining <= 0.0 {
        active := false;
      }
    }

    /** 1 when inactive, else the type's entry in the modifier table. */
    function GetModifier(stat: string): (r: real)
      reads this
      ensures r >= 1.0
      ensures !active ==> r == 1.0
      ensures active ==> r == TypeModifier(kind, stat)
    {
      if !active then 1.0 else TypeModifier(kind, stat)
    }

    /** Only an active pre-workout has a feature, and its one feature is invincibility. */
    function HasFeature(feature: string): (b: bool)
      reads this
      ensures b <==> active && kind == PRE_WORKOUT && feature == "invincible"
    {
      if !active then false
      else kind == PRE_WORKOUT && feature == "invincible"
    }

    /** `info.scale || 1`, or 1 when inactive. */
    function GetScale(): (r: real)
      reads this
      ensures 1.0 <= r <= 1.3
      ensures !active ==> r == 1.0
      ensures active && InfoOf(kind).Some? ==> r == InfoOf(kind).value.scale
    {
      var scale := if Details().scale == 0.0 then 1.0 else Details().scale;
      if active then scale else 1.0
    }
  }

  /** No two entries share a type (so no object occurs twice). */
  predicate OnePerKind(s: seq<PowerUp>)
  {
    forall i, j :: 0 <= i < j < |s| ==> s[i].kind != s[j].kind
  }

  /** `filter(p => p.type !== t)`. */
  function WithoutKind(s: seq<PowerUp>, t: string): (r: seq<PowerUp>)
    ensures forall i :: 0 <= i < |r| ==> r[i] in s && r[i].kind != t
    ensures forall i :: 0 <= i < |s| && s[i].kind != t ==> s[i] in r
    ensures OnePerKind(s) ==> OnePerKind(r)
    ensures |r| <= |s|
    decreases |s|
  {
    if s == [] then []
    else if s[0].kind != t then [s[0]] + WithoutKind(s[1..], t)
    else WithoutKind(s[1..], t)
  }

  /** `filter(p => p.active)`. */
  function KeepActive(s: seq<PowerUp>): (r: seq<PowerUp>)
    reads s
    ensures forall i :: 0 <= i < |r| ==> r[i] in s && r[i].active
    ensures forall i :: 0 <= i < |s| && s[i].active ==> s[i] in r
    ensures OnePerKind(s) ==> OnePerKind(r)
    decreases |s|
  {
    if s == [] then []
    else if s[0].active then [s[0]] + KeepActive(s[1..])
    else KeepActive(s[1..])
  }

  /** The left fold `modifier *= p.getModifier(stat)` over the entries. */
  function ModifierProduct(s: seq<PowerUp>, stat: string): real
    reads s
    decreases |s|
  {
    if s == [] then 1.0 else ModifierProduct(s[..|s| - 1], stat) * s[|s| - 1].GetModifier(stat)
  }

  /** The left fold `scale *= p.getScale()` over the entries. */
  function ScaleProduct(s: seq<PowerUp>): real
    reads s
    decreases |s|
  {
    if s == [] then 1.0 else ScaleProduct(s[..|s| - 1]) * s[|s| - 1].GetScale()
  }

  /** `some(p => p.hasFeature(feature))`, scanned from the front. */
  function AnyHasFeature(s: seq<PowerUp>, feature: string): (b: bool)
    reads s
    ensures b <==> exists i :: 0 <= i < |s| && s[i].HasFeature(feature)
    decreases |s|
  {
    if s == [] then false
    else s[0].HasFeature(feature) || AnyHasFeature(s[1..], feature)
  }

  lemma ProductAtLeastOne(a: real, b: real)
    requires a >= 1.0 && b >= 1.0
    ensures a * b >= 1.0
  {
    assert a * b - 1.0 == (a - 1.0) * (b - 1.0) + (a - 1.0) + (b - 1.0);
    assert (a - 1.0) * (b - 1.0) >= 0.0;
  }

  /** Every factor is at least 1, so no power-up ever weakens a stat. */
  lemma {:induction false} ModifierProductAtLeastOne(s: seq<PowerUp>, stat: string)
    ensures ModifierProduct(s, stat) >= 1.0
    decreases |s|
  {
    if s != [] {
      ModifierProductAtLeastOne(s[..|s| - 1], stat);
      ProductAtLeastOne(ModifierProduct(s[..|s| - 1], stat), s[|s| - 1].GetModifier(stat));
    }
  }

  lemma {:induction false} ScaleProductAtLeastOne(s: seq<PowerUp>)
    ensures ScaleProduct(s) >= 1.0
    decreases |s|
  {
    if s != [] {
      ScaleProductAtLeastOne(s[..|s| - 1]);
      ProductAtLeastOne(ScaleProduct(s[..|s| - 1]), s[|s| - 1].GetScale());
    }
  }

  /** With no active entry every product is 1. */
  lemma {:induction false} InactiveProductIsOne(s: seq<PowerUp>, stat: string)
    requires forall i :: 0 <= i < |s| ==> !s[i].active
    ensures ModifierProduct(s, stat) == 1.0 && ScaleProduct(s) == 1.0
    decreases |s|
  {
    if s != [] {
      InactiveProductIsOne(s[..|s| - 1], stat);
    }
  }

  class PowerUpManager {
    var activePowerUps: seq<PowerUp>

    ghost predicate Valid()
      reads this
    {
      OnePerKind(activePowerUps)
    }

    constructor ()
      ensures Valid() && activePowerUps == []
    {
      activePowerUps := [];
    }

    /**
     * Replaces any entry of the same type by a fresh, full-length one at the
     * end of the list, so the list still holds at most one entry per type.
     */
    method Add(t: string, duration: real) returns (p: PowerUp)
      requires Valid()
      modifies this
      ensures Valid()
      ensures fresh(p) && p.kind == t && p.active && p.timeRemaining == duration && p.duration == duration
      ensures activePowerUps == WithoutKind(old(activePowerUps), t) + [p]
      ensures forall q :: q in activePowerUps && q.kind == t ==> q == p
    {
      activePowerUps := WithoutKind(activePowerUps, t);
      p := new PowerUp(t, duration);
      activePowerUps := activePowerUps + [p];
    }

    /** Steps every entry, then drops the ones that ran out: every remaining entry is active. */
    method Update(dt: real)
      requires Valid()
      modifies this, activePowerUps
      ensures Valid()
      ensures forall p :: p in old(activePowerUps) ==>
        (!old(p.active) ==> !p.active && p.timeRemaining == old(p.timeRemaining)) &&
        (old(p.active) ==> p.timeRemaining == old(p.timeRemaining) - dt &&
                           p.active == (p.timeRemaining > 0.0))
      ensures activePowerUps == KeepActive(old(activePowerUps))
      ensures forall p :: p in activePowerUps ==> p.active
    {
      var s := activePowerUps;
      var i := 0;
      while i < |s|
        invariant 0 <= i <= |s| && activePowerUps == s
        invariant forall k :: 0 <= k < i ==>
          (!old(s[k].active) ==> !s[k].active && s[k].timeRemaining == old(s[k].timeRemaining)) &&
          (old(s[k].active) ==> s[k].timeRemaining == old(s[k].timeRemaining) - dt &&
                                s[k].active == (s[k].timeRemaining > 0.0))
        invariant forall k :: i <= k < |s| ==>
          s[k].active == old(s[k].active) && s[k].timeRemaining == old(s[k].timeRemaining)
      {
        s[i].Update(dt);
        i := i + 1;
      }
      activePowerUps := KeepActive(s);
    }

    /** The product of the entries' modifiers for the stat; at least 1. */
    method GetModifier(stat: string) returns (modifier: real)
      ensures modifier == ModifierProduct(activePowerUps, stat)
      ensures modifier >= 1.0
    {
      modifier := 1.0;
      var i := 0;
      while i < |activePowerUps|
        invariant 0 <= i <= |activePowerUps|
        invariant modifier == ModifierProduct(activePowerUps[..i], stat)
      {
        assert activePowerUps[..i + 1][..i] == activePowerUps[..i];
        modifier := modifier * activePowerUps[i].GetModifier(stat);
        i := i + 1;
      }
      assert activePowerUps[..i] == activePowerUps;
      ModifierProductAtLeastOne(activePowerUps, stat);
    }

    /** True iff some entry has the feature. */
    function HasFeature(feature: string): (b: bool)
      reads this, activePowerUps
      ensures b <==> exists i :: 0 <= i < |activePowerUps| && activePowerUps[i].HasFeature(feature)
    {
      AnyHasFeature(activePowerUps, feature)
    }

    /** The product of the entries' scales, capped at 1.5. */
    method GetScale() returns (r: real)
      ensures r == Min(ScaleProduct(activePowerUps), MAX_SCALE)
      ensures 1.0 <= r <= MAX_SCALE
    {
      var scale := 1.0;
      var i := 0;
      while i < |activePowerUps|
        invariant 0 <= i <= |activePowerUps|
        invariant scale == ScaleProduct(activePowerUps[..i])
      {
        assert activePowerUps[..i + 1][..i] == activePowerUps[..i];
        scale := scale * activePowerUps[i].GetScale();
        i := i + 1;
      }
      assert activePowerUps[..i] == activePowerUps;
      ScaleProductAtLeastOne(activePowerUps);
      r := Min(scale, MAX_SCALE);
    }

    /** The table's display name, or "" for an unknown type. */
    function GetDisplayName(t: string): (r: string)
      ensures InfoOf(t).None? <==> r == ""
    {
      if InfoOf(t).Some? then InfoOf(t).value.displayName else ""
    }

    /** The table's colour, or "#FFF" for an unknown type. */
    function GetColor(t: string): (r: string)
      ensures InfoOf(t).None? ==> r == "#FFF"
      ensures InfoOf(t).Some? ==> r == InfoOf(t).value.color
    {
      if InfoOf(t).Some? then InfoOf(t).value.color else "#FFF"
    }

    method Clear()
      modifies this
      ensures Valid() && activePowerUps == []
    {
      activePowerUps := [];
    }
  }
}
