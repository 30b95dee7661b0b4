/** DroneShieldScript: the shield whose material colour follows the drone's mode. */
module Shield {
  import opened DroneTypes

  /** The shader property the shield colour is written to. */
  const ShieldColorProperty: string := "Color_E9E5616A"

  /** A material, as the colour properties set on it. */
  datatype Material = Material(colors: map<string, Color>)

  /** The colour SetColor selects for a mode. */
  function ShieldColor(mode: DronMode, patrol: Color, scan: Color, attack: Color): (c: Color)
    ensures mode == Scan ==> c == scan
    ensures mode == Attack ==> c == attack
    ensures mode != Scan && mode != Attack ==> c == patrol
  {
    match mode
    case Scan => scan
    case Attack => attack
    case _ => patrol
  }

  /** With three distinct colours the shield tells the three looks apart:
      each colour is shown exactly for its modes. */
  lemma ShieldColorIdentifiesMode(mode: DronMode, patrol: Color, scan: Color, attack: Color)
    requires patrol != scan && patrol != attack && scan != attack
    ensures ShieldColor(mode, patrol, scan, attack) == scan <==> mode == Scan
    ensures ShieldColor(mode, patrol, scan, attack) == attack <==> mode == Attack
    ensures ShieldColor(mode, patrol, scan, attack) == patrol <==> mode != Scan && mode != Attack
  {
  }

  /** Whether SetColor ran to its end or hit the missing material. */
  datatype Outcome = Done | NullReference

  class DroneShieldScript {
    var patrolColor: Color
    var scanColor: Color
    var attackColor: Color
    var droneMode: DronMode
    /** shieldMaterial: None until Start has fetched the renderer's material. */
    var shieldMaterial: Option<Material>

    /** The shield before Start; mode0 is the field's initial value. */
    constructor (patrol: Color, scan: Color, attack: Color, mode0: DronMode)
      ensures patrolColor == patrol && scanColor == scan && attackColor == attack
      ensures droneMode == mode0 && shieldMaterial == None
    {
      patrolColor, scanColor, attackColor := patrol, scan, attack;
      droneMode := mode0;
      shieldMaterial := None;
    }

    /** The DronMode getter. */
    function DronMode(): (m: DronMode)
      reads this
      ensures m == droneMode
    {
      droneMode
    }

    /** The colour the current mode calls for. */
    function ModeColor(): (c: Color)
      reads this
    {
      ShieldColor(droneMode, patrolColor, scanColor, attackColor)
    }

    /** Whether the shield shows the colour its mode calls for. */
    predicate ShowsMode()
      reads this
    {
      shieldMaterial.Some? && ShieldColorProperty in shieldMaterial.value.colors
        && shieldMaterial.value.colors[ShieldColorProperty] == ModeColor()
    }

    /** SetColor: writes the selected colour to the material; before Start
        the material is null and the call throws. */
    method SetColor() returns (outcome: Outcome)
      modifies this`shieldMaterial
      ensures outcome == Done <==> old(shieldMaterial).Some?
      ensures old(shieldMaterial).None? ==> shieldMaterial == None
      ensures old(shieldMaterial).Some? ==>
        shieldMaterial == Some(Material(old(shieldMaterial).value.colors[ShieldColorProperty := ModeColor()]))
      ensures outcome == Done ==> ShowsMode()
    {
      if shieldMaterial.None? {
        return NullReference;
      }
      var color := match droneMode
        case Scan => scanColor
        case Attack => attackColor
        case _ => patrolColor;
      shieldMaterial := Some(Material(shieldMaterial.value.colors[ShieldColorProperty := color]));
      outcome := Done;
    }

    /** The DronMode setter: stores the mode, then re-applies the colour. */
    method SetDronMode(value: DronMode) returns (outcome: Outcome)
      modifies this`droneMode, this`shieldMaterial
      ensures DronMode() == value
      ensures outcome == Done <==> old(shieldMaterial).Some?
      ensures old(shieldMaterial).None? ==> shieldMaterial == None
      ensures old(shieldMaterial).Some? ==>
        shieldMaterial == Some(Material(old(shieldMaterial).value.colors[ShieldColorProperty := ShieldColor(value, patrolColor, scanColor, attackColor)]))
      ensures outcome == Done ==> ShowsMode()
    {
      droneMode := value;
      outcome := SetColor();
    }

    /** Start: fetches the renderer's material and applies the current mode's colour once. */
    method Start(rendererMaterial: Material)
      modifies this`shieldMaterial
      ensures shieldMaterial == Some(Material(rendererMaterial.colors[ShieldColorProperty := ModeColor()]))
      ensures ShowsMode()
    {
      shieldMaterial := Some(rendererMaterial);
      var outcome := SetColor();
    }
  }
}
