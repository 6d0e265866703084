/**
 * The state-changing logic of src/GuiController.js: the zoom-level slider,
 * the display-only refresh of the level, and the voxel position field with
 * the axis descriptors it caches. Widgets and strings are reduced to the
 * values they hold; what the controller asks of the scene is returned as a
 * list of commands.
 */
module GuiController {
  import opened Basics
  import opened Geometry
  import opened AxisConversion

  /** Range of the "Zoom level" slider (step 1). */
  const ZoomMin: int := 0
  const ZoomMax: int := 6

  /** The arrow between the current and the previewed level in the description. */
  const Arrow: string := " ➤ "

  /** A call the controller makes on the scene. */
  datatype Command =
    | SetResolutionLevel(level: int)
    | SetMultiplanePosition(x: Num, y: Num, z: Num)

  datatype Gui = Gui(
    resolutionLevel: int,
    zoomSlider: real,                  // value shown by the "Zoom level" slider
    description: string,               // text of the "Resolution" field
    axisInfo: Option<AxisInfo>,        // cached by the last multiplane update
    positionVoxel: Option<NumTriple>)  // "Position voxel" field, before rounding

  /** The state after one handler ran, with the commands it sent to the scene in order. */
  datatype Step = Step(gui: Gui, commands: seq<Command>)

  /** The configuration the scene reports after the multiplane moved. */
  datatype SpaceConfig = SpaceConfig(position: Vec3, rotation: Vec3, axisInfo: AxisInfo)

  datatype GuiError = NoAxisInfo  // `_axisInfo` is still null

  /** The constructor: the scene's level, a slider at 0, no description and no axis descriptors yet. */
  function NewGui(sceneLevel: int): (g: Gui)
    ensures g.resolutionLevel == sceneLevel && g.axisInfo == None && g.positionVoxel == None
    ensures g.zoomSlider == ZoomMin as real && g.description == ""
  {
    Gui(sceneLevel, 0.0, "", None, None)
  }

  /**
   * Releasing the zoom slider: the level is the floor of the slider value, it
   * is remembered and sent to the scene. The slider cannot leave its range.
   */
  function CommitZoom(g: Gui, value: real): (r: Step)
    requires ZoomMin as real <= value <= ZoomMax as real
    ensures ZoomMin <= r.gui.resolutionLevel <= ZoomMax
    ensures r.gui.resolutionLevel as real <= value < r.gui.resolutionLevel as real + 1.0
    ensures r.commands == [SetResolutionLevel(r.gui.resolutionLevel)]
    ensures r.gui.zoomSlider == value && r.gui.description == g.description
    ensures r.gui.axisInfo == g.axisInfo && r.gui.positionVoxel == g.positionVoxel
  {
    var level := value.Floor;
    Step(g.(resolutionLevel := level, zoomSlider := value), [SetResolutionLevel(level)])
  }

  /**
   * Dragging the zoom slider: the slider shows the value and the description
   * changes to "<current level key> ➤ <previewed level key>"; the level stays
   * and the scene is not told.
   */
  function PreviewZoom(g: Gui, value: real, levelKey: int -> string): (r: Step)
    requires ZoomMin as real <= value <= ZoomMax as real
    ensures r.commands == []
    ensures r.gui.resolutionLevel == g.resolutionLevel && r.gui.zoomSlider == value
    ensures r.gui.description == levelKey(g.resolutionLevel) + Arrow + levelKey(value.Floor)
    ensures ZoomMin <= value.Floor <= ZoomMax
    ensures r.gui.axisInfo == g.axisInfo && r.gui.positionVoxel == g.positionVoxel
  {
    Step(g.(zoomSlider := value,
            description := levelKey(g.resolutionLevel) + Arrow + levelKey(value.Floor)), [])
  }

  /**
   * `updateResolutionLevelUI(lvl)`: refreshes the stored level, the slider and
   * the description, and sends nothing to the scene.
   */
  function UpdateResolutionLevelUI(g: Gui, lvl: int, levelKey: int -> string): (r: Step)
    ensures r.commands == []
    ensures r.gui.resolutionLevel == lvl && r.gui.zoomSlider == lvl as real
    ensures r.gui.description == levelKey(lvl)
    ensures r.gui.axisInfo == g.axisInfo && r.gui.positionVoxel == g.positionVoxel
  {
    Step(g.(resolutionLevel := lvl, zoomSlider := lvl as real, description := levelKey(lvl)), [])
  }

  /**
   * `updateMultiplaneUI(spaceConfig)`: caches the axis descriptors and shows
   * the multiplane position converted to voxels, axis by axis. A degenerate
   * axis shows a non-finite value on that axis only; every other axis shows
   * the voxel that converts back to the multiplane's coordinate.
   */
  function UpdateMultiplaneUI(g: Gui, config: SpaceConfig): (r: Gui)
    ensures r.axisInfo == Some(config.axisInfo)
    ensures r.positionVoxel.Some?
    ensures r.positionVoxel.value.x.Finite? <==> Invertible(config.axisInfo.x)
    ensures r.positionVoxel.value.y.Finite? <==> Invertible(config.axisInfo.y)
    ensures r.positionVoxel.value.z.Finite? <==> Invertible(config.axisInfo.z)
    ensures Invertible(config.axisInfo.x) ==>
              VoxelToUnit(config.axisInfo.x, r.positionVoxel.value.x.value) == Finite(config.position.x)
    ensures Invertible(config.axisInfo.y) ==>
              VoxelToUnit(config.axisInfo.y, r.positionVoxel.value.y.value) == Finite(config.position.y)
    ensures Invertible(config.axisInfo.z) ==>
              VoxelToUnit(config.axisInfo.z, r.positionVoxel.value.z.value) == Finite(config.position.z)
    ensures r.resolutionLevel == g.resolutionLevel && r.zoomSlider == g.zoomSlider
    ensures r.description == g.description
  {
    ShownVoxelConvertsBack(config.axisInfo.x, config.position.x);
    ShownVoxelConvertsBack(config.axisInfo.y, config.position.y);
    ShownVoxelConvertsBack(config.axisInfo.z, config.position.z);
    g.(axisInfo := Some(config.axisInfo), positionVoxel := Some(UnitToVoxel3(config.axisInfo, config.position)))
  }

  /**
   * Pressing ENTER in the voxel position field: each coordinate is converted
   * to units with the cached descriptors and the multiplane is moved there.
   * Before any multiplane update the descriptors are null and the handler throws.
   */
  function EnterPositionVoxel(g: Gui, voxel: Vec3): (r: Result<Step, GuiError>)
    ensures g.axisInfo.None? <==> r == Failure(NoAxisInfo)
    ensures r.Success? ==> r.value.gui == g
    ensures r.Success? ==>
              var info := g.axisInfo.value;
              && r.value.commands == [SetMultiplanePosition(VoxelToUnit(info.x, voxel.x),
                                                            VoxelToUnit(info.y, voxel.y),
                                                            VoxelToUnit(info.z, voxel.z))]
  {
    match g.axisInfo
    case None => Failure(NoAxisInfo)
    case Some(info) =>
      var u := VoxelToUnit3(info, voxel);
      Success(Step(g, [SetMultiplanePosition(u.x, u.y, u.z)]))
  }

  /**
   * Typing back the exact voxel position the controller displayed moves the
   * multiplane to where it already was (before the display rounds it).
   */
  lemma EnterDisplayedVoxelKeepsPosition(g: Gui, config: SpaceConfig)
    requires AllInvertible(config.axisInfo)
    ensures var g' := UpdateMultiplaneUI(g, config);
            EnterPositionVoxel(g', Values(g'.positionVoxel.value))
            == Success(Step(g', [SetMultiplanePosition(Finite(config.position.x),
                                                       Finite(config.position.y),
                                                       Finite(config.position.z))]))
  {
    RoundTrip3(config.axisInfo, config.position);
  }
}
