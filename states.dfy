/**
 * The game states: the base state with its activation hook and its empty
 * hooks, and the main menu, which builds its menu on the first activation,
 * forwards every hook to its GUI and clears its option texts on reset.
 * A hook call on a GUI element is recorded as an event; what the widget
 * itself does with it is modelled in the Gui module.
 */
module States {
  import opened Common
  import opened Gui
  import opened Entities

  /** A hook a state passes on to a GUI element. */
  datatype Hook =
    | SpawnHook
    | UpdateHook(dT: real)
    | DrawHook
    | KeyHook(keyCode: int, pressed: bool, released: bool, repeat: bool)

  /** One forwarded call: the hook and the element it reached. */
  datatype HookCall = HookCall(hook: Hook, target: Handle)

  /**
   * The nested loop every state runs over its registry: layers 0..15, each
   * layer's list in order, the same hook with the same arguments for every element.
   */
  method Broadcast(elements: seq<seq<Handle>>, hook: Hook) returns (calls: seq<HookCall>)
    ensures |calls| == |Flatten(elements)|
    ensures forall i :: 0 <= i < |calls| ==> calls[i] == HookCall(hook, Flatten(elements)[i])
  {
    calls := [];
    ghost var done: seq<Handle> := [];
    var l := 0;
    while l < |elements|
      invariant 0 <= l <= |elements| && done == Flatten(elements[..l])
      invariant |calls| == |done| && forall i :: 0 <= i < |calls| ==> calls[i] == HookCall(hook, done[i])
    {
      var layer := elements[l];
      var k := 0;
      while k < |layer|
        invariant 0 <= k <= |layer| && done == Flatten(elements[..l]) + layer[..k]
        invariant |calls| == |done| && forall i :: 0 <= i < |calls| ==> calls[i] == HookCall(hook, done[i])
      {
        assert layer[..k + 1] == layer[..k] + [layer[k]];
        calls := calls + [HookCall(hook, layer[k])];
        done := done + [layer[k]];
        k := k + 1;
      }
      FlattenSnoc(elements, l);
      assert layer[..k] == layer;
      l := l + 1;
    }
    assert elements[..l] == elements;
  }

  /** A broadcast reaches exactly the registered elements: one that is on some layer, and no other. */
  lemma BroadcastReaches(elements: seq<seq<Handle>>, hook: Hook, calls: seq<HookCall>, h: Handle)
    requires |calls| == |Flatten(elements)|
    requires forall i :: 0 <= i < |calls| ==> calls[i] == HookCall(hook, Flatten(elements)[i])
    ensures HookCall(hook, h) in calls <==> exists l :: 0 <= l < |elements| && h in elements[l]
  {
    FlattenMembers(elements);
    if HookCall(hook, h) in calls {
      var i :| 0 <= i < |calls| && calls[i] == HookCall(hook, h);
      assert h in Flatten(elements);
    }
    if l :| 0 <= l < |elements| && h in elements[l] {
      FlattenHas(elements, l, h);
      var i :| 0 <= i < |Flatten(elements)| && Flatten(elements)[i] == h;
      assert calls[i] == HookCall(hook, h);
    }
  }

  /** `for (auto& layer : gGUI.elements) layer.clear();` */
  method ClearLayers(gui: GUI)
    requires gui.Valid()
    modifies gui
    ensures gui.Valid() && forall l :: 0 <= l < MaxGuiLayers ==> gui.elements[l] == []
  {
    var l := 0;
    while l < MaxGuiLayers
      invariant 0 <= l <= MaxGuiLayers && gui.Valid()
      invariant forall m :: 0 <= m < l ==> gui.elements[m] == []
    {
      gui.elements := gui.elements[l := []];
      l := l + 1;
    }
  }

  // ---------------------------------------------------------------------------
  // The base state
  // ---------------------------------------------------------------------------

  /** BaseGameState: a name and a GUI of its own. */
  class BaseGameState {
    const name: string
    const gGUI: GUI

    constructor (name: string)
      ensures this.name == name && fresh(gGUI)
      ensures gGUI.Valid() && forall l :: 0 <= l < MaxGuiLayers ==> gGUI.elements[l] == []
    {
      this.name := name;
      gGUI := new GUI();
    }

    /**
     * OnStateActivated: the spawn hook once on every registered element, in
     * layer and list order; no element is added or removed (the console line
     * is not modelled).
     */
    method OnStateActivated() returns (spawned: seq<HookCall>)
      ensures |spawned| == |Flatten(gGUI.elements)|
      ensures forall i :: 0 <= i < |spawned| ==> spawned[i] == HookCall(SpawnHook, Flatten(gGUI.elements)[i])
    {
      spawned := Broadcast(gGUI.elements, SpawnHook);
    }

    // The remaining hooks of the base state do nothing; being methods without a
    // frame, they change no state.
    method OnStateDeactivated() { }
    method ResetState() { }
    method Update(dT: real) { }
    method OnKeyboardInput(keyCode: int, pressed: bool, released: bool, repeat: bool) { }
    method OnMouseWheelScrolled(x: int, y: int, direction: int) { }
    method Draw() { }
  }

  // ---------------------------------------------------------------------------
  // The main menu
  // ---------------------------------------------------------------------------

  const MainMenuName := "MainMenuState"
  const TitlePrefix := "RPG Project - Build: "

  /** The callbacks of the two menu options (the lambdas themselves are in the Overworld module and below). */
  const EnterDebugRoom := MenuFunction(0)
  const ToggleDebugMode := MenuFunction(1)
  const MainMenuOptions := [MenuOption("Enter Debug Room", EnterDebugRoom), MenuOption("Toggle Debug Mode", ToggleDebugMode)]

  /** The drawn boxes of a list of texts. */
  function TextBases(ts: seq<Text>): set<GuiElement>
  {
    set t | t in ts :: t.base
  }

  /**
   * What the first activation of the main menu leaves: the menu on the first
   * free layer, the title on the first free layer after that, then the two
   * option texts after everything else on the menu's layer; the options in
   * order, the title text and colour, and the two button positions.
   */
  ghost predicate MenuBuilt(before: seq<seq<Handle>>, after: seq<seq<Handle>>, menu: BaseMenu, title: Text, buildStamp: string)
    reads menu, title, menu.textOptions, TextBases(menu.textOptions)
  {
    var ml, tl := menu.base.guiLayer, title.base.guiLayer;
    IsFirstFreeLayer(before, ml) &&
    var withMenu := before[ml := before[ml] + [MenuElement(menu)]];
    IsFirstFreeLayer(withMenu, tl) &&
    var withTitle := withMenu[tl := withMenu[tl] + [TextElement(title)]];
    |menu.textOptions| == 2 && menu.options == MainMenuOptions &&
    var room, mode := menu.textOptions[0], menu.textOptions[1];
    var withRoom := withTitle[ml := withTitle[ml] + [TextElement(room)]];
    after == withRoom[ml := withRoom[ml] + [TextElement(mode)]] &&
    menu.base.elementName == "mainmenu" && title.base.elementName == "mainmenu_title" &&
    title.text == TitlePrefix + buildStamp && title.textColor == White &&
    room != mode && room.text == "Enter Debug Room" && mode.text == "Toggle Debug Mode" &&
    room.base.guiLayer == ml && mode.base.guiLayer == ml &&
    room.base.destinationRect.x == 100.0 && room.base.destinationRect.y == 100.0 &&
    mode.base.destinationRect.x == 100.0 && mode.base.destinationRect.y == 140.0
  }

  /** From an empty registry: layer 0 holds the menu and its two option texts, layer 1 the title, the rest nothing. */
  lemma FirstActivationLayout(before: seq<seq<Handle>>, after: seq<seq<Handle>>, menu: BaseMenu, title: Text, buildStamp: string)
    requires |before| == MaxGuiLayers && forall l :: 0 <= l < MaxGuiLayers ==> before[l] == []
    requires MenuBuilt(before, after, menu, title, buildStamp)
    ensures after[0] == [MenuElement(menu), TextElement(menu.textOptions[0]), TextElement(menu.textOptions[1])]
    ensures after[1] == [TextElement(title)]
    ensures forall l :: 2 <= l < MaxGuiLayers ==> after[l] == []
  {
    var ml, tl := menu.base.guiLayer, title.base.guiLayer;
    FirstFreeLayerOfEmpty(before, ml);
    var withMenu := before[ml := before[ml] + [MenuElement(menu)]];
    assert |withMenu[0]| == 1 && |withMenu[1]| == 0;
    assert tl == 1;
  }

  /** The registry once each option text has been removed from its layer, in the order of the texts. */
  function WithoutOptions(elements: seq<seq<Handle>>, texts: seq<Text>): (r: seq<seq<Handle>>)
    requires |elements| == MaxGuiLayers
    requires forall t :: t in texts ==> 0 <= t.base.guiLayer < MaxGuiLayers
    ensures |r| == MaxGuiLayers
  {
    if |texts| == 0 then elements
    else
      var t := texts[|texts| - 1];
      var prev := WithoutOptions(elements, texts[..|texts| - 1]);
      prev[t.base.guiLayer := RemoveFirst(prev[t.base.guiLayer], TextElement(t))]
  }

  /** Clearing the menu texts after the first activation from an empty registry leaves the menu and the title. */
  lemma ClearedLayout(before: seq<seq<Handle>>, after: seq<seq<Handle>>, menu: BaseMenu, title: Text, buildStamp: string)
    requires |before| == MaxGuiLayers && forall l :: 0 <= l < MaxGuiLayers ==> before[l] == []
    requires MenuBuilt(before, after, menu, title, buildStamp)
    ensures forall t :: t in menu.textOptions ==> 0 <= t.base.guiLayer < MaxGuiLayers
    ensures WithoutOptions(after, menu.textOptions)[0] == [MenuElement(menu)]
    ensures WithoutOptions(after, menu.textOptions)[1] == [TextElement(title)]
    ensures forall l :: 2 <= l < MaxGuiLayers ==> WithoutOptions(after, menu.textOptions)[l] == []
  {
    FirstActivationLayout(before, after, menu, title, buildStamp);
    var room, mode := menu.textOptions[0], menu.textOptions[1];
    FirstFreeLayerOfEmpty(before, menu.base.guiLayer);
    var texts := menu.textOptions;
    assert texts[..1][..0] == [] && texts[..1][0] == room;
    assert WithoutOptions(after, texts[..1][..0]) == after;
    var one := WithoutOptions(after, texts[..1]);
    assert one == after[0 := RemoveFirst(after[0], TextElement(room))];
    assert after[0] == [MenuElement(menu)] + [TextElement(room)] + [TextElement(mode)];
    assert one[0] == [MenuElement(menu), TextElement(mode)];
    assert texts[..|texts| - 1] == texts[..1];
    var two := WithoutOptions(after, texts);
    assert two == one[0 := RemoveFirst(one[0], TextElement(mode))];
    assert two[0] == [MenuElement(menu)];
  }

  /** The first step of the main menu's activation: the menu widget on the first free layer. */
  method AddMainMenu(gui: GUI) returns (menu: BaseMenu)
    requires gui.Valid() && forall l :: 0 <= l < MaxGuiLayers ==> |gui.elements[l]| < IntLimit
    modifies gui
    ensures gui.Valid() && fresh(menu) && fresh(menu.base)
    ensures menu.base.elementName == "mainmenu" && IsFirstFreeLayer(old(gui.elements), menu.base.guiLayer)
    ensures gui.elements == old(gui.elements)[menu.base.guiLayer := old(gui.elements)[menu.base.guiLayer] + [MenuElement(menu)]]
    ensures menu.textOptions == [] && menu.options == [] && menu.Valid()
  {
    var menuLayer := gui.FindFirstFreeLayer();
    menu := new BaseMenu(menuLayer, "mainmenu");
    gui.AddElement(MenuElement(menu), menu.base.guiLayer);
  }

  /** The title: a white text with the build stamp, on the first free layer once the menu is in. */
  method AddTitle(gui: GUI, buildStamp: string) returns (title: Text)
    requires gui.Valid() && forall l :: 0 <= l < MaxGuiLayers ==> |gui.elements[l]| < IntLimit
    modifies gui
    ensures gui.Valid() && fresh(title) && fresh(title.base)
    ensures title.base.elementName == "mainmenu_title" && IsFirstFreeLayer(old(gui.elements), title.base.guiLayer)
    ensures gui.elements == old(gui.elements)[title.base.guiLayer := old(gui.elements)[title.base.guiLayer] + [TextElement(title)]]
    ensures title.text == TitlePrefix + buildStamp && title.textColor == White
  {
    var titleLayer := gui.FindFirstFreeLayer();
    title := new Text(titleLayer, "mainmenu_title");
    title.SetText(TitlePrefix + buildStamp);
    title.SetTextColor(White);
    gui.AddElement(TextElement(title), title.base.guiLayer);
  }

  /** The two options, their button positions, and their texts appended to the menu's layer. */
  method AddMenuOptions(gui: GUI, menu: BaseMenu)
    requires gui.Valid() && 0 <= menu.base.guiLayer < MaxGuiLayers
    requires menu.textOptions == [] && menu.options == [] && menu.Valid()
    modifies gui, menu
    ensures gui.Valid() && menu.Valid() && |menu.textOptions| == 2 && menu.options == MainMenuOptions
    ensures fresh(menu.textOptions[0]) && fresh(menu.textOptions[1])
    ensures var room, mode, ml := menu.textOptions[0], menu.textOptions[1], menu.base.guiLayer;
      var withRoom := old(gui.elements)[ml := old(gui.elements)[ml] + [TextElement(room)]];
      gui.elements == withRoom[ml := withRoom[ml] + [TextElement(mode)]] &&
      room != mode && room.text == "Enter Debug Room" && mode.text == "Toggle Debug Mode" &&
      room.base.guiLayer == ml && mode.base.guiLayer == ml &&
      room.base.destinationRect.x == 100.0 && room.base.destinationRect.y == 100.0 &&
      mode.base.destinationRect.x == 100.0 && mode.base.destinationRect.y == 140.0
  {
    var room := menu.AddMenuOption("Enter Debug Room", EnterDebugRoom);
    room.base.destinationRect := room.base.destinationRect.(x := 100.0, y := 100.0);
    var mode := menu.AddMenuOption("Toggle Debug Mode", ToggleDebugMode);
    mode.base.destinationRect := mode.base.destinationRect.(x := 100.0, y := 140.0);
    gui.AddElement(TextElement(room), room.base.guiLayer);
    gui.AddElement(TextElement(mode), mode.base.guiLayer);
  }

  /** The "Toggle Debug Mode" callback: negate the engine's debug flag (twice restores it). */
  method ToggleDebugModeCallback(engine: Engine)
    modifies engine`debugModeEnabled
    ensures engine.debugModeEnabled == !old(engine.debugModeEnabled)
  {
    engine.debugModeEnabled := !engine.debugModeEnabled;
  }

  /**
   * MainMenuState. Its name is its own member, which hides the base state's
   * (left empty); the menu is built on the first activation and kept after.
   */
  class MainMenuState {
    const name: string
    const base: BaseGameState
    var mainmenu: Option<BaseMenu>

    ghost predicate Valid()
      reads this, base.gGUI, if mainmenu.Some? then {mainmenu.value} else {}
      reads if mainmenu.Some? then TextBases(mainmenu.value.textOptions) else {}
    {
      base.gGUI.Valid() &&
      (mainmenu.Some? ==>
         mainmenu.value.Valid() && forall t :: t in mainmenu.value.textOptions ==> 0 <= t.base.guiLayer < MaxGuiLayers)
    }

    /** The constructor registers the state with the engine. */
    constructor (engine: Engine)
      modifies engine`states
      ensures name == MainMenuName && fresh(base) && fresh(base.gGUI) && base.name == ""
      ensures base.gGUI.Valid() && forall l :: 0 <= l < MaxGuiLayers ==> base.gGUI.elements[l] == []
      ensures mainmenu.None? && Valid()
      ensures engine.states == old(engine.states) + [this]
    {
      name := MainMenuName;
      base := new BaseGameState("");
      mainmenu := None;
      new;
      engine.states := engine.states + [this];
    }

    /**
     * OnStateActivated: the first time, build the menu, the title and the two
     * options; the menu and the title get the spawn hook. Later activations
     * change nothing.
     */
    method OnStateActivated(buildStamp: string) returns (spawned: seq<Handle>)
      requires Valid()
      requires forall l :: 0 <= l < MaxGuiLayers ==> |base.gGUI.elements[l]| + 1 < IntLimit
      modifies this, base.gGUI
      ensures Valid()
      ensures old(mainmenu).Some? ==>
        mainmenu == old(mainmenu) && base.gGUI.elements == old(base.gGUI.elements) && spawned == []
      ensures old(mainmenu).None? ==>
        mainmenu.Some? && fresh(mainmenu.value) && |spawned| == 2 && spawned[0] == MenuElement(mainmenu.value) &&
        spawned[1].TextElement? && fresh(spawned[1].text) &&
        MenuBuilt(old(base.gGUI.elements), base.gGUI.elements, mainmenu.value, spawned[1].text, buildStamp)
    {
      if mainmenu.Some? {
        return [];
      }
      var gui := base.gGUI;
      var menu := AddMainMenu(gui);
      mainmenu := Some(menu);
      var title := AddTitle(gui, buildStamp);
      AddMenuOptions(gui, menu);
      spawned := [MenuElement(menu), TextElement(title)];
    }

    /** Update, Draw and OnKeyboardInput hand the call, unchanged, to every element in layer order. */
    method Update(dT: real) returns (calls: seq<HookCall>)
      ensures |calls| == |Flatten(base.gGUI.elements)|
      ensures forall i :: 0 <= i < |calls| ==> calls[i] == HookCall(UpdateHook(dT), Flatten(base.gGUI.elements)[i])
    {
      calls := Broadcast(base.gGUI.elements, UpdateHook(dT));
    }

    method Draw() returns (calls: seq<HookCall>)
      ensures |calls| == |Flatten(base.gGUI.elements)|
      ensures forall i :: 0 <= i < |calls| ==> calls[i] == HookCall(DrawHook, Flatten(base.gGUI.elements)[i])
    {
      calls := Broadcast(base.gGUI.elements, DrawHook);
    }

    method OnKeyboardInput(keyCode: int, pressed: bool, released: bool, repeat: bool) returns (calls: seq<HookCall>)
      ensures |calls| == |Flatten(base.gGUI.elements)|
      ensures forall i :: 0 <= i < |calls| ==>
        calls[i] == HookCall(KeyHook(keyCode, pressed, released, repeat), Flatten(base.gGUI.elements)[i])
    {
      calls := Broadcast(base.gGUI.elements, KeyHook(keyCode, pressed, released, repeat));
    }

    /** OnStateDeactivated does nothing. */
    method OnStateDeactivated() { }

    /** ClearMenuElements: remove every option text from its layer, then drop the texts but keep the options. */
    method ClearMenuElements()
      requires Valid() && mainmenu.Some?
      modifies base.gGUI, mainmenu.value
      ensures Valid() && mainmenu == old(mainmenu)
      ensures base.gGUI.elements == WithoutOptions(old(base.gGUI.elements), old(mainmenu.value.textOptions))
      ensures mainmenu.value.textOptions == [] && mainmenu.value.options == old(mainmenu.value.options)
      ensures mainmenu.value.currentlySelectedOption == old(mainmenu.value.currentlySelectedOption)
    {
      var menu := mainmenu.value;
      var gui := base.gGUI;
      var texts := menu.textOptions;
      var i := 0;
      while i < |texts|
        invariant 0 <= i <= |texts| && gui.Valid() && unchanged(menu)
        invariant forall t :: t in texts[..i] ==> t in texts
        invariant gui.elements == WithoutOptions(old(gui.elements), texts[..i])
      {
        assert texts[..i + 1][..i] == texts[..i];
        assert forall t :: t in texts[..i + 1] ==> t in texts;
        gui.RemoveElement(TextElement(texts[i]), texts[i].base.guiLayer);
        i := i + 1;
      }
      assert texts[..i] == texts;
      menu.textOptions := [];
    }

    /** ResetState: ClearMenuElements, then every layer emptied; the menu handle is kept. */
    method ResetState()
      requires Valid() && mainmenu.Some?
      modifies base.gGUI, mainmenu.value
      ensures Valid() && mainmenu == old(mainmenu)
      ensures forall l :: 0 <= l < MaxGuiLayers ==> base.gGUI.elements[l] == []
      ensures mainmenu.value.textOptions == [] && mainmenu.value.options == old(mainmenu.value.options)
    {
      ClearMenuElements();
      ClearLayers(base.gGUI);
    }
  }

  /** The function-local static of MainMenuState::instance(): built, and registered, on the first call. */
  class MainMenuInstance {
    var instance: MainMenuState?

    constructor ()
      ensures instance == null
    {
      instance := null;
    }

    method Get(engine: Engine) returns (s: MainMenuState)
      modifies this, engine`states
      ensures old(instance) != null ==> s == old(instance) && engine.states == old(engine.states)
      ensures old(instance) == null ==> fresh(s) && s.mainmenu.None? && engine.states == old(engine.states) + [s]
      ensures instance == s
    {
      if instance == null {
        instance := new MainMenuState(engine);
      }
      s := instance;
    }
  }
}
