/**
 * Entities: the Entity base (tags, Renderable positioning, collision), the four
 * kinds a level builds (Character, NPC, door, light), the engine's global entity
 * register, the shared level-transition record and the player's pawn.
 *
 * C++ subclassing is modelled by one class with a `kind` that never changes; the
 * fields of every subclass live on it, and each override is a method that
 * requires its kind.
 */
module Entities {
  import opened Common
  import opened Geometry
  import opened Json
  import opened Tags
  import opened Resources
  import opened Gui

  datatype EntityKind = PlainEntity | CharacterEntity | NpcEntity | DoorEntity | LightEntity

  /** Tags that the entity code looks for or adds by literal string. */
  const CharacterTag := "Character"
  const DontMove := "DontMove"
  const Moveable := "Moveable"
  const LightTag := "Light"

  /** SDL keycodes of the movement keys. */
  const KeyW := 119
  const KeyA := 97
  const KeyS := 115
  const KeyD := 100

  /** LEVEL_TRANSITION_FADE: the fade length a door asks for. */
  const LevelTransitionFade := 25

  /** The texture a Character looks up when it spawns. */
  const TestCubePath := "assets/debug/test_cube.png"

  /** An SDL_Color without its alpha channel, as lights and tiles use it. */
  datatype Rgb = Rgb(r: Byte, g: Byte, b: Byte)

  /** The "onUse" object of an NPC action document; missing members are JNull. */
  datatype UseAction = UseAction(action: JValue, dialogueBoxType: JValue, messageFile: JValue)

  /** An NPC action document: whether it contains "onUse", and what that holds. */
  datatype NpcActions = NpcActions(onUse: Option<UseAction>)

  /** The json default value: a null document, which contains nothing. */
  const NoActions := NpcActions(None)

  // ---------------------------------------------------------------------------
  // Tiled property lists
  // ---------------------------------------------------------------------------

  /** The value of the last property with this name: what a loop that assigns on every match leaves. */
  function LastValue(props: seq<Property>, name: string): (r: Option<JValue>)
    ensures r.None? <==> forall i :: 0 <= i < |props| ==> props[i].name != name
    ensures r.Some? ==> exists i :: 0 <= i < |props| && props[i].name == name && props[i].value == r.value &&
                                    forall j :: i < j < |props| ==> props[j].name != name
    decreases |props|
  {
    if |props| == 0 then None
    else if props[|props| - 1].name == name then Some(props[|props| - 1].value)
    else LastValue(props[..|props| - 1], name)
  }

  /** Every property with this name holds a string (get<std::string> would throw otherwise). */
  predicate StringValued(props: seq<Property>, name: string)
  {
    forall i :: 0 <= i < |props| && props[i].name == name ==> props[i].value.JString?
  }

  /** Every property with this name holds a boolean. */
  predicate BoolValued(props: seq<Property>, name: string)
  {
    forall i :: 0 <= i < |props| && props[i].name == name ==> props[i].value.JBool?
  }

  /** Every property with this name converts to a number (get<int> and get<float>). */
  predicate NumberValued(props: seq<Property>, name: string)
  {
    forall i :: 0 <= i < |props| && props[i].name == name ==> AsReal(props[i].value).Some?
  }

  /** The string a property loop leaves in a field that held `current`. */
  function StringProperty(props: seq<Property>, name: string, current: string): string
    requires StringValued(props, name)
  {
    match LastValue(props, name)
    case None => current
    case Some(v) => AsString(v).value
  }

  /** The boolean a property loop leaves in a field that held `current`. */
  function BoolProperty(props: seq<Property>, name: string, current: bool): bool
    requires BoolValued(props, name)
  {
    match LastValue(props, name)
    case None => current
    case Some(v) => AsBool(v).value
  }

  /** The float a property loop leaves in a field that held `current`. */
  function RealProperty(props: seq<Property>, name: string, current: real): real
    requires NumberValued(props, name)
  {
    match LastValue(props, name)
    case None => current
    case Some(v) => AsReal(v).value
  }

  /** The int a property loop leaves in a field that held `current`. */
  function IntProperty(props: seq<Property>, name: string, current: int): int
    requires NumberValued(props, name)
  {
    match LastValue(props, name)
    case None => current
    case Some(v) => AsInt(v).value
  }

  /** The Uint8 a property loop leaves in a colour channel: the int, reduced modulo 256. */
  function ByteProperty(props: seq<Property>, name: string, current: Byte): Byte
    requires NumberValued(props, name)
  {
    match LastValue(props, name)
    case None => current
    case Some(v) => ToByte(AsInt(v).value)
  }

  /** One more property: the last value changes exactly when the new property has the name. */
  lemma LastValueSnoc(props: seq<Property>, p: Property, name: string)
    ensures LastValue(props + [p], name) == if p.name == name then Some(p.value) else LastValue(props, name)
  {
    assert (props + [p])[..|props|] == props;
  }

  /** Properties with other names appended after the last match do not change it. */
  lemma {:induction false} LastValueIgnoresOthers(props: seq<Property>, others: seq<Property>, name: string)
    requires forall i :: 0 <= i < |others| ==> others[i].name != name
    ensures LastValue(props + others, name) == LastValue(props, name)
    decreases |others|
  {
    if |others| == 0 {
      assert props + others == props;
    } else {
      var init := others[..|others| - 1];
      assert props + others == (props + init) + [others[|others| - 1]];
      LastValueSnoc(props + init, others[|others| - 1], name);
      LastValueIgnoresOthers(props, init, name);
    }
  }

  /** A later duplicate overwrites an earlier one, whatever other names follow. */
  lemma LaterDuplicateWins(props: seq<Property>, name: string, v: JValue, w: JValue, others: seq<Property>)
    requires forall i :: 0 <= i < |others| ==> others[i].name != name
    ensures LastValue(props + [Property(name, v), Property(name, w)] + others, name) == Some(w)
  {
    var s := props + [Property(name, v), Property(name, w)];
    assert s == (props + [Property(name, v)]) + [Property(name, w)];
    LastValueSnoc(props + [Property(name, v)], Property(name, w), name);
    LastValueIgnoresOthers(s, others, name);
  }

  /** One more property read by a string-valued loop: the field takes its value exactly when the name matches. */
  lemma StringStep(props: seq<Property>, i: nat, name: string, current: string)
    requires i < |props| && StringValued(props, name)
    ensures StringValued(props[..i], name) && StringValued(props[..i + 1], name)
    ensures props[i].name == name ==> AsString(props[i].value).Some?
    ensures StringProperty(props[..i + 1], name, current) ==
            if props[i].name == name then AsString(props[i].value).value else StringProperty(props[..i], name, current)
  {
    assert props[..i + 1] == props[..i] + [props[i]];
    LastValueSnoc(props[..i], props[i], name);
  }

  /** The boolean counterpart of StringStep. */
  lemma BoolStep(props: seq<Property>, i: nat, name: string, current: bool)
    requires i < |props| && BoolValued(props, name)
    ensures BoolValued(props[..i], name) && BoolValued(props[..i + 1], name)
    ensures props[i].name == name ==> AsBool(props[i].value).Some?
    ensures BoolProperty(props[..i + 1], name, current) ==
            if props[i].name == name then AsBool(props[i].value).value else BoolProperty(props[..i], name, current)
  {
    assert props[..i + 1] == props[..i] + [props[i]];
    LastValueSnoc(props[..i], props[i], name);
  }

  /** The float counterpart of StringStep. */
  lemma RealStep(props: seq<Property>, i: nat, name: string, current: real)
    requires i < |props| && NumberValued(props, name)
    ensures NumberValued(props[..i], name) && NumberValued(props[..i + 1], name)
    ensures props[i].name == name ==> AsReal(props[i].value).Some? && AsInt(props[i].value).Some?
    ensures RealProperty(props[..i + 1], name, current) ==
            if props[i].name == name then AsReal(props[i].value).value else RealProperty(props[..i], name, current)
  {
    assert props[..i + 1] == props[..i] + [props[i]];
    LastValueSnoc(props[..i], props[i], name);
  }

  /** The int counterpart of StringStep. */
  lemma IntStep(props: seq<Property>, i: nat, name: string, current: int)
    requires i < |props| && NumberValued(props, name)
    ensures NumberValued(props[..i], name) && NumberValued(props[..i + 1], name)
    ensures props[i].name == name ==> AsInt(props[i].value).Some?
    ensures IntProperty(props[..i + 1], name, current) ==
            if props[i].name == name then AsInt(props[i].value).value else IntProperty(props[..i], name, current)
  {
    assert props[..i + 1] == props[..i] + [props[i]];
    LastValueSnoc(props[..i], props[i], name);
  }

  /** The colour-channel counterpart of StringStep. */
  lemma ByteStep(props: seq<Property>, i: nat, name: string, current: Byte)
    requires i < |props| && NumberValued(props, name)
    ensures NumberValued(props[..i], name) && NumberValued(props[..i + 1], name)
    ensures props[i].name == name ==> AsInt(props[i].value).Some?
    ensures ByteProperty(props[..i + 1], name, current) ==
            if props[i].name == name then ToByte(AsInt(props[i].value).value) else ByteProperty(props[..i], name, current)
  {
    assert props[..i + 1] == props[..i] + [props[i]];
    LastValueSnoc(props[..i], props[i], name);
  }

  /** The property values a kind's spawn and creation loops read have the types those loops ask for. */
  predicate KindPropertiesTyped(kind: EntityKind, props: seq<Property>)
  {
    (kind == DoorEntity ==>
      StringValued(props, "level") && StringValued(props, "landmark_entity") && BoolValued(props, "enabled")) &&
    (kind == NpcEntity ==>
      StringValued(props, "npc_name") && StringValued(props, "npc_sprite") &&
      NumberValued(props, "npc_use_dist") && StringValued(props, "npc_action_file")) &&
    (kind == LightEntity ==>
      NumberValued(props, "color_r") && NumberValued(props, "color_g") &&
      NumberValued(props, "color_b") && NumberValued(props, "intensity"))
  }

  // ---------------------------------------------------------------------------
  // Per-kind arithmetic
  // ---------------------------------------------------------------------------

  /** A movement flag after one keyboard event: a press of its key sets it and a release of its key clears it, release last. */
  function KeyFlag(flag: bool, isKey: bool, pressed: bool, released: bool): (r: bool)
    ensures isKey && released ==> !r
    ensures isKey && pressed && !released ==> r
    ensures !isKey || (!pressed && !released) ==> r == flag
  {
    var afterPress := if isKey && pressed then true else flag;
    if isKey && released then false else afterPress
  }

  /** Character speed: 0.25 units per unit of frame time. */
  function Speed(dT: real): real { 0.25 * dT }

  /** HandleMovement along one axis: subtract for the negative key, then add for the positive one. */
  function Axis(neg: bool, pos: bool, speed: real): (d: real)
    ensures neg == pos ==> d == 0.0
    ensures neg && !pos ==> d == -speed
    ensures pos && !neg ==> d == speed
  {
    var afterNeg := if neg then -speed else 0.0;
    if pos then afterNeg + speed else afterNeg
  }

  /** HandleCamera along one axis: the negative key's assignment, then the positive key's, which overrides it. */
  function CameraStep(neg: bool, pos: bool, speed: real): (d: real)
    ensures pos ==> d == speed
    ensures neg && !pos ==> d == -speed
    ensures !neg && !pos ==> d == 0.0
  {
    var afterNeg := if neg then -speed else 0.0;
    if pos then speed else afterNeg
  }

  /** Holding both keys of an axis cancels the movement but still moves the camera: the two disagree then. */
  lemma CameraAndMovementDisagreeOnOppositeKeys(speed: real)
    requires speed != 0.0
    ensures Axis(true, true, speed) == 0.0 && CameraStep(true, true, speed) == speed
  {
  }

  // ---------------------------------------------------------------------------
  // Entities
  // ---------------------------------------------------------------------------

  class Entity {
    const kind: EntityKind
    const tagSet: Taggable

    // Entity
    var classname: string
    var targetname: string
    var tiledProperties: seq<Property>
    var isCurrentlyUsed: bool
    const camera: CameraOffset

    // Renderable: world position, and the camera-relative box actually drawn.
    var levelX: real
    var levelY: real
    var destinationRect: FRect

    // Character
    var up: bool
    var down: bool
    var left: bool
    var right: bool
    var dT: real
    var texture: Option<Texture>

    // DoorEntity
    var enabled: bool
    var landmarkName: string
    var levelDestination: string
    var alreadyFaded: bool

    // NPCEntity
    var npcName: string
    var npcTexture: Option<Texture>
    var useDistance: real
    var npcActions: NpcActions
    var textbox: Option<Textbox>
    var useActivator: Option<Entity>

    // Light
    var colorModifier: Rgb
    var intensity: int

    /** Entity(): a plain entity (a landmark) carries the single tag "Entity". */
    constructor Plain()
      ensures kind == PlainEntity && fresh(tagSet) && tagSet.tags == [EntityTag]
      ensures Blank()
    {
      kind := PlainEntity;
      tagSet := new Taggable();
      camera := new CameraOffset();
      tiledProperties, classname, targetname := [], "", "";
      new;
      tagSet.AddTag(EntityTag);
    }

    /** Character(): a 64x64 box at (300, 200), tagged Renderable and Collision, no movement key held. */
    constructor Character()
      ensures kind == CharacterEntity && fresh(tagSet)
      ensures tagSet.tags == [EntityTag, Renderable, Collision]
      ensures destinationRect == FRect(300.0, 200.0, 64.0, 64.0)
      ensures !up && !down && !left && !right
      ensures Blank()
    {
      kind := CharacterEntity;
      tagSet := new Taggable();
      camera := new CameraOffset();
      tiledProperties, classname, targetname := [], "", "";
      up, down, left, right := false, false, false, false;
      destinationRect := FRect(300.0, 200.0, 64.0, 64.0);
      new;
      tagSet.AddTag(EntityTag);
      tagSet.AddTag(Renderable);
      tagSet.AddTag(Collision);
    }

    /** NPCEntity(): tagged Renderable and Collision, no textbox and an empty action document. */
    constructor Npc()
      ensures kind == NpcEntity && fresh(tagSet)
      ensures tagSet.tags == [EntityTag, Renderable, Collision]
      ensures textbox.None? && npcName == "" && npcActions == NoActions && npcTexture.None?
      ensures Blank()
    {
      kind := NpcEntity;
      tagSet := new Taggable();
      camera := new CameraOffset();
      tiledProperties, classname, targetname := [], "", "";
      textbox := None;
      npcName := "";
      npcActions := NoActions;
      npcTexture := None;
      new;
      tagSet.AddTag(EntityTag);
      tagSet.AddTag(Renderable);
      tagSet.AddTag(Collision);
    }

    /** DoorEntity(): only the base tag; the strings start empty, `enabled` and `alreadyFaded` unset. */
    constructor Door()
      ensures kind == DoorEntity && fresh(tagSet) && tagSet.tags == [EntityTag]
      ensures landmarkName == "" && levelDestination == ""
      ensures Blank()
    {
      kind := DoorEntity;
      tagSet := new Taggable();
      camera := new CameraOffset();
      tiledProperties, classname, targetname := [], "", "";
      landmarkName, levelDestination := "", "";
      new;
      tagSet.AddTag(EntityTag);
    }

    /** Light(): the base tag, then "Light"; colour and intensity unset. */
    constructor Light()
      ensures kind == LightEntity && fresh(tagSet) && tagSet.tags == [EntityTag, LightTag]
      ensures Blank()
    {
      kind := LightEntity;
      tagSet := new Taggable();
      camera := new CameraOffset();
      tiledProperties, classname, targetname := [], "", "";
      new;
      tagSet.AddTag(EntityTag);
      tagSet.AddTag(LightTag);
    }

    /** The members every constructor leaves default-constructed: no properties, no class or target name. */
    predicate Blank()
      reads this
    {
      tiledProperties == [] && classname == "" && targetname == ""
    }

    /** The box collision is computed on: the world position with the drawn size (w() and h()). */
    function WorldBox(): (r: FRect)
      reads this
      ensures r.x == levelX && r.y == levelY && r.w == destinationRect.w && r.h == destinationRect.h
    {
      FRect(levelX, levelY, destinationRect.w, destinationRect.h)
    }

    /** Entity::CheckCollision: true without looking at geometry when the other entity is not tagged Collision. */
    predicate CheckCollision(ent: Entity)
      reads this, ent, ent.tagSet
    {
      if !ent.tagSet.HasTag(Collision) then true
      else
        var left1, right1, top1, bottom1 := levelX, levelX + destinationRect.w, levelY, levelY + destinationRect.h;
        var left2, right2, top2, bottom2 := ent.levelX, ent.levelX + ent.destinationRect.w, ent.levelY, ent.levelY + ent.destinationRect.h;
        !(bottom1 <= top2 || top1 >= bottom2 || right1 <= left2 || left1 >= right2)
    }

    // -------------------------------------------------------------------------
    // Spawning and creation hooks
    // -------------------------------------------------------------------------

    /** The property values each kind's spawn and creation loops read have the types they ask for. */
    predicate PropertiesTyped()
      reads this
    {
      KindPropertiesTyped(kind, tiledProperties)
    }

    /** The texture an npc_sprite property leaves: the lookup of the last one, else the old handle. */
    function SpriteProperty(props: seq<Property>, textures: TextureManager, current: Option<Texture>): Option<Texture>
      requires StringValued(props, "npc_sprite")
      reads textures
    {
      match LastValue(props, "npc_sprite")
      case None => current
      case Some(v) => textures.GetTexture(AsString(v).value)
    }

    /** The action document an npc_action_file property leaves: the load of the last one, else the old one. */
    function ActionsProperty(props: seq<Property>, actionFiles: string -> NpcActions, current: NpcActions): NpcActions
      requires StringValued(props, "npc_action_file")
    {
      match LastValue(props, "npc_action_file")
      case None => current
      case Some(v) => actionFiles(AsString(v).value)
    }

    /** What OnEntitySpawned leaves, kind by kind. */
    twostate predicate SpawnedFrom(rendererTextures: TextureManager, textures: TextureManager, actionFiles: string -> NpcActions)
      reads this, rendererTextures, textures
    {
      tiledProperties == old(tiledProperties) && destinationRect == old(destinationRect) &&
      levelX == old(levelX) && levelY == old(levelY) && textbox == old(textbox) &&
      (kind == CharacterEntity ==> texture == rendererTextures.GetTexture(TestCubePath)) &&
      (kind == DoorEntity && old(PropertiesTyped()) ==>
        levelDestination == StringProperty(tiledProperties, "level", old(levelDestination)) &&
        landmarkName == StringProperty(tiledProperties, "landmark_entity", old(landmarkName)) &&
        enabled == BoolProperty(tiledProperties, "enabled", old(enabled)) &&
        alreadyFaded == old(alreadyFaded)) &&
      (kind == NpcEntity && old(PropertiesTyped()) ==>
        npcName == StringProperty(tiledProperties, "npc_name", old(npcName)) &&
        npcTexture == SpriteProperty(tiledProperties, textures, old(npcTexture)) &&
        useDistance == RealProperty(tiledProperties, "npc_use_dist", old(useDistance)) &&
        npcActions == ActionsProperty(tiledProperties, actionFiles, old(npcActions))) &&
      (kind == PlainEntity || kind == LightEntity ==> unchanged(this))
    }

    /** Entity::OnEntitySpawned, dispatched on the kind; the base hook does nothing. */
    method OnEntitySpawned(rendererTextures: TextureManager, textures: TextureManager, actionFiles: string -> NpcActions)
      requires PropertiesTyped()
      modifies this
      ensures SpawnedFrom(rendererTextures, textures, actionFiles)
    {
      match kind
      case CharacterEntity =>
        texture := rendererTextures.GetTexture(TestCubePath);
      case DoorEntity =>
        DoorSpawned();
      case NpcEntity =>
        NpcSpawned(textures, actionFiles);
      case _ =>
    }

    /** DoorEntity::OnEntitySpawned: copy level, landmark_entity and enabled; a later duplicate wins, other names are ignored. */
    method DoorSpawned()
      requires kind == DoorEntity && PropertiesTyped()
      modifies this
      ensures tiledProperties == old(tiledProperties)
      ensures levelDestination == StringProperty(tiledProperties, "level", old(levelDestination))
      ensures landmarkName == StringProperty(tiledProperties, "landmark_entity", old(landmarkName))
      ensures enabled == BoolProperty(tiledProperties, "enabled", old(enabled))
      ensures alreadyFaded == old(alreadyFaded)
      ensures destinationRect == old(destinationRect) && levelX == old(levelX) && levelY == old(levelY)
      ensures textbox == old(textbox)
    {
      var props := tiledProperties;
      var level, landmark, on := levelDestination, landmarkName, enabled;
      var i := 0;
      while i < |props|
        invariant 0 <= i <= |props|
        modifies {}
        invariant StringValued(props[..i], "level") && StringValued(props[..i], "landmark_entity") && BoolValued(props[..i], "enabled")
        invariant level == StringProperty(props[..i], "level", levelDestination)
        invariant landmark == StringProperty(props[..i], "landmark_entity", landmarkName)
        invariant on == BoolProperty(props[..i], "enabled", enabled)
      {
        StringStep(props, i, "level", levelDestination);
        StringStep(props, i, "landmark_entity", landmarkName);
        BoolStep(props, i, "enabled", enabled);
        var name := props[i].name;
        if name == "level" { level := AsString(props[i].value).value; }
        if name == "landmark_entity" { landmark := AsString(props[i].value).value; }
        if name == "enabled" { on := AsBool(props[i].value).value; }
        i := i + 1;
      }
      assert props[..i] == props;
      levelDestination, landmarkName, enabled := level, landmark, on;
    }

    /** NPCEntity::OnEntitySpawned: npc_name, npc_sprite (looked up), npc_use_dist and npc_action_file (loaded); a later duplicate wins. */
    method NpcSpawned(textures: TextureManager, actionFiles: string -> NpcActions)
      requires kind == NpcEntity && PropertiesTyped()
      modifies this
      ensures tiledProperties == old(tiledProperties)
      ensures npcName == StringProperty(tiledProperties, "npc_name", old(npcName))
      ensures npcTexture == SpriteProperty(tiledProperties, textures, old(npcTexture))
      ensures useDistance == RealProperty(tiledProperties, "npc_use_dist", old(useDistance))
      ensures npcActions == ActionsProperty(tiledProperties, actionFiles, old(npcActions))
      ensures textbox == old(textbox)
      ensures destinationRect == old(destinationRect) && levelX == old(levelX) && levelY == old(levelY)
    {
      var props := tiledProperties;
      var nm, tex, dist, actions := npcName, npcTexture, useDistance, npcActions;
      var i := 0;
      while i < |props|
        invariant 0 <= i <= |props|
        modifies {}
        invariant StringValued(props[..i], "npc_name") && StringValued(props[..i], "npc_sprite")
        invariant NumberValued(props[..i], "npc_use_dist") && StringValued(props[..i], "npc_action_file")
        invariant nm == StringProperty(props[..i], "npc_name", npcName)
        invariant tex == SpriteProperty(props[..i], textures, npcTexture)
        invariant dist == RealProperty(props[..i], "npc_use_dist", useDistance)
        invariant actions == ActionsProperty(props[..i], actionFiles, npcActions)
      {
        StringStep(props, i, "npc_name", npcName);
        StringStep(props, i, "npc_sprite", "");
        RealStep(props, i, "npc_use_dist", useDistance);
        StringStep(props, i, "npc_action_file", "");
        assert props[..i + 1] == props[..i] + [props[i]];
        LastValueSnoc(props[..i], props[i], "npc_sprite");
        LastValueSnoc(props[..i], props[i], "npc_action_file");
        var name := props[i].name;
        if name == "npc_name" { nm := AsString(props[i].value).value; }
        if name == "npc_sprite" { tex := textures.GetTexture(AsString(props[i].value).value); }
        if name == "npc_use_dist" { dist := AsReal(props[i].value).value; }
        if name == "npc_action_file" { actions := actionFiles(AsString(props[i].value).value); }
        i := i + 1;
      }
      assert props[..i] == props;
      npcName, npcTexture, useDistance, npcActions := nm, tex, dist, actions;
    }

    /** Entity::OnEntityCreated, dispatched on the kind: only Light overrides the empty base hook. */
    method OnEntityCreated()
      requires kind == LightEntity ==> PropertiesTyped()
      modifies this
      ensures tiledProperties == old(tiledProperties)
      ensures kind == LightEntity ==>
        colorModifier == Rgb(ByteProperty(tiledProperties, "color_r", old(colorModifier.r)),
                             ByteProperty(tiledProperties, "color_g", old(colorModifier.g)),
                             ByteProperty(tiledProperties, "color_b", old(colorModifier.b))) &&
        intensity == IntProperty(tiledProperties, "intensity", old(intensity))
      ensures kind != LightEntity ==> unchanged(this)
      ensures classname == old(classname) && targetname == old(targetname)
      ensures destinationRect == old(destinationRect) && levelX == old(levelX) && levelY == old(levelY)
    {
      if kind == LightEntity {
        var props := tiledProperties;
        var c, n := colorModifier, intensity;
        var i := 0;
        while i < |props|
          invariant 0 <= i <= |props|
          modifies {}
          invariant NumberValued(props[..i], "color_r") && NumberValued(props[..i], "color_g")
          invariant NumberValued(props[..i], "color_b") && NumberValued(props[..i], "intensity")
          invariant c == Rgb(ByteProperty(props[..i], "color_r", colorModifier.r),
                             ByteProperty(props[..i], "color_g", colorModifier.g),
                             ByteProperty(props[..i], "color_b", colorModifier.b))
          invariant n == IntProperty(props[..i], "intensity", intensity)
        {
          ByteStep(props, i, "color_r", colorModifier.r);
          ByteStep(props, i, "color_g", colorModifier.g);
          ByteStep(props, i, "color_b", colorModifier.b);
          IntStep(props, i, "intensity", intensity);
          var name := props[i].name;
          if name == "color_r" { c := c.(r := ToByte(AsInt(props[i].value).value)); }
          if name == "color_g" { c := c.(g := ToByte(AsInt(props[i].value).value)); }
          if name == "color_b" { c := c.(b := ToByte(AsInt(props[i].value).value)); }
          if name == "intensity" { n := AsInt(props[i].value).value; }
          i := i + 1;
        }
        assert props[..i] == props;
        colorModifier, intensity := c, n;
      }
    }

    // -------------------------------------------------------------------------
    // Character
    // -------------------------------------------------------------------------

    /** Character::OnKeyboardInput: w/a/s/d set up/left/down/right on a press and clear them on a release, only while tagged "Moveable". */
    method CharacterKeyboardInput(keyCode: int, pressed: bool, released: bool, repeat: bool)
      requires kind == CharacterEntity
      modifies this
      ensures var moveable := tagSet.HasTag(Moveable);
        up == KeyFlag(old(up), moveable && keyCode == KeyW, pressed, released) &&
        left == KeyFlag(old(left), moveable && keyCode == KeyA, pressed, released) &&
        down == KeyFlag(old(down), moveable && keyCode == KeyS, pressed, released) &&
        right == KeyFlag(old(right), moveable && keyCode == KeyD, pressed, released)
      ensures destinationRect == old(destinationRect) && levelX == old(levelX) && levelY == old(levelY)
      ensures dT == old(dT)
    {
      if !tagSet.HasTag(Moveable) {
        return;
      }
      if pressed {
        if keyCode == KeyW { up := true; }
        else if keyCode == KeyA { left := true; }
        else if keyCode == KeyS { down := true; }
        else if keyCode == KeyD { right := true; }
      }
      if released {
        if keyCode == KeyW { up := false; }
        else if keyCode == KeyA { left := false; }
        else if keyCode == KeyS { down := false; }
        else if keyCode == KeyD { right := false; }
      }
    }

    /** Character::HandleMovement: shift the drawn box by the held keys at 0.25 * dT; the world position is untouched. */
    method HandleMovement()
      requires kind == CharacterEntity
      modifies this`destinationRect
      ensures destinationRect == old(destinationRect).(x := old(destinationRect.x) + Axis(left, right, Speed(dT)),
                                                      y := old(destinationRect.y) + Axis(up, down, Speed(dT)))
    {
      var speed := Speed(dT);
      if up { destinationRect := destinationRect.(y := destinationRect.y - speed); }
      if down { destinationRect := destinationRect.(y := destinationRect.y + speed); }
      if left { destinationRect := destinationRect.(x := destinationRect.x - speed); }
      if right { destinationRect := destinationRect.(x := destinationRect.x + speed); }
    }

    /** Character::HandleCamera: add one camera step to the offsets of every registered entity, once per occurrence. */
    method HandleCamera(engine: Engine)
      requires kind == CharacterEntity
      modifies set e: Entity | e in engine.gEntities :: e.camera
      ensures forall e :: e in engine.gEntities ==>
        var n := multiset(Cameras(engine.gEntities))[e.camera];
        e.camera.cameraXOffset == old(e.camera.cameraXOffset) + Times(n, CameraStep(left, right, Speed(dT))) &&
        e.camera.cameraYOffset == old(e.camera.cameraYOffset) + Times(n, CameraStep(up, down, Speed(dT)))
    {
      var speed := Speed(dT);
      var x := CameraStep(left, right, speed);
      var y := CameraStep(up, down, speed);
      var cams := Cameras(engine.gEntities);
      OffsetAll(cams, x, y);
      forall e | e in engine.gEntities
        ensures e.camera in cams
      {
        var k :| 0 <= k < |engine.gEntities| && engine.gEntities[k] == e;
        assert cams[k] == e.camera;
      }
    }

    /** Character::Update: store the frame time, move, then shift every registered entity's camera offsets. */
    method CharacterUpdate(deltaTime: real, engine: Engine)
      requires kind == CharacterEntity
      modifies this, set e: Entity | e in engine.gEntities :: e.camera
      ensures dT == deltaTime
      ensures destinationRect == old(destinationRect).(x := old(destinationRect.x) + Axis(old(left), old(right), Speed(deltaTime)),
                                                      y := old(destinationRect.y) + Axis(old(up), old(down), Speed(deltaTime)))
      ensures levelX == old(levelX) && levelY == old(levelY)
      ensures forall e :: e in engine.gEntities ==>
        var n := multiset(Cameras(engine.gEntities))[e.camera];
        e.camera.cameraXOffset == old(e.camera.cameraXOffset) + Times(n, CameraStep(old(left), old(right), Speed(deltaTime))) &&
        e.camera.cameraYOffset == old(e.camera.cameraYOffset) + Times(n, CameraStep(old(up), old(down), Speed(deltaTime)))
    {
      dT := deltaTime;
      HandleMovement();
      HandleCamera(engine);
    }

    // -------------------------------------------------------------------------
    // DoorEntity
    // -------------------------------------------------------------------------

    /**
     * DoorEntity::Update. `character` is what the level's GetCharacter returns and
     * `currentlyFading` the fade flag as it reads after the fade request; the
     * result says whether FadeToBlack(LEVEL_TRANSITION_FADE) was requested.
     */
    method DoorUpdate(trans: TransitionRecord, character: Option<Entity>, currentlyFading: bool) returns (fadeToBlack: bool)
      requires kind == DoorEntity
      requires !trans.transitionFlag ==> character.Some?
      modifies this`alreadyFaded, trans, if character.Some? then {character.value.tagSet} else {}
      ensures var collided := !old(trans.transitionFlag) && old(CheckCollision(character.value));
        && fadeToBlack == (collided && !old(alreadyFaded))
        && alreadyFaded == (collided || old(alreadyFaded))
        && (character.Some? ==> character.value.tagSet.tags == old(character.value.tagSet.tags) + if collided then [DontMove] else [])
        && (if collided && !currentlyFading
            then trans.transitionFlag && trans.landmarkName == landmarkName && trans.newLevel == levelDestination
            else trans.transitionFlag == old(trans.transitionFlag) && trans.landmarkName == old(trans.landmarkName) &&
                 trans.newLevel == old(trans.newLevel))
    {
      fadeToBlack := false;
      if trans.transitionFlag {
        return;
      }
      var ch := character.value;
      if CheckCollision(ch) {
        ch.tagSet.AddTag(DontMove);
        if !alreadyFaded {
          fadeToBlack := true;
        }
        alreadyFaded := true;
        if alreadyFaded && currentlyFading {
          return;
        }
        trans.landmarkName := landmarkName;
        trans.newLevel := levelDestination;
        trans.transitionFlag := true;
        return;
      }
    }

    // -------------------------------------------------------------------------
    // NPCEntity
    // -------------------------------------------------------------------------

    /** The "onUse" action asks for a dialogue box, no box is open and the box type decodes. */
    predicate OpensTextbox()
      reads this
    {
      npcActions.onUse.Some? && AsString(npcActions.onUse.value.action) == Some("dialogueOpen") &&
      textbox.None? && AsInt(npcActions.onUse.value.dialogueBoxType).Some?
    }

    /** NPCEntity::OnUseFinished: a Character activator loses "DontMove" and both sides stop being in use; the activator is dropped. */
    method OnUseFinished(activator: Entity)
      requires kind == NpcEntity
      modifies this`isCurrentlyUsed, this`useActivator, activator`isCurrentlyUsed, activator.tagSet
      ensures useActivator.None?
      ensures old(activator.tagSet.HasTag(CharacterTag)) ==>
        activator.tagSet.tags == Removed(old(activator.tagSet.tags), DontMove) && !activator.isCurrentlyUsed && !isCurrentlyUsed
      ensures !old(activator.tagSet.HasTag(CharacterTag)) ==>
        activator.tagSet.tags == old(activator.tagSet.tags) && activator.isCurrentlyUsed == old(activator.isCurrentlyUsed) &&
        isCurrentlyUsed == old(isCurrentlyUsed)
    {
      if activator.tagSet.HasTag(CharacterTag) {
        activator.tagSet.RemoveTag(DontMove);
        activator.isCurrentlyUsed := false;
        isCurrentlyUsed := false;
      }
      useActivator := None;
    }

    /**
     * NPCEntity::Update on the overworld GUI: once in use and with a finished
     * textbox, remove the box from its layer by name, drop it, and finish the use.
     */
    method NpcUpdate(gui: GUI)
      requires kind == NpcEntity && gui.Valid()
      requires isCurrentlyUsed && textbox.Some? && textbox.value.IsDialogueFinished() ==>
        useActivator.Some? && 0 <= textbox.value.base.guiLayer < MaxGuiLayers
      modifies this`isCurrentlyUsed, this`useActivator, this`textbox, gui
      modifies (if useActivator.Some? then {useActivator.value} else {})`isCurrentlyUsed
      modifies if useActivator.Some? then {useActivator.value.tagSet} else {}
      ensures gui.Valid()
      ensures var finished := old(isCurrentlyUsed && textbox.Some? && textbox.value.IsDialogueFinished());
        if finished then
          var box := old(textbox.value);
          && gui.elements == old(gui.elements)[box.base.guiLayer := RemoveNamed(old(gui.elements[box.base.guiLayer]), box.base.elementName)]
          && textbox.None? && useActivator.None?
          && (old(useActivator.value.tagSet.HasTag(CharacterTag)) ==>
                old(useActivator.value).tagSet.tags == Removed(old(useActivator.value.tagSet.tags), DontMove) &&
                !old(useActivator.value).isCurrentlyUsed && !isCurrentlyUsed)
          && (!old(useActivator.value.tagSet.HasTag(CharacterTag)) ==>
                old(useActivator.value).tagSet.tags == old(useActivator.value.tagSet.tags) &&
                old(useActivator.value).isCurrentlyUsed == old(useActivator.value.isCurrentlyUsed) && isCurrentlyUsed)
        else gui.elements == old(gui.elements) && textbox == old(textbox) && useActivator == old(useActivator) &&
             isCurrentlyUsed == old(isCurrentlyUsed)
    {
      if !isCurrentlyUsed {
        return;
      }
      if textbox.Some? {
        var box := textbox.value;
        if box.IsDialogueFinished() {
          gui.RemoveElementNamed(box.base.elementName, box.base.guiLayer);
          textbox := None;
          OnUseFinished(useActivator.value);
        }
      }
    }

    /**
     * NPCEntity::OnUse on the overworld GUI with the dialogue store; `boxConfig`
     * is how far the new textbox's OnElementSpawned reads its settings. A failed
     * get<> throws and is caught: whatever was done before it stays done.
     */
    method OnUse(activator: Entity, gui: GUI, dialogue: DialogueManager, boxConfig: TextboxConfig)
      requires kind == NpcEntity
      requires gui.Valid() && forall l :: 0 <= l < MaxGuiLayers ==> |gui.elements[l]| < IntLimit - 1
      requires OpensTextbox() && AsString(npcActions.onUse.value.messageFile).Some? ==>
        |dialogue.GetDialogue(AsString(npcActions.onUse.value.messageFile).value)| > 0
      modifies this`useActivator, this`textbox, activator.tagSet, gui
      ensures gui.Valid()
      ensures old(npcActions.onUse).None? ==>
        useActivator == old(useActivator) && activator.tagSet.tags == old(activator.tagSet.tags)
      ensures old(npcActions.onUse).Some? ==>
        useActivator == Some(activator) &&
        activator.tagSet.tags == old(activator.tagSet.tags) + if old(activator.tagSet.HasTag(CharacterTag)) then [DontMove] else []
      ensures !old(OpensTextbox()) ==> textbox == old(textbox) && gui.elements == old(gui.elements)
      ensures old(OpensTextbox()) ==>
        var use := old(npcActions.onUse.value);
        textbox.Some? && fresh(textbox.value) &&
        (textbox.value.boxText.Some? ==> fresh(textbox.value.boxText.value)) &&
        OpenedTextbox(textbox.value, npcName, AsInt(use.dialogueBoxType).value,
          if AsString(use.messageFile).Some? then dialogue.GetDialogue(AsString(use.messageFile).value) else [],
          boxConfig, old(gui.elements), gui.elements)
    {
      if npcActions.onUse.None? {
        return;
      }
      var use := npcActions.onUse.value;
      useActivator := Some(activator);
      if activator.tagSet.HasTag(CharacterTag) {
        activator.tagSet.AddTag(DontMove);
      }
      var action := AsString(use.action);
      if action.None? {
        return;
      }
      if action.value == "dialogueOpen" {
        if textbox.Some? {
          return;
        }
        var boxType := AsInt(use.dialogueBoxType);
        if boxType.None? {
          return;
        }
        OpenTextbox(boxType.value, AsString(use.messageFile), gui, dialogue, boxConfig);
      }
    }

    /**
     * The "dialogueOpen" action once the box type is read: a textbox named after
     * the NPC on the first free layer, registered there and spawned, then the
     * script of the message file, when that file name is a string.
     */
    method OpenTextbox(boxType: int, messageFile: Option<string>, gui: GUI, dialogue: DialogueManager, boxConfig: TextboxConfig)
      requires gui.Valid() && forall l :: 0 <= l < MaxGuiLayers ==> |gui.elements[l]| < IntLimit - 1
      requires messageFile.Some? ==> |dialogue.GetDialogue(messageFile.value)| > 0
      modifies this`textbox, gui
      ensures textbox.Some? && fresh(textbox.value)
      ensures textbox.value.boxText.Some? ==> fresh(textbox.value.boxText.value)
      ensures OpenedTextbox(textbox.value, npcName, boxType,
        if messageFile.Some? then dialogue.GetDialogue(messageFile.value) else [], boxConfig, old(gui.elements), gui.elements)
    {
      var layer := gui.FindFirstFreeLayer();
      var box := new Textbox(layer, npcName + "_textbox", boxType);
      textbox := Some(box);
      gui.AddElement(TextboxElement(box), box.base.guiLayer);
      box.OnElementSpawned(gui, boxConfig);
      if messageFile.None? {
        return;
      }
      box.LoadDialogue(dialogue, messageFile.value);
    }
  }

  /**
   * The textbox an NPC's "dialogueOpen" leaves behind: named after the NPC, of
   * the requested type, holding the script, at the start of its reveal (the
   * first message current, nothing revealed, both counters zero), and
   * registered on the first free layer of `before`; its Text, once the box's
   * settings were read, is red, empty, named after the box, made on the first
   * free layer after the box was added, and registered there when the text
   * size was read too.
   */
  ghost predicate OpenedTextbox(box: Textbox, npcName: string, boxType: int, script: seq<DialogueMessage>,
    config: TextboxConfig, before: seq<seq<Handle>>, after: seq<seq<Handle>>)
    reads box, if box.boxText.Some? then {box.boxText.value} else {}
  {
    && box.base.elementName == npcName + "_textbox"
    && box.boxType == boxType
    && box.messages == script
    && box.currentMessage == (if |script| > 0 then script[0] else DefaultMessage)
    && box.currText == "" && box.charCounter == 0 && box.messagesCounter == 0
    && box.Valid()
    && IsFirstFreeLayer(before, box.base.guiLayer)
    && var withBox := before[box.base.guiLayer := before[box.base.guiLayer] + [TextboxElement(box)]];
    && (config == NoSettings ==> box.boxText.None? && after == withBox)
    && (config != NoSettings ==>
          box.boxText.Some? &&
          var t := box.boxText.value;
          && t.base.elementName == npcName + "_textbox_text" && t.text == "" && t.textColor == Red
          && IsFirstFreeLayer(withBox, t.base.guiLayer)
          && after == if config == NoTextSize then withBox
                      else withBox[t.base.guiLayer := withBox[t.base.guiLayer] + [TextElement(t)]])
  }

  /** Entity::cameraXOffset and cameraYOffset, which every camera step shifts. */
  class CameraOffset {
    var cameraXOffset: real
    var cameraYOffset: real

    constructor ()
    {
    }

    /** One step of HandleCamera's loop: add to this entity's camera offsets. */
    method Shift(x: real, y: real)
      modifies this
      ensures cameraXOffset == old(cameraXOffset) + x && cameraYOffset == old(cameraYOffset) + y
    {
      cameraXOffset := cameraXOffset + x;
      cameraYOffset := cameraYOffset + y;
    }
  }

  /** The camera offsets of a list of entities, in order. */
  function Cameras(ents: seq<Entity>): (r: seq<CameraOffset>)
    ensures |r| == |ents| && forall k :: 0 <= k < |ents| ==> r[k] == ents[k].camera
  {
    seq(|ents|, k requires 0 <= k < |ents| => ents[k].camera)
  }

  /** The loop of Character::HandleCamera: add (x, y) to each offset in turn, so an entity listed twice moves twice. */
  method OffsetAll(cams: seq<CameraOffset>, x: real, y: real)
    modifies set c | c in cams
    ensures forall c :: c in cams ==>
      c.cameraXOffset == old(c.cameraXOffset) + Times(multiset(cams)[c], x) &&
      c.cameraYOffset == old(c.cameraYOffset) + Times(multiset(cams)[c], y)
  {
    var i := 0;
    while i < |cams|
      invariant 0 <= i <= |cams|
      invariant forall c :: c in cams ==>
        c.cameraXOffset == old(c.cameraXOffset) + Times(multiset(cams[..i])[c], x) &&
        c.cameraYOffset == old(c.cameraYOffset) + Times(multiset(cams[..i])[c], y)
    {
      MultisetSnoc(cams, i);
      cams[i].Shift(x, y);
      i := i + 1;
    }
    assert cams[..i] == cams;
  }

  /** n copies of x added up, as n passes of a loop adding x accumulate them. */
  function Times(n: nat, x: real): real
  {
    if n == 0 then 0.0 else Times(n - 1, x) + x
  }

  lemma {:induction false} TimesIsProduct(n: nat, x: real)
    ensures Times(n, x) == (n as real) * x
  {
    if n > 0 {
      TimesIsProduct(n - 1, x);
    }
  }

  /** One more element of a prefix adds one occurrence of it and of nothing else. */
  lemma MultisetSnoc<T>(s: seq<T>, i: nat)
    requires i < |s|
    ensures forall x :: multiset(s[..i + 1])[x] == multiset(s[..i])[x] + if x == s[i] then 1 else 0
  {
    assert s[..i + 1] == s[..i] + [s[i]];
  }

  // ---------------------------------------------------------------------------
  // Lemmas about collision
  // ---------------------------------------------------------------------------

  /** An entity not tagged Collision is collided with by everything, wherever it is. */
  lemma NoCollisionTagAlwaysCollides(a: Entity, b: Entity)
    requires !b.tagSet.HasTag(Collision)
    ensures a.CheckCollision(b)
  {
  }

  /** With the tag present, CheckCollision is the strict overlap test on the world boxes. */
  lemma CheckCollisionIsOverlap(a: Entity, b: Entity)
    requires b.tagSet.HasTag(Collision)
    ensures a.CheckCollision(b) == CollisionCheckF(a.WorldBox(), b.WorldBox())
  {
  }

  /** For boxes of positive size and a tagged argument, a collision is a shared interior point. */
  lemma CheckCollisionMeaning(a: Entity, b: Entity)
    requires b.tagSet.HasTag(Collision)
    requires a.destinationRect.w > 0.0 && a.destinationRect.h > 0.0 && b.destinationRect.w > 0.0 && b.destinationRect.h > 0.0
    ensures a.CheckCollision(b) <==> ShareInteriorPoint(a.WorldBox(), b.WorldBox())
  {
    CheckCollisionIsOverlap(a, b);
    CollisionIffSharedPoint(a.WorldBox(), b.WorldBox());
  }

  /** When both are tagged Collision the test is symmetric. */
  lemma CheckCollisionSymmetric(a: Entity, b: Entity)
    requires a.tagSet.HasTag(Collision) && b.tagSet.HasTag(Collision)
    ensures a.CheckCollision(b) == b.CheckCollision(a)
  {
    CheckCollisionIsOverlap(a, b);
    CheckCollisionIsOverlap(b, a);
    CollisionSymmetric(a.WorldBox(), b.WorldBox());
  }

  /** Boxes that only share an edge do not collide. */
  lemma CheckCollisionTouchingEdges(a: Entity, b: Entity)
    requires b.tagSet.HasTag(Collision)
    requires a.levelX + a.destinationRect.w == b.levelX || a.levelY + a.destinationRect.h == b.levelY
    ensures !a.CheckCollision(b)
  {
    CheckCollisionIsOverlap(a, b);
    TouchingEdgesDoNotCollide(a.WorldBox(), b.WorldBox());
  }

  /** Only the argument's tags are consulted: receivers with the same box agree whatever their own tags. */
  lemma CheckCollisionIgnoresReceiverTags(a1: Entity, a2: Entity, b: Entity)
    requires a1.WorldBox() == a2.WorldBox()
    requires !a1.tagSet.HasTag(Collision) && a2.tagSet.HasTag(Collision)
    ensures a1.CheckCollision(b) == a2.CheckCollision(b)
  {
  }

  // ---------------------------------------------------------------------------
  // Engine register, transition record, player
  // ---------------------------------------------------------------------------

  /**
   * LevelTransitionData: where the next level transition goes. One record is
   * shared by the doors that write it and the overworld state that reads it.
   */
  class TransitionRecord {
    var transitionFlag: bool
    var newLevel: string
    var landmarkName: string

    constructor ()
      ensures !transitionFlag && newLevel == "" && landmarkName == ""
    {
      transitionFlag, newLevel, landmarkName := false, "", "";
    }
  }

  /** The engine's global state as the core's components use it. */
  class Engine {
    /** Global entities, which survive level changes. */
    var gEntities: seq<Entity>
    /** Every game state constructed so far. */
    var states: seq<object>
    var debugModeEnabled: bool
    const gLevelTransData: TransitionRecord

    constructor (transData: TransitionRecord)
      ensures gEntities == [] && states == [] && gLevelTransData == transData
    {
      gEntities, states := [], [];
      gLevelTransData := transData;
    }

    /** Engine::RegisterGlobalEntity: append the entity, duplicates kept, then fire its spawn hook. */
    method RegisterGlobalEntity(ent: Entity, rendererTextures: TextureManager, textures: TextureManager, actionFiles: string -> NpcActions)
      requires ent.PropertiesTyped()
      modifies this`gEntities, ent
      ensures gEntities == old(gEntities) + [ent]
      ensures ent.SpawnedFrom(rendererTextures, textures, actionFiles)
    {
      gEntities := gEntities + [ent];
      ent.OnEntitySpawned(rendererTextures, textures, actionFiles);
    }

    /** Engine::RemoveGlobalEntity: erase the first occurrence, if any, keeping the order of the rest. */
    method RemoveGlobalEntity(ent: Entity)
      modifies this`gEntities
      ensures gEntities == RemoveFirst(old(gEntities), ent)
    {
      if ent in gEntities {
        var i := IndexOf(gEntities, ent);
        gEntities := gEntities[..i] + gEntities[i + 1..];
      }
    }
  }

  /** Removing an entity takes away exactly one occurrence, and removing an absent one changes nothing. */
  lemma RemoveGlobalEntityCounts(ents: seq<Entity>, ent: Entity)
    ensures ent in ents ==> multiset(RemoveFirst(ents, ent)) == multiset(ents) - multiset{ent}
    ensures ent !in ents ==> RemoveFirst(ents, ent) == ents
  {
    if ent in ents {
      RemoveFirstMultiset(ents, ent);
    }
  }

  /** Player: the entity all input goes to. */
  class Player {
    var pawn: Option<Entity>

    /** `pawn` has no initialiser in the source; the model starts it null. */
    constructor ()
      ensures pawn.None?
    {
      pawn := None;
    }

    /** Player::SetPlayerPawn: untag the old pawn (non-shrinking removal), store the new one and tag it PlayerEntity then Global. */
    method SetPlayerPawn(ent: Entity)
      modifies this, ent.tagSet, if pawn.Some? then {pawn.value.tagSet} else {}
      ensures pawn == Some(ent)
      ensures var wasPawn := old(pawn).Some? && old(pawn).value.tagSet == ent.tagSet;
        ent.tagSet.tags ==
          (if wasPawn then Removed(Removed(old(ent.tagSet.tags), PlayerEntity), Global) else old(ent.tagSet.tags)) +
          [PlayerEntity, Global]
      ensures old(pawn).Some? && old(pawn).value.tagSet != ent.tagSet ==>
        old(pawn).value.tagSet.tags == Removed(Removed(old(pawn.value.tagSet.tags), PlayerEntity), Global)
    {
      if pawn.Some? {
        pawn.value.tagSet.RemoveTag(PlayerEntity);
        pawn.value.tagSet.RemoveTag(Global);
      }
      pawn := Some(ent);
      ent.tagSet.AddTag(PlayerEntity);
      ent.tagSet.AddTag(Global);
    }
  }

  /** Every SetPlayerPawn grows the new pawn's tag list by exactly two, even for the same pawn again. */
  lemma SetPlayerPawnGrowsByTwo(s: seq<string>)
    ensures |Removed(Removed(s, PlayerEntity), Global) + [PlayerEntity, Global]| == |s| + 2
  {
    RemovedShape(s, PlayerEntity);
    RemovedShape(Removed(s, PlayerEntity), Global);
  }
}
