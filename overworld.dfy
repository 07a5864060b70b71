/**
 * The overworld state: the state that owns the current level. It wakes the
 * level's entities and its GUI when a level has been loaded, runs a level
 * transition in place of a frame's update, places the character at the
 * landmark named by the transition, draws the level's layers with its debug
 * lighting and culling modes, and switches those modes from the keyboard.
 */
module Overworld {
  import opened Common
  import opened Geometry
  import opened Tags
  import opened Resources
  import opened Gui
  import opened Entities
  import opened Levels
  import opened Rendering
  import opened States

  // ---------------------------------------------------------------------------
  // The debug modes and the debug keys
  // ---------------------------------------------------------------------------

  const SelectLighting := 0
  const SelectTileCulling := 1

  const LightingStandard := 0
  const LightingDisabled := 1
  const LightingBorder := 2
  const LightingFill := 3

  const CullingStandard := 0
  const CullingNoLights := 1
  const CullingDisabled := 2

  const KeyEscape := 27
  const Key1 := 49
  const Key2 := 50
  const Key3 := 51
  const Key4 := 52

  const OverworldName := "OverworldState"
  const FpsTextName := "fpsText"
  const FpsTextLayer := MaxGuiLayers - 1
  const LandmarkClass := "landmark"
  const DebugRoomPath := "assets/levels/debug_room.json"

  /** Which debug setting the digit keys change, and the two settings. */
  datatype DebugModes = DebugModes(selection: int, lighting: int, culling: int)

  /** The lighting mode the digit case c (1, 2 or 3) selects. */
  function LightingOfCase(c: int): int
  {
    if c == 1 then LightingStandard else if c == 2 then LightingDisabled else LightingBorder
  }

  /** The culling mode the digit case c (1, 2 or 3) selects. */
  function CullingOfCase(c: int): int
  {
    if c == 1 then CullingStandard else if c == 2 then CullingNoLights else CullingDisabled
  }

  /**
   * The switch entered at `case SDLK_<c>`: cases 1 to 3 break after setting a
   * mode when the selection is lighting or culling and otherwise fall through
   * to the next case; case 4 sets FILL only under the lighting selection.
   */
  function FromCase(c: int, m: DebugModes): DebugModes
    requires 1 <= c <= 4
    decreases 4 - c
  {
    if c == 4 then (if m.selection == SelectLighting then m.(lighting := LightingFill) else m)
    else if m.selection == SelectLighting then m.(lighting := LightingOfCase(c))
    else if m.selection == SelectTileCulling then m.(culling := CullingOfCase(c))
    else FromCase(c + 1, m)
  }

  /** The debug switch of OnKeyboardInput for a fresh key press. */
  function DebugKey(keyCode: int, m: DebugModes): DebugModes
  {
    if keyCode == KeyEscape then m
    else if keyCode == KeyTab then m.(selection := m.selection + 1)
    else if keyCode == KeyLShift then m.(selection := m.selection - 1)
    else if Key1 <= keyCode <= Key4 then FromCase(keyCode - Key1 + 1, m)
    else m
  }

  /** The lighting modes the keys 1 to 4 select, and the culling modes the keys 1 to 3 select. */
  const LightingKeys := [LightingStandard, LightingDisabled, LightingBorder, LightingFill]
  const CullingKeys := [CullingStandard, CullingNoLights, CullingDisabled]

  /**
   * A digit key sets the lighting mode under the lighting selection and the
   * culling mode under the culling selection (key 4 only the lighting one);
   * under any other selection it falls through every case and changes nothing.
   */
  lemma {:induction false} DigitKeys(keyCode: int, m: DebugModes)
    requires Key1 <= keyCode <= Key4
    ensures DebugKey(keyCode, m) ==
      if m.selection == SelectLighting then m.(lighting := LightingKeys[keyCode - Key1])
      else if m.selection == SelectTileCulling && keyCode < Key4 then m.(culling := CullingKeys[keyCode - Key1])
      else m
  {
    var c := keyCode - Key1 + 1;
    if m.selection != SelectLighting && m.selection != SelectTileCulling {
      FallsThrough(c, m);
    }
  }

  /** Entered at any case, a selection other than lighting or culling falls through to the end. */
  lemma {:induction false} FallsThrough(c: int, m: DebugModes)
    requires 1 <= c <= 4 && m.selection != SelectLighting && m.selection != SelectTileCulling
    ensures FromCase(c, m) == m
    decreases 4 - c
  {
    if c < 4 {
      FallsThrough(c + 1, m);
    }
  }

  /** TAB and LSHIFT move the selection by one either way, with no bound, and touch no mode. */
  lemma SelectionKeys(m: DebugModes)
    ensures DebugKey(KeyTab, m) == m.(selection := m.selection + 1)
    ensures DebugKey(KeyLShift, m) == m.(selection := m.selection - 1)
    ensures DebugKey(KeyLShift, DebugKey(KeyTab, m)) == m && DebugKey(KeyTab, DebugKey(KeyLShift, m)) == m
  {
  }

  /** The modes the enums name. */
  predicate ModesInRange(m: DebugModes)
  {
    LightingStandard <= m.lighting <= LightingFill && CullingStandard <= m.culling <= CullingDisabled
  }

  /** No key takes a mode out of its enum. */
  lemma DebugKeyKeepsRange(keyCode: int, m: DebugModes)
    requires ModesInRange(m)
    ensures ModesInRange(DebugKey(keyCode, m))
  {
    if Key1 <= keyCode <= Key4 {
      DigitKeys(keyCode, m);
    }
  }

  /** Escape and every key other than TAB, LSHIFT and 1 to 4 leave the modes alone. */
  lemma OtherKeysIgnored(keyCode: int, m: DebugModes)
    requires keyCode != KeyTab && keyCode != KeyLShift && !(Key1 <= keyCode <= Key4)
    ensures DebugKey(keyCode, m) == m
  {
  }

  // ---------------------------------------------------------------------------
  // The frame-rate text
  // ---------------------------------------------------------------------------

  /** The digits of an integer with a leading '-' when it is negative. */
  function SignedDecimal(n: int): string
  {
    if n < 0 then "-" + DecimalString(-n) else DecimalString(n)
  }

  /** Distinct integers get distinct signed strings. */
  lemma SignedDecimalInjective(m: int, n: int)
    ensures SignedDecimal(m) == SignedDecimal(n) <==> m == n
  {
    if SignedDecimal(m) == SignedDecimal(n) {
      var s := SignedDecimal(m);
      assert s[0] == '-' <==> m < 0;
      assert s[0] == '-' <==> n < 0;
      if m < 0 {
        assert s[1..] == DecimalString(-m) == DecimalString(-n);
        DecimalStringInjective(-m, -n);
      } else {
        DecimalStringInjective(m, n);
      }
    }
  }

  /** std::to_string(floor(fps)): the floor's digits with its sign, then six decimals ("%f"). */
  function FpsString(fps: real): (s: string)
    ensures |s| > 7 && s[|s| - 7..] == ".000000"
  {
    SignedDecimal(fps.Floor) + ".000000"
  }

  /** Two frame rates give the same text exactly when their floors are equal. */
  lemma FpsStringInjective(a: real, b: real)
    ensures FpsString(a) == FpsString(b) <==> a.Floor == b.Floor
  {
    var sa, sb := SignedDecimal(a.Floor), SignedDecimal(b.Floor);
    if FpsString(a) == FpsString(b) {
      assert sa == FpsString(a)[..|FpsString(a)| - 7];
      assert sb == FpsString(b)[..|FpsString(b)| - 7];
    }
    SignedDecimalInjective(a.Floor, b.Floor);
  }

  // ---------------------------------------------------------------------------
  // Hooks forwarded to entities
  // ---------------------------------------------------------------------------

  /** A hook the overworld passes on to a level entity. */
  datatype EntityHook =
    | EntitySpawnHook
    | EntityKeyHook(keyCode: int, pressed: bool, released: bool, repeat: bool)

  datatype EntityCall = EntityCall(hook: EntityHook, target: Entity)

  /** The nested loop over the entity layers: layers 0..15, each list in order, the same hook for each. */
  method BroadcastEntities(layers: seq<seq<Entity?>>, hook: EntityHook) returns (calls: seq<EntityCall>)
    requires forall k :: 0 <= k < |layers| ==> NonNull(layers[k])
    ensures NonNull(Flatten(layers))
    ensures |calls| == |Flatten(layers)|
    ensures forall i :: 0 <= i < |calls| ==> calls[i] == EntityCall(hook, Flatten(layers)[i])
  {
    FlattenNonNull(layers);
    calls := [];
    var l := 0;
    while l < |layers|
      invariant 0 <= l <= |layers| && NonNull(Flatten(layers[..l]))
      invariant |calls| == |Flatten(layers[..l])|
      invariant forall i :: 0 <= i < |calls| ==> calls[i] == EntityCall(hook, Flatten(layers[..l])[i])
    {
      var layer := layers[l];
      ghost var done := Flatten(layers[..l]);
      var k := 0;
      while k < |layer|
        invariant 0 <= k <= |layer| && NonNull(done + layer[..k])
        invariant |calls| == |done + layer[..k]|
        invariant forall i :: 0 <= i < |calls| ==> calls[i] == EntityCall(hook, (done + layer[..k])[i])
      {
        assert done + layer[..k + 1] == done + layer[..k] + [layer[k]];
        calls := calls + [EntityCall(hook, layer[k])];
        k := k + 1;
      }
      FlattenSnoc(layers, l);
      assert layer[..k] == layer;
      l := l + 1;
    }
    assert layers[..l] == layers;
  }

  /** A broadcast to the entities reaches exactly the entities on the layers. */
  lemma EntityBroadcastReaches(layers: seq<seq<Entity?>>, hook: EntityHook, calls: seq<EntityCall>, e: Entity)
    requires NonNull(Flatten(layers)) && |calls| == |Flatten(layers)|
    requires forall i :: 0 <= i < |calls| ==> calls[i] == EntityCall(hook, Flatten(layers)[i])
    ensures EntityCall(hook, e) in calls <==> exists l :: 0 <= l < |layers| && e in layers[l]
  {
    FlattenMembers(layers);
    if EntityCall(hook, e) in calls {
      var i :| 0 <= i < |calls| && calls[i] == EntityCall(hook, e);
      assert e in Flatten(layers);
    }
    if l :| 0 <= l < |layers| && e in layers[l] {
      FlattenHas(layers, l, e);
      var i :| 0 <= i < |Flatten(layers)| && Flatten(layers)[i] == e;
      assert calls[i] == EntityCall(hook, e);
    }
  }

  // ---------------------------------------------------------------------------
  // Loading a level
  // ---------------------------------------------------------------------------

  /**
   * What Level::LoadLevel reads from outside the level: the parsed document
   * for each path (Engine::LoadJSON), the tileset and texture caches, the
   * lighting function and the colour a tile starts from.
   */
  datatype LevelSource = LevelSource(documents: string -> LevelDocument, tilesets: TilesetManager,
                                     textures: TextureManager, lighting: Lighting, indeterminate: Rgb)

  /** The document at path can be loaded into an empty level (the loaders' own demands). */
  predicate Loadable(src: LevelSource, path: string)
  {
    var doc := src.documents(path);
    EntitiesFit(doc, false) && TilesetsListed(doc) && TilesFit(doc)
  }

  /** Sixteen empty layers, as Level() leaves them. */
  function EmptyLayers<T>(): (r: seq<seq<T>>)
    ensures |r| == MaxTileLayers && forall k :: 0 <= k < MaxTileLayers ==> r[k] == []
  {
    seq(MaxTileLayers, k => [])
  }

  /** Layers that are all empty flatten to nothing. */
  lemma {:induction false} FlattenEmpty<T>(ls: seq<seq<T>>)
    requires forall k :: 0 <= k < |ls| ==> ls[k] == []
    ensures Flatten(ls) == []
    decreases |ls|
  {
    if |ls| > 0 {
      FlattenEmpty(ls[..|ls| - 1]);
    }
  }

  /** The tiles of the layers and their tag sets. */
  function TileFrame(ls: seq<seq<Tile?>>): set<object>
  {
    var objs: set<object> := set k, t: Tile | 0 <= k < |ls| && t in ls[k] :: t;
    var tags: set<object> := set k, t: Tile | 0 <= k < |ls| && t in ls[k] :: t.tagSet;
    objs + tags
  }

  /**
   * A level as LoadLevel leaves a new level for document doc: each entity
   * layer holds what its object layer planned, each tile layer the tiles of
   * its grid lit by the level's lights, and the collision rectangles are those
   * of the tiles followed by those of the collision layers.
   */
  predicate Loaded(level: Level, doc: LevelDocument, src: LevelSource)
    reads level, src.tilesets, src.textures, TileFrame(level.lTiles)
    reads set k, e | 0 <= k < |level.lEntities| && e in level.lEntities[k] && e != null :: e
    reads set k, e | 0 <= k < |level.lEntities| && e in level.lEntities[k] && e != null :: e.tagSet
    reads set e | e in Flatten(level.lEntities) && e != null :: e.tagSet
    reads set e | e in Flatten(level.lEntities) && e != null
  {
    level.Valid() && level.EntitiesLive() && NonNull(Flatten(level.lEntities)) &&
    TilesetsListed(doc) && TilesFit(doc) &&
    EntityLayersGrown(EmptyLayers(), level.lEntities, EntityPlanOf(doc, false).added) &&
    TilesLoaded(level.lTiles, doc, src, Sources(Tagged(Flatten(level.lEntities), LightTag))) &&
    level.lCollisionR == LevelCollisions(doc, src)
  }

  /** The collision rectangles of doc: the solid tiles' boxes, then the collision layer's. */
  function LevelCollisions(doc: LevelDocument, src: LevelSource): seq<CollisionRect>
    requires TilesetsListed(doc) && TilesFit(doc)
    reads src.tilesets
  {
    GridCollisions(TilePlan(doc).items, LevelTileset(doc, src.tilesets)) + CollisionPlan(doc).items
  }

  /** The tile layers as LoadLevel leaves a new level for doc, lit by the lights srcs. */
  predicate TilesLoaded(ls: seq<seq<Tile?>>, doc: LevelDocument, src: LevelSource, srcs: seq<LightSource>)
    requires TilesetsListed(doc) && TilesFit(doc)
    reads src.tilesets, src.textures, TileFrame(ls)
  {
    TileLayersGrown(EmptyLayers(), ls, TilePlan(doc).items, LevelTileset(doc, src.tilesets), src.textures,
                    srcs, src.lighting, src.indeterminate)
  }

  /** A loaded level has no released slot in any layer. */
  lemma LoadedIsLive(level: Level, doc: LevelDocument, src: LevelSource)
    requires Loaded(level, doc, src)
    ensures LayersLive(level)
  {
    forall k | 0 <= k < |level.lTiles|
      ensures TilesLive(level.lTiles[k])
    {
      if k < |TilePlan(doc).items| {
        assert TilesGrown([], level.lTiles[k], TilePlan(doc).items[k], LevelTileset(doc, src.tilesets), src.textures,
                          Sources(Tagged(Flatten(level.lEntities), LightTag)), src.lighting, src.indeterminate);
      }
    }
  }

  /**
   * No entity of a loaded level is tagged "Character" (no constructor adds
   * that tag), so GetCharacter finds nobody in it.
   */
  lemma LoadedLevelHasNoCharacter(level: Level, doc: LevelDocument, src: LevelSource)
    requires Loaded(level, doc, src)
    ensures level.FindCharacter().None?
  {
    var es := Flatten(level.lEntities);
    FlattenMembers(level.lEntities);
    forall i | 0 <= i < |es|
      ensures !es[i].tagSet.HasTag(CharacterTag)
    {
      assert es[i] in es;
      var k :| 0 <= k < |level.lEntities| && es[i] in level.lEntities[k];
      var j :| 0 <= j < |level.lEntities[k]| && level.lEntities[k][j] == es[i];
      var added := EntityPlanOf(doc, false).added;
      assert Grown([], level.lEntities[k], added[k]);
      assert Built(es[i], added[k][j]);
      NoKindIsTaggedCharacter(es[i].kind);
    }
  }

  /** `new Level()` followed by LoadLevel(doc): a fresh level as Loaded describes it. */
  method NewLevel(doc: LevelDocument, src: LevelSource) returns (level: Level)
    requires EntitiesFit(doc, false) && TilesetsListed(doc) && TilesFit(doc)
    ensures fresh(level) && Loaded(level, doc, src)
  {
    level := new Level();
    assert level.lEntities == EmptyLayers() && level.lTiles == EmptyLayers();
    FlattenEmpty(level.lEntities);
    ghost var rects := GridCollisions(TilePlan(doc).items, LevelTileset(doc, src.tilesets));
    assert level.lCollisionR + rects == rects;
    level.LoadLevel(doc, src.tilesets, src.textures, src.lighting, src.indeterminate);
  }

  // ---------------------------------------------------------------------------
  // The landmark placement
  // ---------------------------------------------------------------------------

  predicate IsLandmark(e: Entity, name: string)
    reads e`classname, e`targetname
  {
    e.classname == LandmarkClass && e.targetname == name
  }

  /** The landmark the inner loop stops at: the first one in list order with that target name. */
  function FirstLandmark(es: seq<Entity?>, name: string): (r: Option<Entity>)
    requires NonNull(es)
    reads (set e | e in es && e != null)`classname, (set e | e in es && e != null)`targetname
    ensures r.None? <==> forall i :: 0 <= i < |es| ==> !IsLandmark(es[i], name)
    ensures r.Some? ==> exists i :: 0 <= i < |es| && es[i] == r.value && IsLandmark(r.value, name) &&
                                   forall j :: 0 <= j < i ==> !IsLandmark(es[j], name)
  {
    if |es| == 0 then None
    else
      var first: Entity := es[0];
      if IsLandmark(first, name) then Some(first)
      else
      var r := FirstLandmark(es[1..], name);
      assert forall i :: 1 <= i < |es| ==> es[i] == es[1..][i - 1];
      r
  }

  /** The objects of the entity layers. */
  function LayerEntities(ls: seq<seq<Entity?>>): set<Entity>
  {
    set k, e: Entity | 0 <= k < |ls| && e in ls[k] :: e
  }

  /**
   * Where one layer's scan leaves character c, standing at (px, py): the
   * layer's first matching landmark moves it to the landmark's position less
   * half its size; a landmark that is the character itself is read at the
   * character's current position; with no match it stays.
   */
  function LandmarkStep(es: seq<Entity?>, name: string, c: Entity, px: real, py: real): (real, real)
    requires NonNull(es)
    reads c`destinationRect, (set e | e in es && e != null)`classname, (set e | e in es && e != null)`targetname
    reads (set e | e in es && e != null && e != c)`levelX, (set e | e in es && e != null && e != c)`levelY
  {
    match FirstLandmark(es, name)
    case None => (px, py)
    case Some(l) =>
      var at := if l == c then (px, py) else (l.levelX, l.levelY);
      (at.0 - c.destinationRect.w / 2.0, at.1 - c.destinationRect.h / 2.0)
  }

  /**
   * Where the landmark loop leaves character c, at (px, py) before the loop,
   * after the first n layers. The break leaves only the inner loop, so a
   * later layer's landmark moves the character again.
   */
  function Placed(ls: seq<seq<Entity?>>, name: string, c: Entity, px: real, py: real, n: nat): (real, real)
    requires n <= |ls| && forall k :: 0 <= k < |ls| ==> NonNull(ls[k])
    reads c`destinationRect, LayerEntities(ls)`classname, LayerEntities(ls)`targetname
    reads (LayerEntities(ls) - {c})`levelX, (LayerEntities(ls) - {c})`levelY
  {
    if n == 0 then (px, py)
    else
      var q := Placed(ls, name, c, px, py, n - 1);
      LandmarkStep(ls[n - 1], name, c, q.0, q.1)
  }

  /** With no matching landmark on any layer the character stays where it was. */
  lemma {:induction false} PlacedWithoutLandmark(ls: seq<seq<Entity?>>, name: string, c: Entity, px: real, py: real, n: nat)
    requires n <= |ls| && forall k :: 0 <= k < |ls| ==> NonNull(ls[k])
    requires forall k, e: Entity :: 0 <= k < n && e in ls[k] ==> !IsLandmark(e, name)
    ensures Placed(ls, name, c, px, py, n) == (px, py)
  {
    if n > 0 {
      PlacedWithoutLandmark(ls, name, c, px, py, n - 1);
    }
  }

  /** The last layer with a matching landmark decides: the character ends at that landmark. */
  lemma LastLandmarkDecides(ls: seq<seq<Entity?>>, name: string, c: Entity, px: real, py: real, n: nat, l: Entity)
    requires 0 < n <= |ls| && forall k :: 0 <= k < |ls| ==> NonNull(ls[k])
    requires FirstLandmark(ls[n - 1], name) == Some(l) && l != c
    ensures Placed(ls, name, c, px, py, n) == (l.levelX - c.destinationRect.w / 2.0, l.levelY - c.destinationRect.h / 2.0)
  {
  }

  /** The entities a placement may move: the character, when there is one. */
  function Moved(ch: Option<Entity>): set<Entity>
  {
    if ch.Some? then {ch.value} else {}
  }

  /**
   * The landmark loop of PerformLevelTransition: for each layer, the first
   * landmark with the name moves the character GetCharacter returns (the
   * ForcePosition call sets its world position); other entities never move.
   */
  method PlaceAtLandmark(level: Level, name: string, ghost ch: Option<Entity>)
    requires level.EntitiesLive() && ch == level.FindCharacter()
    modifies Moved(ch)`levelX, Moved(ch)`levelY
    ensures ch.None? ==> unchanged(LevelEntities(level))
    ensures ch.Some? ==> var c := ch.value;
      (c.levelX, c.levelY) == Placed(level.lEntities, name, c, old(c.levelX), old(c.levelY), |level.lEntities|) &&
      unchanged(LevelEntities(level) - {c})
  {
    CharacterInLevel(level);
    var k := 0;
    while k < |level.lEntities|
      invariant 0 <= k <= |level.lEntities|
      invariant level.FindCharacter() == ch
      invariant ch.None? ==> unchanged(LevelEntities(level))
      invariant ch.Some? ==> unchanged(LevelEntities(level) - {ch.value})
      invariant ch.Some? ==>
        (ch.value.levelX, ch.value.levelY) ==
          Placed(level.lEntities, name, ch.value, old(ch.value.levelX), old(ch.value.levelY), k)
    {
      ghost var q := if ch.Some? then
        Placed(level.lEntities, name, ch.value, old(ch.value.levelX), old(ch.value.levelY), k) else (0.0, 0.0);
      ScanLayer(level, k, name, ch);
      if ch.Some? {
        assert LayerEntities(level.lEntities) == LevelEntities(level);
        assert Placed(level.lEntities, name, ch.value, old(ch.value.levelX), old(ch.value.levelY), k) == q;
      }
      k := k + 1;
    }
  }

  /** The inner loop for entity layer k: up to and including the first matching landmark. */
  method ScanLayer(level: Level, k: nat, name: string, ghost ch: Option<Entity>)
    requires level.EntitiesLive() && k < |level.lEntities| && ch == level.FindCharacter()
    requires ch.Some? ==> ch.value in LevelEntities(level)
    modifies Moved(ch)`levelX, Moved(ch)`levelY
    ensures level.FindCharacter() == ch
    ensures ch.None? ==> unchanged(LevelEntities(level))
    ensures ch.Some? ==> var c := ch.value;
      (c.levelX, c.levelY) == LandmarkStep(level.lEntities[k], name, c, old(c.levelX), old(c.levelY)) &&
      unchanged(LevelEntities(level) - {c})
  {
    var layer := level.lEntities[k];
    var j := 0;
    while j < |layer|
      invariant 0 <= j <= |layer|
      invariant forall i :: 0 <= i < j ==> !IsLandmark(layer[i], name)
      invariant unchanged(LevelEntities(level))
    {
      var entity: Entity := layer[j];
      if entity.classname == LandmarkClass && entity.targetname == name {
        FirstLandmarkIs(layer, name, j, entity);
        MoveToLandmark(level, entity, ch);
        return;
      }
      j := j + 1;
    }
  }

  /** The body of a match: the character, if any, is centred on the landmark. */
  method MoveToLandmark(level: Level, landmark: Entity, ghost ch: Option<Entity>)
    requires level.EntitiesLive() && ch == level.FindCharacter()
    requires ch.Some? ==> ch.value in LevelEntities(level)
    modifies Moved(ch)`levelX, Moved(ch)`levelY
    ensures level.FindCharacter() == ch
    ensures ch.None? ==> unchanged(LevelEntities(level))
    ensures ch.Some? ==> var c := ch.value;
      var at := if landmark == c then old((c.levelX, c.levelY)) else (landmark.levelX, landmark.levelY);
      c.levelX == at.0 - c.destinationRect.w / 2.0 && c.levelY == at.1 - c.destinationRect.h / 2.0 &&
      unchanged(LevelEntities(level) - {c})
  {
    var character := level.GetCharacter();
    level.CharacterKept();
    if character.Some? {
      var c := character.value;
      c.levelX, c.levelY := landmark.levelX - c.destinationRect.w / 2.0, landmark.levelY - c.destinationRect.h / 2.0;
    }
    level.CharacterKept();
  }

  /** The character GetCharacter finds is one of the level's entities. */
  lemma CharacterInLevel(level: Level)
    requires level.EntitiesLive()
    ensures level.FindCharacter().Some? ==> level.FindCharacter().value in LevelEntities(level)
  {
    if level.FindCharacter().Some? {
      var es := Flatten(level.lEntities);
      var c := level.FindCharacter().value;
      var i :| 0 <= i < |es| && es[i] == c && c.tagSet.HasTag(CharacterTag) &&
               forall j :: 0 <= j < i ==> !es[j].tagSet.HasTag(CharacterTag);
      FlattenMembers(level.lEntities);
      assert es[i] in es;
    }
  }

  /** The first landmark is the one at j when none comes before it. */
  lemma FirstLandmarkIs(es: seq<Entity?>, name: string, j: nat, e: Entity)
    requires NonNull(es) && j < |es| && es[j] == e && IsLandmark(e, name)
    requires forall i :: 0 <= i < j ==> !IsLandmark(es[i], name)
    ensures FirstLandmark(es, name) == Some(e)
  {
    var r := FirstLandmark(es, name);
    var i :| 0 <= i < |es| && es[i] == r.value && IsLandmark(r.value, name) &&
             forall m :: 0 <= m < i ==> !IsLandmark(es[m], name);
    assert i == j;
  }

  // ---------------------------------------------------------------------------
  // Drawing with the debug modes
  // ---------------------------------------------------------------------------

  /**
   * The colour Draw gives a tile: the light at the mouse position (an input:
   * the mouse state and the float lighting are not modelled) added to the
   * tile's colour modifier, each channel capped at 255.
   */
  function TileLight(t: Tile, mouseLight: Tile -> Rgb): Rgb
    reads t
  {
    Brighten(t.colorModifier, mouseLight(t))
  }

  predicate Black(c: Rgb)
  {
    c.r == 0 && c.g == 0 && c.b == 0
  }

  /**
   * Whether Draw reaches a tile's draw: camera culling only under the
   * standard and no-lights culling modes, the tag filter always, and the
   * skip of completely black tiles only under standard culling.
   */
  predicate TileShown(t: Tile, camera: FRect, m: DebugModes, mouseLight: Tile -> Rgb)
    reads t, t.tagSet
  {
    ((m.culling == CullingStandard || m.culling == CullingNoLights) ==> CollisionCheckF(camera, TileBox(t))) &&
    Drawable(t.tagSet) &&
    (m.culling == CullingStandard ==> !Black(TileLight(t, mouseLight)))
  }

  /** The calls Draw makes for one tile: the debug rectangle of the lighting mode, if any, then the tile. */
  function TileDraws(t: Tile, camera: FRect, m: DebugModes, mouseLight: Tile -> Rgb): seq<DrawCall>
    reads t, t.tagSet
  {
    if !TileShown(t, camera, m, mouseLight) then []
    else if m.lighting == LightingFill then [FillTileRect(t), DrawTile(t)]
    else if m.lighting == LightingBorder then [OutlineTileRect(t), DrawTile(t)]
    else [DrawTile(t)]
  }

  /** The calls Draw makes over one tile layer, in list order. */
  function OverworldTiles(ts: seq<Tile?>, camera: FRect, m: DebugModes, mouseLight: Tile -> Rgb): (r: seq<DrawCall>)
    requires TilesLive(ts)
    reads ts, TileTags(ts)
    ensures |r| <= 2 * |ts|
    ensures forall d :: d in r ==>
      (d.DrawTile? || d.FillTileRect? || d.OutlineTileRect?) && d.tile in ts && TileShown(d.tile, camera, m, mouseLight)
  {
    if |ts| == 0 then []
    else OverworldTiles(ts[..|ts| - 1], camera, m, mouseLight) + TileDraws(ts[|ts| - 1], camera, m, mouseLight)
  }

  /** A tile is drawn exactly when it is on the layer and Draw reaches it. */
  lemma {:induction false} OverworldTilesDrawn(ts: seq<Tile?>, camera: FRect, m: DebugModes, mouseLight: Tile -> Rgb, t: Tile)
    requires TilesLive(ts)
    ensures DrawTile(t) in OverworldTiles(ts, camera, m, mouseLight) <==> t in ts && TileShown(t, camera, m, mouseLight)
    decreases |ts|
  {
    if |ts| > 0 {
      OverworldTilesDrawn(ts[..|ts| - 1], camera, m, mouseLight, t);
      assert ts == ts[..|ts| - 1] + [ts[|ts| - 1]];
    }
  }

  /**
   * The debug rectangles follow the lighting mode: a tile gets a filled
   * rectangle exactly when the mode is FILL and the tile is drawn, an outline
   * exactly when the mode is BORDER and the tile is drawn.
   */
  lemma {:induction false} DebugRectangles(ts: seq<Tile?>, camera: FRect, m: DebugModes, mouseLight: Tile -> Rgb, t: Tile)
    requires TilesLive(ts)
    ensures FillTileRect(t) in OverworldTiles(ts, camera, m, mouseLight) <==>
      m.lighting == LightingFill && DrawTile(t) in OverworldTiles(ts, camera, m, mouseLight)
    ensures OutlineTileRect(t) in OverworldTiles(ts, camera, m, mouseLight) <==>
      m.lighting == LightingBorder && DrawTile(t) in OverworldTiles(ts, camera, m, mouseLight)
    decreases |ts|
  {
    if |ts| > 0 {
      DebugRectangles(ts[..|ts| - 1], camera, m, mouseLight, t);
    }
  }

  /**
   * With the no-lights culling and no debug rectangles, a tile layer is drawn
   * exactly as the engine's own level pass draws it.
   */
  lemma {:induction false} NoLightsIsEngineCulling(ts: seq<Tile?>, camera: FRect, m: DebugModes, mouseLight: Tile -> Rgb)
    requires TilesLive(ts)
    requires m.culling == CullingNoLights && (m.lighting == LightingStandard || m.lighting == LightingDisabled)
    ensures OverworldTiles(ts, camera, m, mouseLight) == CulledTiles(ts, camera)
    decreases |ts|
  {
    if |ts| > 0 {
      NoLightsIsEngineCulling(ts[..|ts| - 1], camera, m, mouseLight);
    }
  }

  /** With culling disabled, every tile that passes the tag filter is drawn, wherever the camera is. */
  lemma CullingDisabledDrawsAll(ts: seq<Tile?>, camera: FRect, m: DebugModes, mouseLight: Tile -> Rgb, t: Tile)
    requires TilesLive(ts) && m.culling == CullingDisabled
    ensures DrawTile(t) in OverworldTiles(ts, camera, m, mouseLight) <==> t in ts && Drawable(t.tagSet)
  {
    OverworldTilesDrawn(ts, camera, m, mouseLight, t);
  }

  /** With standard culling a tile is drawn exactly when it is visible to the engine's pass and not black. */
  lemma StandardCullingSkipsBlack(ts: seq<Tile?>, camera: FRect, m: DebugModes, mouseLight: Tile -> Rgb, t: Tile)
    requires TilesLive(ts) && m.culling == CullingStandard
    ensures DrawTile(t) in OverworldTiles(ts, camera, m, mouseLight) <==>
      t in ts && TileVisible(t, camera) && !Black(TileLight(t, mouseLight))
  {
    OverworldTilesDrawn(ts, camera, m, mouseLight, t);
  }

  /** The calls Draw makes for one layer: its tiles, then its entities, culled as the engine culls them. */
  function OverworldLayer(ts: seq<Tile?>, es: seq<Entity?>, camera: FRect, m: DebugModes, mouseLight: Tile -> Rgb): seq<DrawCall>
    requires TilesLive(ts) && NonNull(es)
    reads ts, TileTags(ts), es, EntityTags(es)
  {
    OverworldTiles(ts, camera, m, mouseLight) + CulledEntities(es, camera)
  }

  /** The calls of the first n layers of Draw, lowest layer first. */
  function OverworldTrace(tiles: seq<seq<Tile?>>, ents: seq<seq<Entity?>>, camera: FRect, m: DebugModes,
                          mouseLight: Tile -> Rgb, n: nat): seq<DrawCall>
    requires n <= |tiles| && n <= |ents|
    requires forall k :: 0 <= k < n ==> TilesLive(tiles[k]) && NonNull(ents[k])
    reads LayerFrame(tiles, ents, n)
  {
    if n == 0 then []
    else OverworldTrace(tiles, ents, camera, m, mouseLight, n - 1) + OverworldLayer(tiles[n - 1], ents[n - 1], camera, m, mouseLight)
  }

  /** Under the no-lights culling and no debug rectangles, Draw's level calls are the engine's level pass. */
  lemma {:induction false} OverworldTraceIsLevelTrace(tiles: seq<seq<Tile?>>, ents: seq<seq<Entity?>>, camera: FRect,
                                                      m: DebugModes, mouseLight: Tile -> Rgb, n: nat)
    requires n <= |tiles| && n <= |ents|
    requires forall k :: 0 <= k < n ==> TilesLive(tiles[k]) && NonNull(ents[k])
    requires m.culling == CullingNoLights && (m.lighting == LightingStandard || m.lighting == LightingDisabled)
    ensures OverworldTrace(tiles, ents, camera, m, mouseLight, n) == LevelTrace(tiles, ents, camera, n)
    decreases n
  {
    if n > 0 {
      OverworldTraceIsLevelTrace(tiles, ents, camera, m, mouseLight, n - 1);
      NoLightsIsEngineCulling(tiles[n - 1], camera, m, mouseLight);
    }
  }

  /** The calls of the first n layers of Draw, one list per layer. */
  function OverworldLayers(tiles: seq<seq<Tile?>>, ents: seq<seq<Entity?>>, camera: FRect, m: DebugModes,
                           mouseLight: Tile -> Rgb, n: nat): (r: seq<seq<DrawCall>>)
    requires n <= |tiles| && n <= |ents|
    requires forall k :: 0 <= k < n ==> TilesLive(tiles[k]) && NonNull(ents[k])
    reads LayerFrame(tiles, ents, n)
    ensures |r| == n
  {
    if n == 0 then []
    else OverworldLayers(tiles, ents, camera, m, mouseLight, n - 1) + [OverworldLayer(tiles[n - 1], ents[n - 1], camera, m, mouseLight)]
  }

  /** List k of the per-layer lists holds the calls of layer k. */
  lemma {:induction false} OverworldLayersAt(tiles: seq<seq<Tile?>>, ents: seq<seq<Entity?>>, camera: FRect,
                                             m: DebugModes, mouseLight: Tile -> Rgb, n: nat, k: nat)
    requires n <= |tiles| && n <= |ents|
    requires forall k :: 0 <= k < n ==> TilesLive(tiles[k]) && NonNull(ents[k])
    requires k < n
    ensures OverworldLayers(tiles, ents, camera, m, mouseLight, n)[k] == OverworldLayer(tiles[k], ents[k], camera, m, mouseLight)
    decreases n
  {
    if k < n - 1 {
      OverworldLayersAt(tiles, ents, camera, m, mouseLight, n - 1, k);
    }
  }

  /** Draw's level calls are its per-layer lists, flattened. */
  lemma {:induction false} OverworldTraceLayers(tiles: seq<seq<Tile?>>, ents: seq<seq<Entity?>>, camera: FRect,
                                                m: DebugModes, mouseLight: Tile -> Rgb, n: nat)
    requires n <= |tiles| && n <= |ents|
    requires forall k :: 0 <= k < n ==> TilesLive(tiles[k]) && NonNull(ents[k])
    ensures OverworldTrace(tiles, ents, camera, m, mouseLight, n) == Flatten(OverworldLayers(tiles, ents, camera, m, mouseLight, n))
    decreases n
  {
    if n > 0 {
      OverworldTraceLayers(tiles, ents, camera, m, mouseLight, n - 1);
      var ls := OverworldLayers(tiles, ents, camera, m, mouseLight, n);
      assert ls[..n - 1] == OverworldLayers(tiles, ents, camera, m, mouseLight, n - 1);
    }
  }

  /** Layers are drawn bottom up: every call of layer i comes before every call of a higher layer j. */
  lemma OverworldTraceOrder(tiles: seq<seq<Tile?>>, ents: seq<seq<Entity?>>, camera: FRect,
                            m: DebugModes, mouseLight: Tile -> Rgb, n: nat, i: nat, j: nat)
    requires n <= |tiles| && n <= |ents|
    requires forall k :: 0 <= k < n ==> TilesLive(tiles[k]) && NonNull(ents[k])
    requires i < j < n
    ensures exists pre, mid, post ::
      (OverworldTrace(tiles, ents, camera, m, mouseLight, n) ==
        pre + OverworldLayer(tiles[i], ents[i], camera, m, mouseLight) + mid
            + OverworldLayer(tiles[j], ents[j], camera, m, mouseLight) + post)
  {
    OverworldTraceLayers(tiles, ents, camera, m, mouseLight, n);
    OverworldLayersAt(tiles, ents, camera, m, mouseLight, n, i);
    OverworldLayersAt(tiles, ents, camera, m, mouseLight, n, j);
    FlattenOrder(OverworldLayers(tiles, ents, camera, m, mouseLight, n), i, j);
  }

  /** What Draw reads of a tile besides its box: its colour modifier. */
  twostate predicate TileLightKept(t: Tile)
    reads t, t.tagSet
  {
    TileBoxKept(t) && t.colorModifier == old(t.colorModifier)
  }

  /** Moving only a tile's drawn box keeps its calls, for every camera and mode. */
  twostate lemma TileDrawsKept(t: Tile)
    requires TileLightKept(t)
    ensures forall camera, m, mouseLight :: TileDraws(t, camera, m, mouseLight) == old(TileDraws(t, camera, m, mouseLight))
  {
  }

  /** Moving only the drawn boxes keeps the calls of a tile layer, for every camera and mode. */
  twostate lemma {:induction false} OverworldTilesKept(ts: seq<Tile?>)
    requires TilesLive(ts)
    requires forall t: Tile :: t in ts ==> TileLightKept(t)
    ensures forall camera, m, mouseLight :: OverworldTiles(ts, camera, m, mouseLight) == old(OverworldTiles(ts, camera, m, mouseLight))
  {
    if |ts| > 0 {
      assert forall t: Tile :: t in ts[..|ts| - 1] ==> t in ts;
      OverworldTilesKept(ts[..|ts| - 1]);
    }
  }

  /**
   * The tile loop of Draw for one layer: every tile's drawn box is moved to
   * its world position less the camera's before any test, then the culling,
   * the filter, the black-tile skip and the debug rectangle of the modes.
   */
  method OverworldRenderTiles(ts: seq<Tile?>, camera: FRect, m: DebugModes, mouseLight: Tile -> Rgb)
    returns (trace: seq<DrawCall>)
    requires TilesLive(ts)
    modifies TileObjects(ts)`destinationRect
    ensures trace == old(OverworldTiles(ts, camera, m, mouseLight))
    ensures forall t: Tile :: t in ts ==>
      t.destinationRect == OnScreen(old(t.destinationRect), t.levelX, t.levelY, camera)
  {
    trace := [];
    var i := 0;
    while i < |ts|
      invariant 0 <= i <= |ts|
      invariant trace == old(OverworldTiles(ts[..i], camera, m, mouseLight))
      invariant forall t: Tile :: t in ts ==>
        t.destinationRect == if t in ts[..i] then OnScreen(old(t.destinationRect), t.levelX, t.levelY, camera)
                               else old(t.destinationRect)
    {
      assert ts[..i + 1] == ts[..i] + [ts[i]];
      TileDrawsKept(ts[i]);
      var calls := OverworldRenderTile(ts[i], camera, m, mouseLight);
      trace := trace + calls;
      i := i + 1;
    }
    assert ts[..i] == ts;
  }

  /**
   * The body of the tile loop: the drawn box is moved to the world position
   * less the camera's, then the culling, the filter, the black-tile skip and
   * the debug rectangle of the lighting mode decide the calls.
   */
  method OverworldRenderTile(tile: Tile, camera: FRect, m: DebugModes, mouseLight: Tile -> Rgb)
    returns (calls: seq<DrawCall>)
    modifies tile`destinationRect
    ensures calls == old(TileDraws(tile, camera, m, mouseLight))
    ensures tile.destinationRect == OnScreen(old(tile.destinationRect), tile.levelX, tile.levelY, camera)
  {
    calls := [];
    tile.destinationRect := tile.destinationRect.(x := tile.levelX - camera.x, y := tile.levelY - camera.y);
    TileDrawsKept(tile);
    var checkRect := FRect(tile.levelX, tile.levelY, tile.destinationRect.w, tile.destinationRect.h);
    if (m.culling == CullingStandard || m.culling == CullingNoLights) && !CollisionCheckF(camera, checkRect) {
      return;
    }
    if tile.tagSet.HasTag(Renderable) || !tile.tagSet.HasTag(NotRendering) {
      var finalLight := Brighten(tile.colorModifier, mouseLight(tile));
      if m.culling == CullingStandard && finalLight.r == 0 && finalLight.g == 0 && finalLight.b == 0 {
        return;
      }
      if m.lighting == LightingFill {
        calls := [FillTileRect(tile)];
      } else if m.lighting == LightingBorder {
        calls := [OutlineTileRect(tile)];
      }
      calls := calls + [DrawTile(tile)];
    }
  }

  /** One layer of Draw: its tiles, then its entities with the engine's entity loop. */
  method OverworldRenderLayer(ts: seq<Tile?>, es: seq<Entity?>, camera: FRect, m: DebugModes, mouseLight: Tile -> Rgb)
    returns (trace: seq<DrawCall>)
    requires TilesLive(ts) && NonNull(es)
    modifies TileObjects(ts)`destinationRect, EntityObjects(es)`destinationRect
    ensures trace == old(OverworldLayer(ts, es, camera, m, mouseLight))
    ensures forall t: Tile :: t in ts ==>
      t.destinationRect == OnScreen(old(t.destinationRect), t.levelX, t.levelY, camera)
    ensures forall e: Entity :: e in es ==>
      e.destinationRect == OnScreen(old(e.destinationRect), e.levelX, e.levelY, camera)
  {
    var tileTrace := OverworldRenderTiles(ts, camera, m, mouseLight);
    CulledEntitiesKept(es);
    var entityTrace := RenderEntities(es, camera);
    trace := tileTrace + entityTrace;
  }

  /** The layer loop of Draw: layers 0 to 15, each layer's tiles before its entities. */
  method OverworldRenderLayers(level: Level, camera: FRect, m: DebugModes, mouseLight: Tile -> Rgb)
    returns (trace: seq<DrawCall>)
    requires LayersLive(level)
    modifies LevelTiles(level)`destinationRect, LevelEntities(level)`destinationRect
    ensures trace == old(OverworldTrace(level.lTiles, level.lEntities, camera, m, mouseLight, MaxTileLayers))
  {
    ghost var tiles, ents := level.lTiles, level.lEntities;
    ghost var whole := OverworldTrace(tiles, ents, camera, m, mouseLight, MaxTileLayers);
    trace := [];
    var i := 0;
    while i < MaxTileLayers
      invariant 0 <= i <= MaxTileLayers && level.lTiles == tiles && level.lEntities == ents
      invariant trace == OverworldTrace(tiles, ents, camera, m, mouseLight, i)
      invariant OverworldTrace(tiles, ents, camera, m, mouseLight, MaxTileLayers) == whole
    {
      var layerTrace := OverworldLevelLayer(level, i, camera, m, mouseLight);
      trace := trace + layerTrace;
      i := i + 1;
    }
  }

  /**
   * One pass of Draw's layer loop: layer i's tiles, then its entities. The
   * calls of every prefix of the layers stay what they were, so the pass
   * makes the calls layer i called for before it.
   */
  method OverworldLevelLayer(level: Level, i: nat, camera: FRect, m: DebugModes, mouseLight: Tile -> Rgb)
    returns (trace: seq<DrawCall>)
    requires LayersLive(level) && i < MaxTileLayers
    modifies LevelTiles(level)`destinationRect, LevelEntities(level)`destinationRect
    ensures trace == OverworldLayer(level.lTiles[i], level.lEntities[i], camera, m, mouseLight)
    ensures forall n :: 0 <= n <= MaxTileLayers ==>
      OverworldTrace(level.lTiles, level.lEntities, camera, m, mouseLight, n) ==
        old(OverworldTrace(level.lTiles, level.lEntities, camera, m, mouseLight, n))
  {
    LayerInLevel(level, i);
    trace := OverworldRenderLayer(level.lTiles[i], level.lEntities[i], camera, m, mouseLight);
    OverworldLayersKept(level);
    OverworldTraceKept(level);
  }

  /** A pass that keeps every world position, size, colour and tag keeps the calls of every layer. */
  twostate lemma OverworldLayersKept(level: Level)
    requires old(LayersLive(level)) && unchanged(level)
    requires forall k :: 0 <= k < MaxTileLayers ==> forall t: Tile :: t in level.lTiles[k] ==> TileLightKept(t)
    requires forall k :: 0 <= k < MaxTileLayers ==> forall e: Entity :: e in level.lEntities[k] ==> EntityBoxKept(e)
    ensures forall k, camera, m, mouseLight :: 0 <= k < MaxTileLayers ==>
      OverworldLayer(level.lTiles[k], level.lEntities[k], camera, m, mouseLight) ==
        old(OverworldLayer(level.lTiles[k], level.lEntities[k], camera, m, mouseLight))
  {
    forall k | 0 <= k < MaxTileLayers
      ensures forall camera, m, mouseLight ::
        OverworldLayer(level.lTiles[k], level.lEntities[k], camera, m, mouseLight) ==
          old(OverworldLayer(level.lTiles[k], level.lEntities[k], camera, m, mouseLight))
    {
      OverworldTilesKept(level.lTiles[k]);
      CulledEntitiesKept(level.lEntities[k]);
    }
  }

  /** Layers whose calls are kept keep the calls of every prefix of the layers. */
  twostate lemma OverworldTraceKept(level: Level)
    requires old(LayersLive(level)) && unchanged(level)
    requires forall k, camera, m, mouseLight :: 0 <= k < MaxTileLayers ==>
      OverworldLayer(level.lTiles[k], level.lEntities[k], camera, m, mouseLight) ==
        old(OverworldLayer(level.lTiles[k], level.lEntities[k], camera, m, mouseLight))
    ensures forall camera, m, mouseLight, n :: 0 <= n <= MaxTileLayers ==>
      OverworldTrace(level.lTiles, level.lEntities, camera, m, mouseLight, n) ==
        old(OverworldTrace(level.lTiles, level.lEntities, camera, m, mouseLight, n))
  {
    forall camera, m, mouseLight, n | 0 <= n <= MaxTileLayers
      ensures OverworldTrace(level.lTiles, level.lEntities, camera, m, mouseLight, n) ==
        old(OverworldTrace(level.lTiles, level.lEntities, camera, m, mouseLight, n))
    {
      var j := 0;
      while j < n
        invariant 0 <= j <= n
        invariant OverworldTrace(level.lTiles, level.lEntities, camera, m, mouseLight, j) ==
          old(OverworldTrace(level.lTiles, level.lEntities, camera, m, mouseLight, j))
      {
        j := j + 1;
      }
    }
  }

  /** The level part of the overworld's Draw: the collision rectangles, then the layers. */
  method DrawLevel(level: Level, camera: FRect, m: DebugModes, mouseLight: Tile -> Rgb) returns (trace: seq<DrawCall>)
    requires LayersLive(level)
    modifies level, LevelTiles(level)`destinationRect, LevelEntities(level)`destinationRect
    ensures LayersLive(level) && level.lTiles == old(level.lTiles) && level.lEntities == old(level.lEntities)
    ensures trace == old(OverworldTrace(level.lTiles, level.lEntities, camera, m, mouseLight, MaxTileLayers))
    ensures |level.lCollisionR| == |old(level.lCollisionR)|
    ensures forall i :: 0 <= i < |level.lCollisionR| ==> level.lCollisionR[i] == Offset(old(level.lCollisionR[i]), camera)
  {
    // The collision loop comes first in Draw; it is placed after the layer
    // loop here, which neither reads nor writes the collision rectangles.
    trace := OverworldRenderLayers(level, camera, m, mouseLight);
    var rects := OffsetCollisions(level.lCollisionR, camera);
    level.lCollisionR := rects;
  }

  // ---------------------------------------------------------------------------
  // The overworld state
  // ---------------------------------------------------------------------------

  /** The Text that GetElement("fpsText") finds in the registry, when what it finds is a Text (dynamic_cast). */
  function FpsTarget(elements: seq<seq<Handle>>): Option<Text>
  {
    match FirstNamed(Flatten(elements), FpsTextName)
    case Some(TextElement(t)) => Some(t)
    case _ => None
  }

  function FpsTargets(elements: seq<seq<Handle>>): set<Text>
  {
    if FpsTarget(elements).Some? then {FpsTarget(elements).value} else {}
  }

  /** The text the frame-rate element shows: the floored rate in debug mode, nothing otherwise. */
  function FpsTextFor(debugModeEnabled: bool, fps: real): string
  {
    if debugModeEnabled then FpsString(fps) else ""
  }

  /** The frame-rate text OnLevelLoaded makes: "fpsText" on the top layer, empty and white. */
  predicate FpsTextMade(t: Text)
    reads t
  {
    t.base.elementName == FpsTextName && t.base.guiLayer == FpsTextLayer && t.text == "" && t.textColor == White
  }

  /** What one Update does: a level transition in place of the frame, or the frame's updates. */
  datatype UpdateResult =
    | Transitioned(spawned: seq<EntityCall>, fpsText: Text)
    | Stepped(updated: seq<Entity>, calls: seq<HookCall>)

  /**
   * OverworldState: the current level, the transition record, and the debug
   * settings. Its name is its own member, which hides the base state's (left
   * empty). The ghost flag levelFreed records that the level gLevel points to
   * has been deleted and not replaced: ResetState deletes the level without
   * clearing the pointer.
   */
  class OverworldState {
    const name: string
    const base: BaseGameState
    var gLevel: Level?
    ghost var levelFreed: bool
    const gLevelTransData: TransitionRecord
    var tilesRendered: int
    var selection: int
    var lightingRenderType: int
    var tileCullingType: int

    ghost predicate Valid()
      reads this, base.gGUI, gLevel
    {
      base.gGUI.Valid() && (gLevel != null && !levelFreed ==> LayersLive(gLevel))
    }

    /** The pointer is null or points to a level that has not been deleted. */
    ghost predicate Deletable()
      reads this
    {
      gLevel != null ==> !levelFreed
    }

    /** The three debug settings together. */
    function Modes(): DebugModes
      reads this`selection, this`lightingRenderType, this`tileCullingType
    {
      DebugModes(selection, lightingRenderType, tileCullingType)
    }

    /**
     * The state as instance() first builds it: no level (a static pointer
     * starts null), an empty GUI, and the in-class initial values of the debug
     * settings. The transition record is the one the doors write.
     */
    constructor (transData: TransitionRecord)
      ensures name == OverworldName && fresh(base) && fresh(base.gGUI) && base.name == ""
      ensures base.gGUI.Valid() && forall l :: 0 <= l < MaxGuiLayers ==> base.gGUI.elements[l] == []
      ensures gLevel == null && !levelFreed && gLevelTransData == transData
      ensures tilesRendered == 0 && Modes() == DebugModes(SelectLighting, LightingStandard, CullingStandard)
      ensures Valid() && Deletable()
    {
      name := OverworldName;
      base := new BaseGameState("");
      gLevel := null;
      levelFreed := false;
      gLevelTransData := transData;
      tilesRendered := 0;
      selection := SelectLighting;
      lightingRenderType := LightingStandard;
      tileCullingType := CullingStandard;
    }

    /** OnStateActivated is the base state's: the spawn hook on every GUI element. */
    method OnStateActivated() returns (spawned: seq<HookCall>)
      ensures |spawned| == |Flatten(base.gGUI.elements)|
      ensures forall i :: 0 <= i < |spawned| ==> spawned[i] == HookCall(SpawnHook, Flatten(base.gGUI.elements)[i])
    {
      spawned := base.OnStateActivated();
    }

    method OnStateDeactivated() { }
    method OnMouseWheelScrolled(x: int, y: int, direction: int) { }

    /** OnLevelShutdown: with a level, every GUI layer emptied; without one, nothing. */
    method OnLevelShutdown()
      requires base.gGUI.Valid()
      modifies base.gGUI
      ensures base.gGUI.Valid()
      ensures gLevel == null ==> base.gGUI.elements == old(base.gGUI.elements)
      ensures gLevel != null ==> forall l :: 0 <= l < MaxGuiLayers ==> base.gGUI.elements[l] == []
    {
      if gLevel == null { return; }
      ClearLayers(base.gGUI);
    }

    /**
     * `delete gLevel`: the level's destructor frees every tile and entity slot,
     * then calls OnLevelShutdown, which sees the pointer still set and empties
     * the GUI. The pointer itself is left as it was.
     */
    method DestroyLevel()
      requires Valid() && gLevel != null && !levelFreed
      modifies gLevel, this`levelFreed, base.gGUI
      ensures Valid() && levelFreed && gLevel == old(gLevel)
      ensures gLevel.lTiles == Cleared(old(gLevel.lTiles), null) && gLevel.lEntities == Cleared(old(gLevel.lEntities), null)
      ensures gLevel.lCollisionR == old(gLevel.lCollisionR)
      ensures forall l :: 0 <= l < MaxGuiLayers ==> base.gGUI.elements[l] == []
    {
      gLevel.FreeResources();
      levelFreed := true;
      OnLevelShutdown();
    }

    /** ResetState: delete the level, if any, then empty every GUI layer. */
    method ResetState()
      requires Valid() && Deletable()
      modifies gLevel, this`levelFreed, base.gGUI
      ensures Valid() && gLevel == old(gLevel)
      ensures gLevel == null ==> levelFreed == old(levelFreed)
      ensures gLevel != null ==> (levelFreed &&
        gLevel.lTiles == Cleared(old(gLevel.lTiles), null) && gLevel.lEntities == Cleared(old(gLevel.lEntities), null))
      ensures forall l :: 0 <= l < MaxGuiLayers ==> base.gGUI.elements[l] == []
    {
      if gLevel != null {
        DestroyLevel();
      }
      ClearLayers(base.gGUI);
    }

    /**
     * OnLevelLoaded: with a level, the spawn hook on every entity in layer and
     * list order, then on every GUI element, then a new white "fpsText" text
     * added to the top GUI layer. Without a level, nothing.
     */
    method OnLevelLoaded() returns (spawned: seq<EntityCall>, guiSpawned: seq<HookCall>, fpsText: Text?)
      requires Valid() && Deletable()
      modifies base.gGUI
      ensures Valid()
      ensures gLevel == null ==>
        spawned == [] && guiSpawned == [] && fpsText == null && base.gGUI.elements == old(base.gGUI.elements)
      ensures gLevel != null ==> (NonNull(Flatten(gLevel.lEntities)) &&
        |spawned| == |Flatten(gLevel.lEntities)| &&
        (forall i :: 0 <= i < |spawned| ==> spawned[i] == EntityCall(EntitySpawnHook, Flatten(gLevel.lEntities)[i])))
      ensures gLevel != null ==> (|guiSpawned| == |Flatten(old(base.gGUI.elements))| &&
        forall i :: 0 <= i < |guiSpawned| ==> guiSpawned[i] == HookCall(SpawnHook, Flatten(old(base.gGUI.elements))[i]))
      ensures gLevel != null ==> (fpsText != null && fresh(fpsText) && FpsTextMade(fpsText) &&
        base.gGUI.elements ==
          old(base.gGUI.elements)[FpsTextLayer := old(base.gGUI.elements)[FpsTextLayer] + [TextElement(fpsText)]])
    {
      if gLevel == null {
        return [], [], null;
      }
      spawned := BroadcastEntities(gLevel.lEntities, EntitySpawnHook);
      guiSpawned := Broadcast(base.gGUI.elements, SpawnHook);
      var t := new Text(FpsTextLayer, FpsTextName);
      t.SetTextColor(White);
      base.gGUI.AddElement(TextElement(t), t.base.guiLayer);
      fpsText := t;
    }

    /**
     * `gLevel = new Level(); gLevel->LoadLevel(path)`: a new level loaded from
     * the document at path, whose last step is OnLevelLoaded.
     */
    method LoadNewLevel(path: string, src: LevelSource)
      returns (spawned: seq<EntityCall>, guiSpawned: seq<HookCall>, fpsText: Text)
      requires Valid() && Loadable(src, path)
      modifies this`gLevel, this`levelFreed, base.gGUI
      ensures Valid() && gLevel != null && fresh(gLevel) && !levelFreed
      ensures gLevel.FindCharacter().None?
      ensures gLevel.lCollisionR == LevelCollisions(src.documents(path), src)
      ensures NonNull(Flatten(gLevel.lEntities)) && |spawned| == |Flatten(gLevel.lEntities)|
      ensures forall i :: 0 <= i < |spawned| ==> spawned[i] == EntityCall(EntitySpawnHook, Flatten(gLevel.lEntities)[i])
      ensures |guiSpawned| == |Flatten(old(base.gGUI.elements))|
      ensures forall i :: 0 <= i < |guiSpawned| ==> guiSpawned[i] == HookCall(SpawnHook, Flatten(old(base.gGUI.elements))[i])
      ensures fresh(fpsText) && FpsTextMade(fpsText)
      ensures base.gGUI.elements ==
        old(base.gGUI.elements)[FpsTextLayer := old(base.gGUI.elements)[FpsTextLayer] + [TextElement(fpsText)]]
    {
      var doc := src.documents(path);
      var level := NewLevel(doc, src);
      LoadedIsLive(level, doc, src);
      LoadedLevelHasNoCharacter(level, doc, src);
      label Loading:
      gLevel := level;
      levelFreed := false;
      var t;
      spawned, guiSpawned, t := OnLevelLoaded();
      level.CharacterKept@Loading();
      fpsText := t;
    }

    /**
     * PerformLevelTransition: delete the level, load the one the transition
     * record names, place the character at the record's landmark, and clear
     * the record. A freshly loaded level has no entity tagged "Character", so
     * the placement moves nobody.
     */
    method PerformLevelTransition(src: LevelSource) returns (spawned: seq<EntityCall>, fpsText: Text)
      requires Valid() && gLevel != null && !levelFreed && Loadable(src, gLevelTransData.newLevel)
      modifies this`gLevel, this`levelFreed, gLevel, base.gGUI, gLevelTransData
      ensures Valid() && Deletable() && gLevel != null && fresh(gLevel)
      ensures gLevel.FindCharacter().None?
      ensures gLevel.lCollisionR == LevelCollisions(src.documents(old(gLevelTransData.newLevel)), src)
      ensures old(gLevel).lTiles == Cleared(old(gLevel.lTiles), null)
      ensures old(gLevel).lEntities == Cleared(old(gLevel.lEntities), null)
      ensures NonNull(Flatten(gLevel.lEntities)) && |spawned| == |Flatten(gLevel.lEntities)|
      ensures forall i :: 0 <= i < |spawned| ==> spawned[i] == EntityCall(EntitySpawnHook, Flatten(gLevel.lEntities)[i])
      ensures fresh(fpsText) && FpsTextMade(fpsText)
      ensures forall l :: 0 <= l < MaxGuiLayers ==>
        base.gGUI.elements[l] == if l == FpsTextLayer then [TextElement(fpsText)] else []
      ensures !gLevelTransData.transitionFlag && gLevelTransData.newLevel == "" && gLevelTransData.landmarkName == ""
    {
      var path := gLevelTransData.newLevel;
      DestroyLevel();
      var guiSpawned;
      spawned, guiSpawned, fpsText := LoadNewLevel(path, src);
      label Arrived:
      PlaceAtLandmark(gLevel, gLevelTransData.landmarkName, gLevel.FindCharacter());
      gLevelTransData.transitionFlag := false;
      gLevelTransData.newLevel := "";
      gLevelTransData.landmarkName := "";
      gLevel.CharacterKept@Arrived();
    }

    /**
     * The frame of Update: every entity of the level, if any, then every GUI
     * element, gets its update; then the Text named "fpsText", when the
     * registry holds one under that name, shows the floored frame rate in
     * debug mode and nothing otherwise.
     */
    method UpdateStep(dT: real, debugModeEnabled: bool, fps: real) returns (updated: seq<Entity>, calls: seq<HookCall>)
      requires Valid() && Deletable()
      modifies FpsTargets(base.gGUI.elements)
      ensures Valid()
      ensures gLevel == null ==> updated == []
      ensures gLevel != null ==> (NonNull(Flatten(gLevel.lEntities)) && |updated| == |Flatten(gLevel.lEntities)| &&
        forall i :: 0 <= i < |updated| ==> updated[i] == Flatten(gLevel.lEntities)[i])
      ensures |calls| == |Flatten(base.gGUI.elements)|
      ensures forall i :: 0 <= i < |calls| ==> calls[i] == HookCall(UpdateHook(dT), Flatten(base.gGUI.elements)[i])
      ensures FpsTarget(base.gGUI.elements).Some? ==> FpsTarget(base.gGUI.elements).value.text == FpsTextFor(debugModeEnabled, fps)
    {
      updated := [];
      if gLevel != null {
        updated := gLevel.LevelUpdate(dT);
      }
      calls := Broadcast(base.gGUI.elements, UpdateHook(dT));
      var element := base.gGUI.GetElement(FpsTextName);
      if element.Some? && element.value.TextElement? {
        var t := element.value.text;
        if debugModeEnabled {
          t.SetText(FpsString(fps));
        } else {
          t.SetText("");
        }
      }
    }

    /**
     * Update: a pending transition, with a level present, replaces the whole
     * frame; otherwise the level, the GUI and the frame-rate text are updated.
     */
    method Update(dT: real, debugModeEnabled: bool, fps: real, src: LevelSource) returns (r: UpdateResult)
      requires Valid() && Deletable()
      requires gLevel != null && gLevelTransData.transitionFlag ==> Loadable(src, gLevelTransData.newLevel)
      modifies this`gLevel, this`levelFreed, gLevel, base.gGUI, gLevelTransData, FpsTargets(base.gGUI.elements)
      ensures Valid() && Deletable()
      ensures r.Transitioned? <==> old(gLevel) != null && old(gLevelTransData.transitionFlag)
      ensures r.Transitioned? ==> (fresh(gLevel) && gLevel.FindCharacter().None? &&
        gLevel.lCollisionR == LevelCollisions(src.documents(old(gLevelTransData.newLevel)), src) &&
        fresh(r.fpsText) && FpsTextMade(r.fpsText) &&
        (forall l :: 0 <= l < MaxGuiLayers ==>
          base.gGUI.elements[l] == if l == FpsTextLayer then [TextElement(r.fpsText)] else []) &&
        !gLevelTransData.transitionFlag && gLevelTransData.newLevel == "" && gLevelTransData.landmarkName == "")
      ensures r.Stepped? ==> (gLevel == old(gLevel) && base.gGUI.elements == old(base.gGUI.elements) &&
        (gLevel == null ==> r.updated == []) &&
        (gLevel != null ==> (|r.updated| == |Flatten(gLevel.lEntities)| &&
          forall i :: 0 <= i < |r.updated| ==> r.updated[i] == Flatten(gLevel.lEntities)[i])) &&
        |r.calls| == |Flatten(base.gGUI.elements)| &&
        (forall i :: 0 <= i < |r.calls| ==> r.calls[i] == HookCall(UpdateHook(dT), Flatten(base.gGUI.elements)[i])) &&
        (FpsTarget(base.gGUI.elements).Some? ==>
          FpsTarget(base.gGUI.elements).value.text == FpsTextFor(debugModeEnabled, fps)))
    {
      if gLevel != null && gLevelTransData.transitionFlag {
        var spawned, fpsText := PerformLevelTransition(src);
        return Transitioned(spawned, fpsText);
      }
      var updated, calls := UpdateStep(dT, debugModeEnabled, fps);
      r := Stepped(updated, calls);
    }

    /**
     * Draw: nothing without a level; otherwise the collision rectangles and
     * every layer's tiles and entities are offset by the camera and drawn as
     * the debug settings say, then every GUI element is drawn.
     */
    method Draw(camera: FRect, mouseLight: Tile -> Rgb) returns (trace: seq<DrawCall>)
      requires Valid() && Deletable()
      modifies if gLevel == null then {} else {gLevel}
      modifies if gLevel == null then {} else LevelTiles(gLevel)`destinationRect
      modifies if gLevel == null then {} else LevelEntities(gLevel)`destinationRect
      ensures Valid()
      ensures gLevel == null ==> trace == []
      ensures gLevel != null ==> (gLevel.lTiles == old(gLevel.lTiles) && gLevel.lEntities == old(gLevel.lEntities) &&
        trace == old(OverworldTrace(gLevel.lTiles, gLevel.lEntities, camera, Modes(), mouseLight, MaxTileLayers)) +
          DrawnLayers(base.gGUI.elements, MaxGuiLayers))
      ensures gLevel != null ==> (|gLevel.lCollisionR| == |old(gLevel.lCollisionR)| &&
        forall i :: 0 <= i < |gLevel.lCollisionR| ==> gLevel.lCollisionR[i] == Offset(old(gLevel.lCollisionR[i]), camera))
    {
      if gLevel == null { return []; }
      trace := DrawLevel(gLevel, camera, Modes(), mouseLight);
      var guiTrace := RenderMisc(base.gGUI);
      trace := trace + guiTrace;
    }

    /**
     * OnKeyboardInput: a fresh press (not a repeat) runs the debug switch, where
     * Escape asks for the main menu; then every entity of the level, if any,
     * and every GUI element get the key, with released passed as !pressed.
     */
    method OnKeyboardInput(keyCode: int, pressed: bool, released: bool, repeat: bool)
      returns (toMainMenu: bool, entityCalls: seq<EntityCall>, guiCalls: seq<HookCall>)
      requires Valid() && Deletable()
      modifies this`selection, this`lightingRenderType, this`tileCullingType
      ensures Modes() == if pressed && !repeat then DebugKey(keyCode, old(Modes())) else old(Modes())
      ensures toMainMenu <==> pressed && !repeat && keyCode == KeyEscape
      ensures gLevel == null ==> entityCalls == []
      ensures gLevel != null ==> (NonNull(Flatten(gLevel.lEntities)) && |entityCalls| == |Flatten(gLevel.lEntities)| &&
        forall i :: 0 <= i < |entityCalls| ==>
          entityCalls[i] == EntityCall(EntityKeyHook(keyCode, pressed, !pressed, repeat), Flatten(gLevel.lEntities)[i]))
      ensures |guiCalls| == |Flatten(base.gGUI.elements)|
      ensures forall i :: 0 <= i < |guiCalls| ==>
        guiCalls[i] == HookCall(KeyHook(keyCode, pressed, !pressed, repeat), Flatten(base.gGUI.elements)[i])
    {
      toMainMenu := false;
      if pressed && !repeat {
        toMainMenu := keyCode == KeyEscape;
        var m := DebugKey(keyCode, Modes());
        selection, lightingRenderType, tileCullingType := m.selection, m.lighting, m.culling;
      }
      entityCalls := [];
      if gLevel != null {
        entityCalls := BroadcastEntities(gLevel.lEntities, EntityKeyHook(keyCode, pressed, !pressed, repeat));
      }
      guiCalls := Broadcast(base.gGUI.elements, KeyHook(keyCode, pressed, !pressed, repeat));
    }
  }

  /**
   * The "Enter Debug Room" callback of the main menu: reset the overworld,
   * then give it a new level loaded from the debug room's document. The
   * switch to the overworld state that follows is not modelled.
   */
  method EnterDebugRoomCallback(overworld: OverworldState, src: LevelSource)
    returns (spawned: seq<EntityCall>, fpsText: Text)
    requires overworld.Valid() && overworld.Deletable() && Loadable(src, DebugRoomPath)
    modifies overworld`gLevel, overworld`levelFreed, overworld.gLevel, overworld.base.gGUI
    ensures overworld.Valid() && overworld.Deletable() && fresh(overworld.gLevel)
    ensures overworld.gLevel.FindCharacter().None?
    ensures overworld.gLevel.lCollisionR == LevelCollisions(src.documents(DebugRoomPath), src)
    ensures NonNull(Flatten(overworld.gLevel.lEntities)) && |spawned| == |Flatten(overworld.gLevel.lEntities)|
    ensures forall i :: 0 <= i < |spawned| ==>
      spawned[i] == EntityCall(EntitySpawnHook, Flatten(overworld.gLevel.lEntities)[i])
    ensures fresh(fpsText) && FpsTextMade(fpsText)
    ensures forall l :: 0 <= l < MaxGuiLayers ==>
      overworld.base.gGUI.elements[l] == if l == FpsTextLayer then [TextElement(fpsText)] else []
  {
    overworld.ResetState();
    var guiSpawned;
    spawned, guiSpawned, fpsText := overworld.LoadNewLevel(DebugRoomPath, src);
  }

  /** The function-local static of OverworldState::instance(): built on the first call, on the engine's transition record. */
  class OverworldInstance {
    var instance: OverworldState?

    constructor ()
      ensures instance == null
    {
      instance := null;
    }

    method Get(engine: Engine) returns (s: OverworldState)
      modifies this
      ensures old(instance) != null ==> s == old(instance)
      ensures old(instance) == null ==> fresh(s) && s.gLevel == null && s.gLevelTransData == engine.gLevelTransData
      ensures instance == s
    {
      if instance == null {
        instance := new OverworldState(engine.gLevelTransData);
      }
      s := instance;
    }
  }
}
