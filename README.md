# RPG engine core: a Dafny model

This project models the bookkeeping core of a small SDL2 top-down RPG written in C++. It states and proves properties of that model. The game runs a single-threaded frame loop over three parts:

- a **level**: sixteen layers of tiles and sixteen layers of entities, plus a flat list of collision rectangles, all built from a Tiled JSON document;
- a **GUI registry**: sixteen ordered layers of elements (texts, menus, dialogue textboxes);
- two **game states**: the main menu and the overworld, which owns the current level.

Around the frame loop sit the engine's asset caches (textures, fonts, tilesets, dialogue scripts) and its render passes. SDL, the file system and JSON parsing stay outside the model. Each outcome they produce (was a renderer created, did an image load, what a document decoded to, the time, the frame rate) is a parameter.

The modules follow the program's structure, one file each:

- `common.dfy` (Common): small value types (bytes, options, decimal strings) and sequence helpers used throughout.
- `geometry.dfy` (Geometry): rectangles, the Renderable accessors, the strict overlap test `CollisionCheckF` and `Entity::CheckCollision`.
- `json.dfy` (Json): the scalar JSON values the documents carry, and the conversions `get<T>()` performs or refuses.
- `paths.dfy` (Paths): the backslash-to-slash rewrite and the extension filter of the asset scans.
- `tags.dfy` (Tags): `Taggable`, whose removal calls `std::remove` without `erase`.
- `resources.dfy` (Resources): the texture, font, tileset and dialogue managers.
- `gui.dfy` (Gui): the registry (`GUI`) and the `Text`, `BaseMenu` and `Textbox` widgets.
- `entities.dfy` (Entities): together these model the entity types:
  - the entity base and the four kinds a level builds (Character, NPC, door, light);
  - the engine's global entity register and the player's pawn;
  - the shared level-transition record.
- `level.dfy` (Levels): the tile and collision types and `Level`: loading from a document, `GetCharacter`, `FreeResources`, `LevelUpdate`.
- `render.dfy` (Rendering): the level, entity and GUI passes of the engine's resources and of the older `Renderer`. A pass is a trace of draw events.
- `states.dfy` (States): the base game state and the main-menu state.
- `overworld.dfy` (Overworld): the overworld state. It covers level loading and the transition, landmark placement, the frame update, the debug key switch and the debug-aware draw.

Each class of the source whose fields change becomes a Dafny `class` whose methods carry `modifies` clauses. Each loop of the source is a `while` loop with its invariants. Each method is proved against a specification function, and lemmas about those functions state what the game relies on. Some examples:

- a broadcast reaches every registered element exactly once, in layer order;
- the first free GUI layer is unique;
- the menu cursor stays in range, and UP and DOWN undo each other;
- the textbox's shown text is always a prefix of the current message;
- the level pass draws layers bottom up, each layer's tiles before its entities;
- a level transition always clears its request record.

## Where the code contradicts itself

In a few places one part of the code expects what another part never does. The model follows what the code does in each case:

- **Finding the Character.** `Level::GetCharacter` returns the first entity tagged "Character" (src/game/level/level.cpp:29-43). `CreateEntities` skips a "character" object once `GetCharacter` finds one (src/game/level/level.cpp:315-316), and `NPCEntity::OnUse` stops the activator only when it has that tag (src/game/entities/npc.cpp:62-63). But the Character constructor adds only Entity, Renderable and Collision (src/game/entities/character.cpp:6-20), and no code adds "Character". So `GetCharacter` returns null in every level built from a document. It follows that:
  - every "character" object is built;
  - no level transition moves anybody.

  `Levels.NoKindIsTaggedCharacter` and `Overworld.LoadedLevelHasNoCharacter` prove this, and the placement itself is modelled and proved for a level that does hold a Character.
- **A door without a Character.** `DoorEntity::Update` asks `GameEngine->gLevel` for the Character (src/game/entities/door.cpp:24), but `Engine` declares no `gLevel` member (include/rpg/engine.h:18-56). The pointer it gets is passed to `CheckCollision`, which calls `HasTag` on it (include/rpg/entity.h:26-30). Since every level's Character is null, that is a null dereference whenever no transition is pending. `Entities.Entity.DoorUpdate` therefore requires a Character in that case.
- **Key movement.** `Character::OnKeyboardInput` returns at once unless the character has the tag "Moveable" (src/game/entities/character.cpp:35). The tag constant is `Tag_Movable`, spelled "Movable" (include/rpg/tags.h:38), and no code adds "Moveable". So the w/a/s/d keys never set a direction. The model keeps both spellings. The same file's `OnEntitySpawned` uses `GameEngine->gRenderer` (src/game/entities/character.cpp:24), which `Engine` does not declare either; the model reads it as the older `Renderer`'s texture cache.
- **Removing a tag.** `Taggable::RemoveTag` calls `std::remove` without `erase` (include/rpg/tags.h:23-27), so the vector never shrinks. The `Tags` module models libstdc++'s `std::remove`: the kept tags move forward, a slot past them keeps a removed copy or holds the empty string that a moved-from `std::string` is left with. The C++ standard leaves those moved-from values unspecified, so another standard library may leave other strings there.
- **Names used but not declared, and the reverse.** The model gives each of these the reading below:
  - `Character::HandleCamera` shifts `cameraXOffset` and `cameraYOffset` of every entity (src/game/entities/character.cpp:106-107), and `CreateEntities` writes `classname`, `targetname`, `tiledProperties` and calls `OnEntityCreated` (src/game/level/level.cpp:358-368). Neither include/rpg/entity.h nor include/rpg/renderable.h declares any of them. The model gives every entity these fields, with `Entities.CameraOffset` holding the two offsets, and an empty base `OnEntityCreated` that only lights override.
  - `Resources::RenderMisc` walks `GameEngine->gGUI` (src/engine/resources.cpp:177), which `Engine` does not declare (include/rpg/engine.h:18-56). The model passes the GUI to `Rendering.RenderMisc`.
  - `Resources` declares no `backgroundColor` (src/engine/resources.cpp:60) and no `FadeFromBlack` (src/game/states/overworld.cpp:95). The screen clear and the fades are not modelled (see "Left out").
  - `CollisionRect` is defined in no header. The model gives it the three members level.cpp uses: `levelX`, `levelY` and `collisionRect`.
  - include/rpg/gui/text.h:44 declares only `Text(int, std::string, TextSettings)`, and src/game/gui/text.cpp:8 defines only `Text(int, std::string)`. The main menu's title uses the three-argument form (src/game/states/mainmenu.cpp:73). The model builds it with the two-argument constructor, then `SetText` and `SetTextColor` from the settings; the settings' `textSize` of 48 is dropped, since font size is not modelled.
  - `Character::ForcePosition` (src/game/states/overworld.cpp:79) is defined nowhere. The model reads it as setting `levelX` and `levelY`.
  - `OverworldState()` is declared (include/rpg/states/overworld.h:34) but never defined, and `OnMouseWheelScrolled` is defined (src/game/states/overworld.cpp:365) but never declared. The model's constructor gives the in-class initial values, and `OnMouseWheelScrolled` is the empty method the definition is.
  - include/rpg/resources.h and include/rpg/renderer.h share the header guard `HEADER_H_RENDERER`, so a file that includes both sees only the first. The model keeps both classes as declared.
  - `NPCEntity` reads and writes `isCurrentlyUsed` (src/game/entities/npc.cpp:37, 106-107, and on the activator as `activator->isCurrentlyUsed`) and `useActivator` (src/game/entities/npc.cpp:47, 60, 109). Neither include/rpg/entity.h nor include/rpg/entities/npc.h declares them; npc.h:36 declares `isCurrentlyActive = false` instead, which no code uses. The model gives every entity an `isCurrentlyUsed` flag and every NPC a `useActivator`, both without an initial value. No code ever sets `isCurrentlyUsed` to true, so the closing branch of `NPCEntity::Update` (src/game/entities/npc.cpp:37-48), modelled as `Entities.Entity.NpcUpdate`, runs only when the unset flag happens to hold true.
  - include/rpg/level.h and include/rpg/level/level.h both declare a flat `std::vector<Entity*> lEntities` and no `lTiles` or `lCollisionR`. src/game/level/level.cpp indexes `lTiles[layerCount]` and `lEntities[layerCount]` and walks them layer by layer up to `MAX_TILE_LAYERS` (src/game/level/level.cpp:132). The model follows level.cpp: sixteen tile layers, sixteen entity layers and one list of collision rectangles.

## Model

| member | source | states |
|---|---|---|
| Common.IndexOf | src/game/entities/entity.cpp:20-26 | the position std::find stops at: it holds the value and no earlier slot does |
| Common.RemoveFirstMultiset | src/game/entities/entity.cpp:17-29 | erasing the first occurrence removes exactly one copy of a present value and leaves a vector without it unchanged |
| Common.ToByte | include/rpg/entities/light.h:28-30 | storing an int into a Uint8 channel keeps it modulo 256 |
| Common.DecimalString | src/game/gui/menus/basemenu.cpp:42-44 | std::to_string of a non-negative index: decimal digits only, no leading zero |
| Common.DecimalStringRoundTrip | src/game/gui/menus/basemenu.cpp:42-44 | reading the digits back gives the index |
| Common.DecimalStringInjective | src/game/gui/menus/basemenu.cpp:42-44 | two indices with the same decimal text are equal, so option names never clash |
| Geometry.OriginIsCentre | include/rpg/base/renderable.h:16-17 | originX/originY lie half-way between the box's edges, inside it when the size is not negative |
| Geometry.SharedPointCollides | src/engine/resources.cpp:64-90 | two boxes with a common interior point always collide |
| Geometry.CollisionIffSharedPoint | src/engine/resources.cpp:64-90 | for boxes of positive size, CollisionCheckF holds exactly when the interiors intersect (both directions) |
| Geometry.TouchingEdgesDoNotCollide | src/engine/resources.cpp:83-86 | boxes that only share an edge do not collide, because every comparison is strict |
| Geometry.CollisionSymmetric | src/engine/resources.cpp:64-90 | the test gives the same answer with its arguments swapped |
| Geometry.ZeroWidthBoxCollides | src/engine/resources.cpp:64-90 | a zero-width box straddled by another still collides, so the test is not "the interiors meet" for degenerate boxes |
| Json.AsString | include/rpg/resources/dialogue.cpp:81 | get<std::string>() succeeds exactly on strings and yields the string |
| Json.AsBool | include/rpg/resources/dialogue.cpp:82 | get<bool>() succeeds exactly on booleans and yields the boolean |
| Json.AsReal | include/rpg/resources/dialogue.cpp:80 | get<float>() succeeds exactly on numbers and booleans, and yields a number unchanged |
| Json.Truncate | include/rpg/entities/light.h:28-31 | a float read as int is truncated toward zero, on both sides of zero |
| Json.AsInt | include/rpg/entities/light.h:28-31 | get<int>() succeeds exactly on numbers and booleans and truncates numbers toward zero |
| Paths.NormalisedProperties | src/engine/resources/tilesets.cpp:21-25 | the rewritten path has the same length, no backslash, every other character in place, and rewriting again changes nothing |
| Paths.NormalisePath | src/engine/resources/tilesets.cpp:21-25 | the find/replace loop, restarting at the front each time, ends with the normalised path |
| Paths.PathsToLoad | src/engine/resources/tilesets.cpp:15-30 | a directory scan loads only normalised paths having the extension, and every entry whose normalised path has it is loaded |
| Tags.Without | include/rpg/tags.h:25 | the kept tags after std::remove are never more than the original ones |
| Tags.WithoutCounts | include/rpg/tags.h:25 | the kept tags hold no copy of t, number n - count(t), and keep every other tag's multiplicity |
| Tags.WithoutAbsent | include/rpg/tags.h:25 | with no copy of t, nothing is dropped |
| Tags.RemovedCharacterised | include/rpg/tags.h:25 | any vector with the kept tags in front and the moved-from values after it is exactly what std::remove leaves |
| Tags.RemovedShape | include/rpg/tags.h:23-27 | RemoveTag keeps the length, puts the other tags first in their order, and a copy of t past the front stays t |
| Tags.RemovedAbsent | include/rpg/tags.h:23-27 | removing a tag that is not there changes nothing |
| Tags.RemovedPartitioned | include/rpg/tags.h:25 | when every copy of t already follows all other tags, RemoveTag changes nothing and HasTag(t) stays true |
| Tags.RemoveLastTagKeepsIt | include/rpg/tags.h:25 | the concrete case of a tag added last and removed: the vector is unchanged |
| Tags.StdRemove | include/rpg/tags.h:25 | the find-then-move loops of std::remove compute Removed |
| Tags.MoveForward | include/rpg/tags.h:25 | the moving phase, started at the first copy of t, computes Removed |
| Tags.Taggable.constructor | include/rpg/tags.h:29-30 | a new Taggable holds no tag |
| Tags.Taggable.AddTag | include/rpg/tags.h:11-21 | push_back appends t at the end, keeping duplicates; afterwards HasTag(t) holds and HasTag(u) is unchanged for every other u |
| Tags.Taggable.RemoveTag | include/rpg/tags.h:23-27 | the new vector is Removed(old, t): same length, with the semantics proved in the lemmas above |
| Resources.GetTile | src/game/level/level.cpp:180 | the cell with the given id of the grid, or the default cell for an id outside it |
| Resources.LoadAllUntouched | src/engine/resources/textures.cpp:93-101 | a key that no load stores keeps its old handle, or stays absent |
| Resources.LoadAllLastWins | src/engine/resources/textures.cpp:93-101 | after a scan, a key maps to the handle of the last successful load of it (load replaces) |
| Resources.LoadAllAppend | src/engine/resources/textures.cpp:12-31 | loading two batches in turn is loading their concatenation |
| Resources.ScanLoads | src/engine/resources/textures.cpp:78-91 | each scanned path is paired with the loaded handle, or with a failure when there is no renderer |
| Resources.TextureManager.constructor | include/rpg/resources/texturemanager.h:17 | a new manager stores no texture and has destroyed nothing |
| Resources.TextureManager.GetTexture | src/engine/resources/textures.cpp:33-41 | NULL exactly for an unknown path, else the stored handle |
| Resources.TextureManager.RemoveTexture | src/engine/resources/textures.cpp:50-64 | false with no change for an unknown path; else the handle is destroyed and the key erased |
| Resources.TextureManager.LoadTexture | src/engine/resources/textures.cpp:76-104 | fails with no change without a renderer or image; else destroys any old handle and maps the path to the new one |
| Resources.TextureManager.Initalize | src/engine/resources/textures.cpp:12-31 | the store after the scan is every ".png" entry, normalised, loaded in scan order |
| Resources.FontManager.constructor | include/rpg/resources/fontmanager.h:16 | a new manager stores no font and has closed nothing |
| Resources.FontManager.GetFont | src/engine/resources/fonts.cpp:47-55 | NULL exactly for an unknown (name, size), else the stored font |
| Resources.FontManager.RemoveFont | src/engine/resources/fonts.cpp:64-78 | false with no change for an unknown pair; else the font is closed and the pair erased |
| Resources.FontManager.LoadFont | src/engine/resources/fonts.cpp:93-124 | fails with no change without a renderer or font; else closes any old font under (name, size) and stores the new one |
| Resources.FontManager.Initalize | src/engine/resources/fonts.cpp:10-45 | every listed size of every manifest entry is loaded under (key, size), up to the first entry that fails to decode, where the catch ends the scan |
| Resources.FontManager.LoadSizes | src/engine/resources/fonts.cpp:34-38 | the inner loop loads each listed size in array order |
| Resources.AsIntArray | src/engine/resources/fonts.cpp:31 | get<std::vector<int>>() succeeds exactly when every element converts, and keeps their order |
| Resources.SizeLoads | src/engine/resources/fonts.cpp:34-38 | one LoadFont call per size, in order |
| Resources.EntryLoadsFailurePersists | src/engine/resources/fonts.cpp:14-44 | once a manifest entry throws, no longer prefix of the manifest decodes |
| Resources.EntryLoadsStops | src/engine/resources/fonts.cpp:14-44 | the calls made are exactly those of the entries before the first that throws |
| Resources.FontLoads | src/engine/resources/fonts.cpp:95-108 | each call stores the font TTF_OpenFont gave, or nothing without a renderer |
| Resources.SizeLoadsStep | src/engine/resources/fonts.cpp:34-38 | one more size adds its font exactly when the renderer is there and the open succeeds |
| Resources.FontLoadsAppend | src/engine/resources/fonts.cpp:20-39 | the calls of two batches are those of each, in order |
| Resources.Grid | src/engine/resources/tilesets.cpp:110-126 | a w x h image gives (h div 64) * (w div 64) cells |
| Resources.ImageLoads | src/engine/resources/tilesets.cpp:77-90 | each scanned path is paired with the tileset its image gives, or a failure without a renderer |
| Resources.RowColumn | src/engine/resources/tilesets.cpp:113-124 | cell y * cols + x is in row y and column x |
| Resources.CutGrid | src/engine/resources/tilesets.cpp:110-126 | the nested row/column loop pushes exactly the cells of Grid, row by row, each at (64 x, 64 y) |
| Resources.TilesetManager.constructor | include/rpg/resources/tilesetmanager.h:15 | a new manager stores no tileset |
| Resources.TilesetManager.GetTileset | src/engine/resources/tilesets.cpp:33-41 | the empty tileset for an unknown path, else the stored one |
| Resources.TilesetManager.RemoveTileset | src/engine/resources/tilesets.cpp:50-63 | false with no change for an unknown path; else the key is erased |
| Resources.TilesetManager.LoadTileset | src/engine/resources/tilesets.cpp:75-132 | fails with no change without a renderer or image; else replaces any stored tileset for the path with the image and its grid |
| Resources.TilesetManager.Initalize | src/engine/resources/tilesets.cpp:12-31 | the store after the scan is every ".png" entry, normalised, loaded in scan order |
| Resources.Field | include/rpg/resources/dialogue.cpp:80-82 | operator[] on an object: the member, or null when it is missing |
| Resources.DecodeMessage | include/rpg/resources/dialogue.cpp:77-85 | a message decodes exactly when text_rate, text_message and can_skip all have the right types, and then carries those values |
| Resources.DecodeMessages | include/rpg/resources/dialogue.cpp:71-86 | a script decodes exactly when every message does, giving one message per entry in order |
| Resources.InsertAllSnoc | include/rpg/resources/dialogue.cpp:89 | one more load inserts only a key not yet present |
| Resources.InsertAllKeeps | include/rpg/resources/dialogue.cpp:89 | an entry already stored survives every later load unchanged (map::insert keeps it) |
| Resources.InsertAllFirstWins | include/rpg/resources/dialogue.cpp:89 | a new key maps to its first successful load |
| Resources.InsertAllAbsent | include/rpg/resources/dialogue.cpp:94-98 | a key no load succeeds for is not added |
| Resources.DialogueLoads | include/rpg/resources/dialogue.cpp:12-31 | each scanned path is paired with its decoded script |
| Resources.DialogueManager.constructor | include/rpg/resources/dialoguemanager.h:36 | a new manager stores no script |
| Resources.DialogueManager.GetDialogue | include/rpg/resources/dialogue.cpp:33-41 | no messages for an unknown path, else the stored ones |
| Resources.DialogueManager.RemoveDialogue | include/rpg/resources/dialogue.cpp:50-58 | false with no change for an unknown path; else the key is erased |
| Resources.DialogueManager.LoadDialogue | include/rpg/resources/dialogue.cpp:60-100 | true exactly when every message decodes; then a new path gets the messages and a stored path keeps its old ones; a decode error changes nothing |
| Resources.DialogueManager.Initalize | include/rpg/resources/dialogue.cpp:12-31 | the store after the scan is every ".json" entry, normalised, inserted in scan order |
| Levels.Tile.Default | src/game/level/tile.cpp:12-15 | the default tile carries exactly the tag "Renderable" |
| Levels.Tile.constructor | src/game/level/tile.cpp:18-35 | a 64x64 tile at world (x, y), showing data.rect of the texture named by data.texture, with no tag; its colour is whatever the uninitialised field holds |
| Levels.FirstTagged | src/game/level/level.cpp:30-43 | the search's early return: none exactly when no entity has the tag, else the earliest tagged entity |
| Levels.Tagged | src/game/level/level.cpp:132-145 | the gathered entities are tagged members of the list and every tagged member is gathered |
| Levels.TaggedSnoc | src/game/level/level.cpp:134-144 | one more entity adds itself exactly when it carries the tag |
| Levels.FirstTaggedSnoc | src/game/level/level.cpp:34-40 | after an untagged prefix, one more entity is found exactly when it carries the tag |
| Levels.Cleared | src/game/level/level.cpp:45-65 | after release every layer keeps its number of slots and each slot is null |
| Levels.ClearedIdempotent | src/game/level/level.cpp:45-65 | freeing twice is the same as freeing once |
| Levels.FindDoubleDot | src/game/level/level.cpp:392 | string::find("..") gives npos exactly when there is no "..", else its first position |
| Levels.Collapse | src/game/level/level.cpp:386-400 | the reference reading of the cleanup never lengthens the string |
| Levels.CollapseKeepsPrefix | src/game/level/level.cpp:392-395 | a prefix without ".." that does not end in a dot is kept verbatim |
| Levels.EraseFirstDoubleDot | src/game/level/level.cpp:392-395 | erasing the first ".." and starting the search again does not change the result |
| Levels.CollapseNoDoubleDot | src/game/level/level.cpp:392-395 | a string without ".." is left as it is |
| Levels.CollapseHasNoDoubleDot | src/game/level/level.cpp:392-395 | no ".." remains when the loop stops |
| Levels.CollapseKeepsNonDots | src/game/level/level.cpp:392-395 | only dots are removed: the other characters survive in their order |
| Levels.CleanupSourceImageShape | src/game/level/level.cpp:386-400 | the cleaned path holds no ".." and the same non-dot characters in order |
| Levels.RunAppend | src/game/level/level.cpp:288-383 | running a loop over a + b is running it over a, then over b |
| Levels.RunStuck | src/game/level/level.cpp:378-382 | once a read has thrown, the rest of the try block never runs |
| Levels.EmittedWithoutAbort | src/game/level/level.cpp:288-377 | a loop in which nothing throws pushes every value in order and reports true |
| Levels.EmittedUpToAbort | src/game/level/level.cpp:288-383 | a loop whose first throw is at i keeps what was pushed before i and reports false |
| Levels.KindOf | src/game/level/level.cpp:313-355 | exactly "character", "npc", "door", "landmark" and "light" objects are built |
| Levels.ObjectSteps | src/game/level/level.cpp:304-373 | one step per object, in document order |
| Levels.EntityLayerStep | src/game/level/level.cpp:295-375 | one layer keeps the 16 entity layers |
| Levels.PlanEntities | src/game/level/level.cpp:295-375 | the whole layer loop keeps the 16 entity layers |
| Levels.PlanEntitiesStuck | src/game/level/level.cpp:378-382 | once CreateEntities has thrown, the later layers change nothing |
| Levels.NoKindIsTaggedCharacter | src/game/level/level.cpp:36 | no entity built by CreateEntities carries the tag "Character", so GetCharacter never finds one |
| Levels.RunExtends | src/game/level/level.cpp:288-383 | a loop only appends to what was pushed before |
| Levels.EmittedPrefix | src/game/level/level.cpp:288-383 | what a prefix of the loop pushes is a prefix of what the whole loop pushes |
| Levels.RunAbortEnds | src/game/level/level.cpp:378-382 | a throw at step i ends the loop with what was pushed before i |
| Levels.AbortEnds | src/game/level/level.cpp:378-382 | the same, from the start of the loop |
| Levels.TileLayerSteps | src/game/level/level.cpp:148-226 | one step per layer, in document order |
| Levels.CellPosition | src/game/level/level.cpp:169-174 | cell y * W + x is placed at (offset x + 64 x, offset y + 64 y) |
| Levels.CellsDistinct | src/game/level/level.cpp:169-174 | distinct cells of a layer are placed at distinct positions |
| Levels.TileCollisions | src/game/level/level.cpp:184-195 | one collision rectangle per sub-rectangle of the tile's data, offset from the tile's corner |
| Levels.Sources | src/game/level/level.cpp:202-204 | each light contributes from its own position, colour and intensity |
| Levels.Contributions | src/game/level/level.cpp:202-204 | one contribution per light, in the order the lights were gathered |
| Levels.Min255 | src/game/level/level.cpp:206-208 | std::min(x, 255) is at most x, and is x or 255 |
| Levels.Brighten | src/game/level/level.cpp:206-208 | adding a light never darkens a channel |
| Levels.LitIsClampedSum | src/game/level/level.cpp:202-214 | clamping after every light is clamping once: each channel is min(start + sum of the contributions, 255) |
| Levels.LitOrderIrrelevant | src/game/level/level.cpp:202-214 | the order in which two lights are added does not change the colour |
| Levels.TilesetPath | src/game/level/level.cpp:110-120 | the tileset path, when it can be read, starts with "assets" |
| Levels.CollisionObjectSteps | src/game/level/level.cpp:256-272 | one step per object of a layer, in document order |
| Levels.CollisionPlanFromObjects | src/game/level/level.cpp:256-272 | every rectangle CreateCollision adds comes from a "collision_rect" object with that position and size |
| Levels.EmittedOnlyValues | src/game/level/level.cpp:243-276 | anything pushed is the value of some step |
| Levels.CollisionStepOrigin | src/game/level/level.cpp:259-271 | a step that pushes a rectangle comes from a matching "collision_rect" object |
| Levels.FirstTaggedInsert | src/game/level/level.cpp:30-43 | inserting an entity without the tag anywhere does not change which entity is found first |
| Levels.FirstTaggedAfterPush | src/game/level/level.cpp:313-371 | pushing an entity that lacks the tag does not change GetCharacter's answer for later objects |
| Levels.FlattenPush | src/game/level/level.cpp:371 | pushing onto layer k inserts after everything in layers 0..k of the scan order |
| Levels.FirstTaggedAt | src/game/level/level.cpp:32-40 | an entity found while scanning, after an untagged prefix, is the first tagged one |
| Levels.PlanCountGrows | src/game/level/level.cpp:300-374 | object layers are counted left to right, so a prefix never counts more |
| Levels.GrownTrans | src/game/level/level.cpp:371 | growing a layer twice is growing it once by both lists |
| Levels.GrownSnoc | src/game/level/level.cpp:371 | pushing a built entity grows the layer by its spec |
| Levels.CellIndexInGrid | src/game/level/level.cpp:169-177 | row y, column x of the loops is a cell of the grid |
| Levels.TilesPlacedSnoc | src/game/level/level.cpp:197-220 | a layer that gains the tile of cell n has gained the first n + 1 cells |
| Levels.TileLayersStep | src/game/level/level.cpp:217-225 | the n-th "tilelayer" grows tile layer n and no other |
| Levels.GridCollisionsSnoc | src/game/level/level.cpp:184-195 | the collisions of one more layer come after those of the layers before it |
| Levels.EntityPlanOf | src/game/level/level.cpp:286-384 | without a layer list CreateEntities fails before adding anything |
| Levels.EntityLayersStep | src/game/level/level.cpp:371-374 | entity layer k grows by the built entities and the others stay |
| Levels.Construct | src/game/level/level.cpp:313-352 | the constructor of a recognised type gives a fresh entity of that kind with its constructor's tags; a Character starts at (300, 200) with size 64 |
| Levels.NewEntity | src/game/level/level.cpp:357-368 | a decodable object gives a fresh entity with its type, name, position, size and properties, after OnEntityCreated; a read that throws gives none |
| Levels.LightTile | src/game/level/level.cpp:202-214 | the tile's colour is its old colour lit by every gathered light, clamped at 255, and nothing else of it changes |
| Levels.ShadeColor | src/game/level/level.cpp:202-214 | the light loop's colour equals the specification of clamped lighting |
| Levels.ReleaseAll | src/game/level/level.cpp:45-65 | the release loops null every slot of every layer |
| Levels.Level.constructor | src/game/level/level.cpp:16-18 | a new level has 16 empty tile layers, 16 empty entity layers and no collision |
| Levels.Level.FindCharacter | src/game/level/level.cpp:30-43 | what GetCharacter returns: the first "Character"-tagged entity in layer order, when it is a Character |
| Levels.Level.GetCharacter | src/game/level/level.cpp:30-43 | the nested scan returns exactly FindCharacter |
| Levels.Level.ScanCharacterLayer | src/game/level/level.cpp:34-40 | the inner loop over one layer either returns the answer or extends the untagged prefix by that layer |
| Levels.Level.GatherLights | src/game/level/level.cpp:129-145 | the gathered lights are the "Light"-tagged entities of layers 0..15, in order |
| Levels.Level.GatherLayerLights | src/game/level/level.cpp:134-144 | the inner loop adds the "Light"-tagged entities of one layer after those of the lower layers |
| Levels.Level.FreeResources | src/game/level/level.cpp:45-65 | every tile and entity slot is released and the layers keep their sizes; collisions stay |
| Levels.Level.LevelUpdate | src/game/level/level.cpp:402-414 | Update runs on every entity exactly once, layer by layer and in list order |
| Levels.Level.CreateObjectEntity | src/game/level/level.cpp:306-372 | one object: a recognised one is built and pushed onto the current layer, a "character" is skipped once GetCharacter finds one, and a throwing read is reported |
| Levels.Level.PushEntity | src/game/level/level.cpp:371 | push_back onto layer k grows only that layer, and GetCharacter is unchanged |
| Levels.Level.CreateLayerEntities | src/game/level/level.cpp:303-373 | the object loop of one layer grows only that layer, by what the plan builds |
| Levels.Level.CreateEntities | src/game/level/level.cpp:286-384 | the k-th "objectgroup" fills entity layer k as the plan says; false when a read throws, keeping what was pushed before |
| Levels.Level.CreateEntityLayers | src/game/level/level.cpp:295-375 | the layer loop grows the entity layers as the plan says and reports whether a read threw |
| Levels.Level.CreateEntityLayer | src/game/level/level.cpp:297-374 | one layer: a non-"objectgroup" layer is skipped, an "objectgroup" fills the next entity layer |
| Levels.Level.AddTileCollisions | src/game/level/level.cpp:184-195 | the collision list grows by the tile's rectangles, offset from its corner |
| Levels.Level.PlaceTile | src/game/level/level.cpp:184-217 | one cell: its collisions, then a new lit tile pushed onto tile layer k |
| Levels.Level.PlaceCell | src/game/level/level.cpp:173-220 | cell number tileCount takes the next id of the data and lands at 64 pixels per step from the offset |
| Levels.Level.BuildTileRow | src/game/level/level.cpp:171-221 | row y places cells y * W up to (y + 1) * W |
| Levels.Level.BuildTileLayer | src/game/level/level.cpp:155-225 | one "tilelayer" of size W x H appends all W * H cells in row-major order, with their collisions |
| Levels.Level.LoadLevel | src/game/level/level.cpp:68-86 | entities first, then tiles lit by the lights just created, then collisions; every stage's outcome is in the result state whatever the others did |
| Levels.Level.CreateTerrain | src/game/level/level.cpp:76-80 | the tile stage, then the collision stage, leave the entities as they are |
| Levels.Level.CreateTiles | src/game/level/level.cpp:89-235 | every "tilelayer" goes to the next tile layer, lit by every light; false when a read throws, keeping what was built before |
| Levels.Level.ReadTilesetPath | src/game/level/level.cpp:94-120 | the reads before the layers yield TilesetPath |
| Levels.Level.CreateTileLayers | src/game/level/level.cpp:148-226 | the n-th "tilelayer" grows tile layer n; a read that throws ends the loop |
| Levels.Level.AddTileLayer | src/game/level/level.cpp:152-225 | one "tilelayer" goes to the next free tile layer and its collisions follow those already added |
| Levels.Level.CreateCollision | src/game/level/level.cpp:238-283 | every "collision_rect" object of every "objectgroup" becomes a rectangle with its position and size; false when a read throws, keeping what was added before |
| Levels.Level.CreateLayerCollisions | src/game/level/level.cpp:255-272 | one layer's objects extend the collision list as the plan says |
| Levels.Level.CleanupSourceImage | src/game/level/level.cpp:386-400 | the loop ends with "assets" followed by the collapsed path |
| Entities.LastValue | src/game/entities/door.cpp:7-16 | a loop that assigns on every matching property leaves the value of the last one with that name, or none when no property has it |
| Entities.LastValueSnoc | src/game/entities/door.cpp:7-16 | one more property changes the result exactly when it has the name |
| Entities.LastValueIgnoresOthers | src/game/entities/door.cpp:13-15 | properties with other names are ignored |
| Entities.LaterDuplicateWins | src/game/entities/door.cpp:13-15 | of two properties with the same name, the later one wins |
| Entities.StringStep | src/game/entities/door.cpp:13-14 | one more property read by a string field: the field takes its value exactly when the name matches |
| Entities.BoolStep | src/game/entities/door.cpp:15 | the same for a boolean field |
| Entities.RealStep | src/game/entities/npc.cpp:30 | the same for a float field |
| Entities.IntStep | include/rpg/entities/light.h:31 | the same for an int field |
| Entities.ByteStep | include/rpg/entities/light.h:28-30 | the same for a colour channel, reduced modulo 256 |
| Entities.KeyFlag | src/game/entities/character.cpp:35-58 | a press of the flag's key sets it, a release clears it (the release is handled last), any other event leaves it |
| Entities.Axis | src/game/entities/character.cpp:79-83 | HandleMovement on one axis: no move when both or neither key is held, else the speed with the key's sign |
| Entities.CameraStep | src/game/entities/character.cpp:95-101 | HandleCamera on one axis: the positive key overrides the negative one |
| Entities.CameraAndMovementDisagreeOnOppositeKeys | src/game/entities/character.cpp:79-101 | holding both keys of an axis cancels the movement but still moves the camera |
| Entities.Entity.Plain | src/game/entities/entity.cpp:4-7 | a new Entity has exactly one tag, "Entity" |
| Entities.Entity.Character | src/game/entities/character.cpp:6-20 | a 64x64 box at (300, 200), tagged Entity, Renderable and Collision, with no key held |
| Entities.Entity.Npc | src/game/entities/npc.cpp:8-13 | tagged Entity, Renderable and Collision, with no textbox and an empty action document |
| Entities.Entity.Door | include/rpg/entities/door.h:16 | only the base tag; the strings start empty |
| Entities.Entity.Light | include/rpg/entities/light.h:13-16 | the base tag, then "Light" |
| Entities.Entity.WorldBox | include/rpg/entity.h:39-47 | the box collision uses: world position levelX/levelY with the drawn size w() and h() |
| Entities.Entity.OnEntitySpawned | include/rpg/entity.h:17 | the spawn hook, dispatched on the kind: the base hook changes nothing, the overrides do what their own rows say |
| Entities.Entity.DoorSpawned | src/game/entities/door.cpp:4-17 | level, landmark_entity and enabled are copied from the properties, the last duplicate winning, and nothing else changes |
| Entities.Entity.NpcSpawned | src/game/entities/npc.cpp:19-33 | npc_name, npc_sprite (looked up), npc_use_dist and npc_action_file (loaded) are read the same way |
| Entities.Entity.OnEntityCreated | include/rpg/entities/light.h:19-33 | a Light reads color_r/g/b and intensity from its properties; every other kind is unchanged |
| Entities.Entity.CharacterKeyboardInput | src/game/entities/character.cpp:27-58 | w/a/s/d set up/left/down/right on a press and clear them on a release, only while tagged "Moveable" |
| Entities.Entity.HandleMovement | src/game/entities/character.cpp:70-84 | the drawn box moves by the held keys at 0.25 * dT; the world position stays |
| Entities.Entity.HandleCamera | src/game/entities/character.cpp:86-109 | every registered entity's camera offset moves by one step per occurrence in the registry |
| Entities.Entity.CharacterUpdate | src/game/entities/character.cpp:60-68 | the frame time is stored, then the box moves, then every registered camera offset moves |
| Entities.Entity.DoorUpdate | src/game/entities/door.cpp:19-45 | nothing while a transition is pending; on a collision the Character gets "DontMove", the fade is requested once, and when no fade is running the transition record gets this door's landmark and level and its flag is set |
| Entities.Entity.OnUseFinished | src/game/entities/npc.cpp:100-110 | a Character activator loses "DontMove" with the non-shrinking removal and both stop being in use; the activator is dropped either way |
| Entities.Entity.NpcUpdate | src/game/entities/npc.cpp:35-50 | only when in use with a finished textbox: the box is removed from its layer by name, dropped, and the use finished, so a Character activator loses "DontMove" and both stop being in use, while any other activator keeps its tags and its flag and the NPC stays in use; otherwise nothing changes; only the activator's flag and tags, and the NPC's own use fields, may change |
| Entities.Entity.OnUse | src/game/entities/npc.cpp:52-98 | without "onUse" nothing changes; otherwise the activator is stored and a Character gets "DontMove"; "dialogueOpen" with no open box and a readable box type opens a textbox as `OpenTextbox` states, and every other case leaves the textbox and the GUI as they were |
| Entities.Entity.OpenTextbox | src/game/entities/npc.cpp:78-89 | a fresh textbox named npcName + "_textbox" is registered on the first free layer and spawned; once its settings are read its red, empty Text "<npcName>_textbox_text" is made on the next first free layer and registered there when the text size was read; the box holds the script of a string message file, or none, and starts its reveal with the script's first message current (the default message when there is none), nothing revealed and both counters zero |
| Entities.CameraOffset.Shift | src/game/entities/character.cpp:106-107 | one step of the loop adds (x, y) to one offset |
| Entities.Cameras | src/game/entities/character.cpp:104 | the offsets of the registry, in order |
| Entities.OffsetAll | src/game/entities/character.cpp:104-108 | each offset moves once per occurrence in the list |
| Entities.TimesIsProduct | src/game/entities/character.cpp:104-108 | n repeated additions of x add n * x |
| Entities.NoCollisionTagAlwaysCollides | include/rpg/entity.h:30 | an argument without the "Collision" tag always collides, with no geometry |
| Entities.CheckCollisionIsOverlap | include/rpg/entity.h:39-55 | with the tag present, CheckCollision is the strict overlap test on the world boxes |
| Entities.CheckCollisionMeaning | include/rpg/entity.h:39-55 | for boxes of positive size, a collision is a shared interior point (both directions) |
| Entities.CheckCollisionSymmetric | include/rpg/entity.h:39-55 | when both are tagged "Collision", a.CheckCollision(b) == b.CheckCollision(a) |
| Entities.CheckCollisionTouchingEdges | include/rpg/entity.h:49-52 | boxes that only share an edge do not collide |
| Entities.CheckCollisionIgnoresReceiverTags | include/rpg/entity.h:30 | only the argument's tags are consulted, never the receiver's |
| Entities.TransitionRecord.constructor | include/rpg/states/overworld.h:39-40 | the level transition record starts with no transition pending and both names empty |
| Entities.Engine.constructor | include/rpg/engine.h:35-37 | no game state and no global entity registered yet; the engine holds the one shared transition record |
| Entities.Engine.RegisterGlobalEntity | src/game/entities/entity.cpp:9-15 | the entity is appended at the end, duplicates kept, and then its spawn hook runs |
| Entities.Engine.RemoveGlobalEntity | src/game/entities/entity.cpp:17-29 | only the first occurrence is erased and the rest keep their order |
| Entities.RemoveGlobalEntityCounts | src/game/entities/entity.cpp:20-24 | exactly one occurrence of a registered entity goes, and an absent one changes nothing |
| Entities.Player.constructor | include/rpg/player.h:12 | the pawn, which has no initialiser, starts null |
| Entities.Player.SetPlayerPawn | src/game/player.cpp:4-21 | the stored pawn is the new one; an old pawn loses PlayerEntity and Global with the non-shrinking removal; the new pawn then gets PlayerEntity and Global appended |
| Entities.SetPlayerPawnGrowsByTwo | src/game/player.cpp:8-20 | each call grows the new pawn's tag list by exactly two, even for the same pawn again |
| Gui.GuiElement.constructor | src/game/gui/gui.cpp:71-77 | an element starts with the given name and layer and tagged GUIElement then Renderable |
| Gui.Text.constructor | src/game/gui/text.cpp:8-12 | a text element adds Text and a second Renderable after the base tags and starts with no text |
| Gui.Text.SetText | include/rpg/gui/text.h:58-62 | the text becomes the new string and the colour is untouched |
| Gui.Text.SetTextColor | include/rpg/gui/text.h:63-67 | the colour becomes the new one and the text is untouched |
| Gui.IndexOfName | src/game/gui/gui.cpp:26-35 | the position a name scan stops at: the first element with that name, or the end when none has it |
| Gui.FirstNamed | src/game/gui/gui.cpp:58-68 | no element is found exactly when none has the name; otherwise it is the one at the first matching position |
| Gui.RemoveNamedShape | src/game/gui/gui.cpp:23-37 | erasing by name with no match leaves the layer alone; with a match it removes exactly that one element and keeps the elements before it in place |
| Gui.IndexOfNameIs | src/game/gui/gui.cpp:26-35 | any position holding the name with no earlier match is the position the scan stops at |
| Gui.FirstNamedAppend | src/game/gui/gui.cpp:58-68 | the first match in two lists joined is the first in the front list, else the first in the back list |
| Gui.FirstFreeLayerUnique | src/game/gui/gui.cpp:39-54 | the first free layer is unique: the only smallest layer with none before it as small |
| Gui.EarlierLayerIsLarger | src/game/gui/gui.cpp:46-51 | every layer before the first free layer holds strictly more elements |
| Gui.FirstFreeLayerOfEmpty | src/game/gui/gui.cpp:42-51 | with every layer empty the first free layer is layer 0 |
| Gui.AsSizeT | src/game/gui/gui.cpp:48 | an int compared against a size is read modulo 2^64, so -1 becomes the largest size |
| Gui.GUI.constructor | include/rpg/gui/base.h:51 | the GUI starts with 16 empty layers |
| Gui.GUI.AddElement | src/game/gui/gui.cpp:3-7 | the element is appended at the back of its layer and every other layer is unchanged |
| Gui.GUI.RemoveElement | src/game/gui/gui.cpp:9-21 | the first equal handle in the layer is erased, if there is one; every other layer is unchanged |
| Gui.GUI.RemoveElementNamed | src/game/gui/gui.cpp:23-37 | the first element with that name in the layer is erased, if there is one; every other layer is unchanged |
| Gui.GUI.FindFirstFreeLayer | src/game/gui/gui.cpp:39-54 | the result is the lowest layer among those with the fewest elements |
| Gui.GUI.GetElement | src/game/gui/gui.cpp:56-69 | the result is the first element with that name scanning layers 0 to 15 in list order, or none |
| Gui.FoundInLayer | src/game/gui/gui.cpp:58-68 | when no earlier layer has a match, the first match overall is the first match in this layer |
| Gui.OptionNamesDistinct | src/game/gui/menus/basemenu.cpp:42 | two different option positions never give the same option element name |
| Gui.SelectionStaysInRange | src/game/gui/menus/basemenu.cpp:76-87 | with at least one option, a cursor in range stays in range whatever key is pressed |
| Gui.UpDownInverse | src/game/gui/menus/basemenu.cpp:76-87 | UP then DOWN, and DOWN then UP, bring the cursor back, wrap-around included |
| Gui.BaseMenu.constructor | src/game/gui/menus/basemenu.cpp:4-8 | the menu adds the BaseMenu tag after the base tags and starts with no options |
| Gui.BaseMenu.AddMenuOption | src/game/gui/menus/basemenu.cpp:35-50 | the option is appended with its callback and a new white text with its label is appended beside it, on the menu's layer and named after its 1-based position; the cursor is untouched |
| Gui.BaseMenu.GetMenuOptionNamed | src/game/gui/menus/basemenu.cpp:53-57 | none exactly when no option text has the name; otherwise the first option text with it |
| Gui.BaseMenu.GetMenuOptionAt | src/game/gui/menus/basemenu.cpp:60-64 | none exactly when the index is negative or past the end; otherwise the option text at that index |
| Gui.BaseMenu.OnKeyboardInput | src/game/gui/menus/basemenu.cpp:67-94 | repeats and releases change nothing; otherwise the cursor moves as UP and DOWN say and RETURN hands back the selected option's callback; the option lists are untouched |
| Gui.BaseMenu.Draw | src/game/gui/menus/basemenu.cpp:18-30 | the selected option text is yellow and every other one white, with their texts untouched |
| Gui.UpdateKeepsRevealValid | src/game/gui/textbox.cpp:69-86 | an update step keeps the reveal invariant: the counter is the shown length and the shown text follows the message |
| Gui.ReturnKeepsRevealValid | src/game/gui/textbox.cpp:95-118 | a RETURN press keeps the reveal invariant |
| Gui.ShownIsPrefix | src/game/gui/textbox.cpp:75-83 | while a non-empty message is pending, the shown text is exactly its first charCounter characters |
| Gui.AtMostOneCharacterPerInstant | src/game/gui/textbox.cpp:78-85 | with positive text rates, two updates at the same instant reveal at most one character |
| Gui.NothingBeforeNextUpdate | src/game/gui/textbox.cpp:78 | before the next update time no character appears |
| Gui.FinishedStaysFinished | src/game/gui/textbox.cpp:74 | a finished dialogue stays finished: updates change nothing and RETURN keeps it finished |
| Gui.LastReturnClearsMessages | src/game/gui/textbox.cpp:104-110 | advancing past the last finished message empties the script and ends the dialogue |
| Gui.Textbox.constructor | src/game/gui/textbox.cpp:4-10 | the textbox adds Textbox and a second Renderable after the base tags, keeps its type and starts with no text element, no messages and zero counters |
| Gui.Textbox.OnElementSpawned | src/game/gui/textbox.cpp:12-67 | without settings nothing is attached; otherwise a fresh red, empty Text named after the box is made on the first free layer and attached, and registered on that layer unless reading the text size threw; the reveal state is kept, and the invariant too when no text is shown |
| Gui.Textbox.Update | src/game/gui/textbox.cpp:69-86 | without a text element nothing changes; otherwise the state takes one reveal step and the invariant is kept |
| Gui.Textbox.ResetText | src/game/gui/textbox.cpp:88-93 | the shown text, the counter and the text element are emptied and the script and message counter are kept |
| Gui.Textbox.OnKeyboardInput | src/game/gui/textbox.cpp:95-118 | a RETURN press takes a RETURN step and every other input changes nothing; the invariant is kept |
| Gui.Textbox.LoadDialogue | src/game/gui/textbox.cpp:134-138 | the script becomes the one stored under the path and its first message is current; counters are kept |
| Gui.Textbox.DrawRects | src/game/gui/textbox.cpp:141-166 | five rectangles are drawn: the box first, then the top, bottom, left and right border strips |
| Gui.BorderStripsHugEdges | src/game/gui/textbox.cpp:148-157 | with a border no thicker than the box, each strip lies inside the box on its own edge, top and bottom spanning the width and left and right the height |
| Rendering.TileBox | src/engine/resources.cpp:139 | a tile is culled on its world position with its drawn width and height |
| Rendering.OnScreen | src/engine/resources.cpp:99-100 | the screen position is the world position less the camera's, and the size is kept |
| Rendering.CulledEntities | src/engine/resources.cpp:94-113 | the entity pass draws at most one call per entity, and only entities of the list that overlap the camera and pass the render filter |
| Rendering.FilteredEntities | src/engine/renderer.cpp:67-80 | the older entity pass draws at most one call per entity, and only entities of the list that pass the render filter |
| Rendering.CulledEntitiesAppend | src/engine/resources.cpp:96-112 | entities are visited in list order: the draws over two lists joined are those over the first, then those over the second |
| Rendering.CulledEntitiesDrawn | src/engine/resources.cpp:96-112 | an entity is drawn exactly when it is in the list, overlaps the camera and passes the render filter |
| Rendering.FilteredEntitiesDrawn | src/engine/renderer.cpp:69-79 | in the older pass an entity is drawn exactly when it is in the list and passes the render filter |
| Rendering.CulledWithinFiltered | src/engine/resources.cpp:94-113 | the culled pass never draws an entity the older pass would not, and when every entity overlaps the camera both passes make the same draws |
| Rendering.CulledTiles | src/engine/resources.cpp:133-149 | the tile pass of one layer draws at most one call per tile, and only tiles of the layer that overlap the camera and pass the render filter |
| Rendering.CulledTilesDrawn | src/engine/resources.cpp:133-149 | a tile is drawn exactly when it is in the layer, overlaps the camera and passes the render filter |
| Rendering.DrawnElements | src/engine/resources.cpp:180-187 | the GUI pass over one layer draws at most one call per element, and only elements of the layer that pass the render filter |
| Rendering.DrawnElementsDrawn | src/engine/resources.cpp:180-187 | an element is drawn exactly when it is on the layer and passes the render filter |
| Rendering.DrawnLayersPrefix | src/engine/resources.cpp:177-188 | the draws of a layer come right after those of every layer below it |
| Rendering.LowerLayerDrawnFirst | src/engine/resources.cpp:177-188 | every draw of a lower GUI layer comes before every draw of a higher one |
| Rendering.DrawnLayersDrawn | src/engine/resources.cpp:174-189 | an element is drawn exactly when it is on one of the layers and passes the render filter |
| Rendering.CulledEntitiesKept | src/engine/resources.cpp:99-102 | moving only the drawn position of entities leaves the draws of the entity pass unchanged for every camera |
| Rendering.CulledTilesKept | src/engine/resources.cpp:136-139 | moving only the drawn position of tiles leaves the draws of the tile pass unchanged for every camera |
| Rendering.RenderEntities | src/engine/resources.cpp:94-113 | the loop draws what the culled entity pass specifies, and every entity, drawn or not, has its drawn box moved to its world position less the camera's |
| Rendering.RenderTiles | src/engine/resources.cpp:133-149 | the loop draws what the culled tile pass specifies, and every tile has its drawn box moved to its world position less the camera's |
| Rendering.RenderMisc | src/engine/resources.cpp:174-189 | every GUI element that passes the render filter is drawn, layer 0 to 15 and in list order |
| Rendering.Offset | src/engine/resources.cpp:121-125 | an offset collision rectangle sits at its world position less the camera's and keeps its world position and size |
| Rendering.OffsetIdempotent | src/engine/resources.cpp:121-125 | offsetting twice by the same camera is offsetting once, since the offset starts from the world position |
| Rendering.LevelTraceSnoc | src/engine/resources.cpp:130-169 | the level draws after layer i are those before it, then layer i's tiles, then layer i's entities |
| Rendering.LevelPrefix | src/engine/resources.cpp:130-169 | within the level draws, layer i's tiles and entities come right after every lower layer's draws |
| Rendering.LevelTraceOrder | src/engine/resources.cpp:127-169 | layers are drawn bottom up and, within a layer, tiles before entities |
| Rendering.LevelTraceTiles | src/engine/resources.cpp:130-149 | a tile is drawn by the level pass exactly when it is on one of the layers, overlaps the camera and passes the render filter |
| Rendering.LevelTraceEntities | src/engine/resources.cpp:151-168 | an entity is drawn by the level pass exactly when it is on one of the layers, overlaps the camera and passes the render filter |
| Rendering.OffsetCollisions | src/engine/resources.cpp:120-125 | every collision rectangle is offset by the camera and the list keeps its length and order |
| Rendering.EngineResources.constructor | include/rpg/resources.h:37-43 | the engine's resources start with no window and no renderer and the camera at the origin with the 1200 by 700 screen size |
| Rendering.EngineResources.Initalize | src/engine/resources.cpp:6-38 | success exactly when window, renderer and PNG support all succeed; it stops at the first failure and keeps the camera |
| Rendering.EngineResources.RenderLevel | src/engine/resources.cpp:116-171 | a null level draws nothing; otherwise every collision rectangle is offset, the layer lists are kept and the draws are the level pass over the level as it was |
| Rendering.RenderLayers | src/engine/resources.cpp:130-169 | the layer loop draws the level pass over the 16 layers as they were before it |
| Rendering.RenderLevelLayer | src/engine/resources.cpp:131-168 | one pass draws layer i's tiles and then its entities and leaves the level draws of every prefix of layers unchanged |
| Rendering.LevelTraceKept | src/engine/resources.cpp:130-169 | a pass that keeps every world position, size and tag keeps every layer's draws and the level draws |
| Rendering.RenderLayer | src/engine/resources.cpp:133-168 | one layer draws its tiles then its entities, and every tile and entity has its drawn box moved by the camera |
| Rendering.Renderer.constructor | include/rpg/renderer.h:31-53 | the older renderer starts uninitialised with no window, no renderer, empty texture and font maps and the screen-sized camera |
| Rendering.Renderer.Initalize | src/engine/renderer.cpp:6-39 | success exactly when window, renderer and PNG support all succeed; it stops at the first failure and only success sets isInitalized |
| Rendering.Renderer.LoadTexture | src/engine/textures.cpp:50-78 | a load succeeds exactly when there is a renderer and the image loads; success stores it under the path and failure changes nothing |
| Rendering.Renderer.LoadFont | src/engine/fonts.cpp:53-84 | a load succeeds exactly when there is a renderer and the font opens; success stores it under its name and size and failure changes nothing |
| Rendering.Renderer.RenderEntities | src/engine/renderer.cpp:67-80 | the loop draws what the older pass specifies; only entities that pass the filter have their drawn box moved |
| States.Broadcast | src/game/states/mainmenu.cpp:15-22 | the hook is called once per registered element, with the same arguments, layers 0 to 15 and each layer in list order |
| States.BroadcastReaches | include/rpg/gamestate.h:27-33 | a broadcast reaches an element exactly when it is on some layer |
| States.ClearLayers | include/rpg/states/mainmenu.h:41 | every layer of the registry is emptied |
| States.BaseGameState.constructor | include/rpg/gamestate.h:15-19 | a state starts with its name and an empty registry of 16 layers |
| States.BaseGameState.OnStateActivated | include/rpg/gamestate.h:22-34 | the spawn hook is called once on every registered element, in layer and list order |
| States.FirstActivationLayout | src/game/states/mainmenu.cpp:59-105 | from an empty registry the first activation leaves the menu and its two option texts on layer 0, the title alone on layer 1, and the other layers empty |
| States.ClearedLayout | src/game/states/mainmenu.cpp:115-123 | clearing the option texts after a first activation from an empty registry leaves only the menu on layer 0 and the title on layer 1 |
| States.AddMainMenu | src/game/states/mainmenu.cpp:61-63 | the menu named mainmenu is appended to the first free layer and starts with no options |
| States.AddTitle | src/game/states/mainmenu.cpp:67-74 | the white title with the build stamp is appended to the first free layer once the menu is in |
| States.AddMenuOptions | src/game/states/mainmenu.cpp:79-104 | the two options get their labels and callbacks, their texts sit at (100, 100) and (100, 140), and both texts are appended to the menu's layer in that order |
| States.ToggleDebugModeCallback | src/game/states/mainmenu.cpp:92-95 | the engine's debug flag is negated |
| States.MainMenuState.constructor | src/game/states/mainmenu.cpp:7-10 | the state is named MainMenuState, has no menu yet, and is appended to the engine's list of states |
| States.MainMenuState.OnStateActivated | src/game/states/mainmenu.cpp:53-107 | the first activation builds the layout of the menu, the title and the two options and spawns the menu and the title; a later activation changes nothing |
| States.MainMenuState.Update | src/game/states/mainmenu.cpp:13-23 | every registered element's update hook is called, in layer and list order, with the same time step |
| States.MainMenuState.Draw | src/game/states/mainmenu.cpp:26-37 | every registered element's draw hook is called, in layer and list order |
| States.MainMenuState.OnKeyboardInput | src/game/states/mainmenu.cpp:40-50 | every registered element is handed the same key event, in layer and list order |
| States.MainMenuState.ClearMenuElements | src/game/states/mainmenu.cpp:115-123 | each option text is removed from its layer in order, then the texts are dropped while the options and the cursor are kept |
| States.MainMenuState.ResetState | include/rpg/states/mainmenu.h:38-42 | the option texts are cleared, then every layer is emptied; the menu itself and its options are kept |
| States.MainMenuInstance.constructor | include/rpg/states/mainmenu.h:56 | there is no instance before the first call |
| States.MainMenuInstance.Get | include/rpg/states/mainmenu.h:54-58 | the first call builds the state and registers it with the engine; later calls return the same state and register nothing |
| Overworld.DigitKeys | src/game/states/overworld.cpp:300-337 | a digit key sets the lighting mode under the lighting selection and the culling mode under the culling selection, key 4 only the lighting one; under any other selection it falls through every case and changes nothing |
| Overworld.FallsThrough | src/game/states/overworld.cpp:300-337 | entered at any digit case, a selection other than lighting or culling falls through to the end unchanged |
| Overworld.SelectionKeys | src/game/states/overworld.cpp:297-298 | TAB and LSHIFT move the selection up and down by one with no bound, undo each other, and touch no mode |
| Overworld.DebugKeyKeepsRange | src/game/states/overworld.cpp:294-338 | no key takes the lighting or culling mode out of its enum |
| Overworld.OtherKeysIgnored | src/game/states/overworld.cpp:294-338 | Escape and every key other than TAB, LSHIFT and 1 to 4 leave the debug settings alone |
| Overworld.SignedDecimalInjective | src/game/states/overworld.cpp:133 | two integers give the same signed decimal text exactly when they are equal |
| Overworld.FpsString | src/game/states/overworld.cpp:133 | the frame-rate text of a floored double always ends in six zero decimals after the point |
| Overworld.FpsStringInjective | src/game/states/overworld.cpp:133 | two frame rates give the same text exactly when their floors are equal |
| Overworld.BroadcastEntities | src/game/states/overworld.cpp:16-23 | the hook is called once per entity, layers 0 to 15 and each layer in list order |
| Overworld.EntityBroadcastReaches | src/game/states/overworld.cpp:16-23 | a broadcast to the entities reaches an entity exactly when it is on some layer |
| Overworld.LoadedIsLive | src/game/states/overworld.cpp:60-61 | a freshly loaded level has no released slot on any layer |
| Overworld.LoadedLevelHasNoCharacter | src/game/level/level.cpp:30-43 | no entity of a freshly loaded level carries the Character tag, so GetCharacter finds nobody |
| Overworld.NewLevel | src/game/states/overworld.cpp:60-61 | a new level loaded from a document is fresh and holds what loading that document builds |
| Overworld.FirstLandmark | src/game/states/overworld.cpp:67-84 | the inner loop stops at the first landmark with the target name in list order, or finds none exactly when no entity of the layer is one |
| Overworld.FirstLandmarkIs | src/game/states/overworld.cpp:67-84 | a matching landmark with no match before it is the one the inner loop stops at |
| Overworld.PlacedWithoutLandmark | src/game/states/overworld.cpp:65-86 | with no matching landmark on any layer the character stays where it was |
| Overworld.LastLandmarkDecides | src/game/states/overworld.cpp:65-86 | the last layer holding a matching landmark decides: the character ends centred on that landmark |
| Overworld.PlaceAtLandmark | src/game/states/overworld.cpp:65-86 | the character GetCharacter returns ends where the per-layer landmark placements put it, and no other entity moves |
| Overworld.ScanLayer | src/game/states/overworld.cpp:67-85 | one layer's scan moves the character to its first matching landmark, if any, and no other entity |
| Overworld.MoveToLandmark | src/game/states/overworld.cpp:73-83 | the character, if any, is centred on the landmark by half its width and height, and no other entity moves |
| Overworld.CharacterInLevel | src/game/level/level.cpp:30-43 | the character GetCharacter finds is one of the level's entities |
| Overworld.OverworldTiles | src/game/states/overworld.cpp:192-250 | a tile layer makes at most two calls per tile, and only for tiles of the layer that Draw reaches under the debug settings |
| Overworld.OverworldTilesDrawn | src/game/states/overworld.cpp:192-250 | a tile is drawn exactly when it is on the layer and passes the culling, the filter and the black-tile skip of the settings |
| Overworld.DebugRectangles | src/game/states/overworld.cpp:228-242 | a drawn tile gets a filled rectangle exactly in FILL mode and an outline exactly in BORDER mode |
| Overworld.NoLightsIsEngineCulling | src/game/states/overworld.cpp:201-248 | under the no-lights culling with no debug rectangles a tile layer is drawn exactly as the engine's level pass draws it |
| Overworld.CullingDisabledDrawsAll | src/game/states/overworld.cpp:201-207 | with culling disabled every tile that passes the filter is drawn, wherever the camera is |
| Overworld.StandardCullingSkipsBlack | src/game/states/overworld.cpp:201-225 | with standard culling a tile is drawn exactly when it overlaps the camera, passes the filter and its final light is not black |
| Overworld.OverworldTraceIsLevelTrace | src/game/states/overworld.cpp:189-272 | under the no-lights culling with no debug rectangles the overworld's level draws are the engine's level pass |
| Overworld.OverworldLayersAt | src/game/states/overworld.cpp:189-272 | list k of the per-layer draws holds the draws of layer k |
| Overworld.OverworldTraceLayers | src/game/states/overworld.cpp:189-272 | the level draws are the per-layer draws one after another |
| Overworld.OverworldTraceOrder | src/game/states/overworld.cpp:186-272 | layers are drawn bottom up: every draw of a lower layer comes before every draw of a higher one |
| Overworld.TileDrawsKept | src/game/states/overworld.cpp:195-198 | moving only a tile's drawn position keeps its draws for every camera and setting |
| Overworld.OverworldTilesKept | src/game/states/overworld.cpp:195-198 | moving only the drawn positions keeps a tile layer's draws for every camera and setting |
| Overworld.OverworldRenderTiles | src/game/states/overworld.cpp:192-250 | the tile loop draws what the overworld tile pass specifies and moves every tile's drawn box to its world position less the camera's |
| Overworld.OverworldRenderTile | src/game/states/overworld.cpp:194-249 | one tile's draws are what the settings decide for it, and its drawn box is moved by the camera first |
| Overworld.OverworldRenderLayer | src/game/states/overworld.cpp:191-271 | one layer draws its tiles then its entities, and every tile and entity of it is moved by the camera |
| Overworld.OverworldRenderLayers | src/game/states/overworld.cpp:189-272 | the layer loop draws the overworld pass over the 16 layers as they were before it |
| Overworld.OverworldLevelLayer | src/game/states/overworld.cpp:190-271 | one pass draws layer i's tiles then its entities and leaves the draws of every prefix of layers unchanged |
| Overworld.OverworldLayersKept | src/game/states/overworld.cpp:189-272 | a pass that keeps every world position, size, colour and tag keeps every layer's draws |
| Overworld.OverworldTraceKept | src/game/states/overworld.cpp:189-272 | layers whose draws are kept keep the level draws of every prefix |
| Overworld.DrawLevel | src/game/states/overworld.cpp:179-272 | every collision rectangle is offset by the camera, the layer lists are kept and the draws are the overworld pass over the level as it was |
| Overworld.OverworldState.constructor | include/rpg/states/overworld.h:34-70 | the state is named OverworldState, has no level and an empty registry, and starts with the lighting selection, standard lighting and standard culling |
| Overworld.OverworldState.OnStateActivated | include/rpg/states/overworld.h:53 | the spawn hook is called once on every registered element, in layer and list order |
| Overworld.OverworldState.OnLevelShutdown | src/game/states/overworld.cpp:42-50 | with a level every GUI layer is emptied; without one nothing changes |
| Overworld.OverworldState.DestroyLevel | src/game/level/level.cpp:20-27 | deleting the level frees every tile and entity slot and, the pointer still being set, empties every GUI layer |
| Overworld.OverworldState.ResetState | include/rpg/states/overworld.h:72-76 | the level, if any, is deleted and every GUI layer is emptied; the pointer is left as it was |
| Overworld.OverworldState.OnLevelLoaded | src/game/states/overworld.cpp:11-38 | with a level every entity and then every GUI element is spawned in layer and list order and a white fpsText is appended to the top layer; without one nothing happens |
| Overworld.OverworldState.LoadNewLevel | src/game/states/overworld.cpp:60-61 | a fresh level is loaded from the named document, with its collisions and no character, and its entities and the GUI are spawned and the fpsText added |
| Overworld.OverworldState.PerformLevelTransition | src/game/states/overworld.cpp:54-96 | the old level is freed, the level the record names is loaded, the GUI holds only the new fpsText, nobody is moved since no character exists, and the record is cleared |
| Overworld.OverworldState.UpdateStep | src/game/states/overworld.cpp:109-144 | every entity of the level is updated in order, then every GUI element; the fpsText shows the floored frame rate in debug mode and is empty otherwise |
| Overworld.OverworldState.Update | src/game/states/overworld.cpp:99-145 | a transition happens exactly when a level is present and the flag is set, and then replaces the whole frame; otherwise the frame step runs and the level and registry are kept |
| Overworld.OverworldState.Draw | src/game/states/overworld.cpp:175-288 | without a level nothing is drawn; otherwise the collisions are offset and the draws are the overworld level pass followed by the GUI pass |
| Overworld.OverworldState.OnKeyboardInput | src/game/states/overworld.cpp:290-363 | a fresh press runs the debug switch and Escape asks for the main menu; then every entity and every GUI element gets the key with released passed as not pressed |
| Overworld.EnterDebugRoomCallback | src/game/states/mainmenu.cpp:79-85 | the overworld is reset and given a fresh level loaded from the debug room, whose entities are spawned and whose GUI holds only the fpsText |
| Overworld.OverworldInstance.constructor | include/rpg/states/overworld.h:95 | there is no instance before the first call |
| Overworld.OverworldInstance.Get | include/rpg/states/overworld.h:93-97 | the first call builds the state with no level, sharing the engine's transition record; later calls return the same state |

## Left out

- Program start-up and the frame loop (src/main.cpp): SDL and TTF initialisation, the asset manifest, `SDL_GetTicks`/`SDL_Delay` timing. These are I/O and timing; the clock and the frame rate enter the model as parameters.
- Event polling and `LoadJSON` (src/engine/engine.cpp): event polling and file reading. Every document is a Dafny datatype, and decoding is the `Json` module's typed conversions.
- Drawing itself. Every SDL draw, texture and colour call is an event in a trace or is left out. `SDL_SetTextureColorMod`, `scaleMultiplier`, the background `SDL_RenderClear` and frame presentation (`OnPreRender`, `FinishRender`) are not modelled.
- Window and renderer set-up beyond success flags. From `Resources::Initalize` and `Renderer::Initalize` only the success logic is kept; `Shutdown` only destroys SDL objects and is not modelled.
- Release-all functions. `ReleaseAllTextures` and `ReleaseAllFonts` (both copies), `ReleaseAllTilesets` and `Tileset::FreeTiles` erase under a live iterator or destroy one texture many times. That is undefined behaviour, so nothing is claimed about them.
- Renderer::GetTexture, TextureExists, RemoveTexture, GetFont, FontExists and RemoveFont (src/engine/textures.cpp, src/engine/fonts.cpp). These run the same map code as the managers' members of the same name: `Rendering.Renderer` holds a `TextureManager` and a `FontManager` and uses theirs.
- Renderer::RenderMisc (src/engine/renderer.cpp:83-98) is the same pass as `Resources::RenderMisc` and is modelled once, as `Rendering.RenderMisc`.
- Floating point. Every `float` and `double` is a Dafny `real`, so rounding and overflow are left out; ints that only count (selection, charCounter, messagesCounter) are unbounded. Where a GUI layer's size is stored into an int, the members below require it to fit instead.
- Overworld.OverworldState.OnKeyboardInput: TAB and LSHIFT move `selection` without bound, as the source does; its 32-bit wrap-around after some two billion presses is not modelled.
- Light falloff (include/rpg/entities/light.h:38-113) and the mouse-position lighting in the overworld's Draw (src/game/states/overworld.cpp:209-219). They use sqrt, pow, cosine and `SDL_GetMouseState`. Each light's contribution to a tile (`Lighting`) and the mouse light of a tile (`mouseLight`) are parameters. The clamped sums, the black-tile skip and the debug rectangles built on them are modelled.
- src/game/entities/overworld_enemy.cpp: float steering with atan2, cos and sin; not part of this model.
- Text rendering (src/game/gui/text.cpp): fonts, surfaces, textures and `Text::Draw` are left out. A `Text` holds its string and its colour.
- Gui.Text.SetText: the string is stored as given. Once a font is found, `CreateTextTexture` (src/game/gui/text.cpp:44) turns an empty string into one space, and the font cache is outside the model. The same holds for the empty strings that `Gui.Textbox.ResetText`, `Gui.Textbox.OnElementSpawned` and `Overworld.OverworldState.UpdateStep` set.
- Gui.Text.SetTextColor: it calls `CreateTextTexture` too (include/rpg/gui/text.h:63-67), so an empty text becomes one space once a font is found; the model keeps the text as it was.
- Overworld.OverworldState.OnLevelLoaded: the new fpsText is coloured with `SetTextColor` (src/game/states/overworld.cpp:34-36), so its empty text may become one space; the model's fpsText holds the empty string. `Overworld.OverworldState.LoadNewLevel`, `Overworld.OverworldState.PerformLevelTransition` and `Overworld.EnterDebugRoomCallback` spawn through it and inherit this.
- Gui.Textbox.OnElementSpawned (src/game/gui/textbox.cpp:12-67): how far the read of the textbox definitions file gets is the `TextboxConfig` parameter. The values it reads are not modelled: the border size, the box rectangle, the colours, the padding and the Text's position stay as they were. The font lookup and the Text's own spawn hook (its texture) are left out. The source registers the Text on the current game state's GUI; the model is given that GUI, which is the overworld's whenever an NPC is used. The textbox destructor's removal of its text element (include/rpg/gui/textbox.h:52-57) is not modelled either.
- Child elements of a GUI element (include/rpg/gui/base.h:33-36): declared and never defined or used.
- Entities.Entity.OnEntitySpawned: it requires `PropertiesTyped`, that every property a door or an NPC reads has the type its `get<>` asks for. In the source a wrong type throws from the spawn hook (src/game/entities/door.cpp:10-15, src/game/entities/npc.cpp:25-31) and no caller catches it.
- Entities.Entity.DoorSpawned: the same requirement, for level, landmark_entity and enabled.
- Entities.Entity.NpcSpawned: the same requirement, for npc_name, npc_sprite, npc_use_dist and npc_action_file. The action file is loaded through the `actionFiles` parameter, which always gives a document; the source's `LoadJSON` rethrows on a missing or malformed file.
- Levels.Level.LoadLevel and the `LevelSource` it reads: `documents` always gives a level document. `Engine::LoadJSON` rethrows when the file is missing or does not parse (src/engine/engine.cpp:117-119), and `Level::LoadLevel` does not catch it (src/game/level/level.cpp:71); that failure is not modelled.
- Gui.Textbox.LoadDialogue: it requires a non-empty script. The source reads `messages[0]` (src/game/gui/textbox.cpp:137), and `GetDialogue` gives an empty script for an unknown path (include/rpg/resources/dialogue.cpp:36), which is undefined behaviour.
- Entities.Entity.OnUse: it requires the same non-empty script whenever a textbox would load one, and so does `Entities.Entity.OpenTextbox`. It also requires every GUI layer to hold fewer than 2^31 - 1 elements, so that both first-free-layer scans compare sizes that fit an int.
- Gui.GUI.FindFirstFreeLayer: it requires every GUI layer to hold fewer than 2^31 elements. `GUI::FindFirstFreeLayer` stores a layer's `size()` into an int (src/game/gui/gui.cpp:42-50), and a larger size would not fit. The members that call it carry the same bound: `Gui.Textbox.OnElementSpawned`, `States.AddMainMenu` and `States.AddTitle`. `States.MainMenuState.OnStateActivated` requires one element fewer, since it adds the menu before it looks for the title's layer.
- Gui.Textbox.ResetText and Gui.Textbox.OnKeyboardInput: a RETURN over a finished message requires an attached Text. `Textbox::ResetText` calls `boxText->SetText("")` unguarded (src/game/gui/textbox.cpp:92). A box whose settings read threw keeps a null `boxText` (src/game/gui/textbox.cpp:51, 63-66), and the default message's empty text counts as finished at once. A RETURN on such a box dereferences null in the source, and that case is not modelled.
- Entities.Entity.DoorUpdate: it requires a Character when no transition is pending. The source dereferences the null Character there (see "Where the code contradicts itself").
- Gui.GUI.GetElement: when no element has the name, the source runs off the end of a function that returns a pointer (src/game/gui/gui.cpp:56-69), which is undefined behaviour; the model returns `None`.
- The background-colour `sscanf_s` (src/game/level/level.cpp:94-99). Only whether the colour is a string, so that the read does not throw, is modelled.
- Levels.Level.LoadLevel: the model requires four things the source leaves as undefined behaviour:
  - at most sixteen object layers (`EntitiesFit`). The source indexes the 16-entry entity array only when it stores a built entity (src/game/level/level.cpp:371), so a seventeenth or later object layer that builds nothing is well defined there; the model excludes it too, although its layer step stores only below sixteen;
  - at most sixteen tile grids, each with an id for every cell (`TilesFit`, `GridsFilled`). The source indexes the 16-entry tile array only when it stores a tile (src/game/level/level.cpp:217), so a seventeenth or later tile layer that places no tile is well defined there; the model excludes it too. A short grid reads past its data;
  - a non-empty tileset list once the background colour is a string (`TilesetsListed`): an empty list makes `levelTilesets[0]` index an empty vector.
- The tileset's per-cell collision rectangles and `GetTile` are used by src/game/level/level.cpp:180-195 but missing from include/rpg/level/tileset.h. The model gives `TileData` a list of collision rectangles and reads a cell with `Resources.GetTile`: the cell at the id, or the default cell outside the list.
- TilesetManager::LoadTileset (src/engine/resources/tilesets.cpp:85, 105) cannot compile as written: `SDL_tileset`, `IMG_Loadtileset` and a second `tileset` declaration. The model reads it as the texture load it was renamed from, followed by the 64-pixel grid cut.
- Fields without an initialiser hold an indeterminate value. The constructors state nothing about:
  - `CurrentlySelectedOption` of a menu;
  - `enabled` and `alreadyFaded` of a door;
  - `isCurrentlyUsed` of every entity and `useActivator` of an NPC (see "Where the code contradicts itself");
  - the x and y of a collision object's `collisionRect` (src/game/level/level.cpp:264-268 set only its width and height). The model writes 0.0 for both, and nothing reads them before the collision offset overwrites them.

  A tile's `colorModifier` is the `indeterminate` parameter, and the player's `pawn` starts null.
- The hooks a state calls on its entities and GUI elements (spawn, update, key, draw) are recorded as call events (`HookCall`, `EntityCall`). Virtual dispatch to an element's own method is not modelled; those methods are modelled separately and called directly where the source calls them by name.
- The GUI registry never holds a null handle, since no code path inserts one. The null-element skips of `GUI::GetElement` and of the overworld's GUI update loop are therefore implicit.
- The transition record. `DoorEntity` writes `GameEngine->gLevelTransData`, while `OverworldState` reads its own member of the same name. The model gives both one shared `TransitionRecord`, the only reading under which a door's transition is ever seen.
- State changes and fades. `ChangeGameState`, `FadeFromBlack` and `FadeToBlack` belong to the engine loop. The overworld returns whether Escape asked for the main menu, and a door returns whether it asked for a fade, with the fade flag as a parameter. The switch of state after "Enter Debug Room" is not modelled.
- Logging (`std::cout`, `printf`) is not modelled.
- The overworld's `camera` member and `OffsetCamera` (include/rpg/states/overworld.h:61-64) are declared and unused. `tilesRendered` is never changed after its initial 0.
- The order of the collision-rectangle loop. `Resources::RenderLevel` and the overworld's Draw offset the collision rectangles before the layer loop; the model does it after. The two loops touch disjoint state, so the outcome is the same.
- Overworld.OverworldState.LoadNewLevel, Overworld.OverworldState.PerformLevelTransition, Overworld.OverworldState.Update and Overworld.EnterDebugRoomCallback: these state the new level's collisions, its missing Character and the wake-up calls. Only `Overworld.NewLevel` states the whole built level (`Loaded`); these callers do not restate it after the wake-up hooks.
- Overworld.OverworldState.UpdateStep: the contract states the fpsText's string but not that its colour is kept.
- Rendering.RenderLayers: it states the draws but not the drawn box each tile and entity is left with. The source leaves every box at its world position less the camera's, with its size kept. Only the one-layer passes `Rendering.RenderLayer` and `Overworld.OverworldRenderLayer`, and the tile and entity passes under them, state that. Carrying it across sixteen layers, where one tile may sit in several, is beyond what the verifier proves within its limits here.
- Rendering.RenderLevelLayer: the same; it states the draws, not the new drawn boxes.
- Rendering.EngineResources.RenderLevel: the same; it states the draws and the collision offsets, not the new drawn boxes.
- Overworld.OverworldRenderLayers: the same as `Rendering.RenderLayers`, for the overworld pass.
- Overworld.OverworldLevelLayer: the same as `Rendering.RenderLevelLayer`, for the overworld pass.
- Overworld.DrawLevel: the same; it states the draws and the collision offsets, not the new drawn boxes.
- Overworld.OverworldState.Draw: the same; it states the draws and the collision offsets, not the new drawn boxes.
- Declaration-only or unused headers, not part of this model: include/rpg/level.h (a second declaration of `Level`; like include/rpg/level/level.h it does not match level.cpp, which the model follows), include/rpg/inputtable.h (empty virtual input hooks), include/rpg/rpg.h (an aggregate include header) and include/rpg/entities/gamestate_logic.h (a class declared without definitions).
