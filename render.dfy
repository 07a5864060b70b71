/**
 * The render passes of the engine's Resources object and of the older Renderer.
 * A pass offsets every object by the camera, decides which ones to draw, and
 * calls their Draw; here each Draw call is an event appended to a trace, so a
 * pass is specified by the trace it produces and the fields it overwrites.
 */
module Rendering {
  import opened Common
  import opened Geometry
  import opened Tags
  import opened Resources
  import opened Gui
  import opened Entities
  import opened Levels

  /** One draw call a pass makes. */
  datatype DrawCall =
    | DrawTile(tile: Tile)
    | DrawEntity(entity: Entity)
    | DrawElement(element: Handle)
    | FillTileRect(tile: Tile)
    | OutlineTileRect(tile: Tile)

  /** The tag filter of every pass: hidden only when tagged "NotRendering" and not "Renderable". */
  predicate Drawable(t: Taggable)
    reads t
  {
    t.HasTag(Renderable) || !t.HasTag(NotRendering)
  }

  /** The box a tile is culled on: its world position with its drawn size. */
  function TileBox(t: Tile): (r: FRect)
    reads t
    ensures r.x == t.levelX && r.y == t.levelY && r.w == t.destinationRect.w && r.h == t.destinationRect.h
  {
    FRect(t.levelX, t.levelY, t.destinationRect.w, t.destinationRect.h)
  }

  /** The tiles of a list, as a set of objects. */
  function TileObjects(ts: seq<Tile?>): set<Tile>
  {
    set t: Tile | t in ts
  }

  /** The entities of a list, as a set of objects. */
  function EntityObjects(es: seq<Entity?>): set<Entity>
  {
    set e: Entity | e in es
  }

  function TileTags(ts: seq<Tile?>): set<Taggable>
  {
    set t: Tile | t in ts :: t.tagSet
  }

  function EntityTags(es: seq<Entity?>): set<Taggable>
  {
    set e: Entity | e in es :: e.tagSet
  }

  predicate TilesLive(ts: seq<Tile?>)
  {
    forall i :: 0 <= i < |ts| ==> ts[i] != null
  }

  /** The screen position a pass gives a world position: the world position less the camera's. */
  function OnScreen(r: FRect, levelX: real, levelY: real, camera: FRect): (s: FRect)
    ensures s.x + camera.x == levelX && s.y + camera.y == levelY
    ensures s.w == r.w && s.h == r.h
  {
    r.(x := levelX - camera.x, y := levelY - camera.y)
  }

  // ---------------------------------------------------------------------------
  // Entities: culled and filtered (Resources), filtered only (Renderer)
  // ---------------------------------------------------------------------------

  /** Resources::RenderEntities draws an entity when its world box overlaps the camera and it passes the filter. */
  predicate EntityVisible(e: Entity, camera: FRect)
    reads e, e.tagSet
  {
    CollisionCheckF(camera, e.WorldBox()) && Drawable(e.tagSet)
  }

  /** The draws Resources::RenderEntities makes over a list, in list order. */
  function CulledEntities(es: seq<Entity?>, camera: FRect): (r: seq<DrawCall>)
    requires NonNull(es)
    reads es, EntityTags(es)
    ensures |r| <= |es|
    ensures forall d :: d in r ==> d.DrawEntity? && d.entity in es && EntityVisible(d.entity, camera)
  {
    if |es| == 0 then []
    else
      var e := es[|es| - 1];
      CulledEntities(es[..|es| - 1], camera) + (if EntityVisible(e, camera) then [DrawEntity(e)] else [])
  }

  /** The draws Renderer::RenderEntities makes over a list, in list order: the filter alone decides. */
  function FilteredEntities(es: seq<Entity?>): (r: seq<DrawCall>)
    requires NonNull(es)
    reads EntityTags(es)
    ensures |r| <= |es|
    ensures forall d :: d in r ==> d.DrawEntity? && d.entity in es && Drawable(d.entity.tagSet)
  {
    if |es| == 0 then []
    else
      var e := es[|es| - 1];
      FilteredEntities(es[..|es| - 1]) + (if Drawable(e.tagSet) then [DrawEntity(e)] else [])
  }

  /** Visiting order is list order: the draws over a + b are those over a, then those over b. */
  lemma {:induction false} CulledEntitiesAppend(a: seq<Entity?>, b: seq<Entity?>, camera: FRect)
    requires NonNull(a) && NonNull(b)
    ensures NonNull(a + b)
    ensures CulledEntities(a + b, camera) == CulledEntities(a, camera) + CulledEntities(b, camera)
    decreases |b|
  {
    if |b| == 0 {
      assert a + b == a;
    } else {
      assert (a + b)[..|a + b| - 1] == a + b[..|b| - 1];
      CulledEntitiesAppend(a, b[..|b| - 1], camera);
    }
  }

  /** An entity is drawn exactly when it is in the list and visible. */
  lemma {:induction false} CulledEntitiesDrawn(es: seq<Entity?>, camera: FRect, e: Entity)
    requires NonNull(es)
    ensures DrawEntity(e) in CulledEntities(es, camera) <==> e in es && EntityVisible(e, camera)
    decreases |es|
  {
    if |es| > 0 {
      CulledEntitiesDrawn(es[..|es| - 1], camera, e);
      assert es == es[..|es| - 1] + [es[|es| - 1]];
    }
  }

  /** Filtering alone: an entity is drawn exactly when it is in the list and passes the filter. */
  lemma {:induction false} FilteredEntitiesDrawn(es: seq<Entity?>, e: Entity)
    requires NonNull(es)
    ensures DrawEntity(e) in FilteredEntities(es) <==> e in es && Drawable(e.tagSet)
    decreases |es|
  {
    if |es| > 0 {
      FilteredEntitiesDrawn(es[..|es| - 1], e);
      assert es == es[..|es| - 1] + [es[|es| - 1]];
    }
  }

  /**
   * The two entity passes disagree only on culling: when every world box
   * overlaps the camera they make the same draws, and otherwise the culled
   * pass draws no entity the other would not.
   */
  lemma {:induction false} CulledWithinFiltered(es: seq<Entity?>, camera: FRect)
    requires NonNull(es)
    ensures forall e: Entity :: DrawEntity(e) in CulledEntities(es, camera) ==> DrawEntity(e) in FilteredEntities(es)
    ensures (forall i :: 0 <= i < |es| ==> CollisionCheckF(camera, es[i].WorldBox())) ==>
              CulledEntities(es, camera) == FilteredEntities(es)
    decreases |es|
  {
    forall e: Entity | DrawEntity(e) in CulledEntities(es, camera)
      ensures DrawEntity(e) in FilteredEntities(es)
    {
      CulledEntitiesDrawn(es, camera, e);
      FilteredEntitiesDrawn(es, e);
    }
    if |es| > 0 {
      CulledWithinFiltered(es[..|es| - 1], camera);
    }
  }

  // ---------------------------------------------------------------------------
  // Tiles
  // ---------------------------------------------------------------------------

  /** Resources::RenderLevel draws a tile when its world box overlaps the camera and it passes the filter. */
  predicate TileVisible(t: Tile, camera: FRect)
    reads t, t.tagSet
  {
    CollisionCheckF(camera, TileBox(t)) && Drawable(t.tagSet)
  }

  /** The tile draws of one layer of Resources::RenderLevel, in list order. */
  function CulledTiles(ts: seq<Tile?>, camera: FRect): (r: seq<DrawCall>)
    requires TilesLive(ts)
    reads ts, TileTags(ts)
    ensures |r| <= |ts|
    ensures forall d :: d in r ==> d.DrawTile? && d.tile in ts && TileVisible(d.tile, camera)
  {
    if |ts| == 0 then []
    else
      var t := ts[|ts| - 1];
      CulledTiles(ts[..|ts| - 1], camera) + (if TileVisible(t, camera) then [DrawTile(t)] else [])
  }

  /** A tile is drawn exactly when it is in the layer and visible. */
  lemma {:induction false} CulledTilesDrawn(ts: seq<Tile?>, camera: FRect, t: Tile)
    requires TilesLive(ts)
    ensures DrawTile(t) in CulledTiles(ts, camera) <==> t in ts && TileVisible(t, camera)
    decreases |ts|
  {
    if |ts| > 0 {
      CulledTilesDrawn(ts[..|ts| - 1], camera, t);
      assert ts == ts[..|ts| - 1] + [ts[|ts| - 1]];
    }
  }

  // ---------------------------------------------------------------------------
  // GUI
  // ---------------------------------------------------------------------------

  function ElementTags(hs: seq<Handle>): set<Taggable>
  {
    set h | h in hs :: Base(h).tagSet
  }

  /** The draws RenderMisc makes over one GUI layer, in list order, filtered. */
  function DrawnElements(hs: seq<Handle>): (r: seq<DrawCall>)
    reads ElementTags(hs)
    ensures |r| <= |hs|
    ensures forall d :: d in r ==> d.DrawElement? && d.element in hs && Drawable(Base(d.element).tagSet)
  {
    if |hs| == 0 then []
    else
      var h := hs[|hs| - 1];
      DrawnElements(hs[..|hs| - 1]) + (if Drawable(Base(h).tagSet) then [DrawElement(h)] else [])
  }

  /** An element is drawn exactly when it is on the layer and passes the filter. */
  lemma {:induction false} DrawnElementsDrawn(hs: seq<Handle>, h: Handle)
    ensures DrawElement(h) in DrawnElements(hs) <==> h in hs && Drawable(Base(h).tagSet)
    decreases |hs|
  {
    if |hs| > 0 {
      DrawnElementsDrawn(hs[..|hs| - 1], h);
      assert hs == hs[..|hs| - 1] + [hs[|hs| - 1]];
    }
  }

  /** The tag sets of the elements on the first n GUI layers. */
  function GuiFrame(elements: seq<seq<Handle>>, n: nat): set<object>
    requires n <= |elements|
  {
    if n == 0 then {} else GuiFrame(elements, n - 1) + ElementTags(elements[n - 1])
  }

  /** The draws RenderMisc makes over the first n GUI layers, lowest layer first. */
  function DrawnLayers(elements: seq<seq<Handle>>, n: nat): seq<DrawCall>
    requires n <= |elements|
    reads GuiFrame(elements, n)
  {
    if n == 0 then [] else DrawnLayers(elements, n - 1) + DrawnElements(elements[n - 1])
  }

  /** The draws of the first n layers hold those of layer i < n right after those of the layers below it. */
  lemma {:induction false} DrawnLayersPrefix(elements: seq<seq<Handle>>, n: nat, i: nat) returns (post: seq<DrawCall>)
    requires i < n <= |elements|
    ensures DrawnLayers(elements, n) == DrawnLayers(elements, i) + DrawnElements(elements[i]) + post
    decreases n
  {
    if i == n - 1 {
      post := [];
    } else {
      var p := DrawnLayersPrefix(elements, n - 1, i);
      post := p + DrawnElements(elements[n - 1]);
    }
  }

  /** Lower GUI layers are drawn first: the draws of layer i all come before those of a higher layer j. */
  lemma LowerLayerDrawnFirst(elements: seq<seq<Handle>>, i: nat, j: nat)
    requires i < j < |elements|
    ensures exists pre, mid, post ::
      (DrawnLayers(elements, |elements|) == pre + DrawnElements(elements[i]) + mid + DrawnElements(elements[j]) + post)
  {
    var post := DrawnLayersPrefix(elements, |elements|, j);
    var mid := DrawnLayersPrefix(elements, j, i);
    var pre := DrawnLayers(elements, i);
    assert DrawnLayers(elements, |elements|) == pre + DrawnElements(elements[i]) + mid + DrawnElements(elements[j]) + post;
  }

  /** An element is drawn exactly when it is on one of the layers and passes the filter. */
  lemma {:induction false} DrawnLayersDrawn(elements: seq<seq<Handle>>, n: nat, h: Handle)
    requires n <= |elements|
    ensures DrawElement(h) in DrawnLayers(elements, n) <==>
      (exists k :: 0 <= k < n && h in elements[k]) && Drawable(Base(h).tagSet)
    decreases n
  {
    if n > 0 {
      DrawnLayersDrawn(elements, n - 1, h);
      DrawnElementsDrawn(elements[n - 1], h);
    }
  }

  // ---------------------------------------------------------------------------
  // Keeping a specification across a pass
  // ---------------------------------------------------------------------------

  /** What the culling tests read of an entity has not changed. */
  twostate predicate EntityBoxKept(e: Entity)
    reads e, e.tagSet
  {
    e.levelX == old(e.levelX) && e.levelY == old(e.levelY) &&
    e.destinationRect.w == old(e.destinationRect.w) && e.destinationRect.h == old(e.destinationRect.h) &&
    e.tagSet.tags == old(e.tagSet.tags)
  }

  twostate predicate TileBoxKept(t: Tile)
    reads t, t.tagSet
  {
    t.levelX == old(t.levelX) && t.levelY == old(t.levelY) &&
    t.destinationRect.w == old(t.destinationRect.w) && t.destinationRect.h == old(t.destinationRect.h) &&
    t.tagSet.tags == old(t.tagSet.tags)
  }

  /** Only moving the drawn box leaves the draws of the culled entity pass as they were. */
  twostate lemma {:induction false} CulledEntitiesKept(es: seq<Entity?>)
    requires NonNull(es)
    requires forall e: Entity :: e in es ==> EntityBoxKept(e)
    ensures forall camera :: CulledEntities(es, camera) == old(CulledEntities(es, camera))
  {
    if |es| > 0 {
      assert forall e: Entity :: e in es[..|es| - 1] ==> e in es;
      CulledEntitiesKept(es[..|es| - 1]);
    }
  }

  twostate lemma {:induction false} CulledTilesKept(ts: seq<Tile?>)
    requires TilesLive(ts)
    requires forall t: Tile :: t in ts ==> TileBoxKept(t)
    ensures forall camera :: CulledTiles(ts, camera) == old(CulledTiles(ts, camera))
  {
    if |ts| > 0 {
      assert forall t: Tile :: t in ts[..|ts| - 1] ==> t in ts;
      CulledTilesKept(ts[..|ts| - 1]);
    }
  }

  // ---------------------------------------------------------------------------
  // The passes
  // ---------------------------------------------------------------------------

  /**
   * The entity loop of Resources::RenderEntities and Resources::RenderLevel:
   * every entity's drawn box is moved to its world position less the camera's,
   * drawn or not, before the culling test.
   */
  method RenderEntities(es: seq<Entity?>, camera: FRect) returns (trace: seq<DrawCall>)
    requires NonNull(es)
    modifies EntityObjects(es)`destinationRect
    ensures trace == old(CulledEntities(es, camera))
    ensures forall e: Entity :: e in es ==>
      e.destinationRect == OnScreen(old(e.destinationRect), e.levelX, e.levelY, camera)
  {
    trace := [];
    var i := 0;
    while i < |es|
      invariant 0 <= i <= |es|
      invariant trace == old(CulledEntities(es[..i], camera))
      invariant forall e: Entity :: e in es ==>
        e.destinationRect == if e in es[..i] then OnScreen(old(e.destinationRect), e.levelX, e.levelY, camera)
                               else old(e.destinationRect)
    {
      assert es[..i + 1] == es[..i] + [es[i]];
      var entity := es[i];
      entity.destinationRect := entity.destinationRect.(x := entity.levelX - camera.x, y := entity.levelY - camera.y);
      var checkRect := FRect(entity.levelX, entity.levelY, entity.destinationRect.w, entity.destinationRect.h);
      if CollisionCheckF(camera, checkRect) && (entity.tagSet.HasTag(Renderable) || !entity.tagSet.HasTag(NotRendering)) {
        trace := trace + [DrawEntity(entity)];
      }
      i := i + 1;
    }
    assert es[..i] == es;
  }

  /** The tile loop of Resources::RenderLevel for one layer: the same offset, culling and filter as for entities. */
  method RenderTiles(ts: seq<Tile?>, camera: FRect) returns (trace: seq<DrawCall>)
    requires TilesLive(ts)
    modifies TileObjects(ts)`destinationRect
    ensures trace == old(CulledTiles(ts, camera))
    ensures forall t: Tile :: t in ts ==>
      t.destinationRect == OnScreen(old(t.destinationRect), t.levelX, t.levelY, camera)
  {
    trace := [];
    var i := 0;
    while i < |ts|
      invariant 0 <= i <= |ts|
      invariant trace == old(CulledTiles(ts[..i], camera))
      invariant forall t: Tile :: t in ts ==>
        t.destinationRect == if t in ts[..i] then OnScreen(old(t.destinationRect), t.levelX, t.levelY, camera)
                               else old(t.destinationRect)
    {
      assert ts[..i + 1] == ts[..i] + [ts[i]];
      var tile := ts[i];
      tile.destinationRect := tile.destinationRect.(x := tile.levelX - camera.x, y := tile.levelY - camera.y);
      var checkRect := FRect(tile.levelX, tile.levelY, tile.destinationRect.w, tile.destinationRect.h);
      if CollisionCheckF(camera, checkRect) && (tile.tagSet.HasTag(Renderable) || !tile.tagSet.HasTag(NotRendering)) {
        trace := trace + [DrawTile(tile)];
      }
      i := i + 1;
    }
    assert ts[..i] == ts;
  }

  /** RenderMisc: every GUI element that passes the filter is drawn, layers 0..15 and list order. */
  method RenderMisc(gui: GUI) returns (trace: seq<DrawCall>)
    ensures trace == DrawnLayers(gui.elements, |gui.elements|)
  {
    trace := [];
    var l := 0;
    while l < |gui.elements|
      invariant 0 <= l <= |gui.elements|
      invariant trace == DrawnLayers(gui.elements, l)
    {
      var layer := gui.elements[l];
      var k := 0;
      while k < |layer|
        invariant 0 <= k <= |layer|
        invariant trace == DrawnLayers(gui.elements, l) + DrawnElements(layer[..k])
      {
        assert layer[..k + 1][..k] == layer[..k];
        var element := layer[k];
        if Base(element).tagSet.HasTag(Renderable) || !Base(element).tagSet.HasTag(NotRendering) {
          trace := trace + [DrawElement(element)];
        }
        k := k + 1;
      }
      assert layer[..k] == layer;
      l := l + 1;
    }
  }

  // ---------------------------------------------------------------------------
  // The level pass
  // ---------------------------------------------------------------------------

  /** A collision rectangle as RenderLevel leaves it: drawn at its world position less the camera's. */
  function Offset(c: CollisionRect, camera: FRect): (r: CollisionRect)
    ensures r.levelX == c.levelX && r.levelY == c.levelY
    ensures r.collisionRect.x + camera.x == c.levelX && r.collisionRect.y + camera.y == c.levelY
    ensures r.collisionRect.w == c.collisionRect.w && r.collisionRect.h == c.collisionRect.h
  {
    c.(collisionRect := OnScreen(c.collisionRect, c.levelX, c.levelY, camera))
  }

  /** Offsetting by the same camera twice is offsetting once. */
  lemma OffsetIdempotent(c: CollisionRect, camera: FRect)
    ensures Offset(Offset(c, camera), camera) == Offset(c, camera)
  {
  }

  predicate LayersLive(level: Level)
    reads level
  {
    level.Valid() && level.EntitiesLive() && forall k :: 0 <= k < |level.lTiles| ==> TilesLive(level.lTiles[k])
  }

  /** Everything the culling of the first n layers looks at: the tiles and entities and their tag sets. */
  function LayerFrame(tiles: seq<seq<Tile?>>, ents: seq<seq<Entity?>>, n: nat): set<object>
    requires n <= |tiles| && n <= |ents|
  {
    if n == 0 then {}
    else LayerFrame(tiles, ents, n - 1) + TileObjects(tiles[n - 1]) + TileTags(tiles[n - 1])
           + EntityObjects(ents[n - 1]) + EntityTags(ents[n - 1])
  }

  /** The draws of Resources::RenderLevel over its first n layers: tiles of layer i, then entities of layer i. */
  function LevelTrace(tiles: seq<seq<Tile?>>, ents: seq<seq<Entity?>>, camera: FRect, n: nat): (r: seq<DrawCall>)
    requires n <= |tiles| && n <= |ents|
    requires forall k :: 0 <= k < n ==> TilesLive(tiles[k]) && NonNull(ents[k])
    reads LayerFrame(tiles, ents, n)
  {
    if n == 0 then []
    else LevelTrace(tiles, ents, camera, n - 1) + CulledTiles(tiles[n - 1], camera) + CulledEntities(ents[n - 1], camera)
  }

  /** Layer i's draws, tiles then entities, follow those of the layers below it. */
  lemma LevelTraceSnoc(tiles: seq<seq<Tile?>>, ents: seq<seq<Entity?>>, camera: FRect, i: nat)
    requires i < |tiles| && i < |ents|
    requires forall k :: 0 <= k <= i ==> TilesLive(tiles[k]) && NonNull(ents[k])
    ensures LevelTrace(tiles, ents, camera, i + 1) ==
      LevelTrace(tiles, ents, camera, i) + (CulledTiles(tiles[i], camera) + CulledEntities(ents[i], camera))
  {
    AppendAssoc(LevelTrace(tiles, ents, camera, i), CulledTiles(tiles[i], camera), CulledEntities(ents[i], camera));
  }

  /** The draws of the first n layers hold those of layer i < n right after the draws of the layers below it. */
  lemma {:induction false} LevelPrefix(tiles: seq<seq<Tile?>>, ents: seq<seq<Entity?>>, camera: FRect, n: nat, i: nat)
    returns (post: seq<DrawCall>)
    requires n <= |tiles| && n <= |ents|
    requires forall k :: 0 <= k < n ==> TilesLive(tiles[k]) && NonNull(ents[k])
    requires i < n
    ensures LevelTrace(tiles, ents, camera, n) ==
      LevelTrace(tiles, ents, camera, i) + CulledTiles(tiles[i], camera) + CulledEntities(ents[i], camera) + post
    decreases n
  {
    if i == n - 1 {
      post := [];
    } else {
      var p := LevelPrefix(tiles, ents, camera, n - 1, i);
      post := p + CulledTiles(tiles[n - 1], camera) + CulledEntities(ents[n - 1], camera);
    }
  }

  /** Layers are drawn bottom up: every draw of layer i comes before every draw of a higher layer j, and within a layer tiles come first. */
  lemma LevelTraceOrder(tiles: seq<seq<Tile?>>, ents: seq<seq<Entity?>>, camera: FRect, n: nat, i: nat, j: nat)
    requires n <= |tiles| && n <= |ents|
    requires forall k :: 0 <= k < n ==> TilesLive(tiles[k]) && NonNull(ents[k])
    requires i < j < n
    ensures exists pre, mid, post ::
      (LevelTrace(tiles, ents, camera, n) ==
        pre + CulledTiles(tiles[i], camera) + CulledEntities(ents[i], camera) + mid
            + CulledTiles(tiles[j], camera) + CulledEntities(ents[j], camera) + post)
  {
    var post := LevelPrefix(tiles, ents, camera, n, j);
    var mid := LevelPrefix(tiles, ents, camera, j, i);
    var pre := LevelTrace(tiles, ents, camera, i);
    assert LevelTrace(tiles, ents, camera, n) ==
      pre + CulledTiles(tiles[i], camera) + CulledEntities(ents[i], camera) + mid
          + CulledTiles(tiles[j], camera) + CulledEntities(ents[j], camera) + post;
  }

  /** A tile is drawn by the level pass exactly when it lies on one of the layers and is visible. */
  lemma {:induction false} LevelTraceTiles(tiles: seq<seq<Tile?>>, ents: seq<seq<Entity?>>, camera: FRect, n: nat, t: Tile)
    requires n <= |tiles| && n <= |ents|
    requires forall k :: 0 <= k < n ==> TilesLive(tiles[k]) && NonNull(ents[k])
    ensures DrawTile(t) in LevelTrace(tiles, ents, camera, n) <==>
      (exists k :: 0 <= k < n && t in tiles[k]) && TileVisible(t, camera)
    decreases n
  {
    if n > 0 {
      LevelTraceTiles(tiles, ents, camera, n - 1, t);
      CulledTilesDrawn(tiles[n - 1], camera, t);
    }
  }

  /** An entity is drawn by the level pass exactly when it lies on one of the layers and is visible. */
  lemma {:induction false} LevelTraceEntities(tiles: seq<seq<Tile?>>, ents: seq<seq<Entity?>>, camera: FRect, n: nat, e: Entity)
    requires n <= |tiles| && n <= |ents|
    requires forall k :: 0 <= k < n ==> TilesLive(tiles[k]) && NonNull(ents[k])
    ensures DrawEntity(e) in LevelTrace(tiles, ents, camera, n) <==>
      (exists k :: 0 <= k < n && e in ents[k]) && EntityVisible(e, camera)
    decreases n
  {
    if n > 0 {
      LevelTraceEntities(tiles, ents, camera, n - 1, e);
      CulledEntitiesDrawn(ents[n - 1], camera, e);
    }
  }

  /** The camera-offset loop over the collision rectangles: each one is rewritten in place. */
  method OffsetCollisions(rects: seq<CollisionRect>, camera: FRect) returns (r: seq<CollisionRect>)
    ensures |r| == |rects|
    ensures forall i :: 0 <= i < |r| ==> r[i] == Offset(rects[i], camera)
  {
    r := rects;
    var i := 0;
    while i < |r|
      invariant 0 <= i <= |r| == |rects|
      invariant forall j :: 0 <= j < i ==> r[j] == Offset(rects[j], camera)
      invariant forall j :: i <= j < |r| ==> r[j] == rects[j]
    {
      var obj := r[i];
      obj := obj.(collisionRect := obj.collisionRect.(x := obj.levelX - camera.x, y := obj.levelY - camera.y));
      r := r[i := obj];
      i := i + 1;
    }
  }

  /** All tiles and entities of a level, as objects. */
  function LevelTiles(level: Level): set<Tile>
    reads level
  {
    set k, t: Tile | 0 <= k < |level.lTiles| && t in level.lTiles[k] :: t
  }

  function LevelEntities(level: Level): set<Entity>
    reads level
  {
    set k, e: Entity | 0 <= k < |level.lEntities| && e in level.lEntities[k] :: e
  }

  // ---------------------------------------------------------------------------
  // The engine's Resources object and the older Renderer
  // ---------------------------------------------------------------------------

  const ScreenWidth := 1200
  const ScreenHeight := 700

  /** The engine's Resources object (EngineResources): the camera and the level and GUI passes. */
  class EngineResources {
    var windowCreated: bool
    var rendererCreated: bool
    var camera: FRect

    constructor ()
      ensures !windowCreated && !rendererCreated
      ensures camera == FRect(0.0, 0.0, ScreenWidth as real, ScreenHeight as real)
    {
      windowCreated, rendererCreated := false, false;
      camera := FRect(0.0, 0.0, ScreenWidth as real, ScreenHeight as real);
    }

    /**
     * Initalize: stops with false at the first of window, renderer and PNG
     * support that fails; unlike the older Renderer it keeps no initialised flag.
     */
    method Initalize(windowOk: bool, rendererOk: bool, pngOk: bool) returns (ok: bool)
      modifies this
      ensures ok == (windowOk && rendererOk && pngOk)
      ensures windowCreated == windowOk
      ensures rendererCreated == if windowOk then rendererOk else old(rendererCreated)
      ensures camera == old(camera)
    {
      windowCreated := windowOk;
      if !windowCreated { return false; }
      rendererCreated := rendererOk;
      if !rendererCreated { return false; }
      ok := pngOk;
    }

    /**
     * RenderLevel: nothing for a null level; otherwise every collision rectangle
     * is offset by the camera, then for each of the 16 layers the tiles and then
     * the entities of that layer are offset, culled and filtered.
     */
    method RenderLevel(level: Level?) returns (trace: seq<DrawCall>)
      requires level != null ==> LayersLive(level)
      modifies if level == null then {} else {level}
      modifies if level == null then {} else LevelTiles(level)`destinationRect
      modifies if level == null then {} else LevelEntities(level)`destinationRect
      ensures level == null ==> trace == []
      ensures level != null ==> level.lTiles == old(level.lTiles) && level.lEntities == old(level.lEntities)
      ensures level != null ==> trace == old(LevelTrace(level.lTiles, level.lEntities, camera, MaxTileLayers))
      ensures level != null ==> |level.lCollisionR| == |old(level.lCollisionR)|
      ensures level != null ==>
        forall i :: 0 <= i < |level.lCollisionR| ==> level.lCollisionR[i] == Offset(old(level.lCollisionR[i]), camera)
    {
      if level == null { return []; }
      // The collision loop comes first in RenderLevel; it is placed after the layer
      // loop here, which neither reads nor writes the collision rectangles.
      trace := RenderLayers(level, camera);
      level.lCollisionR := OffsetCollisions(level.lCollisionR, camera);
    }
  }

  /** The layer loop of RenderLevel: layer 0 to 15, each layer's tiles before its entities. */
  method RenderLayers(level: Level, camera: FRect) returns (trace: seq<DrawCall>)
    requires LayersLive(level)
    modifies LevelTiles(level)`destinationRect, LevelEntities(level)`destinationRect
    ensures trace == old(LevelTrace(level.lTiles, level.lEntities, camera, MaxTileLayers))
  {
    ghost var tiles, ents := level.lTiles, level.lEntities;
    ghost var whole := LevelTrace(tiles, ents, camera, MaxTileLayers);
    trace := [];
    var i := 0;
    while i < MaxTileLayers
      invariant 0 <= i <= MaxTileLayers && level.lTiles == tiles && level.lEntities == ents
      invariant trace == LevelTrace(tiles, ents, camera, i)
      invariant LevelTrace(tiles, ents, camera, MaxTileLayers) == whole
    {
      var layerTrace := RenderLevelLayer(level, i, camera);
      LevelTraceSnoc(tiles, ents, camera, i);
      trace := trace + layerTrace;
      i := i + 1;
    }
  }

  /**
   * One pass of the layer loop: layer i's tiles, then its entities. The draws
   * of every prefix of the layers stay what they were, so the pass draws
   * what layer i held before it.
   */
  method RenderLevelLayer(level: Level, i: nat, camera: FRect) returns (trace: seq<DrawCall>)
    requires LayersLive(level) && i < MaxTileLayers
    modifies LevelTiles(level)`destinationRect, LevelEntities(level)`destinationRect
    ensures trace == CulledTiles(level.lTiles[i], camera) + CulledEntities(level.lEntities[i], camera)
    ensures forall n :: 0 <= n <= MaxTileLayers ==>
      LevelTrace(level.lTiles, level.lEntities, camera, n) == old(LevelTrace(level.lTiles, level.lEntities, camera, n))
  {
    LayerInLevel(level, i);
    trace := RenderLayer(level.lTiles[i], level.lEntities[i], camera);
    LevelTraceKept(level);
  }

  /** A pass that keeps every world position, size and tag keeps the draws of every prefix of the layers. */
  twostate lemma LevelTraceKept(level: Level)
    requires old(LayersLive(level)) && unchanged(level)
    requires forall k :: 0 <= k < MaxTileLayers ==> forall t: Tile :: t in level.lTiles[k] ==> TileBoxKept(t)
    requires forall k :: 0 <= k < MaxTileLayers ==> forall e: Entity :: e in level.lEntities[k] ==> EntityBoxKept(e)
    ensures forall k, camera :: 0 <= k < MaxTileLayers ==>
      CulledTiles(level.lTiles[k], camera) == old(CulledTiles(level.lTiles[k], camera)) &&
      CulledEntities(level.lEntities[k], camera) == old(CulledEntities(level.lEntities[k], camera))
    ensures forall camera, n :: 0 <= n <= MaxTileLayers ==>
      LevelTrace(level.lTiles, level.lEntities, camera, n) == old(LevelTrace(level.lTiles, level.lEntities, camera, n))
  {
    forall k | 0 <= k < MaxTileLayers
      ensures forall camera :: CulledTiles(level.lTiles[k], camera) == old(CulledTiles(level.lTiles[k], camera))
      ensures forall camera :: CulledEntities(level.lEntities[k], camera) == old(CulledEntities(level.lEntities[k], camera))
    {
      CulledTilesKept(level.lTiles[k]);
      CulledEntitiesKept(level.lEntities[k]);
    }
    forall camera, n | 0 <= n <= MaxTileLayers
      ensures LevelTrace(level.lTiles, level.lEntities, camera, n) == old(LevelTrace(level.lTiles, level.lEntities, camera, n))
    {
      var j := 0;
      while j < n
        invariant 0 <= j <= n
        invariant LevelTrace(level.lTiles, level.lEntities, camera, j) == old(LevelTrace(level.lTiles, level.lEntities, camera, j))
      {
        j := j + 1;
      }
    }
  }

  lemma LayerInLevel(level: Level, i: nat)
    requires i < |level.lTiles| && i < |level.lEntities|
    ensures TileObjects(level.lTiles[i]) <= LevelTiles(level)
    ensures EntityObjects(level.lEntities[i]) <= LevelEntities(level)
  {
  }

  /** One layer of RenderLevel: its tiles, then its entities. */
  method RenderLayer(ts: seq<Tile?>, es: seq<Entity?>, camera: FRect) returns (trace: seq<DrawCall>)
    requires TilesLive(ts) && NonNull(es)
    modifies TileObjects(ts)`destinationRect, EntityObjects(es)`destinationRect
    ensures trace == old(CulledTiles(ts, camera) + CulledEntities(es, camera))
    ensures forall t: Tile :: t in ts ==>
      t.destinationRect == OnScreen(old(t.destinationRect), t.levelX, t.levelY, camera)
    ensures forall e: Entity :: e in es ==>
      e.destinationRect == OnScreen(old(e.destinationRect), e.levelX, e.levelY, camera)
  {
    var tileTrace := RenderTiles(ts, camera);
    CulledEntitiesKept(es);
    var entityTrace := RenderEntities(es, camera);
    trace := tileTrace + entityTrace;
  }

  /** The older Renderer: window, renderer, camera, and its own texture and font maps. */
  class Renderer {
    var isInitalized: bool
    var windowCreated: bool
    var rendererCreated: bool
    var camera: FRect
    const textures: TextureManager
    const fonts: FontManager

    constructor ()
      ensures !isInitalized && !windowCreated && !rendererCreated
      ensures camera == FRect(0.0, 0.0, ScreenWidth as real, ScreenHeight as real)
      ensures fresh(textures) && fresh(fonts) && textures.textures == map[] && fonts.fonts == map[]
    {
      isInitalized, windowCreated, rendererCreated := false, false, false;
      camera := FRect(0.0, 0.0, ScreenWidth as real, ScreenHeight as real);
      textures := new TextureManager();
      fonts := new FontManager();
    }

    /**
     * Initalize: stops with false at the first of window, renderer and PNG
     * support that fails; only when all three succeed is isInitalized set.
     */
    method Initalize(windowOk: bool, rendererOk: bool, pngOk: bool) returns (ok: bool)
      modifies this
      ensures ok == (windowOk && rendererOk && pngOk)
      ensures isInitalized == (old(isInitalized) || ok)
      ensures windowCreated == windowOk
      ensures rendererCreated == if windowOk then rendererOk else old(rendererCreated)
      ensures camera == old(camera)
    {
      windowCreated := windowOk;
      if !windowCreated { return false; }
      rendererCreated := rendererOk;
      if !rendererCreated { return false; }
      if !pngOk { return false; }
      isInitalized := true;
      ok := true;
    }

    /** Renderer::LoadTexture: the texture map's load, failing while there is no renderer. */
    method LoadTexture(path: string, loaded: Option<Texture>) returns (ok: bool)
      modifies textures
      ensures ok == (rendererCreated && loaded.Some?)
      ensures ok ==> textures.textures == old(textures.textures)[path := loaded.value]
      ensures !ok ==> textures.textures == old(textures.textures)
    {
      ok := textures.LoadTexture(path, rendererCreated, loaded);
    }

    /** Renderer::LoadFont: the font map's load, failing while there is no renderer. */
    method LoadFont(name: string, path: string, size: int, font: Option<Font>) returns (ok: bool)
      modifies fonts
      ensures ok == (rendererCreated && font.Some?)
      ensures ok ==> fonts.fonts == old(fonts.fonts)[(name, size) := font.value]
      ensures !ok ==> fonts.fonts == old(fonts.fonts)
    {
      ok := fonts.LoadFont(name, path, size, rendererCreated, font);
    }

    /**
     * Renderer::RenderEntities: the filter comes first and there is no culling;
     * only the entities that pass have their drawn box moved, and all of them are drawn.
     */
    method RenderEntities(es: seq<Entity?>) returns (trace: seq<DrawCall>)
      requires NonNull(es)
      modifies EntityObjects(es)`destinationRect
      ensures trace == old(FilteredEntities(es))
      ensures forall e: Entity :: e in es ==>
        e.destinationRect == if Drawable(e.tagSet) then OnScreen(old(e.destinationRect), e.levelX, e.levelY, camera)
                             else old(e.destinationRect)
    {
      trace := [];
      var i := 0;
      while i < |es|
        invariant 0 <= i <= |es|
        invariant trace == old(FilteredEntities(es[..i]))
        invariant forall e: Entity :: e in es ==>
          e.destinationRect == if e in es[..i] && Drawable(e.tagSet) then OnScreen(old(e.destinationRect), e.levelX, e.levelY, camera)
                               else old(e.destinationRect)
      {
        assert es[..i + 1] == es[..i] + [es[i]];
        var entity := es[i];
        if entity.tagSet.HasTag(Renderable) || !entity.tagSet.HasTag(NotRendering) {
          entity.destinationRect := entity.destinationRect.(x := entity.levelX - camera.x, y := entity.levelY - camera.y);
          trace := trace + [DrawEntity(entity)];
        }
        i := i + 1;
      }
      assert es[..i] == es;
    }
  }
}
