/**
 * The level: sixteen layers of tiles and of entities plus a flat list of
 * collision rectangles, built from a Tiled level document.
 *
 * Every slot is an owning pointer, so a slot is `Tile?` / `Entity?`: it is null
 * only after FreeResources has released it.
 */
module Levels {
  import opened Common
  import opened Geometry
  import opened Json
  import opened Tags
  import opened Resources
  import opened Entities

  /** MAX_TILE_LAYERS: the number of tile layers and of entity layers. */
  const MaxTileLayers := 16

  /** The edge of a tile in pixels (every tileset and level uses 64x64 cells). */
  const TilePixels := 64

  // ---------------------------------------------------------------------------
  // Tiles and collision rectangles
  // ---------------------------------------------------------------------------

  /** A collision rectangle: its world position and the rectangle drawn for it. */
  datatype CollisionRect = CollisionRect(levelX: real, levelY: real, collisionRect: FRect)

  /** A placed tile: a Renderable and Taggable holding a copy of its TileData. */
  class Tile {
    const tagSet: Taggable
    var levelX: real
    var levelY: real
    var destinationRect: FRect
    var imageRect: IRect
    var data: TileData
    var texture: Option<Texture>
    /** Used for lighting; it has no initialiser in the source. */
    var colorModifier: Rgb

    /** Tile(): only adds the "Renderable" tag. */
    constructor Default()
      ensures fresh(tagSet) && tagSet.tags == [Renderable]
    {
      tagSet := new Taggable();
      new;
      tagSet.AddTag(Renderable);
    }

    /**
     * Tile(x, y, data): a 64x64 tile at world position (x, y) showing data.rect of
     * the texture named by data.texture; no tag is added. `indeterminate` is the
     * value colorModifier happens to hold, since nothing initialises it.
     */
    constructor (x: real, y: real, data: TileData, textures: TextureManager, indeterminate: Rgb)
      ensures fresh(tagSet) && tagSet.tags == []
      ensures destinationRect.w == TilePixels as real && destinationRect.h == TilePixels as real
      ensures levelX == x && levelY == y
      ensures imageRect == data.rect && this.data == data
      ensures texture == textures.GetTexture(data.texture)
      ensures colorModifier == indeterminate
    {
      tagSet := new Taggable();
      destinationRect := FRect(0.0, 0.0, TilePixels as real, TilePixels as real);
      levelX, levelY := x, y;
      imageRect := IRect(data.rect.x, data.rect.y, data.rect.w, data.rect.h);
      this.data := data;
      texture := textures.GetTexture(data.texture);
      colorModifier := indeterminate;
    }
  }

  // ---------------------------------------------------------------------------
  // Sequence helpers over entity lists
  // ---------------------------------------------------------------------------

  /** No slot of the list is null. */
  predicate NonNull(es: seq<Entity?>)
  {
    forall i :: 0 <= i < |es| ==> es[i] != null
  }

  /** The first entity in list order carrying tag t, if any (the early return of a search loop). */
  function FirstTagged(es: seq<Entity?>, t: string): (r: Option<Entity>)
    requires NonNull(es)
    reads set e | e in es && e != null :: e.tagSet
    ensures r.None? <==> forall i :: 0 <= i < |es| ==> !es[i].tagSet.HasTag(t)
    ensures r.Some? ==> exists i :: 0 <= i < |es| && es[i] == r.value && r.value.tagSet.HasTag(t) &&
                                   forall j :: 0 <= j < i ==> !es[j].tagSet.HasTag(t)
  {
    if |es| == 0 then None
    else
      var first: Entity := es[0];
      if first.tagSet.HasTag(t) then Some(first)
      else
      var r := FirstTagged(es[1..], t);
      assert forall i :: 1 <= i < |es| ==> es[i] == es[1..][i - 1];
      r
  }

  /** The entities of a list carrying tag t, in list order. */
  function Tagged(es: seq<Entity?>, t: string): (r: seq<Entity>)
    requires NonNull(es)
    reads set e | e in es && e != null :: e.tagSet
    ensures forall i :: 0 <= i < |r| ==> r[i] in es && r[i].tagSet.HasTag(t)
    ensures forall i :: 0 <= i < |es| && es[i].tagSet.HasTag(t) ==> es[i] in r
    ensures |r| <= |es|
  {
    if |es| == 0 then []
    else
      var init := es[..|es| - 1];
      var last: Entity := es[|es| - 1];
      assert es == init + [last];
      Tagged(init, t) + (if last.tagSet.HasTag(t) then [last] else [])
  }

  lemma TaggedSnoc(es: seq<Entity?>, e: Entity, t: string)
    requires NonNull(es)
    ensures NonNull(es + [e])
    ensures Tagged(es + [e], t) == Tagged(es, t) + (if e.tagSet.HasTag(t) then [e] else [])
  {
    assert (es + [e])[..|es|] == es;
  }

  lemma FirstTaggedSnoc(es: seq<Entity?>, e: Entity, t: string)
    requires NonNull(es) && FirstTagged(es, t).None?
    ensures NonNull(es + [e])
    ensures FirstTagged(es + [e], t) == if e.tagSet.HasTag(t) then Some(e) else None
  {
    var s := es + [e];
    if e.tagSet.HasTag(t) {
      var r := FirstTagged(s, t);
      assert s[|es|] == e;
      assert r.Some?;
      var i :| 0 <= i < |s| && s[i] == r.value && r.value.tagSet.HasTag(t) && forall j :: 0 <= j < i ==> !s[j].tagSet.HasTag(t);
      assert i == |es|;
    }
  }

  /** Layers without null slots flatten to a list without null slots. */
  lemma FlattenNonNull(ls: seq<seq<Entity?>>)
    requires forall k :: 0 <= k < |ls| ==> NonNull(ls[k])
    ensures NonNull(Flatten(ls))
  {
    if |ls| > 0 {
      FlattenNonNull(ls[..|ls| - 1]);
    }
  }

  /** The list of lists whose every slot is v, in the shape of ss (unique_ptr::release on every slot). */
  function Cleared<T>(ss: seq<seq<T>>, v: T): (r: seq<seq<T>>)
    ensures |r| == |ss|
    ensures forall k :: 0 <= k < |ss| ==> |r[k]| == |ss[k]| && forall j :: 0 <= j < |r[k]| ==> r[k][j] == v
  {
    seq(|ss|, k requires 0 <= k < |ss| => seq(|ss[k]|, j => v))
  }

  /** Releasing twice is the same as releasing once. */
  lemma ClearedIdempotent<T>(ss: seq<seq<T>>, v: T)
    ensures Cleared(Cleared(ss, v), v) == Cleared(ss, v)
  {
    var a, b := Cleared(Cleared(ss, v), v), Cleared(ss, v);
    assert |a| == |b|;
    forall k | 0 <= k < |a|
      ensures a[k] == b[k]
    {
      assert |a[k]| == |b[k]|;
    }
  }

  // ---------------------------------------------------------------------------
  // CleanupSourceImage
  // ---------------------------------------------------------------------------

  /** ".." occurs in s at position i. */
  predicate DoubleDotAt(s: string, i: int)
  {
    0 <= i && i + 1 < |s| && s[i] == '.' && s[i + 1] == '.'
  }

  /** std::string::find(".."): the first position of "..", or None (npos). */
  function FindDoubleDot(s: string): (r: Option<nat>)
    ensures r.None? <==> forall i :: 0 <= i < |s| ==> !DoubleDotAt(s, i)
    ensures r.Some? ==> DoubleDotAt(s, r.value) && forall i :: 0 <= i < r.value ==> !DoubleDotAt(s, i)
  {
    if |s| < 2 then None
    else if s[0] == '.' && s[1] == '.' then assert DoubleDotAt(s, 0); Some(0)
    else
      var r := FindDoubleDot(s[1..]);
      assert forall i :: 1 <= i < |s| ==> (DoubleDotAt(s, i) <==> DoubleDotAt(s[1..], i - 1));
      if r.None? then None else assert DoubleDotAt(s, r.value + 1); Some(r.value + 1)
  }

  /**
   * A reference reading of the cleanup: scan left to right, dropping each ".."
   * met and keeping every other character.
   */
  function Collapse(s: string): (r: string)
    ensures |r| <= |s|
  {
    if |s| < 2 then s
    else if s[0] == '.' && s[1] == '.' then Collapse(s[2..])
    else [s[0]] + Collapse(s[1..])
  }

  /** The characters of s other than '.', in order. */
  function NonDots(s: string): string
  {
    if |s| == 0 then [] else (if s[0] == '.' then [] else [s[0]]) + NonDots(s[1..])
  }

  /** A prefix with no ".." that does not end in '.' is kept verbatim by Collapse. */
  lemma {:induction false} CollapseKeepsPrefix(p: string, q: string)
    requires forall i :: 0 <= i < |p| ==> !DoubleDotAt(p, i)
    requires |p| > 0 ==> p[|p| - 1] != '.'
    ensures Collapse(p + q) == p + Collapse(q)
  {
    if |p| > 0 {
      var rest := p[1..];
      forall i | 0 <= i < |rest|
        ensures !DoubleDotAt(rest, i)
      {
        assert !DoubleDotAt(p, i + 1);
      }
      CollapseKeepsPrefix(rest, q);
      if |p| > 1 {
        assert !DoubleDotAt(p, 0);
      }
      assert p + q == [p[0]] + (rest + q);
      CollapseCons(p[0], rest + q);
      assert [p[0]] + rest == p;
      calc {
        Collapse(p + q);
        [p[0]] + Collapse(rest + q);
        [p[0]] + (rest + Collapse(q));
        ([p[0]] + rest) + Collapse(q);
      }
    } else {
      assert p + q == q;
    }
  }

  /** A character that does not start a ".." is kept by Collapse. */
  lemma CollapseCons(c: char, t: string)
    requires !(c == '.' && |t| > 0 && t[0] == '.')
    ensures Collapse([c] + t) == [c] + Collapse(t)
  {
    assert ([c] + t)[1..] == t;
  }

  /** Erasing the first ".." does not change what Collapse yields. */
  lemma EraseFirstDoubleDot(s: string, i: nat)
    requires FindDoubleDot(s) == Some(i)
    ensures Collapse(s[..i] + s[i + 2..]) == Collapse(s)
  {
    var p, q := s[..i], s[i + 2..];
    forall j | 0 <= j < |p|
      ensures !DoubleDotAt(p, j)
    {
      assert !DoubleDotAt(s, j);
    }
    if i > 0 {
      assert !DoubleDotAt(s, i - 1);
    }
    assert s == p + (".." + q);
    CollapseKeepsPrefix(p, ".." + q);
    CollapseKeepsPrefix(p, q);
    assert (".." + q)[2..] == q;
  }

  /** Collapse leaves a string without ".." untouched. */
  lemma {:induction false} CollapseNoDoubleDot(s: string)
    requires forall i :: 0 <= i < |s| ==> !DoubleDotAt(s, i)
    ensures Collapse(s) == s
  {
    if |s| >= 2 {
      assert !DoubleDotAt(s, 0);
      forall i | 0 <= i < |s[1..]|
        ensures !DoubleDotAt(s[1..], i)
      {
        assert !DoubleDotAt(s, i + 1);
      }
      CollapseNoDoubleDot(s[1..]);
      assert [s[0]] + s[1..] == s;
    }
  }

  /** Collapse never leaves a ".." behind. */
  lemma {:induction false} CollapseHasNoDoubleDot(s: string)
    ensures forall i :: 0 <= i < |Collapse(s)| ==> !DoubleDotAt(Collapse(s), i)
    decreases |s|
  {
    if |s| >= 2 {
      if s[0] == '.' && s[1] == '.' {
        CollapseHasNoDoubleDot(s[2..]);
      } else {
        var t := s[1..];
        CollapseHasNoDoubleDot(t);
        var r := Collapse(s);
        assert r == [s[0]] + Collapse(t);
        if s[0] == '.' {
          assert t[0] != '.';
          assert Collapse(t)[0] == t[0];
        }
        forall i | 0 <= i < |r|
          ensures !DoubleDotAt(r, i)
        {
          if i > 0 {
            assert !DoubleDotAt(Collapse(t), i - 1);
          }
        }
      }
    }
  }

  /** Only dots are removed: the other characters survive in their order. */
  lemma {:induction false} CollapseKeepsNonDots(s: string)
    ensures NonDots(Collapse(s)) == NonDots(s)
    decreases |s|
  {
    if |s| >= 2 {
      if s[0] == '.' && s[1] == '.' {
        CollapseKeepsNonDots(s[2..]);
        assert s[1..][1..] == s[2..];
      } else {
        CollapseKeepsNonDots(s[1..]);
        assert ([s[0]] + Collapse(s[1..]))[1..] == Collapse(s[1..]);
      }
    }
  }

  /** What CleanupSourceImage returns starts with "assets" and contains no "..". */
  lemma CleanupSourceImageShape(source: string)
    ensures forall i :: 0 <= i < |Collapse(source)| ==> !DoubleDotAt(Collapse(source), i)
    ensures NonDots(Collapse(source)) == NonDots(source)
  {
    CollapseHasNoDoubleDot(source);
    CollapseKeepsNonDots(source);
  }

  // ---------------------------------------------------------------------------
  // The Tiled level document
  // ---------------------------------------------------------------------------

  /**
   * The fields of a map object that the level reads, as JSON leaves (a missing
   * key reads as JNull); `properties` is None when the key is absent.
   */
  datatype TiledObject = TiledObject(objectType: JValue, name: JValue, x: JValue, y: JValue,
                                     width: JValue, height: JValue, properties: Option<seq<Property>>)

  /** A map layer; `data` and `objects` are None when missing or not arrays. */
  datatype TiledLayer = TiledLayer(layerType: JValue, width: JValue, height: JValue, x: JValue, y: JValue,
                                   data: Option<seq<JValue>>, objects: Option<seq<TiledObject>>)

  /** An entry of the document's tileset list. */
  datatype TilesetRef = TilesetRef(source: JValue)

  /** A level document: background colour, tileset list and layers (None when missing or not arrays). */
  datatype LevelDocument = LevelDocument(backgroundColor: JValue, tilesets: Option<seq<TilesetRef>>,
                                         layers: Option<seq<TiledLayer>>)

  // ---------------------------------------------------------------------------
  // Loops that stop at the first exception
  // ---------------------------------------------------------------------------

  /** What one element of a creation loop does: nothing (`continue`), throw, or push a value. */
  datatype Step<T> = Skip | Abort | Emit(value: T)

  /** What a creation loop has pushed so far, and whether it is still running (no exception yet). */
  datatype Outcome<T> = Outcome(items: seq<T>, ok: bool)

  /** One more element: after an exception nothing happens any more. */
  function Next<T>(o: Outcome<T>, step: Step<T>): Outcome<T>
  {
    if !o.ok then o
    else match step
      case Skip => o
      case Abort => Outcome(o.items, false)
      case Emit(v) => Outcome(o.items + [v], true)
  }

  /** Running a loop over steps from the outcome o. */
  function Run<T>(o: Outcome<T>, steps: seq<Step<T>>): Outcome<T>
  {
    if |steps| == 0 then o else Next(Run(o, steps[..|steps| - 1]), steps[|steps| - 1])
  }

  /** What a creation loop over steps leaves from a clean start. */
  function Emitted<T>(steps: seq<Step<T>>): Outcome<T>
  {
    Run(Outcome([], true), steps)
  }

  lemma RunSnoc<T>(o: Outcome<T>, steps: seq<Step<T>>, i: nat)
    requires i < |steps|
    ensures Run(o, steps[..i + 1]) == Next(Run(o, steps[..i]), steps[i])
  {
    assert steps[..i + 1][..i] == steps[..i];
  }

  /** Running over a + b is running over a, then over b. */
  lemma {:induction false} RunAppend<T>(o: Outcome<T>, a: seq<Step<T>>, b: seq<Step<T>>)
    ensures Run(o, a + b) == Run(Run(o, a), b)
    decreases |b|
  {
    if |b| == 0 {
      assert a + b == a;
    } else {
      assert (a + b)[..|a + b| - 1] == a + b[..|b| - 1];
      RunAppend(o, a, b[..|b| - 1]);
    }
  }

  /** After an exception the rest of the loop never runs. */
  lemma {:induction false} RunStuck<T>(o: Outcome<T>, steps: seq<Step<T>>)
    requires !o.ok
    ensures Run(o, steps) == o
    decreases |steps|
  {
    if |steps| > 0 {
      RunStuck(o, steps[..|steps| - 1]);
    }
  }

  /** The pushed values of steps, ignoring exceptions (an independent reading of the loop). */
  function Values<T>(steps: seq<Step<T>>): seq<T>
  {
    if |steps| == 0 then []
    else Values(steps[..|steps| - 1]) + (if steps[|steps| - 1].Emit? then [steps[|steps| - 1].value] else [])
  }

  /** A loop with no exception pushes every value, in order, and reports success. */
  lemma {:induction false} EmittedWithoutAbort<T>(steps: seq<Step<T>>)
    requires forall i :: 0 <= i < |steps| ==> !steps[i].Abort?
    ensures Emitted(steps) == Outcome(Values(steps), true)
    decreases |steps|
  {
    if |steps| > 0 {
      EmittedWithoutAbort(steps[..|steps| - 1]);
    }
  }

  /** A loop whose first exception is at i keeps exactly the values pushed before i and reports failure. */
  lemma EmittedUpToAbort<T>(steps: seq<Step<T>>, i: nat)
    requires i < |steps| && steps[i].Abort?
    requires forall j :: 0 <= j < i ==> !steps[j].Abort?
    ensures Emitted(steps) == Outcome(Values(steps[..i]), false)
  {
    var pre := steps[..i];
    EmittedWithoutAbort(pre);
    RunSnoc(Outcome([], true), steps, i);
    assert steps == steps[..i + 1] + steps[i + 1..];
    RunAppend(Outcome([], true), steps[..i + 1], steps[i + 1..]);
    RunStuck(Run(Outcome([], true), steps[..i + 1]), steps[i + 1..]);
  }

  // ---------------------------------------------------------------------------
  // Decoding objects into entities (CreateEntities)
  // ---------------------------------------------------------------------------

  /** What CreateEntities builds for one object: its kind, the copied strings and box, and its properties. */
  datatype EntitySpec = EntitySpec(kind: EntityKind, classname: string, targetname: string,
                                   x: real, y: real, w: real, h: real, properties: seq<Property>)

  /** The object types CreateEntities recognises (a landmark is a plain Entity). */
  function KindOf(t: string): (k: Option<EntityKind>)
    ensures k.Some? <==> t in {"character", "npc", "door", "landmark", "light"}
  {
    if t == "character" then Some(CharacterEntity)
    else if t == "npc" then Some(NpcEntity)
    else if t == "door" then Some(DoorEntity)
    else if t == "landmark" then Some(PlainEntity)
    else if t == "light" then Some(LightEntity)
    else None
  }

  /** The properties an entity ends up with: the object's list, or the empty default when absent. */
  function ObjectProperties(o: TiledObject): seq<Property>
  {
    if o.properties.Some? then o.properties.value else []
  }

  /**
   * The fields read after the entity is constructed (name, x, y, width, height)
   * and the Light creation loop; None when one of them throws.
   */
  function DecodeEntityFields(o: TiledObject, kind: EntityKind, t: string): Option<EntitySpec>
  {
    var name, x, y, w, h := AsString(o.name), AsReal(o.x), AsReal(o.y), AsReal(o.width), AsReal(o.height);
    var props := ObjectProperties(o);
    if name.None? || x.None? || y.None? || w.None? || h.None? then None
    else if kind == LightEntity && !KindPropertiesTyped(LightEntity, props) then None
    else Some(EntitySpec(kind, t, name.value, x.value, y.value, w.value, h.value, props))
  }

  /** One object of an object layer; `haveCharacter` is whether GetCharacter finds a Character. */
  function DecodeObject(o: TiledObject, haveCharacter: bool): Step<EntitySpec>
  {
    match AsString(o.objectType)
    case None => Abort
    case Some(t) =>
      if t == "character" && haveCharacter then Skip
      else match KindOf(t)
        case None => Skip
        case Some(kind) =>
          match DecodeEntityFields(o, kind, t)
          case None => Abort
          case Some(spec) => Emit(spec)
  }

  function ObjectSteps(objs: seq<TiledObject>, haveCharacter: bool): (r: seq<Step<EntitySpec>>)
    ensures |r| == |objs| && forall i :: 0 <= i < |objs| ==> r[i] == DecodeObject(objs[i], haveCharacter)
  {
    seq(|objs|, i requires 0 <= i < |objs| => DecodeObject(objs[i], haveCharacter))
  }

  /** The progress of CreateEntities: what each entity layer has gained, object layers seen, no exception yet. */
  datatype EntityPlan = EntityPlan(added: seq<seq<EntitySpec>>, count: nat, ok: bool)

  /** One layer of CreateEntities: only "objectgroup" layers count, and the k-th feeds entity layer k. */
  function EntityLayerStep(p: EntityPlan, layer: TiledLayer, haveCharacter: bool): (r: EntityPlan)
    requires |p.added| == MaxTileLayers
    ensures |r.added| == MaxTileLayers
  {
    if !p.ok then p
    else match AsString(layer.layerType)
      case None => p.(ok := false)
      case Some(t) =>
        if t != "objectgroup" then p
        else match layer.objects
          case None => p.(ok := false)
          case Some(objs) =>
            var o := Emitted(ObjectSteps(objs, haveCharacter));
            var added := if p.count < MaxTileLayers then p.added[p.count := p.added[p.count] + o.items] else p.added;
            EntityPlan(added, p.count + 1, o.ok)
  }

  /** The whole of CreateEntities over a layer list. */
  function PlanEntities(layers: seq<TiledLayer>, haveCharacter: bool): (p: EntityPlan)
    ensures |p.added| == MaxTileLayers
  {
    if |layers| == 0 then EntityPlan(seq(MaxTileLayers, k => []), 0, true)
    else EntityLayerStep(PlanEntities(layers[..|layers| - 1], haveCharacter), layers[|layers| - 1], haveCharacter)
  }

  lemma PlanEntitiesSnoc(layers: seq<TiledLayer>, haveCharacter: bool, i: nat)
    requires i < |layers|
    ensures PlanEntities(layers[..i + 1], haveCharacter) == EntityLayerStep(PlanEntities(layers[..i], haveCharacter), layers[i], haveCharacter)
  {
    assert layers[..i + 1][..i] == layers[..i];
  }

  /** Once CreateEntities has thrown, the later layers change nothing. */
  lemma {:induction false} PlanEntitiesStuck(layers: seq<TiledLayer>, haveCharacter: bool, i: nat)
    requires i <= |layers| && !PlanEntities(layers[..i], haveCharacter).ok
    ensures PlanEntities(layers, haveCharacter) == PlanEntities(layers[..i], haveCharacter)
    decreases |layers| - i
  {
    if i < |layers| {
      PlanEntitiesSnoc(layers, haveCharacter, i);
      PlanEntitiesStuck(layers, haveCharacter, i + 1);
    } else {
      assert layers[..i] == layers;
    }
  }

  /** The object layers CreateEntities reaches never number more than the sixteen entity layers. */
  predicate EntitiesFit(doc: LevelDocument, haveCharacter: bool)
  {
    doc.layers.Some? ==> PlanEntities(doc.layers.value, haveCharacter).count <= MaxTileLayers
  }

  /** The tags each kind's constructor leaves. */
  function KindTags(kind: EntityKind): seq<string>
  {
    match kind
    case CharacterEntity => [EntityTag, Renderable, Collision]
    case NpcEntity => [EntityTag, Renderable, Collision]
    case DoorEntity => [EntityTag]
    case PlainEntity => [EntityTag]
    case LightEntity => [EntityTag, LightTag]
  }

  /** No constructor tags an entity "Character", so GetCharacter never finds a built one. */
  lemma NoKindIsTaggedCharacter(kind: EntityKind)
    ensures CharacterTag !in KindTags(kind)
  {
  }

  /** The fields Light::OnEntityCreated sets: each present property's last value; absent ones stay unset. */
  predicate LightFrom(e: Entity, props: seq<Property>)
    requires KindPropertiesTyped(LightEntity, props)
    reads e
  {
    (LastValue(props, "color_r").Some? ==> e.colorModifier.r == ToByte(AsInt(LastValue(props, "color_r").value).value)) &&
    (LastValue(props, "color_g").Some? ==> e.colorModifier.g == ToByte(AsInt(LastValue(props, "color_g").value).value)) &&
    (LastValue(props, "color_b").Some? ==> e.colorModifier.b == ToByte(AsInt(LastValue(props, "color_b").value).value)) &&
    (LastValue(props, "intensity").Some? ==> e.intensity == AsInt(LastValue(props, "intensity").value).value)
  }

  /** An entity as CreateEntities leaves it for a spec. */
  predicate Built(e: Entity, s: EntitySpec)
    reads e, e.tagSet
  {
    e.kind == s.kind && e.classname == s.classname && e.targetname == s.targetname &&
    e.levelX == s.x && e.levelY == s.y && e.destinationRect.w == s.w && e.destinationRect.h == s.h &&
    e.tiledProperties == s.properties && e.tagSet.tags == KindTags(s.kind) &&
    (s.kind == CharacterEntity ==> e.destinationRect.x == 300.0 && e.destinationRect.y == 200.0) &&
    (s.kind == LightEntity && KindPropertiesTyped(LightEntity, s.properties) ==> LightFrom(e, s.properties))
  }

  /** An entity layer grew by one built entity per spec, after its old contents. */
  predicate Grown(before: seq<Entity?>, after: seq<Entity?>, specs: seq<EntitySpec>)
    reads set e | e in after && e != null, set e | e in after && e != null :: e.tagSet
  {
    |after| == |before| + |specs| && after[..|before|] == before &&
    forall i :: |before| <= i < |after| ==> after[i] != null && Built(after[i], specs[i - |before|])
  }

  // ---------------------------------------------------------------------------
  // More about the creation loops
  // ---------------------------------------------------------------------------

  /** A loop only ever appends to what was pushed before. */
  lemma {:induction false} RunExtends<T>(o: Outcome<T>, steps: seq<Step<T>>)
    ensures o.items <= Run(o, steps).items
    decreases |steps|
  {
    if |steps| > 0 {
      RunExtends(o, steps[..|steps| - 1]);
    }
  }

  /** What a prefix of the loop pushes is a prefix of what the whole loop pushes. */
  lemma EmittedPrefix<T>(steps: seq<Step<T>>, i: nat)
    requires i <= |steps|
    ensures Emitted(steps[..i]).items <= Emitted(steps).items
  {
    assert steps == steps[..i] + steps[i..];
    RunAppend(Outcome([], true), steps[..i], steps[i..]);
    RunExtends(Emitted(steps[..i]), steps[i..]);
  }

  /** An exception at step i, reached while running, ends the loop with what was pushed before i. */
  lemma RunAbortEnds<T>(o: Outcome<T>, steps: seq<Step<T>>, i: nat)
    requires i < |steps| && steps[i].Abort? && Run(o, steps[..i]).ok
    ensures Run(o, steps) == Outcome(Run(o, steps[..i]).items, false)
  {
    RunSnoc(o, steps, i);
    assert steps == steps[..i + 1] + steps[i + 1..];
    RunAppend(o, steps[..i + 1], steps[i + 1..]);
    RunStuck(Run(o, steps[..i + 1]), steps[i + 1..]);
  }

  lemma AbortEnds<T>(steps: seq<Step<T>>, i: nat)
    requires i < |steps| && steps[i].Abort? && Emitted(steps[..i]).ok
    ensures Emitted(steps) == Outcome(Emitted(steps[..i]).items, false)
  {
    RunAbortEnds(Outcome([], true), steps, i);
  }

  // ---------------------------------------------------------------------------
  // Tile layers (CreateTiles)
  // ---------------------------------------------------------------------------

  /** A decoded tile layer: its size in cells, its pixel offset and its tile ids in reading order. */
  datatype TileGrid = TileGrid(width: int, height: int, x: int, y: int, ids: seq<int>)

  /** The cells the nested y/x loops visit: none when either size is not positive. */
  function Columns(g: TileGrid): nat { if g.width > 0 then g.width else 0 }
  function Rows(g: TileGrid): nat { if g.height > 0 then g.height else 0 }
  function Cells(g: TileGrid): nat { Rows(g) * Columns(g) }

  /** One layer of CreateTiles: only "tilelayer" layers count; any read that throws ends the loop. */
  function DecodeTileLayer(layer: TiledLayer): Step<TileGrid>
  {
    match AsString(layer.layerType)
    case None => Abort
    case Some(t) =>
      if t != "tilelayer" then Skip
      else
        var h, w, x, y := AsInt(layer.height), AsInt(layer.width), AsInt(layer.x), AsInt(layer.y);
        var ids := if layer.data.Some? then AsIntArray(layer.data.value) else None;
        if h.None? || w.None? || x.None? || y.None? || ids.None? then Abort
        else Emit(TileGrid(w.value, h.value, x.value, y.value, ids.value))
  }

  function TileLayerSteps(layers: seq<TiledLayer>): (r: seq<Step<TileGrid>>)
    ensures |r| == |layers| && forall i :: 0 <= i < |layers| ==> r[i] == DecodeTileLayer(layers[i])
  {
    seq(|layers|, i requires 0 <= i < |layers| => DecodeTileLayer(layers[i]))
  }

  /** The world position of cell j: 64 pixels per column and per row from the layer offset. */
  function CellX(g: TileGrid, j: nat): real
    requires Columns(g) > 0
  {
    (g.x + TilePixels * (j % Columns(g))) as real
  }

  function CellY(g: TileGrid, j: nat): real
    requires Columns(g) > 0
  {
    (g.y + TilePixels * (j / Columns(g))) as real
  }

  /** Cell y * W + x of the loops is at (x + 64 * column, y + 64 * row). */
  lemma CellPosition(g: TileGrid, col: nat, row: nat)
    requires col < Columns(g)
    ensures CellX(g, row * Columns(g) + col) == (g.x + TilePixels * col) as real
    ensures CellY(g, row * Columns(g) + col) == (g.y + TilePixels * row) as real
  {
    RowColumn(Columns(g), col, row);
  }

  /** Distinct cells of a layer are at distinct positions. */
  lemma CellsDistinct(g: TileGrid, i: nat, j: nat)
    requires Columns(g) > 0 && i != j
    ensures CellX(g, i) != CellX(g, j) || CellY(g, i) != CellY(g, j)
  {
    var c := Columns(g);
    assert i == c * (i / c) + i % c && j == c * (j / c) + j % c;
  }

  /** The collision rectangles of a tile at (px, py): one per sub-rectangle of its data, offset from the tile's corner. */
  function TileCollisions(px: real, py: real, d: TileData): (r: seq<CollisionRect>)
    ensures |r| == |d.collisionRects|
    ensures forall i :: 0 <= i < |r| ==> r[i] == CollisionRect(px + d.collisionRects[i].x, py + d.collisionRects[i].y, d.collisionRects[i])
  {
    seq(|d.collisionRects|, i requires 0 <= i < |d.collisionRects| =>
      CollisionRect(px + d.collisionRects[i].x, py + d.collisionRects[i].y, d.collisionRects[i]))
  }

  /** The tile data of cell j. */
  function CellData(g: TileGrid, ts: Tileset, j: nat): TileData
    requires j < |g.ids|
  {
    GetTile(ts, g.ids[j])
  }

  /** The collision rectangles of the first n cells of a layer, in cell order. */
  function CellCollisions(g: TileGrid, ts: Tileset, n: nat): seq<CollisionRect>
    requires n <= Cells(g) <= |g.ids|
  {
    if n == 0 then []
    else CellCollisions(g, ts, n - 1) + TileCollisions(CellX(g, n - 1), CellY(g, n - 1), CellData(g, ts, n - 1))
  }

  /** Every grid has an id for each of its cells. */
  predicate GridsFilled(grids: seq<TileGrid>)
  {
    forall k :: 0 <= k < |grids| ==> Cells(grids[k]) <= |grids[k].ids|
  }

  /** The collision rectangles CreateTiles adds for the given layers, layer by layer. */
  function GridCollisions(grids: seq<TileGrid>, ts: Tileset): seq<CollisionRect>
    requires GridsFilled(grids)
  {
    if |grids| == 0 then []
    else
      var g := grids[|grids| - 1];
      GridCollisions(grids[..|grids| - 1], ts) + CellCollisions(g, ts, Cells(g))
  }

  // ---------------------------------------------------------------------------
  // Lighting
  // ---------------------------------------------------------------------------

  /** What the lighting reads of a Light: its position, colour and intensity. */
  datatype LightSource = LightSource(x: real, y: real, color: Rgb, intensity: int)

  function Sources(lights: seq<Entity>): (r: seq<LightSource>)
    reads lights
    ensures |r| == |lights|
    ensures forall i :: 0 <= i < |lights| ==>
      r[i] == LightSource(lights[i].levelX, lights[i].levelY, lights[i].colorModifier, lights[i].intensity)
  {
    seq(|lights|, i reads lights requires 0 <= i < |lights| =>
      LightSource(lights[i].levelX, lights[i].levelY, lights[i].colorModifier, lights[i].intensity))
  }

  /**
   * CalculateLightingFromEntityToTile reads only floor(tile - light) on each
   * axis, the light's colour and its intensity; `lighting` is that function.
   */
  type Lighting = (int, int, Rgb, int) -> Rgb

  /** The colour a light adds to a tile at (tx, ty). */
  function Contribution(s: LightSource, tx: real, ty: real, lighting: Lighting): Rgb
  {
    lighting((tx - s.x).Floor, (ty - s.y).Floor, s.color, s.intensity)
  }

  function Contributions(srcs: seq<LightSource>, tx: real, ty: real, lighting: Lighting): (r: seq<Rgb>)
    ensures |r| == |srcs| && forall i :: 0 <= i < |srcs| ==> r[i] == Contribution(srcs[i], tx, ty, lighting)
  {
    seq(|srcs|, i requires 0 <= i < |srcs| => Contribution(srcs[i], tx, ty, lighting))
  }

  /** std::min(x, 255) stored back into a colour channel. */
  function Min255(x: nat): (b: Byte)
    ensures b <= x && (b == x || b == 255)
  {
    if x < 255 then x else 255
  }

  /** One light added to a tile's colour, each channel clamped at 255. */
  function Brighten(c: Rgb, d: Rgb): (r: Rgb)
    ensures r.r >= c.r && r.g >= c.g && r.b >= c.b
  {
    Rgb(Min255(c.r + d.r), Min255(c.g + d.g), Min255(c.b + d.b))
  }

  /** The colour after every light has been added, in order. */
  function Lit(c: Rgb, ds: seq<Rgb>): Rgb
  {
    if |ds| == 0 then c else Brighten(Lit(c, ds[..|ds| - 1]), ds[|ds| - 1])
  }

  /** The sum of one channel over a list of colours. */
  function RedSum(ds: seq<Rgb>): nat { if |ds| == 0 then 0 else RedSum(ds[..|ds| - 1]) + ds[|ds| - 1].r }
  function GreenSum(ds: seq<Rgb>): nat { if |ds| == 0 then 0 else GreenSum(ds[..|ds| - 1]) + ds[|ds| - 1].g }
  function BlueSum(ds: seq<Rgb>): nat { if |ds| == 0 then 0 else BlueSum(ds[..|ds| - 1]) + ds[|ds| - 1].b }

  /**
   * Clamping after every light is the same as clamping once: each channel ends
   * as min(start + sum of the contributions, 255), so it never exceeds 255 and
   * never falls below its start.
   */
  lemma {:induction false} LitIsClampedSum(c: Rgb, ds: seq<Rgb>)
    ensures Lit(c, ds) == Rgb(Min255(c.r + RedSum(ds)), Min255(c.g + GreenSum(ds)), Min255(c.b + BlueSum(ds)))
    decreases |ds|
  {
    if |ds| > 0 {
      LitIsClampedSum(c, ds[..|ds| - 1]);
    }
  }

  /** Two lights give a tile the same colour whichever is added first. */
  lemma LitOrderIrrelevant(c: Rgb, a: Rgb, b: Rgb)
    ensures Lit(c, [a, b]) == Lit(c, [b, a])
  {
    LitIsClampedSum(c, [a, b]);
    LitIsClampedSum(c, [b, a]);
    assert [a, b][..1] == [a] && [b, a][..1] == [b];
  }

  /** A tile as CreateTiles leaves it at (px, py) with data d, lit by srcs from the unset colour. */
  predicate TileAt(t: Tile, px: real, py: real, d: TileData, textures: TextureManager,
                   srcs: seq<LightSource>, lighting: Lighting, indeterminate: Rgb)
    reads t, t.tagSet, textures
  {
    t.tagSet.tags == [] && t.levelX == px && t.levelY == py &&
    t.destinationRect.w == TilePixels as real && t.destinationRect.h == TilePixels as real &&
    t.imageRect == d.rect && t.data == d && t.texture == textures.GetTexture(d.texture) &&
    t.colorModifier == Lit(indeterminate, Contributions(srcs, px, py, lighting))
  }

  /** A tile layer grew by one tile for each of the first n cells of g, after its old contents. */
  predicate TilesPlaced(before: seq<Tile?>, after: seq<Tile?>, g: TileGrid, n: nat, ts: Tileset, textures: TextureManager,
                        srcs: seq<LightSource>, lighting: Lighting, indeterminate: Rgb)
    requires n <= Cells(g) <= |g.ids|
    reads set t | t in after && t != null, set t | t in after && t != null :: t.tagSet, textures
  {
    |after| == |before| + n && after[..|before|] == before &&
    forall i :: |before| <= i < |after| ==>
      after[i] != null &&
      TileAt(after[i], CellX(g, i - |before|), CellY(g, i - |before|), CellData(g, ts, i - |before|), textures, srcs, lighting, indeterminate)
  }

  /** A tile layer grew by one tile per cell of g after its old contents. */
  predicate TilesGrown(before: seq<Tile?>, after: seq<Tile?>, g: TileGrid, ts: Tileset, textures: TextureManager,
                       srcs: seq<LightSource>, lighting: Lighting, indeterminate: Rgb)
    requires Cells(g) <= |g.ids|
    reads set t | t in after && t != null, set t | t in after && t != null :: t.tagSet, textures
  {
    TilesPlaced(before, after, g, Cells(g), ts, textures, srcs, lighting, indeterminate)
  }

  /** The k-th tile grid went to tile layer k; layers past the last grid are untouched. */
  predicate TileLayersGrown(before: seq<seq<Tile?>>, after: seq<seq<Tile?>>, grids: seq<TileGrid>, ts: Tileset,
                            textures: TextureManager, srcs: seq<LightSource>, lighting: Lighting, indeterminate: Rgb)
    requires GridsFilled(grids)
    reads set k, t | 0 <= k < |after| && t in after[k] && t != null :: t,
          set k, t | 0 <= k < |after| && t in after[k] && t != null :: t.tagSet, textures
  {
    |after| == |before| &&
    forall k :: 0 <= k < |before| ==>
      if k < |grids| then TilesGrown(before[k], after[k], grids[k], ts, textures, srcs, lighting, indeterminate)
      else after[k] == before[k]
  }

  /** What CreateTiles reads before any layer: the background colour string, then tilesets[0].source. */
  predicate TilesetsListed(doc: LevelDocument)
  {
    AsString(doc.backgroundColor).Some? && doc.tilesets.Some? ==> |doc.tilesets.value| > 0
  }

  /** The cleaned path of the level's tileset, or None when one of the first reads throws. */
  function TilesetPath(doc: LevelDocument): (r: Option<string>)
    requires TilesetsListed(doc)
    ensures r.Some? ==> |r.value| >= 6 && r.value[..6] == "assets"
  {
    if AsString(doc.backgroundColor).None? || doc.tilesets.None? then None
    else match AsString(doc.tilesets.value[0].source)
      case None => None
      case Some(src) => Some("assets" + Collapse(src))
  }

  /** The tile grids CreateTiles reaches and whether it finishes without an exception. */
  function TilePlan(doc: LevelDocument): Outcome<TileGrid>
    requires TilesetsListed(doc)
  {
    if TilesetPath(doc).None? || doc.layers.None? then Outcome([], false)
    else Emitted(TileLayerSteps(doc.layers.value))
  }

  /** At most sixteen tile grids are reached, and each has an id for every cell. */
  predicate TilesFit(doc: LevelDocument)
    requires TilesetsListed(doc)
  {
    var o := TilePlan(doc);
    |o.items| <= MaxTileLayers && GridsFilled(o.items)
  }

  // ---------------------------------------------------------------------------
  // Collision objects (CreateCollision)
  // ---------------------------------------------------------------------------

  /**
   * One object of an object layer: only "collision_rect" objects count. The
   * rectangle's own x and y are not set by the source; the model writes 0.
   */
  function DecodeCollisionObject(o: TiledObject): Step<CollisionRect>
  {
    match AsString(o.objectType)
    case None => Abort
    case Some(t) =>
      if t != "collision_rect" then Skip
      else
        var x, y, w, h := AsReal(o.x), AsReal(o.y), AsReal(o.width), AsReal(o.height);
        if x.None? || y.None? || w.None? || h.None? then Abort
        else Emit(CollisionRect(x.value, y.value, FRect(0.0, 0.0, w.value, h.value)))
  }

  function CollisionObjectSteps(objs: seq<TiledObject>): (r: seq<Step<CollisionRect>>)
    ensures |r| == |objs| && forall i :: 0 <= i < |objs| ==> r[i] == DecodeCollisionObject(objs[i])
  {
    seq(|objs|, i requires 0 <= i < |objs| => DecodeCollisionObject(objs[i]))
  }

  /** The steps one layer contributes: none for a layer of another type, a throw for an unreadable one. */
  function CollisionLayerSteps(layer: TiledLayer): seq<Step<CollisionRect>>
  {
    match AsString(layer.layerType)
    case None => [Abort]
    case Some(t) =>
      if t != "objectgroup" then []
      else match layer.objects
        case None => [Abort]
        case Some(objs) => CollisionObjectSteps(objs)
  }

  /** All steps of CreateCollision, layer after layer. */
  function CollisionSteps(layers: seq<TiledLayer>): seq<Step<CollisionRect>>
  {
    if |layers| == 0 then [] else CollisionSteps(layers[..|layers| - 1]) + CollisionLayerSteps(layers[|layers| - 1])
  }

  /** The rectangles CreateCollision adds and whether it finishes without an exception. */
  function CollisionPlan(doc: LevelDocument): Outcome<CollisionRect>
  {
    if doc.layers.None? then Outcome([], false) else Emitted(CollisionSteps(doc.layers.value))
  }

  /** o is a "collision_rect" object with c's position and size. */
  predicate CollisionObjectFor(o: TiledObject, c: CollisionRect)
  {
    o.objectType == JString("collision_rect") && AsReal(o.x) == Some(c.levelX) && AsReal(o.y) == Some(c.levelY) &&
    AsReal(o.width) == Some(c.collisionRect.w) && AsReal(o.height) == Some(c.collisionRect.h)
  }

  /** Some object of some layer is a "collision_rect" for c. */
  predicate FromCollisionObject(layers: seq<TiledLayer>, c: CollisionRect)
  {
    exists k, i :: 0 <= k < |layers| && layers[k].objects.Some? && 0 <= i < |layers[k].objects.value| &&
                   CollisionObjectFor(layers[k].objects.value[i], c)
  }

  /** Every rectangle CreateCollision adds comes from a "collision_rect" object with that position and size. */
  lemma {:induction false} CollisionPlanFromObjects(layers: seq<TiledLayer>, c: CollisionRect)
    requires c in Emitted(CollisionSteps(layers)).items
    ensures FromCollisionObject(layers, c)
    decreases |layers|
  {
    EmittedOnlyValues(CollisionSteps(layers), c);
    CollisionStepOrigin(layers, c);
  }

  /** Anything pushed is the value of some step. */
  lemma {:induction false} EmittedOnlyValues<T>(steps: seq<Step<T>>, v: T)
    requires v in Emitted(steps).items
    ensures exists i :: 0 <= i < |steps| && steps[i] == Emit(v)
    decreases |steps|
  {
    RunOnlyValues(Outcome([], true), steps, v);
  }

  lemma {:induction false} RunOnlyValues<T>(o: Outcome<T>, steps: seq<Step<T>>, v: T)
    requires v in Run(o, steps).items && v !in o.items
    ensures exists i :: 0 <= i < |steps| && steps[i] == Emit(v)
    decreases |steps|
  {
    if |steps| > 0 {
      var init := steps[..|steps| - 1];
      var last := steps[|steps| - 1];
      if v in Run(o, init).items {
        RunOnlyValues(o, init, v);
        var i :| 0 <= i < |init| && init[i] == Emit(v);
        assert steps[i] == Emit(v);
      } else {
        assert last == Emit(v);
      }
    }
  }

  /** A step of CreateCollision that pushes c comes from a matching collision_rect object. */
  lemma {:induction false} CollisionStepOrigin(layers: seq<TiledLayer>, c: CollisionRect)
    requires exists i :: 0 <= i < |CollisionSteps(layers)| && CollisionSteps(layers)[i] == Emit(c)
    ensures FromCollisionObject(layers, c)
    decreases |layers|
  {
    var init := layers[..|layers| - 1];
    var last := layers[|layers| - 1];
    var i :| 0 <= i < |CollisionSteps(layers)| && CollisionSteps(layers)[i] == Emit(c);
    var pre := CollisionSteps(init);
    if i < |pre| {
      assert pre[i] == Emit(c);
      CollisionStepOrigin(init, c);
      var k, n :| 0 <= k < |init| && init[k].objects.Some? && 0 <= n < |init[k].objects.value| &&
                  CollisionObjectFor(init[k].objects.value[n], c);
      assert layers[k] == init[k];
    } else {
      var objs := last.objects.value;
      var n := i - |pre|;
      assert CollisionObjectSteps(objs)[n] == Emit(c);
      assert DecodeCollisionObject(objs[n]) == Emit(c);
      assert CollisionObjectFor(objs[n], c);
      assert layers[|layers| - 1] == last;
    }
  }

  // ---------------------------------------------------------------------------
  // Lemmas the Level methods use
  // ---------------------------------------------------------------------------

  /** An untagged entity inserted anywhere does not change which entity is found first. */
  lemma {:induction false} FirstTaggedInsert(a: seq<Entity?>, e: Entity, b: seq<Entity?>, t: string)
    requires NonNull(a) && NonNull(b) && !e.tagSet.HasTag(t)
    ensures NonNull(a + [e] + b) && NonNull(a + b)
    ensures FirstTagged(a + [e] + b, t) == FirstTagged(a + b, t)
    decreases |a|
  {
    var s, u := a + [e] + b, a + b;
    if |a| == 0 {
      assert s[1..] == b && u == b;
    } else {
      assert s[0] == a[0] && u[0] == a[0];
      assert s[1..] == a[1..] + [e] + b && u[1..] == a[1..] + b;
      FirstTaggedInsert(a[1..], e, b, t);
    }
  }

  /** Pushing an entity that lacks tag t onto layer k does not change the first t-tagged entity of the layers. */
  lemma FirstTaggedAfterPush(ls: seq<seq<Entity?>>, k: nat, e: Entity, t: string)
    requires k < |ls| && (forall m :: 0 <= m < |ls| ==> NonNull(ls[m])) && !e.tagSet.HasTag(t)
    ensures var ls' := ls[k := ls[k] + [e]]; forall m :: 0 <= m < |ls'| ==> NonNull(ls'[m])
    ensures NonNull(Flatten(ls)) && NonNull(Flatten(ls[k := ls[k] + [e]]))
    ensures FirstTagged(Flatten(ls[k := ls[k] + [e]]), t) == FirstTagged(Flatten(ls), t)
  {
    var ls' := ls[k := ls[k] + [e]];
    FlattenNonNull(ls);
    FlattenNonNull(ls');
    FlattenNonNull(ls[..k]);
    FlattenNonNull(ls[k + 1..]);
    FlattenPush(ls, k, e);
    FirstTaggedInsert(Flatten(ls[..k]) + ls[k], e, Flatten(ls[k + 1..]), t);
  }

  /** Pushing onto layer k inserts the element after everything in layers 0..k. */
  lemma FlattenPush<T>(ls: seq<seq<T>>, k: nat, x: T)
    requires k < |ls|
    ensures Flatten(ls) == Flatten(ls[..k]) + ls[k] + Flatten(ls[k + 1..])
    ensures Flatten(ls[k := ls[k] + [x]]) == Flatten(ls[..k]) + ls[k] + [x] + Flatten(ls[k + 1..])
  {
    var ls' := ls[k := ls[k] + [x]];
    FlattenSplit(ls, k);
    FlattenSplit(ls', k);
    assert ls'[..k] == ls[..k] && ls'[k + 1..] == ls[k + 1..];
  }

  /** An entity found while scanning, after a prefix without tag t, is the first one found. */
  lemma FirstTaggedAt(s: seq<Entity?>, p: seq<Entity?>, e: Entity, t: string)
    requires NonNull(s) && |p| < |s| && s[..|p| + 1] == p + [e] && e.tagSet.HasTag(t)
    requires NonNull(p) && FirstTagged(p, t).None?
    ensures FirstTagged(s, t) == Some(e)
  {
    assert s[|p|] == e;
    forall i | 0 <= i < |p|
      ensures !s[i].tagSet.HasTag(t)
    {
      assert s[i] == p[i];
    }
  }

  /** What the scan of layers[..k] and then layer k up to j has seen is a prefix of the flattened layers. */
  lemma FlattenPrefix<T>(ls: seq<seq<T>>, k: nat, j: nat)
    requires k < |ls| && j <= |ls[k]|
    ensures |Flatten(ls[..k])| + j <= |Flatten(ls)|
    ensures Flatten(ls)[..|Flatten(ls[..k])| + j] == Flatten(ls[..k]) + ls[k][..j]
  {
    FlattenSplit(ls, k);
    assert ls[k] == ls[k][..j] + ls[k][j..];
  }

  /** A loop runs on through a part of its steps. */
  lemma StopsAfter<T>(pre: seq<Step<T>>, mid: seq<Step<T>>, rest: seq<Step<T>>)
    requires !Run(Emitted(pre), mid).ok
    ensures Emitted(pre + mid + rest) == Run(Emitted(pre), mid)
  {
    RunAppend(Outcome([], true), pre + mid, rest);
    RunAppend(Outcome([], true), pre, mid);
    RunStuck(Run(Emitted(pre), mid), rest);
  }

  /** The steps of the first i + 1 layers, and of all layers, split around layer i. */
  lemma {:induction false} CollisionLayerSplit(layers: seq<TiledLayer>, i: nat)
    requires i < |layers|
    ensures CollisionSteps(layers[..i + 1]) == CollisionSteps(layers[..i]) + CollisionLayerSteps(layers[i])
    ensures CollisionSteps(layers) == CollisionSteps(layers[..i + 1]) + CollisionSteps(layers[i + 1..])
  {
    var a := layers[..i + 1];
    assert a[..|a| - 1] == layers[..i] && a[|a| - 1] == layers[i];
    assert CollisionSteps(a) == CollisionSteps(a[..|a| - 1]) + CollisionLayerSteps(a[|a| - 1]);
    assert layers == a + layers[i + 1..];
    CollisionStepsAppend(a, layers[i + 1..]);
  }

  lemma {:induction false} CollisionStepsAppend(a: seq<TiledLayer>, b: seq<TiledLayer>)
    ensures CollisionSteps(a + b) == CollisionSteps(a) + CollisionSteps(b)
    decreases |b|
  {
    if |b| == 0 {
      assert a + b == a;
    } else {
      var init, last := b[..|b| - 1], b[|b| - 1];
      assert (a + b)[..|a + b| - 1] == a + init;
      assert (a + b)[|a + b| - 1] == last;
      CollisionStepsAppend(a, init);
      assert CollisionSteps(a + b) == CollisionSteps(a + init) + CollisionLayerSteps(last);
      assert CollisionSteps(b) == CollisionSteps(init) + CollisionLayerSteps(last);
    }
  }

  /** Object layers are counted left to right, so a prefix of the layers never counts more. */
  lemma {:induction false} PlanCountGrows(layers: seq<TiledLayer>, haveCharacter: bool, i: nat)
    requires i <= |layers|
    ensures PlanEntities(layers[..i], haveCharacter).count <= PlanEntities(layers, haveCharacter).count
    decreases |layers| - i
  {
    if i < |layers| {
      PlanEntitiesSnoc(layers, haveCharacter, i);
      PlanCountGrows(layers, haveCharacter, i + 1);
    } else {
      assert layers[..i] == layers;
    }
  }

  /** Growing a layer twice is growing it once by both spec lists. */
  lemma GrownTrans(a: seq<Entity?>, b: seq<Entity?>, c: seq<Entity?>, s1: seq<EntitySpec>, s2: seq<EntitySpec>)
    requires Grown(a, b, s1) && Grown(b, c, s2)
    ensures Grown(a, c, s1 + s2)
  {
    assert c[..|a|] == c[..|b|][..|a|];
    forall i | |a| <= i < |c|
      ensures c[i] != null && Built(c[i], (s1 + s2)[i - |a|])
    {
      if i < |b| {
        assert c[i] == c[..|b|][i] == b[i];
      }
    }
  }

  /** A layer pushed one built entity grew by its spec. */
  lemma GrownSnoc(a: seq<Entity?>, b: seq<Entity?>, s: seq<EntitySpec>, e: Entity, spec: EntitySpec)
    requires Grown(a, b, s) && Built(e, spec)
    ensures Grown(a, b + [e], s + [spec])
  {
    var c := b + [e];
    assert c[..|a|] == b[..|a|];
    forall i | |a| <= i < |c|
      ensures c[i] != null && Built(c[i], (s + [spec])[i - |a|])
    {
      if i < |b| {
        assert c[i] == b[i];
      }
    }
  }

  /** Row yy, column xx of the loops is a cell of the grid. */
  lemma CellIndexInGrid(rows: nat, cols: nat, yy: nat, xx: nat)
    requires yy < rows && xx < cols
    ensures yy * cols + xx < rows * cols
  {
    MulAtLeast(cols, rows - yy);
    assert rows * cols == yy * cols + (rows - yy) * cols;
  }

  /** The cells of row y end where row y + 1 begins, inside the grid. */
  lemma RowBounds(rows: nat, cols: nat, y: nat)
    requires y < rows
    ensures (y + 1) * cols == y * cols + cols && (y + 1) * cols <= rows * cols
  {
    MulAtLeast(cols, rows - y);
    assert rows * cols == y * cols + (rows - y) * cols;
  }

  lemma GrownNothing(a: seq<Entity?>)
    ensures Grown(a, a, [])
  {
    assert a[..|a|] == a;
  }

  /** Before any layer is read, no entity layer has grown. */
  lemma EntityLayersGrownNothing(es: seq<seq<Entity?>>, haveCharacter: bool)
    requires |es| == MaxTileLayers
    ensures EntityLayersGrown(es, es, PlanEntities([], haveCharacter).added)
  {
    forall m | 0 <= m < MaxTileLayers
      ensures Grown(es[m], es[m], PlanEntities([], haveCharacter).added[m])
    {
      GrownNothing(es[m]);
    }
  }

  /** A layer that gained the tile for cell n gained the first n + 1 cells. */
  lemma TilesPlacedSnoc(before: seq<Tile?>, after: seq<Tile?>, g: TileGrid, n: nat, ts: Tileset, textures: TextureManager,
                        srcs: seq<LightSource>, lighting: Lighting, indeterminate: Rgb, t: Tile)
    requires n < Cells(g) <= |g.ids|
    requires TilesPlaced(before, after, g, n, ts, textures, srcs, lighting, indeterminate)
    requires TileAt(t, CellX(g, n), CellY(g, n), CellData(g, ts, n), textures, srcs, lighting, indeterminate)
    ensures TilesPlaced(before, after + [t], g, n + 1, ts, textures, srcs, lighting, indeterminate)
  {
    var c := after + [t];
    assert c[..|before|] == after[..|before|];
    forall i | |before| <= i < |c|
      ensures c[i] != null &&
        TileAt(c[i], CellX(g, i - |before|), CellY(g, i - |before|), CellData(g, ts, i - |before|), textures, srcs, lighting, indeterminate)
    {
      if i < |after| {
        assert c[i] == after[i];
      }
    }
  }

  /** Before the layer loop no tile layer has grown. */
  lemma TileLayersNothing(ls: seq<seq<Tile?>>, ts: Tileset, textures: TextureManager,
                          srcs: seq<LightSource>, lighting: Lighting, indeterminate: Rgb)
    ensures GridsFilled([]) && TileLayersGrown(ls, ls, [], ts, textures, srcs, lighting, indeterminate)
  {
  }

  /** A prefix of a list of filled grids is filled. */
  lemma GridsFilledPrefix(a: seq<TileGrid>, b: seq<TileGrid>)
    requires a <= b && GridsFilled(b)
    ensures GridsFilled(a) && |a| <= |b|
  {
    forall k | 0 <= k < |a|
      ensures Cells(a[k]) <= |a[k].ids|
    {
      assert a[k] == b[k];
    }
  }

  /** Tile layer |grids| received grid g and no other layer changed. */
  lemma TileLayersStep(start: seq<seq<Tile?>>, before: seq<seq<Tile?>>, after: seq<seq<Tile?>>,
                       grids: seq<TileGrid>, g: TileGrid, ts: Tileset, textures: TextureManager,
                       srcs: seq<LightSource>, lighting: Lighting, indeterminate: Rgb)
    requires GridsFilled(grids) && Cells(g) <= |g.ids| && |grids| < |before| == |after|
    requires TileLayersGrown(start, before, grids, ts, textures, srcs, lighting, indeterminate)
    requires forall m :: 0 <= m < |after| && m != |grids| ==> after[m] == before[m]
    requires TilesGrown(before[|grids|], after[|grids|], g, ts, textures, srcs, lighting, indeterminate)
    ensures GridsFilled(grids + [g])
    ensures TileLayersGrown(start, after, grids + [g], ts, textures, srcs, lighting, indeterminate)
  {
    var gs := grids + [g];
    forall m | 0 <= m < |start|
      ensures if m < |gs| then TilesGrown(start[m], after[m], gs[m], ts, textures, srcs, lighting, indeterminate)
              else after[m] == start[m]
    {
      if m < |grids| {
        assert gs[m] == grids[m] && after[m] == before[m];
      } else if m == |grids| {
        assert gs[m] == g;
      } else {
        assert after[m] == before[m];
      }
    }
  }

  /** The collisions of one more layer come after those of the layers before it. */
  lemma GridCollisionsSnoc(grids: seq<TileGrid>, g: TileGrid, ts: Tileset)
    requires GridsFilled(grids) && Cells(g) <= |g.ids|
    ensures GridsFilled(grids + [g])
    ensures GridCollisions(grids + [g], ts) == GridCollisions(grids, ts) + CellCollisions(g, ts, Cells(g))
  {
    assert (grids + [g])[..|grids|] == grids;
  }

  /** What CreateEntities makes of a document; without a layer list it fails before touching anything. */
  function EntityPlanOf(doc: LevelDocument, haveCharacter: bool): (p: EntityPlan)
    ensures |p.added| == MaxTileLayers
    ensures doc.layers.None? ==> !p.ok && forall k :: 0 <= k < MaxTileLayers ==> p.added[k] == []
  {
    if doc.layers.None? then EntityPlan(seq(MaxTileLayers, k => []), 0, false)
    else PlanEntities(doc.layers.value, haveCharacter)
  }

  /** Entity layer k grew by added[k]. */
  predicate EntityLayersGrown(before: seq<seq<Entity?>>, after: seq<seq<Entity?>>, added: seq<seq<EntitySpec>>)
    reads set k, e | 0 <= k < |after| && e in after[k] && e != null :: e,
          set k, e | 0 <= k < |after| && e in after[k] && e != null :: e.tagSet
  {
    |after| == |before| == |added| && forall k :: 0 <= k < |before| ==> Grown(before[k], after[k], added[k])
  }

  /** Entity layer k grew once more by items, the others stayed. */
  lemma EntityLayersStep(start: seq<seq<Entity?>>, before: seq<seq<Entity?>>, after: seq<seq<Entity?>>,
                         added: seq<seq<EntitySpec>>, k: nat, items: seq<EntitySpec>)
    requires EntityLayersGrown(start, before, added) && k < |before| == |after|
    requires Grown(before[k], after[k], items)
    requires forall m :: 0 <= m < |after| && m != k ==> after[m] == before[m]
    ensures EntityLayersGrown(start, after, added[k := added[k] + items])
  {
    forall m | 0 <= m < |start|
      ensures Grown(start[m], after[m], added[k := added[k] + items][m])
    {
      if m == k {
        GrownTrans(start[m], before[m], after[m], added[m], items);
      } else {
        assert after[m] == before[m];
      }
    }
  }

  /** The tileset CreateTiles draws from. */
  function LevelTileset(doc: LevelDocument, tilesets: TilesetManager): Tileset
    requires TilesetsListed(doc)
    reads tilesets
  {
    if TilesetPath(doc).Some? then tilesets.GetTileset(TilesetPath(doc).value) else EmptyTileset
  }

  // ---------------------------------------------------------------------------
  // Building entities and tiles
  // ---------------------------------------------------------------------------

  /** The constructor CreateEntities runs for a recognised type. */
  method Construct(kind: EntityKind) returns (e: Entity)
    ensures fresh(e) && fresh(e.tagSet)
    ensures e.kind == kind && e.tagSet.tags == KindTags(kind) && e.Blank()
    ensures kind == CharacterEntity ==> e.destinationRect == FRect(300.0, 200.0, 64.0, 64.0)
  {
    if kind == CharacterEntity {
      e := new Entity.Character();
    } else if kind == NpcEntity {
      e := new Entity.Npc();
    } else if kind == DoorEntity {
      e := new Entity.Door();
    } else if kind == LightEntity {
      e := new Entity.Light();
    } else {
      e := new Entity.Plain();
    }
  }

  /**
   * The body of the object loop once the type is recognised: construct, copy
   * the type, name, position and size, take the properties if present, then
   * OnEntityCreated. None when a read throws; the entity is then dropped.
   */
  method NewEntity(o: TiledObject, kind: EntityKind, t: string) returns (r: Option<Entity>)
    ensures r.None? <==> DecodeEntityFields(o, kind, t).None?
    ensures r.Some? ==> fresh(r.value) && fresh(r.value.tagSet) && Built(r.value, DecodeEntityFields(o, kind, t).value)
  {
    var e := Construct(kind);
    e.classname := t;
    var name := AsString(o.name);
    if name.None? { return None; }
    e.targetname := name.value;
    var x := AsReal(o.x);
    if x.None? { return None; }
    e.levelX := x.value;
    var y := AsReal(o.y);
    if y.None? { return None; }
    e.levelY := y.value;
    var w := AsReal(o.width);
    if w.None? { return None; }
    e.destinationRect := e.destinationRect.(w := w.value);
    var h := AsReal(o.height);
    if h.None? { return None; }
    e.destinationRect := e.destinationRect.(h := h.value);
    if o.properties.Some? {
      e.tiledProperties := o.properties.value;
    }
    if kind == LightEntity && !e.PropertiesTyped() { return None; }
    e.OnEntityCreated();
    r := Some(e);
  }

  /** The light loop of CreateTiles for one tile: each light's contribution added, clamped at 255. */
  method LightTile(tile: Tile, lights: seq<Entity>, lighting: Lighting)
    modifies tile
    ensures tile.colorModifier == Lit(old(tile.colorModifier), Contributions(Sources(lights), tile.levelX, tile.levelY, lighting))
    ensures tile.levelX == old(tile.levelX) && tile.levelY == old(tile.levelY)
    ensures tile.destinationRect == old(tile.destinationRect) && tile.imageRect == old(tile.imageRect)
    ensures tile.data == old(tile.data) && tile.texture == old(tile.texture)
  {
    var c := ShadeColor(tile.colorModifier, tile.levelX, tile.levelY, lights, lighting);
    tile.colorModifier := c;
    assert Sources(lights) == old(Sources(lights));
  }

  /** The colour of a tile at (tx, ty) whose colour was c0 once every light has been added. */
  method ShadeColor(c0: Rgb, tx: real, ty: real, lights: seq<Entity>, lighting: Lighting) returns (c: Rgb)
    ensures c == Lit(c0, Contributions(Sources(lights), tx, ty, lighting))
  {
    ghost var ds := Contributions(Sources(lights), tx, ty, lighting);
    c := c0;
    var i := 0;
    while i < |lights|
      invariant 0 <= i <= |lights|
      invariant c == Lit(c0, ds[..i])
    {
      assert ds[..i + 1][..i] == ds[..i];
      var light := lights[i];
      var lightColor := lighting((tx - light.levelX).Floor, (ty - light.levelY).Floor, light.colorModifier, light.intensity);
      assert lightColor == ds[i];
      c := Rgb(Min255(c.r + lightColor.r), Min255(c.g + lightColor.g), Min255(c.b + lightColor.b));
      i := i + 1;
    }
    assert ds[..|lights|] == ds;
  }

  /** Releasing every slot of every layer (the release-and-delete loops of FreeResources). */
  method ReleaseAll<T>(ss: seq<seq<T>>, v: T) returns (r: seq<seq<T>>)
    ensures r == Cleared(ss, v)
  {
    r := ss;
    var k := 0;
    while k < |r|
      invariant 0 <= k <= |r| == |ss|
      invariant forall i :: 0 <= i < k ==> r[i] == Cleared(ss, v)[i]
      invariant forall i :: k <= i < |r| ==> r[i] == ss[i]
    {
      var j := 0;
      while j < |r[k]|
        invariant |r| == |ss| && 0 <= j <= |r[k]| == |ss[k]|
        invariant forall i :: 0 <= i < k ==> r[i] == Cleared(ss, v)[i]
        invariant forall i :: k < i < |r| ==> r[i] == ss[i]
        invariant forall m :: 0 <= m < j ==> r[k][m] == v
      {
        r := r[k := r[k][j := v]];
        j := j + 1;
      }
      assert r[k] == Cleared(ss, v)[k];
      k := k + 1;
    }
    assert r == Cleared(ss, v);
  }

  // ---------------------------------------------------------------------------
  // The level
  // ---------------------------------------------------------------------------

  class Level {
    /** Sixteen entity layers, sixteen tile layers, and the collision rectangles. */
    var lEntities: seq<seq<Entity?>>
    var lTiles: seq<seq<Tile?>>
    var lCollisionR: seq<CollisionRect>

    predicate Valid()
      reads this
    {
      |lEntities| == MaxTileLayers && |lTiles| == MaxTileLayers
    }

    /** No entity slot has been released. */
    predicate EntitiesLive()
      reads this
    {
      forall k :: 0 <= k < |lEntities| ==> NonNull(lEntities[k])
    }

    /** Level(): every layer empty, no collision. */
    constructor ()
      ensures Valid() && EntitiesLive()
      ensures forall k :: 0 <= k < MaxTileLayers ==> lEntities[k] == [] && lTiles[k] == []
      ensures lCollisionR == []
    {
      lEntities := seq(MaxTileLayers, k => []);
      lTiles := seq(MaxTileLayers, k => []);
      lCollisionR := [];
    }

    /** The tag sets of the entities in the layers. */
    function TagSets(): set<Taggable>
      reads this
    {
      set k, e | 0 <= k < |lEntities| && e in lEntities[k] && e != null :: e.tagSet
    }

    /**
     * What GetCharacter returns: the first entity of the layers, in layer order,
     * tagged "Character", when it is a Character (dynamic_cast), else none.
     */
    function FindCharacter(): (r: Option<Entity>)
      requires EntitiesLive()
      reads this, TagSets()
      ensures NonNull(Flatten(lEntities))
      ensures r.Some? ==> r.value.kind == CharacterEntity && FirstTagged(Flatten(lEntities), CharacterTag) == r
      ensures FirstTagged(Flatten(lEntities), CharacterTag).None? ==> r.None?
    {
      FlattenNonNull(lEntities);
      FlattenMembers(lEntities);
      match FirstTagged(Flatten(lEntities), CharacterTag)
      case None => None
      case Some(e) => if e.kind == CharacterEntity then Some(e) else None
    }

    /** GetCharacter: scan the layers and each layer's list in order, returning at the first "Character". */
    method GetCharacter() returns (r: Option<Entity>)
      requires EntitiesLive()
      ensures r == FindCharacter()
    {
      var k := 0;
      while k < |lEntities|
        invariant 0 <= k <= |lEntities|
        invariant NonNull(Flatten(lEntities[..k])) && FirstTagged(Flatten(lEntities[..k]), CharacterTag).None?
      {
        var found;
        found, r := ScanCharacterLayer(k);
        if found {
          return;
        }
        k := k + 1;
      }
      assert lEntities[..k] == lEntities;
      r := None;
    }

    /** The inner loop of GetCharacter over layer k, when no lower layer holds a "Character". */
    method ScanCharacterLayer(k: nat) returns (found: bool, r: Option<Entity>)
      requires EntitiesLive() && k < |lEntities|
      requires NonNull(Flatten(lEntities[..k])) && FirstTagged(Flatten(lEntities[..k]), CharacterTag).None?
      ensures found ==> r == FindCharacter()
      ensures !found ==> NonNull(Flatten(lEntities[..k + 1])) && FirstTagged(Flatten(lEntities[..k + 1]), CharacterTag).None?
    {
      FlattenNonNull(lEntities);
      var layer := lEntities[k];
      ghost var done := Flatten(lEntities[..k]);
      assert done + layer[..0] == done;
      var j := 0;
      while j < |layer|
        invariant 0 <= j <= |layer|
        invariant NonNull(done + layer[..j]) && FirstTagged(done + layer[..j], CharacterTag).None?
      {
        var entity: Entity := layer[j];
        FlattenPrefix(lEntities, k, j + 1);
        PrefixSnoc(done, layer, j);
        if entity.tagSet.HasTag(CharacterTag) {
          FirstTaggedAt(Flatten(lEntities), done + layer[..j], entity, CharacterTag);
          if entity.kind == CharacterEntity {
            return true, Some(entity);
          }
          return true, None;
        }
        FirstTaggedSnoc(done + layer[..j], entity, CharacterTag);
        j := j + 1;
      }
      FlattenSnoc(lEntities, k);
      assert layer[..|layer|] == layer;
      return false, None;
    }

    /** The light gathering of CreateTiles: every "Light"-tagged entity of layers 0..15, in order. */
    method GatherLights() returns (lights: seq<Entity>)
      requires Valid() && EntitiesLive()
      ensures NonNull(Flatten(lEntities))
      ensures lights == Tagged(Flatten(lEntities), LightTag)
    {
      FlattenNonNull(lEntities);
      lights := [];
      var l := 0;
      while l < MaxTileLayers
        invariant 0 <= l <= MaxTileLayers
        invariant NonNull(Flatten(lEntities[..l])) && lights == Tagged(Flatten(lEntities[..l]), LightTag)
      {
        lights := GatherLayerLights(l, lights);
        l := l + 1;
      }
      assert lEntities[..MaxTileLayers] == lEntities;
    }

    /** The inner loop of the light gathering over layer l, after the lights of the lower layers. */
    method GatherLayerLights(l: nat, below: seq<Entity>) returns (lights: seq<Entity>)
      requires EntitiesLive() && l < |lEntities|
      requires NonNull(Flatten(lEntities[..l])) && below == Tagged(Flatten(lEntities[..l]), LightTag)
      ensures NonNull(Flatten(lEntities[..l + 1])) && lights == Tagged(Flatten(lEntities[..l + 1]), LightTag)
    {
      lights := below;
      var layer := lEntities[l];
      ghost var done := Flatten(lEntities[..l]);
      assert done + layer[..0] == done;
      var j := 0;
      while j < |layer|
        invariant 0 <= j <= |layer|
        invariant NonNull(done + layer[..j]) && lights == Tagged(done + layer[..j], LightTag)
      {
        var entity: Entity := layer[j];
        TaggedSnoc(done + layer[..j], entity, LightTag);
        PrefixSnoc(done, layer, j);
        if entity.tagSet.HasTag(LightTag) {
          lights := lights + [entity];
        }
        j := j + 1;
      }
      FlattenSnoc(lEntities, l);
      assert layer[..|layer|] == layer;
    }

    /** FreeResources: release every tile and entity; each layer keeps as many slots, all null. */
    method FreeResources()
      modifies this
      ensures lTiles == Cleared(old(lTiles), null) && lEntities == Cleared(old(lEntities), null)
      ensures lCollisionR == old(lCollisionR)
    {
      lTiles := ReleaseAll(lTiles, null);
      lEntities := ReleaseAll(lEntities, null);
    }

    /**
     * LevelUpdate: Update(dT) on every entity, layer by layer and in list
     * order; the entities are returned in the order they are updated.
     */
    method LevelUpdate(dT: real) returns (updated: seq<Entity>)
      requires EntitiesLive()
      ensures NonNull(Flatten(lEntities))
      ensures |updated| == |Flatten(lEntities)|
      ensures forall i :: 0 <= i < |updated| ==> updated[i] == Flatten(lEntities)[i]
    {
      FlattenNonNull(lEntities);
      updated := [];
      var k := 0;
      while k < |lEntities|
        invariant 0 <= k <= |lEntities|
        invariant |updated| == |Flatten(lEntities[..k])|
        invariant forall i :: 0 <= i < |updated| ==> updated[i] == Flatten(lEntities[..k])[i]
      {
        var layer := lEntities[k];
        var j := 0;
        while j < |layer|
          invariant 0 <= j <= |layer|
          invariant |updated| == |Flatten(lEntities[..k]) + layer[..j]|
          invariant forall i :: 0 <= i < |updated| ==> updated[i] == (Flatten(lEntities[..k]) + layer[..j])[i]
        {
          var entity: Entity := layer[j];
          assert Flatten(lEntities[..k]) + layer[..j + 1] == Flatten(lEntities[..k]) + layer[..j] + [entity];
          updated := updated + [entity];
          j := j + 1;
        }
        FlattenSnoc(lEntities, k);
        assert layer[..|layer|] == layer;
        k := k + 1;
      }
      assert lEntities[..k] == lEntities;
    }

    /**
     * One object of the loop in CreateEntities for entity layer k: a recognised
     * object is built and pushed onto lEntities[k]; the result says whether a
     * read threw. `haveCharacter` is what GetCharacter finds; `start` and
     * `items` are the layer before the loop and what the loop has built so far.
     */
    method CreateObjectEntity(k: nat, obj: TiledObject, ghost haveCharacter: bool,
                              ghost start: seq<Entity?>, ghost items: seq<EntitySpec>) returns (thrown: bool)
      requires Valid() && EntitiesLive() && k < MaxTileLayers
      requires FindCharacter().Some? == haveCharacter
      requires Grown(start, lEntities[k], items)
      modifies this
      ensures Valid() && EntitiesLive() && FindCharacter() == old(FindCharacter())
      ensures lTiles == old(lTiles) && lCollisionR == old(lCollisionR)
      ensures lEntities == old(lEntities)[k := lEntities[k]]
      ensures thrown == DecodeObject(obj, haveCharacter).Abort?
      ensures Grown(start, lEntities[k], Next(Outcome(items, true), DecodeObject(obj, haveCharacter)).items)
    {
      ghost var step := DecodeObject(obj, haveCharacter);
      var t := AsString(obj.objectType);
      if t.None? {
        assert step == Abort;
        return true;
      }
      if t.value == "character" {
        var character := GetCharacter();
        CharacterKept();
        if character.Some? {
          assert step == Skip;
          return false;
        }
      }
      var kind := KindOf(t.value);
      if kind.None? {
        assert step == Skip;
        return false;
      }
      var entity := NewEntity(obj, kind.value, t.value);
      CharacterKept();
      assert Grown(start, lEntities[k], items);
      if entity.None? {
        assert step == Abort;
        return true;
      }
      var e := entity.value;
      assert step == Emit(DecodeEntityFields(obj, kind.value, t.value).value);
      NoKindIsTaggedCharacter(kind.value);
      PushEntity(k, e, start, items, step.value);
      thrown := false;
    }

    /** lEntities[k].push_back of a built entity not tagged "Character". */
    method PushEntity(k: nat, e: Entity, ghost start: seq<Entity?>, ghost items: seq<EntitySpec>, ghost spec: EntitySpec)
      requires Valid() && EntitiesLive() && k < MaxTileLayers && !e.tagSet.HasTag(CharacterTag)
      requires Grown(start, lEntities[k], items) && Built(e, spec)
      modifies this
      ensures Valid() && EntitiesLive() && FindCharacter() == old(FindCharacter())
      ensures lTiles == old(lTiles) && lCollisionR == old(lCollisionR)
      ensures lEntities == old(lEntities)[k := old(lEntities[k]) + [e]]
      ensures Grown(start, lEntities[k], items + [spec])
    {
      FirstTaggedAfterPush(lEntities, k, e, CharacterTag);
      GrownSnoc(start, lEntities[k], items, e, spec);
      lEntities := lEntities[k := lEntities[k] + [e]];
    }

    /** A call that changes neither the level nor any tag set it had leaves the character where it was. */
    twostate lemma CharacterKept()
      requires old(allocated(this)) && old(EntitiesLive()) && unchanged(this)
      requires forall x :: x in old(TagSets()) ==> unchanged(x)
      ensures EntitiesLive() && FindCharacter() == old(FindCharacter())
    {
    }

    /** A call that keeps the entity layers and every tag set they had keeps the lights. */
    twostate lemma LightsKept()
      requires old(allocated(this)) && old(EntitiesLive()) && lEntities == old(lEntities)
      requires forall x :: x in old(TagSets()) ==> unchanged(x)
      ensures EntitiesLive() && NonNull(Flatten(lEntities))
      ensures Tagged(Flatten(lEntities), LightTag) == old(Tagged(Flatten(lEntities), LightTag))
    {
      FlattenNonNull(lEntities);
      FlattenMembers(lEntities);
      forall e | e in Flatten(lEntities) && e != null
        ensures unchanged(e.tagSet)
      {
        var k :| 0 <= k < |lEntities| && e in lEntities[k];
        assert e.tagSet in old(TagSets());
      }
    }

    /** The object loop of CreateEntities for entity layer k; a read that throws ends it. */
    method CreateLayerEntities(k: nat, objs: seq<TiledObject>, ghost haveCharacter: bool) returns (ok: bool)
      requires Valid() && EntitiesLive() && k < MaxTileLayers
      requires FindCharacter().Some? == haveCharacter
      modifies this
      ensures Valid() && EntitiesLive() && FindCharacter() == old(FindCharacter())
      ensures lTiles == old(lTiles) && lCollisionR == old(lCollisionR)
      ensures lEntities == old(lEntities)[k := lEntities[k]]
      ensures ok == Emitted(ObjectSteps(objs, haveCharacter)).ok
      ensures Grown(old(lEntities[k]), lEntities[k], Emitted(ObjectSteps(objs, haveCharacter)).items)
    {
      ghost var steps := ObjectSteps(objs, haveCharacter);
      ghost var start := lEntities[k];
      GrownNothing(start);
      var n := 0;
      while n < |objs|
        invariant 0 <= n <= |objs|
        invariant Valid() && EntitiesLive() && FindCharacter() == old(FindCharacter())
        invariant lTiles == old(lTiles) && lCollisionR == old(lCollisionR)
        invariant lEntities == old(lEntities)[k := lEntities[k]]
        invariant Emitted(steps[..n]).ok
        invariant Grown(start, lEntities[k], Emitted(steps[..n]).items)
      {
        RunSnoc(Outcome([], true), steps, n);
        var thrown := CreateObjectEntity(k, objs[n], haveCharacter, start, Emitted(steps[..n]).items);
        if thrown {
          AbortEnds(steps, n);
          return false;
        }
        n := n + 1;
      }
      assert steps[..|objs|] == steps;
      ok := true;
    }

    /**
     * CreateEntities: the k-th "objectgroup" layer of the document fills entity
     * layer k; the result is false when a read throws, and what was pushed
     * before the throw stays.
     */
    method CreateEntities(doc: LevelDocument) returns (ok: bool)
      requires Valid() && EntitiesLive()
      requires EntitiesFit(doc, FindCharacter().Some?)
      modifies this
      ensures Valid() && EntitiesLive()
      ensures lTiles == old(lTiles) && lCollisionR == old(lCollisionR)
      ensures ok == EntityPlanOf(doc, old(FindCharacter().Some?)).ok
      ensures EntityLayersGrown(old(lEntities), lEntities, EntityPlanOf(doc, old(FindCharacter().Some?)).added)
    {
      ghost var hc := FindCharacter().Some?;
      if doc.layers.None? {
        forall m | 0 <= m < MaxTileLayers
          ensures Grown(lEntities[m], lEntities[m], [])
        {
          GrownNothing(lEntities[m]);
        }
        return false;
      }
      ok := CreateEntityLayers(doc.layers.value, hc);
    }

    /** The layer loop of CreateEntities over the document's layers; hc says whether a Character was already found. */
    method CreateEntityLayers(layers: seq<TiledLayer>, ghost hc: bool) returns (ok: bool)
      requires Valid() && EntitiesLive() && FindCharacter().Some? == hc
      requires PlanEntities(layers, hc).count <= MaxTileLayers
      modifies this
      ensures Valid() && EntitiesLive()
      ensures lTiles == old(lTiles) && lCollisionR == old(lCollisionR)
      ensures ok == PlanEntities(layers, hc).ok
      ensures EntityLayersGrown(old(lEntities), lEntities, PlanEntities(layers, hc).added)
    {
      ghost var start, tiles, collisions := lEntities, lTiles, lCollisionR;
      var layerCount := 0;
      var i := 0;
      assert layers[..0] == [];
      EntityLayersGrownNothing(lEntities, hc);
      ghost var p := PlanEntities(layers[..0], hc);
      while i < |layers|
        invariant 0 <= i <= |layers| && p == PlanEntities(layers[..i], hc)
        invariant Valid() && EntitiesLive() && FindCharacter().Some? == hc
        invariant lTiles == tiles && lCollisionR == collisions
        invariant p.ok && layerCount == p.count
        invariant EntityLayersGrown(start, lEntities, p.added)
      {
        PlanEntitiesSnoc(layers, hc, i);
        PlanCountGrows(layers, hc, i + 1);
        var layerOk;
        layerOk, layerCount := CreateEntityLayer(layers[i], layerCount, hc, start, p);
        if !layerOk {
          PlanEntitiesStuck(layers, hc, i + 1);
          return false;
        }
        i := i + 1;
        p := PlanEntities(layers[..i], hc);
      }
      assert layers[..i] == layers;
      ok := true;
    }

    /**
     * One layer of the loop in CreateEntities, with p what the layers before
     * it did: an "objectgroup" fills entity layer k, the next one; `next` is
     * the layer count afterwards.
     */
    method CreateEntityLayer(layer: TiledLayer, k: nat, ghost hc: bool, ghost start: seq<seq<Entity?>>,
                             ghost p: EntityPlan) returns (ok: bool, next: nat)
      requires Valid() && EntitiesLive() && FindCharacter().Some? == hc
      requires p.ok && k == p.count && |p.added| == MaxTileLayers
      requires EntityLayerStep(p, layer, hc).count <= MaxTileLayers
      requires EntityLayersGrown(start, lEntities, p.added)
      modifies this
      ensures Valid() && EntitiesLive() && FindCharacter() == old(FindCharacter())
      ensures lTiles == old(lTiles) && lCollisionR == old(lCollisionR)
      ensures ok == EntityLayerStep(p, layer, hc).ok && next == EntityLayerStep(p, layer, hc).count
      ensures EntityLayersGrown(start, lEntities, EntityLayerStep(p, layer, hc).added)
    {
      var t := AsString(layer.layerType);
      if t.None? {
        return false, k;
      }
      if t.value != "objectgroup" {
        return true, k;
      }
      if layer.objects.None? {
        return false, k;
      }
      ghost var before := lEntities;
      ok := CreateLayerEntities(k, layer.objects.value, hc);
      EntityLayersStep(start, before, lEntities, p.added, k, Emitted(ObjectSteps(layer.objects.value, hc)).items);
      next := k + 1;
    }

    /** The collision loop of CreateTiles for one tile: one rectangle per sub-rectangle of its data, offset from the tile's corner. */
    method AddTileCollisions(px: real, py: real, d: TileData)
      modifies this
      ensures lCollisionR == old(lCollisionR) + TileCollisions(px, py, d)
      ensures lEntities == old(lEntities) && lTiles == old(lTiles)
    {
      ghost var all := TileCollisions(px, py, d);
      var i := 0;
      while i < |d.collisionRects|
        invariant 0 <= i <= |d.collisionRects|
        invariant lCollisionR == old(lCollisionR) + all[..i]
        invariant lEntities == old(lEntities) && lTiles == old(lTiles)
      {
        var obj := d.collisionRects[i];
        var collision := CollisionRect(px + obj.x, py + obj.y, obj);
        assert all[..i + 1] == all[..i] + [collision];
        lCollisionR := lCollisionR + [collision];
        i := i + 1;
      }
      assert all[..i] == all;
    }

    /**
     * One cell of CreateTiles: its collision rectangles, then a new tile at
     * (px, py) lit by every light, pushed onto tile layer k.
     */
    method PlaceTile(k: nat, px: real, py: real, d: TileData, textures: TextureManager, lights: seq<Entity>,
                     lighting: Lighting, indeterminate: Rgb) returns (tile: Tile)
      requires Valid() && k < MaxTileLayers
      modifies this
      ensures Valid() && fresh(tile) && fresh(tile.tagSet)
      ensures TileAt(tile, px, py, d, textures, Sources(lights), lighting, indeterminate)
      ensures lTiles == old(lTiles)[k := old(lTiles[k]) + [tile]]
      ensures lCollisionR == old(lCollisionR) + TileCollisions(px, py, d)
      ensures lEntities == old(lEntities)
    {
      AddTileCollisions(px, py, d);
      tile := new Tile(px, py, d, textures, indeterminate);
      LightTile(tile, lights, lighting);
      lTiles := lTiles[k := lTiles[k] + [tile]];
    }

    /**
     * Cell (x, y) of a "tilelayer", the tileCount-th in row-major order: the tile
     * with the next id of the layer's data, placed at 64 pixels per step from the
     * layer's offset.
     */
    method PlaceCell(k: nat, g: TileGrid, x: nat, y: nat, tileCount: nat, ts: Tileset, textures: TextureManager,
                     lights: seq<Entity>, lighting: Lighting, indeterminate: Rgb,
                     ghost start: seq<Tile?>, ghost base: seq<CollisionRect>)
      requires Valid() && k < MaxTileLayers && Cells(g) <= |g.ids|
      requires x < Columns(g) && y < Rows(g) && tileCount == y * Columns(g) + x && tileCount < Cells(g)
      requires TilesPlaced(start, lTiles[k], g, tileCount, ts, textures, Sources(lights), lighting, indeterminate)
      requires lCollisionR == base + CellCollisions(g, ts, tileCount)
      modifies this
      ensures Valid() && lEntities == old(lEntities) && lTiles == old(lTiles)[k := lTiles[k]]
      ensures TilesPlaced(start, lTiles[k], g, tileCount + 1, ts, textures, Sources(lights), lighting, indeterminate)
      ensures lCollisionR == base + CellCollisions(g, ts, tileCount + 1)
    {
      var levelX: real := (g.x + TilePixels * x) as real;
      var levelY: real := (g.y + TilePixels * y) as real;
      CellPosition(g, x, y);
      assert levelX == CellX(g, tileCount) && levelY == CellY(g, tileCount);
      var tileData := GetTile(ts, g.ids[tileCount]);
      assert tileData == CellData(g, ts, tileCount);
      ghost var before := lTiles[k];
      var tile := PlaceTile(k, levelX, levelY, tileData, textures, lights, lighting, indeterminate);
      TilesPlacedSnoc(start, before, g, tileCount, ts, textures, Sources(lights), lighting, indeterminate, tile);
      assert base + CellCollisions(g, ts, tileCount + 1) == (base + CellCollisions(g, ts, tileCount)) + TileCollisions(levelX, levelY, tileData);
    }

    /** Row y of a "tilelayer": the x loop of CreateTiles. `base` is the collision list before the layer. */
    method BuildTileRow(k: nat, g: TileGrid, y: nat, ts: Tileset, textures: TextureManager, lights: seq<Entity>,
                        lighting: Lighting, indeterminate: Rgb, ghost start: seq<Tile?>, ghost base: seq<CollisionRect>)
      requires Valid() && k < MaxTileLayers && Cells(g) <= |g.ids| && y < Rows(g)
      requires y * Columns(g) <= Cells(g)
      requires TilesPlaced(start, lTiles[k], g, y * Columns(g), ts, textures, Sources(lights), lighting, indeterminate)
      requires lCollisionR == base + CellCollisions(g, ts, y * Columns(g))
      modifies this
      ensures Valid() && lEntities == old(lEntities) && lTiles == old(lTiles)[k := lTiles[k]]
      ensures (y + 1) * Columns(g) <= Cells(g)
      ensures TilesPlaced(start, lTiles[k], g, (y + 1) * Columns(g), ts, textures, Sources(lights), lighting, indeterminate)
      ensures lCollisionR == base + CellCollisions(g, ts, (y + 1) * Columns(g))
    {
      ghost var cols := Columns(g);
      RowBounds(Rows(g), cols, y);
      var tileCount: nat := y * Columns(g);
      ghost var first := tileCount;
      var x: nat := 0;
      while x < g.width
        invariant x <= cols && tileCount == first + x
        invariant Valid() && lEntities == old(lEntities) && lTiles == old(lTiles)[k := lTiles[k]]
        invariant TilesPlaced(start, lTiles[k], g, tileCount, ts, textures, Sources(lights), lighting, indeterminate)
        invariant lCollisionR == base + CellCollisions(g, ts, tileCount)
      {
        CellIndexInGrid(Rows(g), cols, y, x);
        PlaceCell(k, g, x, y, tileCount, ts, textures, lights, lighting, indeterminate, start, base);
        tileCount := tileCount + 1;
        x := x + 1;
      }
    }

    /**
     * One "tilelayer" of CreateTiles: for each row and each column, the tile whose
     * id comes next in the layer's data goes onto tile layer k.
     */
    method BuildTileLayer(k: nat, g: TileGrid, ts: Tileset, textures: TextureManager, lights: seq<Entity>,
                          lighting: Lighting, indeterminate: Rgb)
      requires Valid() && k < MaxTileLayers && Cells(g) <= |g.ids|
      modifies this
      ensures Valid() && lEntities == old(lEntities)
      ensures lTiles == old(lTiles)[k := lTiles[k]]
      ensures TilesGrown(old(lTiles[k]), lTiles[k], g, ts, textures, Sources(lights), lighting, indeterminate)
      ensures lCollisionR == old(lCollisionR) + CellCollisions(g, ts, Cells(g))
    {
      ghost var start := lTiles[k];
      ghost var base := lCollisionR;
      assert start[..|start|] == start;
      assert base + [] == base;
      var y := 0;
      while y < g.height
        invariant 0 <= y <= Rows(g) && y * Columns(g) <= Cells(g)
        invariant Valid() && lEntities == old(lEntities) && lTiles == old(lTiles)[k := lTiles[k]]
        invariant TilesPlaced(start, lTiles[k], g, y * Columns(g), ts, textures, Sources(lights), lighting, indeterminate)
        invariant lCollisionR == base + CellCollisions(g, ts, y * Columns(g))
      {
        BuildTileRow(k, g, y, ts, textures, lights, lighting, indeterminate, start, base);
        y := y + 1;
      }
    }

    /**
     * LoadLevel once the document is parsed: entities first, then tiles lit
     * by the lights just created, then collision; the stages' results are
     * ignored and the source always reports success. The call that notifies
     * the overworld state follows in the States module.
     */
    method LoadLevel(doc: LevelDocument, tilesets: TilesetManager, textures: TextureManager,
                     lighting: Lighting, indeterminate: Rgb)
      requires Valid() && EntitiesLive() && EntitiesFit(doc, FindCharacter().Some?)
      requires TilesetsListed(doc) && TilesFit(doc)
      modifies this
      ensures Valid() && EntitiesLive() && NonNull(Flatten(lEntities))
      ensures EntityLayersGrown(old(lEntities), lEntities, EntityPlanOf(doc, old(FindCharacter().Some?)).added)
      ensures TileLayersGrown(old(lTiles), lTiles, TilePlan(doc).items, LevelTileset(doc, tilesets), textures,
                              Sources(Tagged(Flatten(lEntities), LightTag)), lighting, indeterminate)
      ensures lCollisionR == old(lCollisionR) + GridCollisions(TilePlan(doc).items, LevelTileset(doc, tilesets))
                                             + CollisionPlan(doc).items
    {
      var entitiesOk := CreateEntities(doc);
      CreateTerrain(doc, tilesets, textures, lighting, indeterminate);
    }

    /** The tile and collision stages of LoadLevel, which leave the entities as they are. */
    method CreateTerrain(doc: LevelDocument, tilesets: TilesetManager, textures: TextureManager,
                         lighting: Lighting, indeterminate: Rgb)
      requires Valid() && EntitiesLive() && TilesetsListed(doc) && TilesFit(doc)
      modifies this
      ensures Valid() && EntitiesLive() && lEntities == old(lEntities) && NonNull(Flatten(lEntities))
      ensures TileLayersGrown(old(lTiles), lTiles, TilePlan(doc).items, LevelTileset(doc, tilesets), textures,
                              Sources(Tagged(Flatten(lEntities), LightTag)), lighting, indeterminate)
      ensures lCollisionR == old(lCollisionR) + GridCollisions(TilePlan(doc).items, LevelTileset(doc, tilesets))
                                             + CollisionPlan(doc).items
    {
      var tilesOk := CreateTiles(doc, tilesets, textures, lighting, indeterminate);
      label tiled:
      ghost var srcs := Sources(Tagged(Flatten(lEntities), LightTag));
      var collisionOk := CreateCollision(doc);
      LightsKept@tiled();
      assert Sources(Tagged(Flatten(lEntities), LightTag)) == srcs;
    }

    /**
     * CreateTiles: read the background colour and the first tileset's source,
     * then build every "tilelayer" into the next tile layer, lit by every
     * "Light"-tagged entity; the result is false when a read throws, and what
     * was built before the throw stays.
     */
    method CreateTiles(doc: LevelDocument, tilesets: TilesetManager, textures: TextureManager,
                       lighting: Lighting, indeterminate: Rgb) returns (ok: bool)
      requires Valid() && EntitiesLive() && TilesetsListed(doc) && TilesFit(doc)
      modifies this
      ensures Valid() && EntitiesLive() && lEntities == old(lEntities) && NonNull(Flatten(lEntities))
      ensures ok == TilePlan(doc).ok
      ensures TileLayersGrown(old(lTiles), lTiles, TilePlan(doc).items, LevelTileset(doc, tilesets), textures,
                              Sources(Tagged(Flatten(lEntities), LightTag)), lighting, indeterminate)
      ensures lCollisionR == old(lCollisionR) + GridCollisions(TilePlan(doc).items, LevelTileset(doc, tilesets))
    {
      FlattenNonNull(lEntities);
      var path := ReadTilesetPath(doc);
      if path.None? || doc.layers.None? {
        TileLayersNothing(lTiles, LevelTileset(doc, tilesets), textures, Sources(Tagged(Flatten(lEntities), LightTag)), lighting, indeterminate);
        assert lCollisionR == old(lCollisionR) + [];
        return false;
      }
      var tileset := tilesets.GetTileset(path.value);
      var lights := GatherLights();
      LightsKept();
      assert TilePlan(doc) == Emitted(TileLayerSteps(doc.layers.value));
      assert tileset == LevelTileset(doc, tilesets);
      ok := CreateTileLayers(doc.layers.value, tileset, textures, lights, lighting, indeterminate);
      LightsKept();
    }

    /**
     * The reads of CreateTiles before the layers: the background colour (its
     * value is not modelled), tilesets[0].source, cleaned up.
     */
    static method ReadTilesetPath(doc: LevelDocument) returns (path: Option<string>)
      requires TilesetsListed(doc)
      ensures path == TilesetPath(doc)
    {
      var background := AsString(doc.backgroundColor);
      if background.None? || doc.tilesets.None? {
        return None;
      }
      var levelTilesets := doc.tilesets.value;
      var tilesetSource := AsString(levelTilesets[0].source);
      if tilesetSource.None? {
        return None;
      }
      var cleaned := CleanupSourceImage(tilesetSource.value);
      path := Some(cleaned);
    }

    /** The layer loop of CreateTiles: the n-th "tilelayer" goes to tile layer n; a read that throws ends it. */
    method CreateTileLayers(levelLayers: seq<TiledLayer>, tileset: Tileset, textures: TextureManager,
                            lights: seq<Entity>, lighting: Lighting, indeterminate: Rgb) returns (ok: bool)
      requires Valid()
      requires var o := Emitted(TileLayerSteps(levelLayers)); |o.items| <= MaxTileLayers && GridsFilled(o.items)
      modifies this
      ensures Valid() && lEntities == old(lEntities)
      ensures ok == Emitted(TileLayerSteps(levelLayers)).ok
      ensures TileLayersGrown(old(lTiles), lTiles, Emitted(TileLayerSteps(levelLayers)).items, tileset, textures,
                              Sources(lights), lighting, indeterminate)
      ensures lCollisionR == old(lCollisionR) + GridCollisions(Emitted(TileLayerSteps(levelLayers)).items, tileset)
    {
      ghost var steps := TileLayerSteps(levelLayers);
      TileLayersNothing(lTiles, tileset, textures, Sources(lights), lighting, indeterminate);
      assert lCollisionR == old(lCollisionR) + [];
      var layerCount := 0;
      var i := 0;
      while i < |levelLayers|
        invariant 0 <= i <= |levelLayers|
        invariant Valid() && lEntities == old(lEntities)
        invariant Emitted(steps[..i]).ok && layerCount == |Emitted(steps[..i]).items|
        invariant GridsFilled(Emitted(steps[..i]).items)
        invariant TileLayersGrown(old(lTiles), lTiles, Emitted(steps[..i]).items, tileset, textures, Sources(lights), lighting, indeterminate)
        invariant lCollisionR == old(lCollisionR) + GridCollisions(Emitted(steps[..i]).items, tileset)
      {
        RunSnoc(Outcome([], true), steps, i);
        var step := DecodeTileLayer(levelLayers[i]);
        assert step == steps[i];
        if step.Abort? {
          AbortEnds(steps, i);
          return false;
        }
        if step.Emit? {
          ghost var grids := Emitted(steps[..i]).items;
          EmittedPrefix(steps, i + 1);
          GridsFilledPrefix(grids + [step.value], Emitted(steps).items);
          assert (grids + [step.value])[|grids|] == step.value;
          AddTileLayer(layerCount, step.value, tileset, textures, lights, lighting, indeterminate, old(lTiles), grids, old(lCollisionR));
          layerCount := layerCount + 1;
        }
        i := i + 1;
      }
      assert steps[..i] == steps;
      ok := true;
    }

    /** One "tilelayer" built into tile layer k, the next free one after the grids built so far. */
    method AddTileLayer(k: nat, g: TileGrid, tileset: Tileset, textures: TextureManager, lights: seq<Entity>,
                        lighting: Lighting, indeterminate: Rgb,
                        ghost start: seq<seq<Tile?>>, ghost grids: seq<TileGrid>, ghost base: seq<CollisionRect>)
      requires Valid() && k == |grids| < MaxTileLayers && GridsFilled(grids) && Cells(g) <= |g.ids|
      requires TileLayersGrown(start, lTiles, grids, tileset, textures, Sources(lights), lighting, indeterminate)
      requires lCollisionR == base + GridCollisions(grids, tileset)
      modifies this
      ensures Valid() && lEntities == old(lEntities) && GridsFilled(grids + [g])
      ensures TileLayersGrown(start, lTiles, grids + [g], tileset, textures, Sources(lights), lighting, indeterminate)
      ensures lCollisionR == base + GridCollisions(grids + [g], tileset)
    {
      ghost var before := lTiles;
      BuildTileLayer(k, g, tileset, textures, lights, lighting, indeterminate);
      TileLayersStep(start, before, lTiles, grids, g, tileset, textures, Sources(lights), lighting, indeterminate);
      GridCollisionsSnoc(grids, g, tileset);
    }

    /**
     * CreateCollision: each "collision_rect" object of each "objectgroup"
     * layer becomes a collision rectangle; the result is false when a read
     * throws, and what was added before the throw stays.
     */
    method CreateCollision(doc: LevelDocument) returns (ok: bool)
      modifies this
      ensures lEntities == old(lEntities) && lTiles == old(lTiles)
      ensures ok == CollisionPlan(doc).ok
      ensures lCollisionR == old(lCollisionR) + CollisionPlan(doc).items
    {
      if doc.layers.None? {
        assert lCollisionR == old(lCollisionR) + [];
        return false;
      }
      var levelLayers := doc.layers.value;
      var layerCount := 0;
      var i := 0;
      while i < |levelLayers|
        invariant 0 <= i <= |levelLayers|
        invariant lEntities == old(lEntities) && lTiles == old(lTiles)
        invariant Emitted(CollisionSteps(levelLayers[..i])).ok
        invariant lCollisionR == old(lCollisionR) + Emitted(CollisionSteps(levelLayers[..i])).items
      {
        ghost var pre := CollisionSteps(levelLayers[..i]);
        ghost var mid := CollisionLayerSteps(levelLayers[i]);
        ghost var rest := CollisionSteps(levelLayers[i + 1..]);
        CollisionLayerSplit(levelLayers, i);
        RunAppend(Outcome([], true), pre, mid);
        var layer := levelLayers[i];
        var t := AsString(layer.layerType);
        if t.None? || (t.value == "objectgroup" && layer.objects.None?) {
          assert mid == [Abort] && mid[..0] == [];
          StopsAfter(pre, mid, rest);
          return false;
        }
        if t.value != "objectgroup" {
          assert pre + mid == pre;
          i := i + 1;
          continue;
        }
        var layerOk := CreateLayerCollisions(layer.objects.value, Emitted(pre), old(lCollisionR));
        if !layerOk {
          StopsAfter(pre, mid, rest);
          return false;
        }
        layerCount := layerCount + 1;
        i := i + 1;
      }
      assert levelLayers[..i] == levelLayers;
      ok := true;
    }

    /**
     * The object loop of CreateCollision for one layer, run from the outcome
     * o of the layers before it; `base` is the collision list before the
     * first layer.
     */
    method CreateLayerCollisions(objects: seq<TiledObject>, ghost o: Outcome<CollisionRect>,
                                 ghost base: seq<CollisionRect>) returns (ok: bool)
      requires o.ok && lCollisionR == base + o.items
      modifies this
      ensures lEntities == old(lEntities) && lTiles == old(lTiles)
      ensures ok == Run(o, CollisionObjectSteps(objects)).ok
      ensures lCollisionR == base + Run(o, CollisionObjectSteps(objects)).items
    {
      ghost var steps := CollisionObjectSteps(objects);
      var n := 0;
      while n < |objects|
        invariant 0 <= n <= |objects|
        invariant lEntities == old(lEntities) && lTiles == old(lTiles)
        invariant Run(o, steps[..n]).ok
        invariant lCollisionR == base + Run(o, steps[..n]).items
      {
        RunSnoc(o, steps, n);
        var obj := objects[n];
        var t := AsString(obj.objectType);
        if t.None? {
          RunAbortEnds(o, steps, n);
          return false;
        }
        if t.value != "collision_rect" {
          n := n + 1;
          continue;
        }
        var x, y, w, h := AsReal(obj.x), AsReal(obj.y), AsReal(obj.width), AsReal(obj.height);
        if x.None? || y.None? || w.None? || h.None? {
          RunAbortEnds(o, steps, n);
          return false;
        }
        var collision := CollisionRect(x.value, y.value, FRect(0.0, 0.0, w.value, h.value));
        lCollisionR := lCollisionR + [collision];
        n := n + 1;
      }
      assert steps[..n] == steps;
      ok := true;
    }

    /** Level::CleanupSourceImage: erase the first ".." until none is left, then prefix "assets". */
    static method CleanupSourceImage(source: string) returns (r: string)
      ensures r == "assets" + Collapse(source)
    {
      var s := source;
      var found := FindDoubleDot(s);
      while found.Some?
        invariant Collapse(s) == Collapse(source)
        invariant found == FindDoubleDot(s)
        decreases |s|
      {
        var i := found.value;
        EraseFirstDoubleDot(s, i);
        s := s[..i] + s[i + 2..];
        found := FindDoubleDot(s);
      }
      CollapseNoDoubleDot(s);
      r := "assets" + s;
    }
  }
}
