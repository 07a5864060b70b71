/**
 * The asset caches: textures and fonts (replace on reload), tilesets (a 64-px
 * grid cut from one image) and dialogue scripts (kept on reload). External
 * outcomes (is there a renderer, did the image or font open, what did a JSON
 * file decode to) are parameters.
 */
module Resources {
  import opened Common
  import opened Geometry
  import opened Json
  import opened Paths

  /** An SDL_Texture handle. */
  datatype Texture = Texture(id: nat)

  /** A TTF_Font handle. */
  datatype Font = Font(id: nat)

  /**
   * One cell of a tileset: its texture, its source rectangle, the texture key a
   * tile looks up, and the collision sub-rectangles relative to the tile's corner.
   */
  datatype TileData = TileData(tileTexture: Option<Texture>, rect: IRect, texture: string, collisionRects: seq<FRect>)

  /** A TileData as declared: the 64x64 rectangle at the origin and nothing else set. */
  const DefaultTileData := TileData(None, IRect(0, 0, 64, 64), "", [])

  const TileSize := 64

  /** A tileset: the whole image and its cells in reading order. */
  datatype Tileset = Tileset(textureTiles: Option<Texture>, tiles: seq<TileData>)

  /** The value-initialised Tileset GetTileset hands out for an unknown path. */
  const EmptyTileset := Tileset(None, [])

  /**
   * The cell with a given id in reading order, or DefaultTileData when the id is
   * outside the list.
   */
  function GetTile(ts: Tileset, id: int): (d: TileData)
    ensures 0 <= id < |ts.tiles| ==> d == ts.tiles[id]
    ensures !(0 <= id < |ts.tiles|) ==> d == DefaultTileData
  {
    if 0 <= id < |ts.tiles| then ts.tiles[id] else DefaultTileData
  }

  /** The outcome of loading a replace-on-reload cache entry: Some(handle) stores it, None keeps the map. */
  function LoadAll<K, V>(m: map<K, V>, loads: seq<(K, Option<V>)>): map<K, V>
  {
    if |loads| == 0 then m
    else
      var m' := LoadAll(m, loads[..|loads| - 1]);
      var (k, v) := loads[|loads| - 1];
      if v.Some? then m'[k := v.value] else m'
  }

  /** No load at a position after i stores a handle under k. */
  ghost predicate NoLoadAfter<K, V>(loads: seq<(K, Option<V>)>, k: K, i: int)
  {
    forall j :: 0 <= j < |loads| && i < j && loads[j].0 == k ==> loads[j].1.None?
  }

  /** A key no load stores keeps its old entry, or its absence. */
  lemma {:induction false} LoadAllUntouched<K, V>(m: map<K, V>, loads: seq<(K, Option<V>)>, k: K)
    requires NoLoadAfter(loads, k, -1)
    ensures k in LoadAll(m, loads) <==> k in m
    ensures k in m ==> LoadAll(m, loads)[k] == m[k]
  {
    if |loads| > 0 {
      var init := loads[..|loads| - 1];
      assert forall j :: 0 <= j < |init| ==> init[j] == loads[j];
      LoadAllUntouched(m, init, k);
    }
  }

  /** A key maps to the handle of the last load that stored one under it. */
  lemma {:induction false} LoadAllLastWins<K, V>(m: map<K, V>, loads: seq<(K, Option<V>)>, k: K, i: int)
    requires 0 <= i < |loads| && loads[i].0 == k && loads[i].1.Some?
    requires NoLoadAfter(loads, k, i)
    ensures k in LoadAll(m, loads) && LoadAll(m, loads)[k] == loads[i].1.value
  {
    var init := loads[..|loads| - 1];
    assert forall j :: 0 <= j < |init| ==> init[j] == loads[j];
    if i < |loads| - 1 {
      LoadAllLastWins(m, init, k, i);
    }
  }

  /** Loading two batches one after the other is loading their concatenation. */
  lemma {:induction false} LoadAllAppend<K, V>(m: map<K, V>, a: seq<(K, Option<V>)>, b: seq<(K, Option<V>)>)
    ensures LoadAll(m, a + b) == LoadAll(LoadAll(m, a), b)
  {
    if |b| == 0 {
      assert a + b == a;
    } else {
      var init := b[..|b| - 1];
      assert (a + b)[..|a + b| - 1] == a + init;
      LoadAllAppend(m, a, init);
    }
  }

  /** A directory scan's loads: every path paired with the handle the load produced (None when there is no renderer). */
  function ScanLoads<V>(ps: seq<string>, rendererPresent: bool, load: string -> Option<V>): (r: seq<(string, Option<V>)>)
    ensures |r| == |ps|
    ensures forall i :: 0 <= i < |ps| ==> r[i] == (ps[i], if rendererPresent then load(ps[i]) else None)
  {
    seq(|ps|, i requires 0 <= i < |ps| => (ps[i], if rendererPresent then load(ps[i]) else None))
  }

  /** TextureManager: texture path to SDL_Texture, plus the handles passed to SDL_DestroyTexture so far. */
  class TextureManager {
    var textures: map<string, Texture>
    var destroyed: seq<Texture>

    constructor ()
      ensures textures == map[] && destroyed == []
    {
      textures, destroyed := map[], [];
    }

    predicate TextureExists(path: string)
      reads this
    {
      path in textures
    }

    /** The stored handle, or None (NULL) for an unknown path. */
    function GetTexture(path: string): (r: Option<Texture>)
      reads this
      ensures r.None? <==> !TextureExists(path)
      ensures r.Some? ==> r.value == textures[path]
    {
      if TextureExists(path) then Some(textures[path]) else None
    }

    method RemoveTexture(path: string) returns (ok: bool)
      modifies this
      ensures ok == old(TextureExists(path))
      ensures textures == old(textures) - {path}
      ensures destroyed == old(destroyed) + (if ok then [old(textures)[path]] else [])
    {
      if !TextureExists(path) { return false; }
      var texture := GetTexture(path).value;
      destroyed := destroyed + [texture];
      textures := textures - {path};
      ok := true;
    }

    /**
     * LoadTexture: fails without a renderer or when the image does not load;
     * otherwise destroys any old handle for the path and stores the new one.
     */
    method LoadTexture(path: string, rendererPresent: bool, loaded: Option<Texture>) returns (ok: bool)
      modifies this
      ensures ok == (rendererPresent && loaded.Some?)
      ensures ok ==> textures == old(textures)[path := loaded.value]
      ensures ok ==> destroyed == old(destroyed) + (if path in old(textures) then [old(textures)[path]] else [])
      ensures !ok ==> textures == old(textures) && destroyed == old(destroyed)
    {
      if !rendererPresent { return false; }
      if loaded.None? { return false; }
      if TextureExists(path) {
        var _ := RemoveTexture(path);
      }
      textures := textures[path := loaded.value];
      ok := true;
    }

    /** Initalize: every scanned entry is normalised and, when it names a ".png", loaded. */
    method Initalize(entries: seq<string>, rendererPresent: bool, load: string -> Option<Texture>)
      modifies this
      ensures textures == LoadAll(old(textures), ScanLoads(PathsToLoad(entries, ".png"), rendererPresent, load))
      ensures old(destroyed) <= destroyed
    {
      ghost var loads: seq<(string, Option<Texture>)> := [];
      var i := 0;
      while i < |entries|
        invariant 0 <= i <= |entries|
        invariant loads == ScanLoads(PathsToLoad(entries[..i], ".png"), rendererPresent, load)
        invariant textures == LoadAll(old(textures), loads)
        invariant old(destroyed) <= destroyed
      {
        assert entries[..i + 1][..i] == entries[..i];
        var path := NormalisePath(entries[i]);
        if EndsWith(path, ".png") {
          var _ := LoadTexture(path, rendererPresent, load(path));
          loads := loads + [(path, if rendererPresent then load(path) else None)];
          assert loads[..|loads| - 1] == ScanLoads(PathsToLoad(entries[..i], ".png"), rendererPresent, load);
        }
        i := i + 1;
      }
      assert entries[..|entries|] == entries;
    }
  }

  /** FontManager: (font name, point size) to TTF_Font, plus the handles passed to TTF_CloseFont so far. */
  class FontManager {
    var fonts: map<(string, int), Font>
    var closed: seq<Font>

    constructor ()
      ensures fonts == map[] && closed == []
    {
      fonts, closed := map[], [];
    }

    predicate FontExists(name: string, size: int)
      reads this
    {
      (name, size) in fonts
    }

    /** The stored font, or None (NULL) for an unknown (name, size). */
    function GetFont(name: string, size: int): (r: Option<Font>)
      reads this
      ensures r.None? <==> !FontExists(name, size)
      ensures r.Some? ==> r.value == fonts[(name, size)]
    {
      if FontExists(name, size) then Some(fonts[(name, size)]) else None
    }

    method RemoveFont(name: string, size: int) returns (ok: bool)
      modifies this
      ensures ok == old(FontExists(name, size))
      ensures fonts == old(fonts) - {(name, size)}
      ensures closed == old(closed) + (if ok then [old(fonts)[(name, size)]] else [])
    {
      if !FontExists(name, size) { return false; }
      var font := GetFont(name, size).value;
      closed := closed + [font];
      fonts := fonts - {(name, size)};
      ok := true;
    }

    /**
     * LoadFont: fails without a renderer or when the file does not open; otherwise
     * closes any font stored under the same (name, size) and stores the new one.
     * The file path is only handed to TTF_OpenFont, whose outcome is `font`.
     */
    method LoadFont(name: string, path: string, size: int, rendererPresent: bool, font: Option<Font>) returns (ok: bool)
      modifies this
      ensures ok == (rendererPresent && font.Some?)
      ensures ok ==> fonts == old(fonts)[(name, size) := font.value]
      ensures ok ==> closed == old(closed) + (if (name, size) in old(fonts) then [old(fonts)[(name, size)]] else [])
      ensures !ok ==> fonts == old(fonts) && closed == old(closed)
    {
      if !rendererPresent { return false; }
      if font.None? { return false; }
      if FontExists(name, size) {
        var _ := RemoveFont(name, size);
      }
      fonts := fonts[(name, size) := font.value];
      ok := true;
    }

    /**
     * Initalize: for every manifest entry in iteration order, open its file at each
     * listed size and store it under (key, size); the first entry whose "file" is
     * not a string or whose "sizes" is not an array of numbers throws, and the
     * handler stops the whole scan there.
     */
    method Initalize(manifest: Option<seq<FontEntry>>, rendererPresent: bool, open: (string, int) -> Option<Font>)
      modifies this
      ensures fonts == LoadAll(old(fonts), FontLoads(ManifestLoads(manifest), rendererPresent, open))
      ensures old(closed) <= closed
    {
      if manifest.None? { return; }
      var entries := manifest.value;
      ghost var loads: seq<FontLoad> := [];
      var i := 0;
      while i < |entries|
        invariant 0 <= i <= |entries|
        invariant EntryLoads(entries[..i]).Some? && loads == EntryLoads(entries[..i]).value
        invariant fonts == LoadAll(old(fonts), FontLoads(loads, rendererPresent, open))
        invariant old(closed) <= closed
        decreases |entries| - i
      {
        assert entries[..i + 1][..i] == entries[..i];
        var decoded := DecodeFontEntry(entries[i]);
        if decoded.None? {
          EntryLoadsStops(entries, i);
          return;
        }
        var file, sizes := decoded.value.0, decoded.value.1;
        LoadSizes(entries[i].key, file, sizes, rendererPresent, open);
        FontLoadsAppend(loads, SizeLoads(entries[i].key, file, sizes), rendererPresent, open);
        LoadAllAppend(old(fonts), FontLoads(loads, rendererPresent, open), FontLoads(SizeLoads(entries[i].key, file, sizes), rendererPresent, open));
        loads := loads + SizeLoads(entries[i].key, file, sizes);
        i := i + 1;
      }
      assert entries[..|entries|] == entries;
    }

    /** The inner loop of Initalize: one LoadFont per listed size, in array order. */
    method LoadSizes(name: string, file: string, sizes: seq<int>, rendererPresent: bool, open: (string, int) -> Option<Font>)
      modifies this
      ensures fonts == LoadAll(old(fonts), FontLoads(SizeLoads(name, file, sizes), rendererPresent, open))
      ensures old(closed) <= closed
    {
      var j := 0;
      while j < |sizes|
        invariant 0 <= j <= |sizes|
        invariant fonts == LoadAll(old(fonts), FontLoads(SizeLoads(name, file, sizes[..j]), rendererPresent, open))
        invariant old(closed) <= closed
      {
        SizeLoadsStep(old(fonts), name, file, sizes, j, rendererPresent, open);
        var _ := LoadFont(name, file, sizes[j], rendererPresent, open(file, sizes[j]));
        j := j + 1;
      }
      assert sizes[..|sizes|] == sizes;
    }
  }

  /** One manifest item: its key, its "file" value and its "sizes" array (None when "sizes" is not an array). */
  datatype FontEntry = FontEntry(key: string, file: JValue, sizes: Option<seq<JValue>>)

  /** One LoadFont call the manifest asks for. */
  datatype FontLoad = FontLoad(name: string, file: string, size: int)

  /** get<std::vector<int>>() on an array: every element must convert. */
  function AsIntArray(vs: seq<JValue>): (r: Option<seq<int>>)
    ensures r.Some? ==> |r.value| == |vs|
    ensures r.Some? <==> forall i :: 0 <= i < |vs| ==> AsInt(vs[i]).Some?
    ensures r.Some? ==> forall i :: 0 <= i < |vs| ==> r.value[i] == AsInt(vs[i]).value
  {
    if |vs| == 0 then Some([])
    else
      var init := AsIntArray(vs[..|vs| - 1]);
      var last := AsInt(vs[|vs| - 1]);
      assert forall i :: 0 <= i < |vs| - 1 ==> vs[..|vs| - 1][i] == vs[i];
      if init.Some? && last.Some? then Some(init.value + [last.value]) else None
  }

  /** The file and sizes of a manifest entry, or None when decoding throws. */
  function DecodeFontEntry(e: FontEntry): Option<(string, seq<int>)>
  {
    match (AsString(e.file), e.sizes)
    case (Some(file), Some(vs)) =>
      (match AsIntArray(vs) case Some(sizes) => Some((file, sizes)) case None => None)
    case _ => None
  }

  /** The LoadFont calls for one entry: one per size, in array order. */
  function SizeLoads(key: string, file: string, sizes: seq<int>): (r: seq<FontLoad>)
    ensures |r| == |sizes|
    ensures forall i :: 0 <= i < |sizes| ==> r[i] == FontLoad(key, file, sizes[i])
  {
    seq(|sizes|, i requires 0 <= i < |sizes| => FontLoad(key, file, sizes[i]))
  }

  /** The LoadFont calls for a list of entries, or None if one of them fails to decode. */
  function EntryLoads(entries: seq<FontEntry>): Option<seq<FontLoad>>
  {
    if |entries| == 0 then Some([])
    else
      var init := EntryLoads(entries[..|entries| - 1]);
      var last := DecodeFontEntry(entries[|entries| - 1]);
      if init.Some? && last.Some? then Some(init.value + SizeLoads(entries[|entries| - 1].key, last.value.0, last.value.1))
      else None
  }

  /** The calls made before the scan stops: all entries up to the first one that fails to decode. */
  function ManifestLoads(manifest: Option<seq<FontEntry>>): seq<FontLoad>
  {
    if manifest.None? then [] else PrefixLoads(manifest.value, |manifest.value|)
  }

  /** The calls of the longest decodable prefix of entries[..n]. */
  function PrefixLoads(entries: seq<FontEntry>, n: nat): seq<FontLoad>
    requires n <= |entries|
  {
    if EntryLoads(entries[..n]).Some? then EntryLoads(entries[..n]).value
    else if n == 0 then []
    else PrefixLoads(entries, n - 1)
  }

  lemma {:induction false} EntryLoadsFailurePersists(entries: seq<FontEntry>, i: nat, n: nat)
    requires i < n <= |entries| && EntryLoads(entries[..i]).Some? && DecodeFontEntry(entries[i]).None?
    ensures EntryLoads(entries[..n]).None?
  {
    if n == i + 1 {
      assert entries[..n][..n - 1] == entries[..i];
    } else {
      EntryLoadsFailurePersists(entries, i, n - 1);
      assert entries[..n][..n - 1] == entries[..n - 1];
    }
  }

  /** When entry i is the first that fails to decode, the scan's calls are exactly those of entries[..i]. */
  lemma {:induction false} EntryLoadsStops(entries: seq<FontEntry>, i: nat)
    requires i < |entries| && EntryLoads(entries[..i]).Some? && DecodeFontEntry(entries[i]).None?
    ensures ManifestLoads(Some(entries)) == EntryLoads(entries[..i]).value
  {
    var n := |entries|;
    while n > i
      invariant i <= n <= |entries|
      invariant PrefixLoads(entries, |entries|) == PrefixLoads(entries, n)
      decreases n
    {
      EntryLoadsFailurePersists(entries, i, n);
      n := n - 1;
    }
  }

  /** What each call stores: the font TTF_OpenFont gave for (file, size), or nothing without a renderer. */
  function FontLoads(loads: seq<FontLoad>, rendererPresent: bool, open: (string, int) -> Option<Font>): (r: seq<((string, int), Option<Font>)>)
    ensures |r| == |loads|
    ensures forall i :: 0 <= i < |loads| ==>
      r[i] == ((loads[i].name, loads[i].size), if rendererPresent then open(loads[i].file, loads[i].size) else None)
  {
    seq(|loads|, i requires 0 <= i < |loads| =>
      ((loads[i].name, loads[i].size), if rendererPresent then open(loads[i].file, loads[i].size) else None))
  }

  /** One more size in LoadSizes: the store gains that size's font exactly when the renderer is there and the open succeeds. */
  lemma SizeLoadsStep(m: map<(string, int), Font>, name: string, file: string, sizes: seq<int>, j: nat,
                      rendererPresent: bool, open: (string, int) -> Option<Font>)
    requires j < |sizes|
    ensures var before := LoadAll(m, FontLoads(SizeLoads(name, file, sizes[..j]), rendererPresent, open));
            LoadAll(m, FontLoads(SizeLoads(name, file, sizes[..j + 1]), rendererPresent, open)) ==
            if rendererPresent && open(file, sizes[j]).Some? then before[(name, sizes[j]) := open(file, sizes[j]).value] else before
  {
    var step := FontLoads(SizeLoads(name, file, sizes[..j + 1]), rendererPresent, open);
    assert sizes[..j + 1][..j] == sizes[..j];
    assert step[..j] == FontLoads(SizeLoads(name, file, sizes[..j]), rendererPresent, open);
    assert step[j] == ((name, sizes[j]), if rendererPresent then open(file, sizes[j]) else None);
  }

  lemma FontLoadsAppend(a: seq<FontLoad>, b: seq<FontLoad>, rendererPresent: bool, open: (string, int) -> Option<Font>)
    ensures FontLoads(a + b, rendererPresent, open) == FontLoads(a, rendererPresent, open) + FontLoads(b, rendererPresent, open)
  {
  }

  /** What SDL_QueryTexture reports for a loaded tileset image: the handle and its size in pixels. */
  datatype TilesetImage = TilesetImage(texture: Texture, w: nat, h: nat)

  /** Cell i of a grid with `cols` columns: the 64x64 rectangle in column i mod cols, row i div cols. */
  function GridTile(texture: Texture, cols: nat, i: nat): TileData
    requires cols > 0
  {
    TileData(Some(texture), IRect(TileSize * (i % cols), TileSize * (i / cols), TileSize, TileSize), "", [])
  }

  /** A w x h image cut into whole 64x64 cells, row by row; partial cells at the right and bottom edges are dropped. */
  function Grid(texture: Texture, w: nat, h: nat): (r: seq<TileData>)
    ensures |r| == (h / TileSize) * (w / TileSize)
  {
    var cols, rows := w / TileSize, h / TileSize;
    if cols == 0 then [] else seq(rows * cols, i requires 0 <= i < rows * cols => GridTile(texture, cols, i))
  }

  /** The tileset a loaded image yields, or None when IMG_LoadTexture fails. */
  function TilesetFrom(image: Option<TilesetImage>): Option<Tileset>
  {
    match image
    case None => None
    case Some(im) => Some(Tileset(Some(im.texture), Grid(im.texture, im.w, im.h)))
  }

  /** The tileset loads of a directory scan. */
  function ImageLoads(ps: seq<string>, rendererPresent: bool, images: string -> Option<TilesetImage>): (r: seq<(string, Option<Tileset>)>)
    ensures |r| == |ps|
    ensures forall i :: 0 <= i < |ps| ==> r[i] == (ps[i], if rendererPresent then TilesetFrom(images(ps[i])) else None)
  {
    seq(|ps|, i requires 0 <= i < |ps| => (ps[i], if rendererPresent then TilesetFrom(images(ps[i])) else None))
  }

  lemma MulAtLeast(c: nat, k: int)
    requires k >= 1
    ensures c * k >= c
    decreases k
  {
    if k > 1 {
      MulAtLeast(c, k - 1);
      assert c * k == c * (k - 1) + c;
    }
  }

  /** Cell y * cols + x of a grid lies in row y, column x. */
  lemma RowColumn(cols: nat, x: nat, y: nat)
    requires x < cols
    ensures (y * cols + x) % cols == x && (y * cols + x) / cols == y
  {
    var a := y * cols + x;
    var q, r := a / cols, a % cols;
    assert a == cols * q + r && 0 <= r < cols;
    assert cols * (y - q) == r - x;
    if y - q >= 1 {
      MulAtLeast(cols, y - q);
      assert false;
    }
    if q - y >= 1 {
      MulAtLeast(cols, q - y);
      assert false;
    }
  }

  /** The nested loop of LoadTileset: y over rows, x over columns, one cell pushed per step. */
  method CutGrid(texture: Texture, w: nat, h: nat) returns (tiles: seq<TileData>)
    ensures tiles == Grid(texture, w, h)
  {
    var rows, cols := h / TileSize, w / TileSize;
    tiles := [];
    var y := 0;
    while y < rows
      invariant 0 <= y <= rows
      invariant |tiles| == y * cols
      invariant forall k :: 0 <= k < |tiles| ==> cols > 0 && tiles[k] == GridTile(texture, cols, k)
    {
      var x := 0;
      while x < cols
        invariant 0 <= x <= cols
        invariant |tiles| == y * cols + x
        invariant forall k :: 0 <= k < |tiles| ==> cols > 0 && tiles[k] == GridTile(texture, cols, k)
      {
        RowColumn(cols, x, y);
        tiles := tiles + [TileData(Some(texture), IRect(TileSize * x, TileSize * y, TileSize, TileSize), "", [])];
        x := x + 1;
      }
      y := y + 1;
    }
  }

  /** TilesetManager: tileset image path to its cut-up Tileset. */
  class TilesetManager {
    var tilesets: map<string, Tileset>

    constructor ()
      ensures tilesets == map[]
    {
      tilesets := map[];
    }

    predicate TilesetExists(path: string)
      reads this
    {
      path in tilesets
    }

    /** The stored tileset, or the empty one for an unknown path. */
    function GetTileset(path: string): (r: Tileset)
      reads this
      ensures TilesetExists(path) ==> r == tilesets[path]
      ensures !TilesetExists(path) ==> r == EmptyTileset
    {
      if TilesetExists(path) then tilesets[path] else EmptyTileset
    }

    /**
     * RemoveTileset: a known path is erased and true returned, an unknown one
     * gives false. The `FreeTiles` call on the copy it takes is not recorded as
     * destroy events: it destroys the sheet texture once per cell and once
     * more, which is undefined behaviour after the first.
     */
    method RemoveTileset(path: string) returns (ok: bool)
      modifies this
      ensures ok == old(TilesetExists(path))
      ensures tilesets == old(tilesets) - {path}
    {
      if !TilesetExists(path) { return false; }
      tilesets := tilesets - {path};
      ok := true;
    }

    /**
     * LoadTileset: fails without a renderer or when the image does not load;
     * otherwise replaces any tileset stored for the path with the image and its grid.
     */
    method LoadTileset(path: string, rendererPresent: bool, image: Option<TilesetImage>) returns (ok: bool)
      modifies this
      ensures ok == (rendererPresent && image.Some?)
      ensures ok ==> tilesets == old(tilesets)[path := TilesetFrom(image).value]
      ensures !ok ==> tilesets == old(tilesets)
    {
      if !rendererPresent { return false; }
      if image.None? { return false; }
      var im := image.value;
      if TilesetExists(path) {
        var _ := RemoveTileset(path);
      }
      var tiles := CutGrid(im.texture, im.w, im.h);
      tilesets := tilesets[path := Tileset(Some(im.texture), tiles)];
      ok := true;
    }

    /** Initalize: every scanned entry is normalised and, when it names a ".png", loaded. */
    method Initalize(entries: seq<string>, rendererPresent: bool, images: string -> Option<TilesetImage>)
      modifies this
      ensures tilesets == LoadAll(old(tilesets), ImageLoads(PathsToLoad(entries, ".png"), rendererPresent, images))
    {
      ghost var loads: seq<(string, Option<Tileset>)> := [];
      var i := 0;
      while i < |entries|
        invariant 0 <= i <= |entries|
        invariant loads == ImageLoads(PathsToLoad(entries[..i], ".png"), rendererPresent, images)
        invariant tilesets == LoadAll(old(tilesets), loads)
      {
        assert entries[..i + 1][..i] == entries[..i];
        var path := NormalisePath(entries[i]);
        if EndsWith(path, ".png") {
          var _ := LoadTileset(path, rendererPresent, images(path));
          loads := loads + [(path, if rendererPresent then TilesetFrom(images(path)) else None)];
          assert loads[..|loads| - 1] == ImageLoads(PathsToLoad(entries[..i], ".png"), rendererPresent, images);
        }
        i := i + 1;
      }
      assert entries[..|entries|] == entries;
    }
  }

  /** One message of a dialogue script. */
  datatype DialogueMessage = DialogueMessage(text: string, textRate: real, canSkip: bool)

  /** A parsed dialogue file: its "messages" member, None when that is not an array. */
  datatype DialogueFile = DialogueFile(messages: Option<seq<map<string, JValue>>>)

  /** A member of a JSON object as operator[] sees it: null when missing. */
  function Field(obj: map<string, JValue>, key: string): (v: JValue)
    ensures key !in obj ==> v == JNull
    ensures key in obj ==> v == obj[key]
  {
    if key in obj then obj[key] else JNull
  }

  /** One message object, or None when one of its three fields has the wrong type. */
  function DecodeMessage(obj: map<string, JValue>): (r: Option<DialogueMessage>)
    ensures r.Some? <==> AsReal(Field(obj, "text_rate")).Some? && AsString(Field(obj, "text_message")).Some? && AsBool(Field(obj, "can_skip")).Some?
    ensures r.Some? ==> r.value == DialogueMessage(AsString(Field(obj, "text_message")).value, AsReal(Field(obj, "text_rate")).value, AsBool(Field(obj, "can_skip")).value)
  {
    match (AsReal(Field(obj, "text_rate")), AsString(Field(obj, "text_message")), AsBool(Field(obj, "can_skip")))
    case (Some(rate), Some(text), Some(skip)) => Some(DialogueMessage(text, rate, skip))
    case _ => None
  }

  /** All messages of a script, or None if any of them fails to decode. */
  function DecodeMessages(objs: seq<map<string, JValue>>): (r: Option<seq<DialogueMessage>>)
    ensures r.Some? <==> forall i :: 0 <= i < |objs| ==> DecodeMessage(objs[i]).Some?
    ensures r.Some? ==> |r.value| == |objs| && forall i :: 0 <= i < |objs| ==> r.value[i] == DecodeMessage(objs[i]).value
  {
    if |objs| == 0 then Some([])
    else
      var init := DecodeMessages(objs[..|objs| - 1]);
      var last := DecodeMessage(objs[|objs| - 1]);
      assert forall i :: 0 <= i < |objs| - 1 ==> objs[..|objs| - 1][i] == objs[i];
      if init.Some? && last.Some? then Some(init.value + [last.value]) else None
  }

  /** A script file's messages, or None when LoadJSON or a get<> throws. */
  function DecodeFile(file: Option<DialogueFile>): Option<seq<DialogueMessage>>
  {
    if file.None? || file.value.messages.None? then None else DecodeMessages(file.value.messages.value)
  }

  /** The outcome of a batch of std::map::insert calls: a success adds its key only when the key is new. */
  function InsertAll<K, V>(m: map<K, V>, loads: seq<(K, Option<V>)>): map<K, V>
  {
    if |loads| == 0 then m
    else
      var m' := InsertAll(m, loads[..|loads| - 1]);
      var (k, v) := loads[|loads| - 1];
      if v.Some? && k !in m' then m'[k := v.value] else m'
  }

  lemma InsertAllSnoc<K, V>(m: map<K, V>, loads: seq<(K, Option<V>)>, l: (K, Option<V>))
    ensures InsertAll(m, loads + [l]) ==
      if l.1.Some? && l.0 !in InsertAll(m, loads) then InsertAll(m, loads)[l.0 := l.1.value] else InsertAll(m, loads)
  {
    assert (loads + [l])[..|loads|] == loads;
  }

  /** An entry already present survives every later insert unchanged. */
  lemma {:induction false} InsertAllKeeps<K, V>(m: map<K, V>, loads: seq<(K, Option<V>)>, k: K)
    requires k in m
    ensures k in InsertAll(m, loads) && InsertAll(m, loads)[k] == m[k]
  {
    if |loads| > 0 {
      InsertAllKeeps(m, loads[..|loads| - 1], k);
    }
  }

  /** A new key maps to the first successful load of it. */
  lemma {:induction false} InsertAllFirstWins<K, V>(m: map<K, V>, loads: seq<(K, Option<V>)>, k: K, i: int)
    requires k !in m && 0 <= i < |loads| && loads[i].0 == k && loads[i].1.Some?
    requires forall j :: 0 <= j < i && loads[j].0 == k ==> loads[j].1.None?
    ensures k in InsertAll(m, loads) && InsertAll(m, loads)[k] == loads[i].1.value
  {
    var init := loads[..|loads| - 1];
    assert forall j :: 0 <= j < |init| ==> init[j] == loads[j];
    if i < |loads| - 1 {
      InsertAllFirstWins(m, init, k, i);
      InsertAllKeeps(InsertAll(m, init), [loads[|loads| - 1]], k);
    } else {
      InsertAllAbsent(m, init, k);
    }
  }

  /** A key no load succeeds for is not added. */
  lemma {:induction false} InsertAllAbsent<K, V>(m: map<K, V>, loads: seq<(K, Option<V>)>, k: K)
    requires k !in m && forall j :: 0 <= j < |loads| && loads[j].0 == k ==> loads[j].1.None?
    ensures k !in InsertAll(m, loads)
  {
    if |loads| > 0 {
      var init := loads[..|loads| - 1];
      assert forall j :: 0 <= j < |init| ==> init[j] == loads[j];
      InsertAllAbsent(m, init, k);
    }
  }

  /** The dialogue loads of a directory scan. */
  function DialogueLoads(ps: seq<string>, files: string -> Option<DialogueFile>): (r: seq<(string, Option<seq<DialogueMessage>>)>)
    ensures |r| == |ps|
    ensures forall i :: 0 <= i < |ps| ==> r[i] == (ps[i], DecodeFile(files(ps[i])))
  {
    seq(|ps|, i requires 0 <= i < |ps| => (ps[i], DecodeFile(files(ps[i]))))
  }

  /** DialogueManager: script path to its list of messages. */
  class DialogueManager {
    var dialogue: map<string, seq<DialogueMessage>>

    constructor ()
      ensures dialogue == map[]
    {
      dialogue := map[];
    }

    predicate DialogueExists(path: string)
      reads this
    {
      path in dialogue
    }

    /** The stored messages, or none for an unknown path. */
    function GetDialogue(path: string): (r: seq<DialogueMessage>)
      reads this
      ensures DialogueExists(path) ==> r == dialogue[path]
      ensures !DialogueExists(path) ==> r == []
    {
      if DialogueExists(path) then dialogue[path] else []
    }

    method RemoveDialogue(path: string) returns (ok: bool)
      modifies this
      ensures ok == old(DialogueExists(path))
      ensures dialogue == old(dialogue) - {path}
    {
      if !DialogueExists(path) { return false; }
      dialogue := dialogue - {path};
      ok := true;
    }

    /**
     * LoadDialogue: decodes every message in order; any decoding error aborts with
     * false and no change. On success the messages are inserted, which keeps an
     * entry already stored under the path, and the result is true either way.
     */
    method LoadDialogue(path: string, file: Option<DialogueFile>) returns (ok: bool)
      modifies this
      ensures ok == DecodeFile(file).Some?
      ensures ok && path !in old(dialogue) ==> dialogue == old(dialogue)[path := DecodeFile(file).value]
      ensures !ok || path in old(dialogue) ==> dialogue == old(dialogue)
    {
      if file.None? || file.value.messages.None? { return false; }
      var objs := file.value.messages.value;
      var messages: seq<DialogueMessage> := [];
      var i := 0;
      while i < |objs|
        invariant 0 <= i <= |objs|
        invariant DecodeMessages(objs[..i]) == Some(messages)
      {
        assert objs[..i + 1][..i] == objs[..i];
        var m := DecodeMessage(objs[i]);
        if m.None? { return false; }
        messages := messages + [m.value];
        i := i + 1;
      }
      assert objs[..|objs|] == objs;
      if path !in dialogue {
        dialogue := dialogue[path := messages];
      }
      ok := true;
    }

    /** Initalize: every scanned entry is normalised and, when it names a ".json", loaded. */
    method Initalize(entries: seq<string>, files: string -> Option<DialogueFile>)
      modifies this
      ensures dialogue == InsertAll(old(dialogue), DialogueLoads(PathsToLoad(entries, ".json"), files))
    {
      ghost var loads: seq<(string, Option<seq<DialogueMessage>>)> := [];
      var i := 0;
      while i < |entries|
        invariant 0 <= i <= |entries|
        invariant loads == DialogueLoads(PathsToLoad(entries[..i], ".json"), files)
        invariant dialogue == InsertAll(old(dialogue), loads)
      {
        assert entries[..i + 1][..i] == entries[..i];
        var path := NormalisePath(entries[i]);
        if EndsWith(path, ".json") {
          var _ := LoadDialogue(path, files(path));
          InsertAllSnoc(old(dialogue), loads, (path, DecodeFile(files(path))));
          loads := loads + [(path, DecodeFile(files(path)))];
          assert loads[..|loads| - 1] == DialogueLoads(PathsToLoad(entries[..i], ".json"), files);
        }
        i := i + 1;
      }
      assert entries[..|entries|] == entries;
    }
  }
}
