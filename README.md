# DDNet editor map I/O and tile-art import, modelled in Dafny

This project models two parts of the DDNet map editor:

- **Map I/O.** `CEditorMap::Save` writes a map to a datafile, and `CEditorMap::Load` reads one back. `CEditorMap::PerformSanityChecks` is the pass that runs after a load. The model also covers the `MakeVersion` helper and the upgrade of deprecated sound sources.
- **Tile-art import.** `tileart.cpp` turns a PNG into tile layers:
  - it reads the image pixel by pixel;
  - it collects the distinct opaque colours and sorts them by the colour order;
  - it splits them into groups of 255 colours;
  - it draws each group as a 16×16-tile image;
  - it adds one image and one tile layer per group to a new layer group.

The properties proved are round trips from save to load, the exact outcome of the sanity pass, the limits of the automapper, the tile-art layout and the import thresholds.

Modules (one file each):

- **`Container`** (container.dfy): the datafile.
  - A writer class `Writer` holds the items and data blocks that `AddItem`, `AddData` and `AddDataSwapped` append.
  - A reader value `DataFile` offers `GetType`, `FindItem`, `GetData` and `GetDataSwapped`.
  - An item is a type, an id and its 32-bit words.
  - A swapped block holds its words little-endian.
- **`MapItems`** (mapitems.dfy): the item layouts and record codecs:
  - tiles and the tele, speedup, switch and tune records;
  - envelope points and their bezier tangents;
  - sound sources, current and deprecated;
  - `MakeVersion`.
- **`MapModel`** (mapmodel.dfy): the editor's map as values:
  - info, settings, images, sounds, groups, layers and envelopes;
  - C strings;
  - packing and splitting of the settings block;
  - the mapping between a layer's kind and its flags.
- **`SaveSpec`** (savespec.dfy): the file that `Save` writes, as functions over the growing list of items and blocks.
- **`LoadSpec`** (loadspec.dfy): the map that `Load` reads from a file, as functions. This includes:
  - the version check;
  - the info fold with its early stops;
  - tile-layer kinds and their side layers;
  - the checks on quad and sound references;
  - the envelope point access;
  - the automapper items;
  - the sanity pass, with its error reports.
- **`MapLoader`** (mapload.dfy): the load loops as methods, each proved equal to its `LoadSpec` function.
- **`EditorMap`** (editormap.dfy):
  - the save loops as methods writing to a `Container.Writer`, each proved equal to its `SaveSpec` function;
  - the class `EditorMap`, whose fields are the map's parts, with `Clean`, `Save`, `Load`, `PerformSanityChecks` and the automapper pass.
- **`TileArt`** (tileart.dfy): `tileart.cpp`:
  - the colour order;
  - pixel reads and writes on byte buffers and arrays;
  - unique colours, grouping and colour lookup;
  - the tile layers and their tile indices;
  - the class `Editor` with `CallbackAddTileart`, `TileartCheckColors` and `AddTileart`.
- **`MapProperties`** (mapproofs.dfy): round trips from each saved item back through the loader: info, images, sounds, tile layers, quad and sound layers, group headers, and envelopes with their points.
- **`LoadProperties`** (loadproofs.dfy): what the sanity pass does exactly, what the automapper pass may change, and the tile indices of loaded tele, speedup, switch and tune layers.
- **`FileProperties`** (fileproofs.dfy): the whole saved file holds exactly the envelope section of the map, so every envelope loads back.
- **`LayerRuns`** and **`MapRoundTrip`** (roundtrip.dfy): the sections `Save` writes, read back through `Load`'s loops. The image and sound sections load back in their saved form. In the group section, each group's run of layer items loads back as its written layers, and the automapper items configure exactly the plain tile layers they were written for.
- **`SavedMapRoundTrip`** (savedmap.dfy): the whole round trip. The file `Save` writes for a map passes `Load`'s version check, and `LoadedMap` of that file is `SavedMap` of the map. `SavedMap` is the map in the form the file format gives it:
  - images widened to RGBA, and an external image as the image directory gives it back;
  - empty quad and sound layers dropped;
  - the tiles of tele, speedup, switch and tune layers rebuilt from their side arrays;
  - automapper settings kept for plain tile layers only;
  - envelope names and points as they are stored.

The editor's collaborators are parameters:

- Reading and decoding files is a `Services` value. It holds the PNG loader, the parallax-zoom helpers, the expansion of skip-encoded tiles inside `CLayerTiles::ExtractTiles`, image-format decoding, and the `IsValid*Tile` predicates with the entity constants (as `EntityRules`).
- Opening the file for writing is a boolean.
- Opening the file for reading is an `Option<DataFile>`.

## Model

| member | source | states |
|---|---|---|
| Container.OfType | src/game/editor/mapitems/map_io.cpp:591-597 | GetType's items are exactly the items of that type: each result has the type and is in the file; none when no item has it |
| Container.OfTypeAppend | src/game/editor/mapitems/map_io.cpp:591-597 | the items of a type in a concatenation are those of each part, in order |
| Container.FindItem | src/game/editor/mapitems/map_io.cpp:433-437 | the found item has the asked type and id; nothing is found iff no item has both |
| Container.Int32RoundTrip | src/game/editor/mapitems/map_io.cpp:300 | a 32-bit word stored little-endian reads back as itself |
| Container.WordsRoundTrip | src/game/editor/mapitems/map_io.cpp:833 | a block written with AddDataSwapped reads back with GetDataSwapped as the same words |
| Container.Writer.Open | src/game/editor/mapitems/map_io.cpp:43-49 | an opened writer holds no items and no blocks |
| Container.Writer.AddItem | src/game/editor/mapitems/map_io.cpp:55 | the item is appended and the blocks are untouched |
| Container.Writer.AddData | src/game/editor/mapitems/map_io.cpp:64 | the block is appended, its index is the old block count, and the items are untouched |
| Container.Writer.AddDataSwapped | src/game/editor/mapitems/map_io.cpp:300 | the words are appended as one little-endian block whose index is returned |
| MapItems.MakeVersionSplits | src/game/editor/mapitems/map_io.cpp:17-21 | a version made of i and a size below 65536 splits back into i and the size |
| MapItems.EncodeAllLength | src/game/editor/mapitems/map_io.cpp:243-258 | records of a fixed size encode to size × count bytes |
| MapItems.DecodeAllLength | src/game/editor/mapitems/map_io.cpp:709-711 | a block of at least size × n bytes decodes to n records |
| MapItems.CodecRoundTrip | src/game/editor/mapitems/map_io.cpp:712-713 | records whose codec round-trips decode from their encoding to themselves |
| MapItems.TileRecordsRoundTrip | src/game/editor/mapitems/map_io.cpp:243-258 | tile, tele, speedup, switch and tune records have their file sizes and decode from their bytes to themselves |
| MapItems.ZeroTilesDecode | src/game/editor/mapitems/map_io.cpp:243 | the zero block saved for a physics layer decodes to zero tiles |
| MapItems.BezierRoundTrip | src/game/editor/mapitems/map_io.cpp:390-399 | a bezier record has 16 words and reads back as the same tangents |
| MapItems.RecordsOfFlatten | src/game/editor/mapitems/map_io.cpp:884-888 | fixed-size records laid end to end split back into the same records |
| MapItems.FlattenLength | src/game/editor/mapitems/map_io.cpp:884-888 | n records of a fixed size take size × n words |
| MapItems.SourceRoundTrip | src/game/editor/mapitems/map_io.cpp:858-861 | a sound source is 13 words and reads back as itself |
| MapModel.CStr | src/game/editor/mapitems/map_io.cpp:452-459 | str_copy keeps the bytes before the first NUL: a NUL-free prefix, followed by a NUL or the end |
| MapModel.CStrOfTerminated | src/game/editor/mapitems/map_io.cpp:64 | a NUL-free string saved with its terminator reads back whole |
| MapModel.PackSettingsSize | src/game/editor/mapitems/map_io.cpp:83-87 | the settings block is as long as the sum of the command lengths plus one each |
| MapModel.PackSettingsCons | src/game/editor/mapitems/map_io.cpp:88-96 | the block is each command followed by its NUL, in order |
| MapModel.SettingsRoundTrip | src/game/editor/mapitems/map_io.cpp:466-474 | splitting a packed settings block at its NULs gives back the commands |
| LoadSpec.FixRef | src/game/editor/mapitems/map_io.cpp:826-827 | a quad image or layer sound outside -1..count-1 becomes -1, any other is kept |
| LoadSpec.NewTilesLayer | src/game/editor/mapitems/map_io.cpp:640-694 | a new tile layer has the given size and kind, and width × height tiles |
| LoadSpec.TilesHeader | src/game/editor/mapitems/map_io.cpp:636-704 | the layer built from a tilemap item has one tile per cell |
| MapLoader.StrLength | src/game/editor/mapitems/map_io.cpp:472 | str_length at pos is the length of the C string there, within the block |
| MapLoader.NextCommand | src/game/editor/mapitems/map_io.cpp:470-474 | one loop step takes one command and moves past its NUL, following SplitSettings |
| MapLoader.SplitSettingsBlock | src/game/editor/mapitems/map_io.cpp:466-474 | the settings loop yields SplitSettings of the block, which SettingsRoundTrip inverts |
| MapLoader.SplitAtCommand | src/game/editor/mapitems/map_io.cpp:470-474 | splitting from pos gives the command at pos and then the split of the rest |
| MapLoader.InfoFoldStopped | src/game/editor/mapitems/map_io.cpp:461-465 | once the info loop breaks, later items change nothing |
| MapLoader.ReadInfoItem | src/game/editor/mapitems/map_io.cpp:448-474 | one pass over an info item: skipped for id ≠ 0, strings taken when ≥ 0, break on a wrong version, short item or no settings |
| MapLoader.ReadInfo | src/game/editor/mapitems/map_io.cpp:440-477 | the info loop, with its item size taken from the first item, equals LoadInfo |
| MapLoader.ReadImages | src/game/editor/mapitems/map_io.cpp:479-541 | the image loop equals LoadImages: external images come from the PNG loader, embedded ones from the data block |
| MapLoader.ReadSounds | src/game/editor/mapitems/map_io.cpp:543-586 | the sound loop equals LoadSounds |
| MapLoader.UpdateTiles | src/game/editor/mapitems/map_io.cpp:715-721 | each tile index is recomputed from its side record, and nothing else changes |
| MapLoader.OffsetEntities | src/game/editor/mapitems/map_io.cpp:807-814 | every non-zero index gains ENTITY_OFFSET, zeros stay |
| MapLoader.ReadTilesLayer | src/game/editor/mapitems/map_io.cpp:636-816 | the tilemap branch equals LoadTiles |
| MapLoader.ReadTiles | src/game/editor/mapitems/map_io.cpp:706-816 | the side-layer and tile-data branches equal TilesContent |
| MapLoader.UpgradeSources | src/game/editor/mapitems/map_io.cpp:888-906 | each deprecated source is upgraded field by field: pan on, falloff 0, circle shape of the old falloff distance |
| MapLoader.ReadLayer | src/game/editor/mapitems/map_io.cpp:636-909 | one layer item equals LoadLayer: a tile, quads, sounds or deprecated-sounds layer, or none for a bad version or type |
| MapLoader.KeptStep | src/game/editor/mapitems/map_io.cpp:630-634 | one more index in a group's layer loop adds the layer loaded at that index, or nothing when the index is outside the layer items or its item loads no layer |
| MapLoader.ReadLayerAt | src/game/editor/mapitems/map_io.cpp:632-634 | a missing layer item is skipped |
| MapLoader.AddLayerAt | src/game/editor/mapitems/map_io.cpp:630-634 | one step of the layer loop keeps the loaded layers equal to LoadGroupLayers |
| MapLoader.ReadGroupLayers | src/game/editor/mapitems/map_io.cpp:630-909 | the layer loop of a group equals LoadGroupLayers |
| MapLoader.ReadGroups | src/game/editor/mapitems/map_io.cpp:588-912 | the group loop equals LoadGroups: bad versions skipped, clipping and name by version |
| MapLoader.ReadEnvelope | src/game/editor/mapitems/map_io.cpp:922-938 | one envelope equals LoadEnvelope: points and tangents from the point access, name unless the first word is -1, sync from version 2 |
| MapLoader.ReadEnvelopes | src/game/editor/mapitems/map_io.cpp:914-940 | the envelope loop equals LoadEnvelopes |
| EditorMap.CopyString | src/game/editor/mapitems/map_io.cpp:93-95 | the command and its NUL are copied at the offset; earlier bytes stay |
| EditorMap.PackSettingsBuffer | src/game/editor/mapitems/map_io.cpp:80-97 | the settings buffer equals PackSettings and has the computed size |
| EditorMap.SettingsStep | src/game/editor/mapitems/map_io.cpp:91-96 | one command appends itself and a NUL to the packed block |
| EditorMap.SaveInfo | src/game/editor/mapitems/map_io.cpp:58-102 | the info section written equals InfoOut: -1 for an empty string or no settings |
| EditorMap.ConvertRgbToRgba | src/game/editor/mapitems/map_io.cpp:128-141 | the RGB pixels are widened to RGBA with alpha 255 |
| EditorMap.SaveImages | src/game/editor/mapitems/map_io.cpp:104-149 | the image section equals ImagesOut: name block, then pixels unless external |
| EditorMap.SaveSounds | src/game/editor/mapitems/map_io.cpp:151-165 | the sound section equals SoundsOut |
| SaveSpec.PrepareLayer | src/game/editor/mapitems/map_io.cpp:200 | preparing a tile layer for saving rewrites each tile's flags and changes nothing else: same kind, size, indices and fields; other layers are untouched |
| EditorMap.SaveLayer | src/game/editor/mapitems/map_io.cpp:196-336 | a tile layer is prepared before it is written (each tile's flags rewritten by PrepareForSave, nothing else); the prepared layer written equals LayerOut, counters included; empty quad and sound layers are not written |
| EditorMap.SaveGroup | src/game/editor/mapitems/map_io.cpp:169-339 | one group comes back with its tile layers prepared, and what it writes equals GroupOut of the prepared group: its layers, then the group and group-ex items |
| EditorMap.SaveGroups | src/game/editor/mapitems/map_io.cpp:167-341 | the groups come back with every tile layer prepared, and the group section equals GroupsOut of the prepared groups from zero counters |
| EditorMap.SaveEnvelopes | src/game/editor/mapitems/map_io.cpp:343-358 | the envelope items equal EnvelopesOut, StartPoint being the running point count |
| EditorMap.FindBezier | src/game/editor/mapitems/map_io.cpp:362-375 | the search says exactly whether any point of any envelope is a bezier |
| EditorMap.AllPointWordsStep | src/game/editor/mapitems/map_io.cpp:383-404 | one more envelope appends its point and tangent records |
| EditorMap.EnvelopePointRecords | src/game/editor/mapitems/map_io.cpp:385-403 | one envelope's point records and, if tangents are written, its tangent records |
| EditorMap.SavePoints | src/game/editor/mapitems/map_io.cpp:360-414 | the point items equal PointsOut: one points item, and a tangents item only when a bezier is used |
| EditorMap.DetachInLayers | src/game/editor/mapitems/map_io.cpp:996-1010 | every tile layer on the image loses it, others are unchanged, and one error per such layer |
| EditorMap.EditorMap.Clean | src/game/editor/mapitems/map_io.cpp:430 | Clean leaves the empty map |
| EditorMap.EditorMap.Save | src/game/editor/mapitems/map_io.cpp:36-421 | fails iff the file cannot be opened, and then the map is unchanged; otherwise every tile layer of the map is prepared, nothing else in the map changes, and the file written is SaveFile of the prepared map |
| EditorMap.EditorMap.ApplyAutomapperItems | src/game/editor/mapitems/map_io.cpp:942-969 | only the groups change, as ApplyAutomappers says |
| EditorMap.EditorMap.DetachImageEverywhere | src/game/editor/mapitems/map_io.cpp:993-1012 | the groups lose image i in tile layers, with one error per layer, in order |
| EditorMap.EditorMap.PerformSanityChecks | src/game/editor/mapitems/map_io.cpp:983-1016 | the groups and errors are Sanity of the map; everything but the groups is unchanged |
| EditorMap.EditorMap.ReadSections | src/game/editor/mapitems/map_io.cpp:440-969 | the map read from the sections is LoadedMap of the file |
| EditorMap.EditorMap.Load | src/game/editor/mapitems/map_io.cpp:424-981 | no file: false, map unchanged; missing or wrong version: false, map cleaned; else true with LoadResult's map and errors |
| TileArt.LessIsKeyOrder | src/game/editor/tileart.cpp:7-17 | operator< compares r, then g, then b, then a, i.e. the order of a four-byte key |
| TileArt.KeyInjective | src/game/editor/tileart.cpp:7-17 | distinct colours have distinct keys |
| TileArt.LessIsStrictTotal | src/game/editor/tileart.cpp:7-17 | operator< is irreflexive, transitive, asymmetric and total on distinct colours |
| TileArt.GetPixelColorAsWritten | src/game/editor/tileart.cpp:19-41 | as written: 1-byte pixels are alpha over white, other sizes read three colour bytes; 3-byte pixels are opaque |
| TileArt.GreyAlphaReadOverruns | src/game/editor/tileart.cpp:19-41 | as written, the last 2-byte pixel's read ends one byte past a width × height × 2 buffer |
| TileArt.GetPixelColor | src/game/editor/tileart.cpp:19-41 | the corrected read: agrees with the source for 1-, 3- and 4-byte pixels and reads 2-byte pixels as grey and alpha |
| TileArt.PixelInBounds | src/game/editor/tileart.cpp:22 | every pixel of a width × height image lies inside its buffer |
| TileArt.PixelsDisjoint | src/game/editor/tileart.cpp:22 | distinct pixels occupy disjoint bytes |
| TileArt.SetPixelColor | src/game/editor/tileart.cpp:43-62 | the array afterwards holds the pixel bytes SetPixelBytes describes |
| TileArt.SetThenGet | src/game/editor/tileart.cpp:43-62 | a pixel written and read back gives the stored colour; no other byte changes |
| TileArt.SetKeepsOthers | src/game/editor/tileart.cpp:43-62 | writing one pixel leaves every other pixel's colour as it was |
| TileArt.ArtPixelWritten | src/game/editor/tileart.cpp:113 | writing one pixel of the 1024×1024 art changes that pixel only |
| TileArt.SetColorTile | src/game/editor/tileart.cpp:108-115 | the 64×64 tile (tx, ty) is filled with the colour; every other pixel is kept |
| TileArt.InTileIsTileOf | src/game/editor/tileart.cpp:108-115 | a pixel is in tile (tx, ty) iff its coordinates divided by 64 are tx and ty |
| TileArt.ColorGroupToImage | src/game/editor/tileart.cpp:117-137 | the image is 1024×1024 RGBA, and every pixel of the 64×64 tile (x, y) has the colour in slot x + 16y of the group |
| TileArt.ScanColors | src/game/editor/tileart.cpp:66-77 | the scan so far yields distinct opaque colours, exactly those of the pixels visited |
| TileArt.Insert | src/game/editor/tileart.cpp:64-80 | inserting a colour adds exactly it to the multiset |
| TileArt.InsertSorted | src/game/editor/tileart.cpp:64-80 | inserting a new colour into a strictly sorted list keeps it strictly sorted |
| TileArt.SortColors | src/game/editor/tileart.cpp:78 | sorting is a permutation |
| TileArt.SortColorsSorted | src/game/editor/tileart.cpp:78 | sorting distinct colours gives a strictly increasing list |
| TileArt.SortedIsUnique | src/game/editor/tileart.cpp:78 | two strictly sorted permutations of each other are equal |
| TileArt.UniqueColorsAreOpaqueColors | src/game/editor/tileart.cpp:64-80 | the unique colours are strictly sorted and are exactly the image's colours with alpha > 0 |
| TileArt.GetUniqueColors | src/game/editor/tileart.cpp:64-80 | the loop over the pixels and the sort return UniqueColors |
| TileArt.Find | src/game/editor/tileart.cpp:89 | std::find returns the first position of the colour, or the end |
| TileArt.GetColorIndex | src/game/editor/tileart.cpp:87-93 | the index of the colour's first occurrence, or 0 when it is absent |
| TileArt.GroupColors | src/game/editor/tileart.cpp:95-106 | ceil(n / 255) groups, group k holding colours 255k .. 255k+254 from slot 1 |
| TileArt.ColorIndexInGroups | src/game/editor/tileart.cpp:87-106 | colour i of distinct opaque colours is found at 1 + i mod 255 in group i / 255 and in no other group |
| TileArt.TransparentInNoGroup | src/game/editor/tileart.cpp:87-106 | a transparent pixel gets index 0 in every group |
| TileArt.EachPixelDrawnOnce | src/game/editor/tileart.cpp:179-201 | each opaque pixel is drawn by exactly one layer, at the tile of its colour; transparent pixels by none |
| TileArt.CellsDistinct | src/game/editor/tileart.cpp:184 | distinct (x, y) give distinct tile positions x + y × width |
| TileArt.SetTileIndex | src/game/editor/tileart.cpp:184 | one tile index is set; every other tile is kept |
| TileArt.SetTilelayerIndices | src/game/editor/tileart.cpp:179-186 | each tile index becomes the group index of its pixel's colour; the rest of the layer is unchanged |
| TileArt.ColorGroupsToImages | src/game/editor/tileart.cpp:139-147 | one image per colour group, in order |
| TileArt.DecimalRoundTrip | src/game/editor/tileart.cpp:198 | the image number printed with %zu reads back as the number |
| TileArt.EditorImage | src/game/editor/tileart.cpp:149-163 | the editor image is embedded, carries the name and has the image's pixels |
| TileArt.ArtLayerShell | src/game/editor/tileart.cpp:170-173 | the new layer is a plain tile layer of the art's size |
| TileArt.AddLayerWithImage | src/game/editor/tileart.cpp:165-177 | the image is appended, and a layer using it is appended to the group; nothing else changes |
| TileArt.AddedArtFits | src/game/editor/tileart.cpp:211-253 | an added art has ≤ 10000 pixels, one colour group and stays under 64 images; the refusals happen exactly at those bounds |
| TileArt.NumGroupsOne | src/game/editor/tileart.cpp:95-106 | one group or none iff at most 255 colours; the number of groups is ceil(n / 255) |
| TileArt.Editor.AddTileart | src/game/editor/tileart.cpp:188-209 | one image per colour group, named after the file and k + 1, and one new group whose k-th layer indexes the art's pixels with image k; older images and groups are kept |
| TileArt.Editor.AddColorLayers | src/game/editor/tileart.cpp:196-201 | the loop adds the images and layers of all colour groups, in order |
| TileArt.Editor.AddColorLayer | src/game/editor/tileart.cpp:198-200 | one pass adds the image of group k and a layer drawing the art with it |
| TileArt.Editor.TileartCheckColors | src/game/editor/tileart.cpp:211-229 | the outcome is decided by the image count and the colour groups: 64 or more images after the import is refused with a pop-up and the art dropped, the map unchanged; more than one colour group asks first with a pop-up, the art kept and the map unchanged; otherwise the art's images follow the old images, a group drawing the art follows the old groups, and nothing else in the map changes |
| TileArt.Editor.CallbackAddTileart | src/game/editor/tileart.cpp:231-253 | an undecodable file changes neither the map nor the pop-up; otherwise the art and its file name are kept; more than 10000 pixels is refused with a pop-up and the map unchanged; too many images and too many colours leave the map unchanged with their pop-ups; an added art leaves fewer than 64 images, the art's images and group appended and nothing else in the map changed |
| MapProperties.InfoStringRoundTrip | src/game/editor/mapitems/map_io.cpp:62-77 | an info string is saved as -1 iff it is empty and reads back as itself |
| MapProperties.InfoItemRoundTrip | src/game/editor/mapitems/map_io.cpp:58-102 | the saved info item reads back as the same info and settings |
| MapProperties.InfoItemLoads | src/game/editor/mapitems/map_io.cpp:440-477 | an info item with id 0 and valid refs loads its strings and settings; no settings stops the loop |
| MapProperties.RgbPixelWidened | src/game/editor/mapitems/map_io.cpp:128-141 | pixel j of the widened buffer is the RGB bytes of pixel j and 255 |
| MapProperties.SavedPixelsRgba | src/game/editor/mapitems/map_io.cpp:126-146 | the saved pixels are width × height × 4 bytes, and RGBA data is saved unchanged |
| MapProperties.EmbeddedImageRoundTrip | src/game/editor/mapitems/map_io.cpp:104-149 | an embedded image of any format loads back with its name and size, as RGBA with the saved pixels |
| MapProperties.ExternalImageRoundTrip | src/game/editor/mapitems/map_io.cpp:104-149 | an external image saves only its name, and loads as mapres/<name>.png, or empty when that fails |
| MapProperties.SoundRoundTrip | src/game/editor/mapitems/map_io.cpp:151-165 | a saved sound loads back as itself |
| MapProperties.KindRoundTrip | src/game/editor/mapitems/map_io.cpp:217-228 | a single-kind layer's saved flags give back its kind; flags 0 iff plain |
| MapProperties.TilemapItem | src/game/editor/mapitems/map_io.cpp:200-280 | a tile layer writes one layer item (plus an automapper item when plain) and the blocks the kind calls for |
| MapProperties.TilesDecode | src/game/editor/mapitems/map_io.cpp:258 | saved tiles decode to themselves |
| MapProperties.TilesHeaderRoundTrip | src/game/editor/mapitems/map_io.cpp:636-704 | the tilemap item gives back the layer's kind, size, flags, image, name and colour |
| MapProperties.TileLayerRoundTrip | src/game/editor/mapitems/map_io.cpp:200-263 | a saved tile layer loads back with the same header, tiles when not physics or front, and side records |
| MapProperties.TilemapSideRefs | src/game/editor/mapitems/map_io.cpp:232-237 | only the slot of the layer's physics kind refers to the side block; the others are -1 |
| MapProperties.TilemapLoads | src/game/editor/mapitems/map_io.cpp:636-816 | an item laid out as saved loads as the saved layer |
| MapProperties.SideContentRoundTrip | src/game/editor/mapitems/map_io.cpp:706-800 | each physics kind reads back its side records |
| MapProperties.SpeedupDecode | src/game/editor/mapitems/map_io.cpp:725-745 | the speedup block is 6 bytes per cell and decodes to the speedup records |
| MapProperties.QuadsLayerRoundTrip | src/game/editor/mapitems/map_io.cpp:285-310 | a non-empty quads layer loads back as itself |
| MapProperties.SoundLayerRoundTrip | src/game/editor/mapitems/map_io.cpp:311-335 | a non-empty sounds layer loads back as itself |
| MapProperties.SoundsItemLoads | src/game/editor/mapitems/map_io.cpp:839-863 | a sounds item laid out as saved loads as that layer |
| MapProperties.LayersOutCounts | src/game/editor/mapitems/map_io.cpp:196-336 | LayerCount rises by the written layers, and layer items stay numbered in order |
| MapProperties.GroupOutCounts | src/game/editor/mapitems/map_io.cpp:169-339 | a group item records its first layer index and its number of written layers |
| MapProperties.GroupsOutCounts | src/game/editor/mapitems/map_io.cpp:167-341 | the group items hold StartLayer and NumLayers for every group, in order |
| MapProperties.GroupHeaderRoundTrip | src/game/editor/mapitems/map_io.cpp:169-191 | a saved group header loads back as the group, with the parallax zoom the helper computes |
| MapProperties.GroupHeaderVersions | src/game/editor/mapitems/map_io.cpp:600-628 | offsets and parallax always read; clipping read from version 2 and zero before; name read from version 3 and the default before |
| MapProperties.EnvelopeItems | src/game/editor/mapitems/map_io.cpp:343-358 | one envelope item per envelope, in order |
| MapProperties.PointRoundTrip | src/game/editor/mapitems/map_io.cpp:360-414 | point p of envelope e reads back from StartPoint + p as saved, with tangents when a bezier is used |
| MapProperties.EnvelopeRoundTrip | src/game/editor/mapitems/map_io.cpp:914-940 | each saved envelope loads with its channels, sync, name and points |
| MapProperties.EnvelopeSectionHeld | src/game/editor/mapitems/map_io.cpp:343-414 | after a section with no envelope items, the file holds exactly the envelopes' items |
| LoadProperties.DetachSanitized | src/game/editor/mapitems/map_io.cpp:986-1012 | one pass over image n extends the detachment to image n |
| LoadProperties.LayerErrorsExact | src/game/editor/mapitems/map_io.cpp:996-1010 | a layer is reported iff it is a tile layer of the group using the image; no report twice |
| LoadProperties.GroupErrorsExact | src/game/editor/mapitems/map_io.cpp:993-1012 | a report names a tile layer of some group using the image; no report twice |
| LoadProperties.SanityExact | src/game/editor/mapitems/map_io.cpp:983-1016 | the pass over the first n images detaches exactly the bad ones and reports exactly the layers that used them |
| LoadProperties.SanityResult | src/game/editor/mapitems/map_io.cpp:983-1016 | after the pass no tile layer uses an image whose width or height is not a multiple of 16; nothing else changes |
| LoadProperties.ConfiguredTransitive | src/game/editor/mapitems/map_io.cpp:942-969 | changes to the automapper settings compose |
| LoadProperties.AutomapperOnlyPlain | src/game/editor/mapitems/map_io.cpp:946-965 | one automapper item changes only the config, seed and auto flag of a plain tile layer, and sets them on its target |
| LoadProperties.AutomappersOnlyPlain | src/game/editor/mapitems/map_io.cpp:942-969 | the automapper pass changes only plain tile layers' automapper settings |
| LoadProperties.TeleIndices | src/game/editor/mapitems/map_io.cpp:706-724 | each tile index of a tele layer is its tele tile's type when that type is a valid tele type, and 0 otherwise |
| LoadProperties.SpeedupIndices | src/game/editor/mapitems/map_io.cpp:725-745 | each tile index of a speedup layer is its speedup tile's type when that type is valid and the force is positive, and 0 otherwise |
| LoadProperties.SwitchIndices | src/game/editor/mapitems/map_io.cpp:753-781 | each tile of a switch layer takes the type and flags of its switch tile exactly when that type is outside the skipped weapon range and is armor through door or a valid switch type; otherwise it stays empty |
| LoadProperties.TuneIndices | src/game/editor/mapitems/map_io.cpp:782-800 | each tile index of a tune layer is its tune tile's type when that type is a valid tune type, and 0 otherwise |
| LoadProperties.LoadedSideIndices | src/game/editor/mapitems/map_io.cpp:636-816 | every loaded tile layer follows the tele, speedup, switch and tune index rules exactly: the side tile's type where the game accepts it, 0 (an empty tile for switch) elsewhere |
| FileProperties.GroupsWriteNone | src/game/editor/mapitems/map_io.cpp:167-341 | the group section writes no envelope, point or tangent item |
| FileProperties.SavedFileHoldsEnvelopes | src/game/editor/mapitems/map_io.cpp:36-414 | the saved file's envelope, point and tangent items are exactly those of the map's envelopes |
| FileProperties.SavedEnvelopesLoad | src/game/editor/mapitems/map_io.cpp:914-940 | every envelope of a saved map loads back from the file with its channels, sync, name and saved points |
| LayerRuns.KeptAll | src/game/editor/mapitems/map_io.cpp:630-634 | when every index of a run loads a layer, the layer loop keeps all of the run's layers, in order |
| LayerRuns.ReadLayers | src/game/editor/mapitems/map_io.cpp:630-634 | layer items that each load to a layer give a group exactly the layers from StartLayer to StartLayer + NumLayers |
| MapRoundTrip.TilemapLoadsSaved | src/game/editor/mapitems/map_io.cpp:636-816 | a tilemap item laid out as the saver writes it, with its blocks in the file, loads as the layer's saved form |
| MapRoundTrip.LayerStep | src/game/editor/mapitems/map_io.cpp:196-336 | one more layer keeps every written layer item loading as its layer's saved form: a tile layer adds its item and, when plain, an automapper item; an empty quad or sound layer adds nothing |
| MapRoundTrip.AutomapperStep | src/game/editor/mapitems/map_io.cpp:265-280 | the automapper item written for a plain tile layer configures exactly that layer of that group when the loader applies it |
| MapRoundTrip.GroupLayers | src/game/editor/mapitems/map_io.cpp:169-339 | the layers of one group written so far load back as their saved forms, and their automapper items configure them, in order |
| MapRoundTrip.GroupsSection | src/game/editor/mapitems/map_io.cpp:167-341 | the group section written so far holds the layer, group-ex and automapper items the loader reads the groups back from |
| MapRoundTrip.GroupLayersRead | src/game/editor/mapitems/map_io.cpp:630-634 | group k's layer loop, from its StartLayer over its NumLayers, reads back exactly its written layers in their loaded form |
| MapRoundTrip.GroupRead | src/game/editor/mapitems/map_io.cpp:600-634 | each saved group item passes the version check and loads back as the group with its written layers |
| MapRoundTrip.GroupsReadBack | src/game/editor/mapitems/map_io.cpp:588-912 | the group loop over the saved group items gives back the groups, in order |
| MapRoundTrip.ImagesSection | src/game/editor/mapitems/map_io.cpp:104-149 | the image section adds only image items, which load back as the images in their saved form |
| MapRoundTrip.SoundsSection | src/game/editor/mapitems/map_io.cpp:151-165 | the sound section adds only sound items, which load back as the sounds |
| SavedMapRoundTrip.FileInfo | src/game/editor/mapitems/map_io.cpp:440-477 | a saved file passes the version check, and its info item loads back as the map's info and settings |
| SavedMapRoundTrip.FileImagesSounds | src/game/editor/mapitems/map_io.cpp:479-586 | the images of a saved file load back in their saved form and the sounds as they were |
| SavedMapRoundTrip.GroupsFromFile | src/game/editor/mapitems/map_io.cpp:588-969 | a file holding a saved group section has one group item per group, and the groups read and configured by the automapper items are the groups in their saved form |
| SavedMapRoundTrip.FileGroups | src/game/editor/mapitems/map_io.cpp:588-969 | the groups of a saved file, read and configured by their automapper items, are the map's groups in their saved form |
| SavedMapRoundTrip.FileEnvelopes | src/game/editor/mapitems/map_io.cpp:914-940 | the envelopes of a saved file load back with their names and points as stored |
| SavedMapRoundTrip.SavedMapLoads | src/game/editor/mapitems/map_io.cpp:36-981 | the file Save writes passes Load's version check and loads back as the map in its saved form: the same info, settings and sounds, the images as saved, the groups with their written layers and automapper settings, the envelopes as stored |

## Left out

- File I/O:
  - Opening, writing and closing a file is out, and so is the temporary-file and background-job path of saving.
  - `Save` takes whether the file could be opened. `Load` takes the opened file or nothing.
- Console output and the text passed to `ErrorHandler` are out. Each sanity report is a `SanityError` value holding the image, group and layer indices.
- The following come from outside this code and are fields of the `Services` parameter, unconstrained:
  - PNG decoding (`LoadPNG`), `ReadFile` and the image-format decoding;
  - the sound decoding and the texture uploads;
  - `GetParallaxZoom` and `GetParallaxZoomDefault`;
  - the skip-encoded expansion inside `CLayerTiles::ExtractTiles`, used from tilemap version 4 on. The helper's own source is not part of this model. For older versions, `LoadSpec.ExtractTiles` assumes a plain decode when the block holds every tile, and otherwise leaves the tiles empty;
  - the `IsValid*Tile` predicates and the `ENTITY_*` constants.
- `StrToInts` and `IntsToStr` are not part of this model. Group, layer and envelope names are kept in their packed word form, and the default name is all zero words.
- TileArt.Editor.AddTileart therefore does not set the new group's name to the file name.
- TileArt.AddLayerWithImage therefore does not set the layer's name to the image name.
- TileArt.Editor.AddTileart: the call to `SortImages` after the art is added (tileart.cpp:203) is not modelled, because its body is not part of this model. `TileartAdded` describes the map before that call: the art's images follow the old images. The same holds for the Added outcome of TileArt.Editor.TileartCheckColors and TileArt.Editor.CallbackAddTileart.
- The mapitems headers are not part of this model. The item layouts (word offsets) follow DDNet's `mapitems.h`.
- `CMapBasedEnvelopePointAccess` is not part of this model. The point access follows DDNet's: points from the points item, tangents from the bezier item when present.
- Some editor state is out:
  - `m_CustomParallaxZoom`;
  - `OnModify`, `m_Modified`, `m_ModifiedAuto` and the save and modify times;
  - the dialog state;
  - the game layer and game group pointers that `MakeGameLayer` and `MakeGameGroup` set.
- Automapper configuration files are out. Only the config index, seed and flag that the automapper item carries are modelled.
- UUID-based item types are out. Item types are an enumeration.
- Layers, groups and envelopes are values held in sequences, not shared pointers. Aliasing between the editor's copies is not modelled. SetLastLayer writes back the layer that the source fills in place.
- Unloading data blocks and freeing buffers are out.
- Integer widths:
  - Counters, sizes and indices are unbounded integers.
  - The source's `int` and `size_t` overflow, which needs maps far beyond the editor's limits, is not modelled.
  - Words in swapped blocks are 32-bit values.
- TileArt.SetPixelColor: a 2-byte (grey and alpha) pixel is written as the source writes it, as three bytes. SetThenGet and SetKeepsOthers cover only 1-, 3- and 4-byte pixels.
- A failed load after `Clean` leaves the map empty, because the code calls `Clean` before the version check.
- EditorMap.EditorMap.Save: the new tile flags come from a `TileFlags` parameter. `CLayerTiles::PrepareForSave` and the image flag tables of `CEditorImage::AnalyseTileFlags` are not part of this model, so the flags are not computed here. The model assumes only that preparing rewrites tile flags and nothing else.
- EditorMap.SaveLayer: a prepared tile layer's flags are whatever `TileFlags` gives. Its index, skip and reserved bytes are written unchanged.
- String truncation into fixed-size buffers is not modelled, because the buffer sizes are declared in editor headers that are not part of this model. The members it affects follow.
- MapModel.CStr: reads the whole C string of a block, whereas `str_copy` keeps only what fits in the destination.
- MapLoader.ReadInfoItem: the author, version, credits and license strings are not cut to the sizes of the `CEditorMapInfo` fields.
- MapLoader.ReadImages: the image name is not cut to the size of `m_aName`, and the `mapres/<name>.png` path is not cut to `IO_MAX_PATH_LENGTH`.
- MapLoader.ReadSounds: the sound name is not cut to the size of `m_aName`. The `mapres/<name>.opus` path is formatted but never used by the source, which reads the external sound by its bare name; the model reads it by name too.
- TileArt.EditorImage: the image name `<file> <k>` is not cut to `IO_MAX_PATH_LENGTH`; TileArt.ImageName likewise.
- SavedMapRoundTrip.SavedMapLoads holds for maps that the file format carries exactly (`Saveable`): info strings, settings and image and sound names without a zero byte, group names of full length, and layers that `SaveableLayer` admits (well-formed tile layers; quad and sound layers with a three-word name, in-range references and full records). Other maps save too, but their strings would read back cut at the first zero byte.
- SavedMapRoundTrip.SavedMapLoads: the round trip is stated up to the saved form of the map, not the map itself. Embedded images come back as RGBA, external ones as the image directory gives them, empty quad and sound layers are dropped, and the tiles of physics layers are rebuilt from their side arrays.
- MapLoader.ReadLayerAt: a group's layer l is looked up among the layer items only, at `StartLayer + l`. An index outside them yields no layer. The source reads the global item `LayersStart + StartLayer + l` and stops only past the end of the file. Such an index would reach an item of another type, which needs a file whose group item points beyond its own layers; a file that `Save` writes never does.
- MapLoader.ReadGroups: group g gets the extension item g when there is one and none otherwise. The source reads the global item `StartEx + g` whenever any extension item exists, which reaches an item of another type when there are fewer extension items than groups. A file that `Save` writes holds one extension item per group.
- Container.Word: a word past the end of an item reads as 0. The source reads the item's memory past its end.
- LoadSpec.LoadImage: an embedded image whose data block is shorter than width × height × pixel size is padded with zeros. The source's `mem_copy` (map_io.cpp:518-521) reads past the block.
- LoadSpec.LoadSound: an embedded sound whose data block is shorter than its recorded size is padded with zeros. The source's `mem_copy` reads past the block.
- LoadSpec.LoadQuads: quad records beyond the end of the data block read as zero words. The source copies `sizeof(CQuad)` × `m_NumQuads` bytes (map_io.cpp:833-836) and reads past the block.
- LoadSpec.LoadSoundsLayer: sound source records beyond the end of the data block read as zero words. The source copies `sizeof(CSoundSource)` × `m_NumSources` bytes (map_io.cpp:858-861) and reads past the block.
- Container.DataFile.GetData: a reference that names no block gives an empty block. In the source, `GetData` then returns a null pointer, and `str_copy` of the info strings would read through it. The model treats it as an empty string.
- SaveSpec.SavedPixels and EditorMap.SaveImages: an embedded image in a format other than RGB and RGBA, or with fewer pixel bytes than its size needs, is written as its pixel bytes padded with zeros to 4 × width × height. The source copies 4 × width × height bytes from the image buffer, which reads past the end of a 1- or 2-byte-per-pixel image.

## Findings

| source | as written | input that shows it | evidently intended | confidence | as-written member | corrected member |
|---|---|---|---|---|---|---|
| src/game/editor/tileart.cpp:19-41 | every pixel size other than 1 reads three colour bytes, and 4-byte pixels also read alpha; a 2-byte grey-and-alpha pixel is read as three bytes | a grey-and-alpha PNG of width w and height h held in w × h × 2 bytes: reading pixel (w-1, h-1) reads byte w × h × 2, one past the buffer, and every other pixel takes the next pixel's grey as blue | a 2-byte pixel reads as grey, grey, grey and alpha, inside its own two bytes | medium; not executed | TileArt.GreyAlphaReadOverruns | TileArt.GetPixelColor |
