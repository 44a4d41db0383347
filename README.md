# Face-identity tracking of a webcam face-recognition demo, in Dafny

This project models the core of a small demo that finds faces in webcam
frames, matches them against known faces, and labels them:

- The `Location` value type (`src/location.py`). A location is either
  `UnknownLocation` or a `BBox`. A `BBox` is built from left, top and exactly
  one of right/width and exactly one of bottom/height. Its width and height
  are views derived from its edges.
- The identity-aware detector (`DlibFaceDetector` in `src/facial_detection.py`)
  and its registry `Faces`. The registry keeps three index-aligned lists
  (ids, locations, encodings) and four index maps. Each frame, it blanks
  every location, then resolves each detected face. A face is either moved
  onto the nearest cached encoding within the match threshold, or registered
  as a new `"unknown face#N"` entry.
- The geometry-only detector (`ViolaJonesFaceDetector`). It wraps each
  rectangle the cascade classifier reports into `(BBox, None, {})` and
  replaces its previous faces.

Files and modules:

- `wrappers.dfy` (`Wrappers`): `Option` and `Result`. They stand in for
  Python's `None` defaults, for `ValueError` and for `NoMatchingEncodingError`.
- `locations.dfy` (`Locations`): `BBox`, `Location`, and the `BBox`
  constructor as `MakeBBox`, which returns a `Result`. The setters are update
  functions on the value (`WithWidth`, `WithHeight`).
- `ordered_dicts.dfy` (`OrderedDicts`): a Python `dict` as its list of items
  in insertion order. Only what the registry's constructor needs is here.
- `registry_spec.dfy` (`RegistrySpec`): the pure reference model. It holds
  the nearest-match scan (`ArgMin`, `Match`), the registry state
  (`Registry`, `Tracker`), one detection (`Step`), a whole frame
  (`UpdateFrame`), seeding at construction (`Seed`), the new-id labels
  (`UnknownId`), and the lemmas about all of these.
- `facial_detection.dfy` (`FacialDetection`): the classes `Faces`,
  `DlibFaceDetector` and `ViolaJonesFaceDetector`. Their fields are the source's
  attributes. Their methods change those fields step by step, as the source
  does. The registry and Dlib detector methods that update a whole registry or
  frame are proved equal to the functions of `RegistrySpec`; the single-list
  appends and map writes state their new fields directly; the Viola-Jones
  update is proved equal to `ViolaJonesFaces`.

The external face locator, encoder and distance function are inputs:

- `UpdateFromImage` takes the (rectangle, encoding) pairs the locator and
  encoder found in the downscaled frame.
- Encodings have an arbitrary type `E`.
- `face_distance` is `Distances(encodings, query, dist)` for a caller-supplied
  `dist: (E, E) -> real`.

Coordinates and distances are `real`.

Two behaviours of the code are easy to miss:

- Identities are not unique. A known id with several encodings gets one
  entry per encoding, all with the same id string. Nothing stops a known id
  from reading `"unknown face#1"`. The model proves only that the ids a
  detector generates over its whole life are pairwise distinct.
- The `BBox` constructor sets `left`, `top`, and possibly `right` and
  `bottom` before it raises. The model returns the error and no box, which is the same from
  the outside.

## Model

| member | source | states |
|---|---|---|
| `Locations.BBox.Width` | src/location.py:42-44 | no contract of its own: right - left; see `Locations.MakeBBoxGetters` and `Locations.BBox.WithWidth` |
| `Locations.BBox.Height` | src/location.py:50-52 | no contract of its own: bottom - top; see `Locations.MakeBBoxGetters` and `Locations.BBox.WithHeight` |
| `Locations.BBox.WithWidth` | src/location.py:46-48 | setting the width moves only the right edge to left + w; reading the width back gives w; left, top, bottom and height are unchanged |
| `Locations.BBox.WithHeight` | src/location.py:54-56 | setting the height moves only the bottom edge to top + h; reading the height back gives h; left, top, right and width are unchanged |
| `Locations.MakeBBox` | src/location.py:19-37 | construction succeeds iff exactly one of right/width and exactly one of bottom/height is given; both or neither of a pair fails with that pair's error, and the right/width pair is checked first; on success left/top are as given, right = given right or left + width, bottom = given bottom or top + height |
| `Locations.MakeBBoxGetters` | src/location.py:42-52 | a constructed box's width is the given width or right - left, and its height is the given height or bottom - top |
| `Locations.ConstructorExamples` | tests/test_location.py:8-28 | the four failing and the four succeeding constructor calls of the tests |
| `Locations.GetterSetterExamples` | tests/test_location.py:30-44 | BBox(1,2,right=7,bottom=11) has width 6 and height 9; setting width 6 on BBox(1,2,right=3,bottom=4) gives right 7; setting height 9 on BBox(1,2,right=3,height=4) gives bottom 11 |
| `OrderedDicts.Get` | src/facial_detection.py:75 | a key has a value exactly when it is among the dict's keys |
| `OrderedDicts.Put` | src/facial_detection.py:75 | no contract of its own; see `OrderedDicts.PutGet`, `OrderedDicts.PutKeys` and `OrderedDicts.PutDistinct` |
| `OrderedDicts.PutGet` | src/facial_detection.py:75 | after `d[k] = v`, k maps to v and every other key maps to what it did before |
| `OrderedDicts.PutKeys` | src/facial_detection.py:75 | assigning to an existing key keeps the key order; a new key goes last |
| `OrderedDicts.PutDistinct` | src/facial_detection.py:75 | assigning never creates a duplicate key |
| `RegistrySpec.Distances` | src/facial_detection.py:127 | no contract of its own: entry i is the distance from cached encoding i to the query; see `RegistrySpec.Match` and `FacialDetection.Faces.EncodingMatchIndex` |
| `RegistrySpec.ArgMin` | src/facial_detection.py:124-131 | the left-to-right strict-`<` scan settles on an index holding the minimum distance with every earlier distance strictly larger |
| `RegistrySpec.Match` | src/facial_detection.py:120-134 | a match is the first nearest index with distance <= threshold; no match means every distance exceeds the threshold, which includes an empty cache |
| `RegistrySpec.FirstMinUnique` | src/facial_detection.py:124-131 | at most one index is the first minimum, so the scan's result is determined |
| `RegistrySpec.MatchIff` | src/facial_detection.py:120-134 | both directions: the match is k exactly when k is the first minimum and its distance is within the threshold |
| `RegistrySpec.MatchTieBreak` | src/facial_detection.py:129-131 | when two distances tie within the threshold, the later index is never chosen |
| `RegistrySpec.AllUnknown` | src/facial_detection.py:118 | n locations, all `UnknownLocation` |
| `RegistrySpec.Registry.Append` | src/facial_detection.py:102-110 | no contract of its own; see `RegistrySpec.StepUnmatched` and `FacialDetection.Faces.AddIdWithEncodingAndLocation` |
| `RegistrySpec.Registry.Relocate` | src/facial_detection.py:112-115 | no contract of its own; see `RegistrySpec.StepMatched` and `FacialDetection.Faces.ChangeLocationFromIdIndex` |
| `RegistrySpec.Registry.Blank` | src/facial_detection.py:117-118 | blanking keeps ids, encodings and the number of locations, and makes every location Unknown |
| `RegistrySpec.NatToString` | src/facial_detection.py:170 | the decimal text of N is non-empty, and has at least two digits from 10 on |
| `RegistrySpec.NatToStringInjective` | src/facial_detection.py:170 | distinct counter values print differently |
| `RegistrySpec.UnknownId` | src/facial_detection.py:170 | no contract of its own; see `RegistrySpec.UnknownIdInjective` and `RegistrySpec.UnknownIdExamples` |
| `RegistrySpec.UnknownIdInjective` | src/facial_detection.py:170 | distinct counter values give distinct `"unknown face#N"` labels |
| `RegistrySpec.UnknownIdExamples` | src/facial_detection.py:170 | the labels for 1, 2 and 12 are "unknown face#1", "unknown face#2" and "unknown face#12" |
| `RegistrySpec.Rescale` | src/facial_detection.py:159-164 | the rescaled box is the one the BBox constructor builds from right/bottom with every edge divided by the scale factor, and that construction succeeds |
| `RegistrySpec.Step` | src/facial_detection.py:165-174 | resolving one detection keeps the three lists index-aligned |
| `RegistrySpec.Steps` | src/facial_detection.py:158-174 | resolving the frame's detections in order keeps the three lists index-aligned |
| `RegistrySpec.StepMatched` | src/facial_detection.py:165-167 | a detection within the threshold of some cached encoding moves the first nearest entry to its box; ids, encodings, the counter and every other location are unchanged |
| `RegistrySpec.StepUnmatched` | src/facial_detection.py:168-174 | a detection farther than the threshold from every cached encoding appends exactly one entry ("unknown face#N", its encoding, its box) and advances N by one |
| `RegistrySpec.PlacedIndex` | src/facial_detection.py:165-174 | no contract of its own: the entry one detection places, the matched index or the index it appends; see `RegistrySpec.StepPlaces` |
| `RegistrySpec.Placed` | src/facial_detection.py:158-174 | no contract of its own: the set of entries a frame's detections place; see `RegistrySpec.StepsUnplaced`, `RegistrySpec.StepsPlaced` and `RegistrySpec.UpdateFrameLocations` |
| `RegistrySpec.Unmatched` | src/facial_detection.py:158-174 | no contract of its own: the number of detections that match no cached encoding; see `RegistrySpec.StepsCount` and `RegistrySpec.UpdateFrameCount` |
| `RegistrySpec.StepGrows` | src/facial_detection.py:165-174 | one detection either leaves ids, encodings and the counter unchanged, or appends one "unknown face#N" entry with its encoding and advances N by one |
| `RegistrySpec.StepNameAt` | src/facial_detection.py:165-174 | after one detection an old entry keeps its id, and an appended entry is named after the counter |
| `RegistrySpec.StepPlaces` | src/facial_detection.py:165-174 | one detection sets the location of the entry it places to its box, and every other location is unchanged |
| `RegistrySpec.StepsPrefix` | src/facial_detection.py:158-174 | old ids and encodings stay as a prefix; the count grows by at most one per detection, and the counter advances by exactly the growth |
| `RegistrySpec.StepsNamesAt` | src/facial_detection.py:158-174 | the k-th new entry is named "unknown face#N+k" for the counter N before the detections |
| `RegistrySpec.StepsNames` | src/facial_detection.py:158-174 | the new entries are named "unknown face#N", "#N+1", … in order |
| `RegistrySpec.StepsCount` | src/facial_detection.py:158-174 | the count and the counter both grow by exactly the number of unmatched detections, which is at most the number of detections |
| `RegistrySpec.StepsUnplacedAt` | src/facial_detection.py:158-174 | an entry that no detection placed existed before and keeps its location |
| `RegistrySpec.StepsUnplaced` | src/facial_detection.py:158-174 | every entry that no detection placed existed before and keeps its location |
| `RegistrySpec.StepsPlaced` | src/facial_detection.py:158-174 | every entry a detection placed exists and holds the box of one of this frame's detections |
| `RegistrySpec.StepsGrowth` | src/facial_detection.py:158-174 | entries are only appended and never removed or renamed; cached encodings never change; the counter advances by exactly the number of new entries; new entries are named "unknown face#N", "#N+1", … in order; at most one new entry per detection |
| `RegistrySpec.StepsLocations` | src/facial_detection.py:158-174 | each location after the detections is either what the entry had before or the box of one of this frame's detections |
| `RegistrySpec.UpdateFrameGrowth` | src/facial_detection.py:157-174 | after a frame, the count is the old count plus the counter's advance, at most one per detection; old ids and encodings are kept as a prefix; new ids are the next unknown-face labels |
| `RegistrySpec.UpdateFrame` | src/facial_detection.py:148-174 | no contract of its own; see `RegistrySpec.UpdateFrameGrowth`, `RegistrySpec.UpdateFrameCount`, `RegistrySpec.UpdateFrameLocations` and `FacialDetection.DlibFaceDetector.UpdateFromImage` |
| `RegistrySpec.UpdateFrameCount` | src/facial_detection.py:157-174 | after a frame, the count and the counter both grow by exactly the number of its detections that matched no cached encoding |
| `RegistrySpec.UpdateFrameNewIdsDistinct` | src/facial_detection.py:168-174 | the ids one frame adds are pairwise distinct |
| `RegistrySpec.UpdateFrameLocations` | src/facial_detection.py:157-174 | after a frame, an entry that none of its detections placed is an old entry and is Unknown; an entry one did place holds the box of one of the frame's detections; so every location is Unknown or a box of this frame |
| `RegistrySpec.UpdateFrameNoFaces` | src/facial_detection.py:157-158 | a frame with no faces keeps ids, encodings, the counter and the count, and leaves every location Unknown |
| `RegistrySpec.FirstUnknownFaces` | src/facial_detection.py:146 | with nothing seeded, a first face becomes "unknown face#1", a second face farther than the threshold from it becomes "unknown face#2", and the counter reaches 3 |
| `RegistrySpec.MergeImagesSpec` | src/facial_detection.py:65-75 | after the image encodings are merged into the known encodings, each id given images has its images' encodings, every other id keeps its own, and ids stay distinct |
| `RegistrySpec.MergeImages` | src/facial_detection.py:65-75 | no contract of its own; see `RegistrySpec.MergeImagesSpec` |
| `RegistrySpec.SeedEntries` | src/facial_detection.py:77-78 | no contract of its own; see `RegistrySpec.SeedEntriesShape` |
| `RegistrySpec.Seed` | src/facial_detection.py:76-78 | no contract of its own; see `RegistrySpec.SeedShape` and `FacialDetection.Faces.constructor` |
| `RegistrySpec.SeedEntriesShape` | src/facial_detection.py:77-78 | seeding one id appends one entry per encoding, each with that id and Unknown location, in order |
| `RegistrySpec.SeedShape` | src/facial_detection.py:76-78 | construction yields one entry per seeded encoding: the ids are each id repeated once per encoding, the encodings are all encodings in order, and every location is Unknown |
| `FacialDetection.Faces.constructor` | src/facial_detection.py:53-78 | the new registry is consistent and equals the seed of the known encodings after the image encodings are merged in; with no argument the default threshold is 0.6 |
| `FacialDetection.Faces.Entries` | src/facial_detection.py:80-83 | iteration yields one (location, id, {}) triple per id index, in id order, with that entry's location |
| `FacialDetection.Faces.AddId` | src/facial_detection.py:85-86 | appends the id and changes nothing else |
| `FacialDetection.Faces.AddLocation` | src/facial_detection.py:88-89 | appends the location and changes nothing else |
| `FacialDetection.Faces.AddEncoding` | src/facial_detection.py:91-92 | appends the encoding and changes nothing else |
| `FacialDetection.Faces.MapIdIndexToLocationIndex` | src/facial_detection.py:94-96 | records the id-to-location and location-to-id pairs and changes nothing else |
| `FacialDetection.Faces.MapIdIndexToEncodingIndex` | src/facial_detection.py:98-100 | records id-to-[encoding] and encoding-to-id and changes nothing else |
| `FacialDetection.Faces.AddIdWithEncodingAndLocation` | src/facial_detection.py:102-110 | appends exactly one element to each list; the lists stay equal in length and all four maps stay the identity on the indices |
| `FacialDetection.Faces.ChangeLocationFromIdIndex` | src/facial_detection.py:112-115 | replaces exactly the location of that entry; ids, encodings, the maps and every other location are unchanged |
| `FacialDetection.Faces.SetAllLocationsToUnknown` | src/facial_detection.py:117-118 | keeps the number of locations, makes each Unknown, and changes nothing else |
| `FacialDetection.Faces.EncodingMatchIndex` | src/facial_detection.py:120-134 | the scan returns `Match` of the distances to the cached encodings, used with the given threshold or, when none is given, the registry's default |
| `FacialDetection.Faces.IdIndexFromEncodingMatch` | src/facial_detection.py:136-138 | the id index of the matched encoding is the encoding index itself, or no match |
| `FacialDetection.DlibFaceDetector.constructor` | src/facial_detection.py:140-146 | the detector's registry is seeded as `Faces` seeds it, the counter starts at 1, and the scale factor defaults to 0.25 |
| `FacialDetection.DlibFaceDetector.GeneratedIdsDistinct` | src/facial_detection.py:146-174 | in a consistent detector, the ids after the seeded entries, all generated over its life, are pairwise distinct |
| `FacialDetection.DlibFaceDetector.ResolveFace` | src/facial_detection.py:165-174 | one detection changes the registry and the counter exactly as `Step` does; the detector invariant is kept (entries after the seeded ones are "unknown face#1", "#2", … and the counter is one past the last) |
| `FacialDetection.DlibFaceDetector.UpdateFromImage` | src/facial_detection.py:148-174 | the registry and counter after the frame are `UpdateFrame` of those before it, and the detector invariant is kept |
| `FacialDetection.RectToFace` | src/facial_detection.py:37 | a rectangle (x, y, w, h) becomes a Known box with left x, top y, right x + w, bottom y + h (width w, height h), no id and empty extra data |
| `FacialDetection.ViolaJonesFaces` | src/facial_detection.py:36-41 | one face per rectangle, in order, each a Known box with the rectangle's left/top/width/height, no id and empty extra data |
| `FacialDetection.ViolaJonesFaceDetector.constructor` | src/facial_detection.py:28-29 | a new detector has no faces |
| `FacialDetection.ViolaJonesFaceDetector.UpdateFromImage` | src/facial_detection.py:31-41 | the faces are replaced by `ViolaJonesFaces` of this frame's rectangles, with nothing kept from earlier frames |

## Left out

- Camera capture (`src/video_capture.py`), drawing and the key-press loop (`src/__main__.py`) and environment loading (`src/__init__.py`) are not part of this model. They are device I/O and UI.
- The OpenCV and dlib calls are inputs, not code: colour conversion, resizing, `detectMultiScale`, `face_locations`, `face_encodings`, `face_distance` and `load_image_file`. The rectangles, encodings and the distance function are parameters.
- `FacialDetection.Faces.constructor`: each image in `known_face_images` is given as the encoding the encoder finds in it. The `[0]` that fails for an image without a face is therefore not modelled.
- `FacialDetection.Faces.constructor`: the source writes the image encodings into the caller's `known_face_encodings` dict. The model builds a new list, so this aliasing is not captured. A `None` dict is the empty list.
- `RegistrySpec.MergeImagesSpec`: requires distinct keys in both lists, which a Python dict guarantees.
- Floating-point arithmetic: distances and coordinates are exact reals. There is no rounding, NaN or infinity. So the source's `math.inf` start value is `None`, and a threshold of infinity cannot be passed. With such a threshold and an empty cache, the source returns -1 and then raises `KeyError`.
- `FacialDetection.DlibFaceDetector.constructor`: requires a scale factor > 0. The source accepts any value, but resizing and the division fail for other values.
- `FacialDetection.Faces.ChangeLocationFromIdIndex`: requires an existing id index. The source raises `KeyError` otherwise, and its only caller passes a matched index.
- `FacialDetection.DlibFaceDetector.UpdateFromImage`: takes the detections as (rectangle, encoding) pairs. The source's `zip` of the two encoder outputs is not modelled, since the encoder returns one encoding per rectangle.
- `BBox` is a value, not a mutable object. The setters return the updated box; sharing one box object between holders is not modelled.
- `BBox.__str__` is left out; it only formats text.
- The abstract bases `BaseFaceDetector`, `BaseLocation` and `BaseKnownLocation` are not modelled. The variants are datatype constructors, and the two detector classes have the same method name but no common interface.
- The error classes of `src/errors.py` become `Option`/`Result` values, not a class hierarchy.
