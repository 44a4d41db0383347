/** The two face detectors and the identity registry of
    src/facial_detection.py, as classes whose fields are the source's
    attributes. Their methods are proved against RegistrySpec. */
module FacialDetection {
  import opened Wrappers
  import opened Locations
  import opened OrderedDicts
  import opened RegistrySpec

  /** One element of a detector's face collection: the
      `(location, id, extra_data)` triple. `extra` is always empty. */
  datatype Face = Face(location: Location, id: Option<string>, extra: map<string, string>)

  /** `m` is `{i: i for i in range(n)}`. */
  ghost predicate IsIdentityOn(m: map<nat, nat>, n: nat) {
    (forall i: nat :: i in m <==> i < n) && (forall i | i in m :: m[i] == i)
  }

  /** `m` is `{i: [i] for i in range(n)}`. */
  ghost predicate IsSingletonsOn(m: map<nat, seq<nat>>, n: nat) {
    (forall i: nat :: i in m <==> i < n) && (forall i | i in m :: m[i] == [i])
  }

  /** `DlibFaceDetector.Faces`: three index-aligned lists and the four maps
      between their indices. */
  class Faces<E> {
    const defaultMaxEncodingMatchDist: real
    var ids: seq<string>
    var locations: seq<Location>
    var encodings: seq<E>
    var idIndexLocationIndexMap: map<nat, nat>
    var locationIndexIdIndexMap: map<nat, nat>
    var idIndexEncodingIndiciesMap: map<nat, seq<nat>>
    var encodingIndexIdIndexMap: map<nat, nat>

    /** The lists have one element per entry, and every map sends index `i`
        of one list to index `i` of the other. */
    ghost predicate Valid()
      reads this
    {
      |ids| == |locations| == |encodings| &&
      IsIdentityOn(idIndexLocationIndexMap, |ids|) &&
      IsIdentityOn(locationIndexIdIndexMap, |ids|) &&
      IsIdentityOn(encodingIndexIdIndexMap, |ids|) &&
      IsSingletonsOn(idIndexEncodingIndiciesMap, |ids|)
    }

    function Model(): Registry<E>
      reads this
    {
      Registry(ids, locations, encodings)
    }

    /** `Faces(known_face_images, known_face_encodings, default_max_encoding_match_dist)`.
        A dict is the list of its items in insertion order; each image in
        `knownFaceImages` is given by the encoding the external encoder
        computes for it. */
    constructor (knownFaceImages: seq<(string, seq<E>)> := [],
                 knownFaceEncodings: seq<(string, seq<E>)> := [],
                 defaultMaxEncodingMatchDist: real := DefaultMaxEncodingMatchDist)
      ensures Valid()
      ensures Model() == Seed(MergeImages(knownFaceEncodings, knownFaceImages))
      ensures this.defaultMaxEncodingMatchDist == defaultMaxEncodingMatchDist
    {
      this.defaultMaxEncodingMatchDist := defaultMaxEncodingMatchDist;
      ids, locations, encodings := [], [], [];
      idIndexLocationIndexMap, locationIndexIdIndexMap := map[], map[];
      idIndexEncodingIndiciesMap, encodingIndexIdIndexMap := map[], map[];
      new;
      var known := knownFaceEncodings;
      for i := 0 to |knownFaceImages|
        invariant known == MergeImages(knownFaceEncodings, knownFaceImages[..i])
      {
        assert knownFaceImages[..i + 1][..i] == knownFaceImages[..i];
        known := Put(known, knownFaceImages[i].0, knownFaceImages[i].1);
      }
      assert knownFaceImages[..|knownFaceImages|] == knownFaceImages;
      for i := 0 to |known|
        invariant Valid()
        invariant Model() == Seed(known[..i])
      {
        var (id, encs) := known[i];
        for j := 0 to |encs|
          invariant Valid()
          invariant Model() == SeedEntries(Seed(known[..i]), id, encs[..j])
        {
          assert encs[..j + 1][..j] == encs[..j];
          AddIdWithEncodingAndLocation(id, encs[j], Unknown);
        }
        assert encs[..|encs|] == encs;
        assert known[..i + 1][..i] == known[..i];
      }
      assert known[..|known|] == known;
    }

    /** `__iter__`: one `(location, id, {})` per id index, in id order. */
    function Entries(): (r: seq<Face>)
      reads this
      requires Valid()
      ensures |r| == |ids|
      ensures forall i | 0 <= i < |r| :: r[i] == Face(locations[i], Some(ids[i]), map[])
    {
      seq(|ids|, i requires 0 <= i < |ids| && i in idIndexLocationIndexMap &&
                            idIndexLocationIndexMap[i] < |locations| reads this =>
        Face(locations[idIndexLocationIndexMap[i]], Some(ids[i]), map[]))
    }

    method AddId(id: string)
      modifies this`ids
      ensures ids == old(ids) + [id]
    {
      ids := ids + [id];
    }

    method AddLocation(location: Location)
      modifies this`locations
      ensures locations == old(locations) + [location]
    {
      locations := locations + [location];
    }

    method AddEncoding(encoding: E)
      modifies this`encodings
      ensures encodings == old(encodings) + [encoding]
    {
      encodings := encodings + [encoding];
    }

    method MapIdIndexToLocationIndex(idIndex: nat, locationIndex: nat)
      modifies this`idIndexLocationIndexMap, this`locationIndexIdIndexMap
      ensures idIndexLocationIndexMap == old(idIndexLocationIndexMap)[idIndex := locationIndex]
      ensures locationIndexIdIndexMap == old(locationIndexIdIndexMap)[locationIndex := idIndex]
    {
      idIndexLocationIndexMap := idIndexLocationIndexMap[idIndex := locationIndex];
      locationIndexIdIndexMap := locationIndexIdIndexMap[locationIndex := idIndex];
    }

    method MapIdIndexToEncodingIndex(idIndex: nat, encodingIndex: nat)
      modifies this`idIndexEncodingIndiciesMap, this`encodingIndexIdIndexMap
      ensures idIndexEncodingIndiciesMap == old(idIndexEncodingIndiciesMap)[idIndex := [encodingIndex]]
      ensures encodingIndexIdIndexMap == old(encodingIndexIdIndexMap)[encodingIndex := idIndex]
    {
      idIndexEncodingIndiciesMap := idIndexEncodingIndiciesMap[idIndex := [encodingIndex]];
      encodingIndexIdIndexMap := encodingIndexIdIndexMap[encodingIndex := idIndex];
    }

    /** Appends one element to each list and maps the new id index to the
        new encoding and location indices, which are the same number. */
    method AddIdWithEncodingAndLocation(id: string, encoding: E, location: Location)
      requires Valid()
      modifies this`ids, this`locations, this`encodings,
               this`idIndexLocationIndexMap, this`locationIndexIdIndexMap,
               this`idIndexEncodingIndiciesMap, this`encodingIndexIdIndexMap
      ensures Valid()
      ensures Model() == old(Model()).Append(id, encoding, location)
    {
      var idIndex := |ids|;
      var encodingIndex := |encodings|;
      var locationIndex := |locations|;
      AddId(id);
      AddEncoding(encoding);
      AddLocation(location);
      MapIdIndexToEncodingIndex(idIndex, encodingIndex);
      MapIdIndexToLocationIndex(idIndex, locationIndex);
    }

    /** Replaces the location of entry `idIndex` and nothing else. */
    method ChangeLocationFromIdIndex(idIndex: nat, newLocation: Location)
      requires Valid() && idIndex < |ids|
      modifies this`locations
      ensures Valid()
      ensures Model() == old(Model()).Relocate(idIndex, newLocation)
      ensures ids == old(ids) && encodings == old(encodings)
    {
      var locationIndex := idIndexLocationIndexMap[idIndex];
      locations := locations[locationIndex := newLocation];
    }

    method SetAllLocationsToUnknown()
      requires Valid()
      modifies this`locations
      ensures Valid()
      ensures Model() == old(Model()).Blank()
    {
      locations := AllUnknown(|locations|);
    }

    /** `encoding_match_index`: scans the distances to the cached encodings
        keeping the first strict minimum (`None` playing `math.inf`), then
        accepts it only within the threshold, `defaultMaxEncodingMatchDist`
        when `maxEncodingMatchDist` is `None`. */
    method EncodingMatchIndex(encoding: E, dist: (E, E) -> real, maxEncodingMatchDist: Option<real>)
      returns (r: Option<nat>)
      ensures r == Match(Distances(encodings, encoding, dist),
                         maxEncodingMatchDist.GetOr(defaultMaxEncodingMatchDist))
      ensures r.Some? ==> r.value < |encodings|
    {
      var threshold := if maxEncodingMatchDist.None? then defaultMaxEncodingMatchDist
                       else maxEncodingMatchDist.value;
      var ds := Distances(encodings, encoding, dist);
      var minEncodingDist: Option<real> := None;
      var minEncodingDistIndex: int := -1;
      for encodingIndex := 0 to |ds|
        invariant encodingIndex == 0 ==> minEncodingDist.None?
        invariant encodingIndex > 0 ==>
                    minEncodingDistIndex == ArgMin(ds[..encodingIndex]) &&
                    minEncodingDist == Some(ds[minEncodingDistIndex])
      {
        assert ds[..encodingIndex + 1][..encodingIndex] == ds[..encodingIndex];
        var encodingDist := ds[encodingIndex];
        if minEncodingDist.None? || encodingDist < minEncodingDist.value {
          minEncodingDist := Some(encodingDist);
          minEncodingDistIndex := encodingIndex;
        }
      }
      assert ds[..|ds|] == ds;
      if minEncodingDist.Some? && minEncodingDist.value <= threshold {
        r := Some(minEncodingDistIndex);
      } else {
        r := None;
      }
    }

    /** `id_index_from_encoding_match`: the matched encoding index looked up
        in the encoding-to-id map. */
    method IdIndexFromEncodingMatch(encoding: E, dist: (E, E) -> real, maxEncodingMatchDist: Option<real>)
      returns (r: Option<nat>)
      requires Valid()
      ensures r == Match(Distances(encodings, encoding, dist),
                         maxEncodingMatchDist.GetOr(defaultMaxEncodingMatchDist))
      ensures r.Some? ==> r.value < |ids|
    {
      var encodingIndex := EncodingMatchIndex(encoding, dist, maxEncodingMatchDist);
      match encodingIndex
      case None => r := None;
      case Some(k) => r := Some(encodingIndexIdIndexMap[k]);
    }
  }

  /** `DlibFaceDetector`: the registry, the scale factor it shrinks images
      by, and the counter that numbers unknown faces. */
  class DlibFaceDetector<E> {
    const imageScaleFactor: real
    const faces: Faces<E>
    var unknownFaceNum: nat
    /** How many entries construction seeded; every later entry is an unknown face. */
    ghost const seeded: nat

    /** The registry is consistent, and the entries after the seeded ones are
        "unknown face#1", "unknown face#2", … with the counter one past the last. */
    ghost predicate Valid()
      reads this, faces
    {
      faces.Valid() && imageScaleFactor > 0.0 &&
      seeded <= |faces.ids| &&
      unknownFaceNum == |faces.ids| - seeded + 1 &&
      forall k | seeded <= k < |faces.ids| :: faces.ids[k] == UnknownId(k - seeded + 1)
    }

    function Snapshot(): Tracker<E>
      reads this, faces
    {
      Tracker(faces.Model(), unknownFaceNum)
    }

    /** The ids the detector generates over its whole life are pairwise distinct. */
    lemma GeneratedIdsDistinct()
      requires Valid()
      ensures forall j, k | seeded <= j < k < |faces.ids| :: faces.ids[j] != faces.ids[k]
    {
      forall j, k | seeded <= j < k < |faces.ids| ensures faces.ids[j] != faces.ids[k] {
        if faces.ids[j] == faces.ids[k] {
          UnknownIdInjective(j - seeded + 1, k - seeded + 1);
        }
      }
    }

    /** `DlibFaceDetector(*args, image_scale_factor, **kwargs)`: the other
        arguments go to the registry. */
    constructor (knownFaceImages: seq<(string, seq<E>)> := [],
                 knownFaceEncodings: seq<(string, seq<E>)> := [],
                 defaultMaxEncodingMatchDist: real := DefaultMaxEncodingMatchDist,
                 imageScaleFactor: real := DefaultImageScaleFactor)
      requires imageScaleFactor > 0.0
      ensures Valid()
      ensures faces.Model() == Seed(MergeImages(knownFaceEncodings, knownFaceImages))
      ensures faces.defaultMaxEncodingMatchDist == defaultMaxEncodingMatchDist
      ensures this.imageScaleFactor == imageScaleFactor
      ensures unknownFaceNum == 1
      ensures fresh(faces)
    {
      this.imageScaleFactor := imageScaleFactor;
      var registry := new Faces<E>(knownFaceImages, knownFaceEncodings, defaultMaxEncodingMatchDist);
      faces := registry;
      unknownFaceNum := 1;
      seeded := |registry.ids|;
    }

    /** The body of `update_from_image`'s loop for one face: move the
        matched identity to `faceLocation`, or register a new unknown face. */
    method ResolveFace(faceLocation: BBox, faceEncoding: E, dist: (E, E) -> real)
      requires Valid()
      modifies this`unknownFaceNum, faces
      ensures Valid()
      ensures Snapshot() == Step(old(Snapshot()), faceLocation, faceEncoding,
                                 dist, faces.defaultMaxEncodingMatchDist)
    {
      var faceIdIndex := faces.IdIndexFromEncodingMatch(faceEncoding, dist, None);
      match faceIdIndex
      case Some(k) =>
        faces.ChangeLocationFromIdIndex(k, Known(faceLocation));
      case None =>
        faces.AddIdWithEncodingAndLocation(UnknownId(unknownFaceNum), faceEncoding, Known(faceLocation));
        unknownFaceNum := unknownFaceNum + 1;
    }

    /** `update_from_image` on what the external locator and encoder found
        in the downscaled frame: one (rectangle, encoding) pair per face. */
    method UpdateFromImage(detections: seq<(RawBox, E)>, dist: (E, E) -> real)
      requires Valid()
      modifies this`unknownFaceNum, faces
      ensures Valid()
      ensures Snapshot() == UpdateFrame(old(Snapshot()), detections, imageScaleFactor,
                                        dist, faces.defaultMaxEncodingMatchDist)
    {
      faces.SetAllLocationsToUnknown();
      ghost var start := Snapshot();
      for i := 0 to |detections|
        invariant Valid()
        invariant start.reg.WellFormed()
        invariant Snapshot() == Steps(start, detections[..i], imageScaleFactor,
                                      dist, faces.defaultMaxEncodingMatchDist)
      {
        assert detections[..i + 1][..i] == detections[..i];
        var (raw, faceEncoding) := detections[i];
        ResolveFace(Rescale(raw, imageScaleFactor), faceEncoding, dist);
      }
      assert detections[..|detections|] == detections;
    }
  }

  /** A rectangle as the cascade classifier reports it: (x, y, w, h). */
  datatype Rect = Rect(left: real, top: real, width: real, height: real)

  /** `(BBox(left=left, top=top, width=width, height=height), None, {})`. */
  function RectToFace(rect: Rect): (f: Face)
    ensures f.location == Known(BBox(rect.left, rect.top, rect.left + rect.width, rect.top + rect.height))
    ensures f.location.box.Width() == rect.width && f.location.box.Height() == rect.height
    ensures f.id == None && f.extra == map[]
  {
    match MakeBBox(rect.left, rect.top, None, None, Some(rect.width), Some(rect.height))
    case Success(b) => Face(Known(b), None, map[])
    case Failure(_) => assert false; Face(Unknown, None, map[])
  }

  /** The face collection for one frame: one face per rectangle, in order. */
  function ViolaJonesFaces(rects: seq<Rect>): (r: seq<Face>)
    ensures |r| == |rects|
    ensures forall i | 0 <= i < |rects| ::
              r[i].location.Known? && r[i].location.box.left == rects[i].left &&
              r[i].location.box.top == rects[i].top &&
              r[i].location.box.Width() == rects[i].width &&
              r[i].location.box.Height() == rects[i].height &&
              r[i].id == None && r[i].extra == map[]
  {
    seq(|rects|, i requires 0 <= i < |rects| => RectToFace(rects[i]))
  }

  /** `ViolaJonesFaceDetector`: keeps only the faces of the latest frame. */
  class ViolaJonesFaceDetector {
    var faces: seq<Face>

    constructor ()
      ensures faces == []
    {
      faces := [];
    }

    /** `update_from_image` on what the cascade classifier found: the
        previous faces are replaced, not merged. */
    method UpdateFromImage(rects: seq<Rect>)
      modifies this
      ensures faces == ViolaJonesFaces(rects)
    {
      faces := ViolaJonesFaces(rects);
    }
  }
}
