/**
 * The face gallery (`FaceSystem` in face_system.py): two parallel ordered
 * lists, encodings and names, where index `i` of one belongs with index `i`
 * of the other. Persistence is abstract: loading yields an outcome, saving
 * hands over the dictionary that would be pickled.
 */
module FaceStore {
  import opened Common
  import opened Matching
  import opened Rescaling

  /** The file name `FaceSystem()` uses when the caller gives none. */
  const DEFAULT_STORAGE_FILE: string := "faces.pkl"

  /** The pickled dictionary; a key may be absent from a file written elsewhere. */
  datatype StoredData<E> = StoredData(encodings: Option<seq<E>>, names: Option<seq<string>>)

  /** What reading the storage file produced. */
  datatype LoadOutcome<E> =
    | FileMissing                  // `os.path.exists` was false
    | ReadOk(data: StoredData<E>)  // the file unpickled to a dictionary
    | ReadError                    // opening or unpickling raised

  class FaceSystem<E> {
    const storageFile: string
    var knownFaceEncodings: seq<E>
    var knownFaceNames: seq<string>

    /** Index alignment of the two lists; `load_data` does not check it. */
    predicate Aligned()
      reads this
    {
      |knownFaceEncodings| == |knownFaceNames|
    }

    /** Start with empty lists, then load (lines 15-18). */
    constructor (storageFile: string, stored: LoadOutcome<E>)
      ensures this.storageFile == storageFile
      ensures stored.FileMissing? || stored.ReadError? ==> knownFaceEncodings == [] && knownFaceNames == []
      ensures stored.ReadOk? ==> knownFaceEncodings == stored.data.encodings.GetOr([]) &&
                                 knownFaceNames == stored.data.names.GetOr([])
    {
      this.storageFile := storageFile;
      knownFaceEncodings := [];
      knownFaceNames := [];
      new;
      LoadData(stored);
    }

    /** Replace both lists by the stored ones, reset both on error, keep both when there is no file. */
    method LoadData(stored: LoadOutcome<E>)
      modifies this
      ensures stored.FileMissing? ==> knownFaceEncodings == old(knownFaceEncodings) &&
                                      knownFaceNames == old(knownFaceNames)
      ensures stored.ReadOk? ==> knownFaceEncodings == stored.data.encodings.GetOr([]) &&
                                 knownFaceNames == stored.data.names.GetOr([])
      ensures stored.ReadError? ==> knownFaceEncodings == [] && knownFaceNames == []
    {
      match stored
      case FileMissing =>
      case ReadOk(data) =>
        knownFaceEncodings := data.encodings.GetOr([]);
        knownFaceNames := data.names.GetOr([]);
      case ReadError =>
        knownFaceEncodings := [];
        knownFaceNames := [];
    }

    /** The dictionary `save_data` pickles: both full lists. */
    method SaveData() returns (data: StoredData<E>)
      ensures data.encodings == Some(knownFaceEncodings) && data.names == Some(knownFaceNames)
    {
      data := StoredData(Some(knownFaceEncodings), Some(knownFaceNames));
    }

    /**
     * Append the pair at the end of both lists and save; `saved` is what
     * `save_data` is handed.
     */
    method AddNewFace(name: string, faceEncoding: E) returns (saved: StoredData<E>)
      modifies this
      ensures knownFaceNames == old(knownFaceNames) + [name]
      ensures knownFaceEncodings == old(knownFaceEncodings) + [faceEncoding]
      ensures Aligned() <==> old(Aligned())
      ensures saved == StoredData(Some(knownFaceEncodings), Some(knownFaceNames))
    {
      knownFaceNames := knownFaceNames + [name];
      knownFaceEncodings := knownFaceEncodings + [faceEncoding];
      saved := SaveData();
    }

    /**
     * The rescaling part of `detect_faces`: the library's `faceLocations`
     * (found on the shrunk frame) mapped back one by one, and its
     * `faceEncodings` passed through. The gallery is not touched.
     */
    method DetectFaces(faceLocations: seq<Box>, faceEncodings: seq<E>, scaleFactor: real)
      returns (scaledLocations: seq<Box>, encodings: seq<E>)
      requires scaleFactor > 0.0
      ensures |scaledLocations| == |faceLocations|
      ensures forall i :: 0 <= i < |faceLocations| ==> scaledLocations[i] == ScaleBox(faceLocations[i], scaleFactor)
      ensures encodings == faceEncodings
    {
      scaledLocations := [];
      for i := 0 to |faceLocations|
        invariant |scaledLocations| == i
        invariant forall k :: 0 <= k < i ==> scaledLocations[k] == ScaleBox(faceLocations[k], scaleFactor)
      {
        var b := faceLocations[i];
        var top := ScaleCoord(b.top, scaleFactor);
        var right := ScaleCoord(b.right, scaleFactor);
        var bottom := ScaleCoord(b.bottom, scaleFactor);
        var left := ScaleCoord(b.left, scaleFactor);
        scaledLocations := scaledLocations + [Box(top, right, bottom, left)];
      }
      encodings := faceEncodings;
    }

    /**
     * `recognize_faces`: one name per query, in query order, each the
     * matching rule's label against the current gallery; or the IndexError
     * of the first query whose accepted index has no name. The gallery is
     * not touched.
     */
    method RecognizeFaces(faceEncodings: seq<E>, tolerance: real,
                          faceDistance: (E, E) -> real, compareFaces: (E, E, real) -> bool)
      returns (r: Result<seq<string>>)
      ensures r.Ok? ==> |r.value| == |faceEncodings|
      ensures r.Ok? ==> forall k :: 0 <= k < |faceEncodings| ==>
                Ok(r.value[k]) == RecognizedName(knownFaceEncodings, knownFaceNames, faceEncodings[k],
                                                 tolerance, faceDistance, compareFaces)
      ensures r.Failure? ==>
                (exists k :: 0 <= k < |faceEncodings| &&
                   Failure(r.error) == RecognizedName(knownFaceEncodings, knownFaceNames, faceEncodings[k],
                                                      tolerance, faceDistance, compareFaces) &&
                   forall j :: 0 <= j < k ==>
                     RecognizedName(knownFaceEncodings, knownFaceNames, faceEncodings[j],
                                    tolerance, faceDistance, compareFaces).Ok?)
      ensures Aligned() ==> r.Ok?
      ensures r.Ok? ==> forall k :: 0 <= k < |r.value| ==> r.value[k] == UNKNOWN || r.value[k] in knownFaceNames
      ensures knownFaceEncodings == [] ==> r.Ok? && forall k :: 0 <= k < |r.value| ==> r.value[k] == UNKNOWN
    {
      var faceNames: seq<string> := [];
      for i := 0 to |faceEncodings|
        invariant |faceNames| == i
        invariant forall k :: 0 <= k < i ==>
                    Ok(faceNames[k]) == RecognizedName(knownFaceEncodings, knownFaceNames, faceEncodings[k],
                                                       tolerance, faceDistance, compareFaces)
      {
        var faceEncoding := faceEncodings[i];
        var matches := Matches(knownFaceEncodings, faceEncoding, tolerance, compareFaces);
        var name := UNKNOWN;
        var faceDistances := Distances(knownFaceEncodings, faceEncoding, faceDistance);
        if |faceDistances| > 0 {
          var bestMatchIndex := ArgMin(faceDistances);
          if matches[bestMatchIndex] {
            if bestMatchIndex >= |knownFaceNames| {
              return Failure(IndexError(bestMatchIndex, |knownFaceNames|));
            }
            name := knownFaceNames[bestMatchIndex];
          }
        }
        faceNames := faceNames + [name];
      }
      r := Ok(faceNames);
    }
  }

  /** Saving and then loading the saved dictionary in a new gallery gives back the same pairs in the same order. */
  method SaveThenReload<E>(fs: FaceSystem<E>) returns (reloaded: FaceSystem<E>)
    ensures reloaded.storageFile == fs.storageFile
    ensures reloaded.knownFaceEncodings == fs.knownFaceEncodings
    ensures reloaded.knownFaceNames == fs.knownFaceNames
  {
    var data := fs.SaveData();
    reloaded := new FaceSystem(fs.storageFile, ReadOk(data));
  }
}
