/**
 * The "save face" command of `FaceRecognitionApp` (main.py): commit the
 * first face of the current frame that was labelled "Unknown" to the
 * gallery, under the name typed by the user. The name comes in as the text
 * of the entry widget; the frame's encodings and labels are the fields the
 * update loop writes.
 */
module App {
  import opened Common
  import opened PyText
  import opened Matching
  import opened FaceStore

  /** Which of the three message boxes `save_face` ends with. */
  datatype SaveOutcome =
    | EmptyName   // "enter a name" warning, lines 59-61
    | NoUnknown   // "no unknown faces" warning, line 78
    | Saved       // "saved" info, lines 74-76

  /**
   * `k` is the first of the `zip`-ed pairs whose label is "Unknown"; `zip`
   * stops at the shorter list, so only indices below `bound` are examined.
   */
  predicate IsFirstUnknown(names: seq<string>, bound: nat, k: int) {
    0 <= k < bound <= |names| && names[k] == UNKNOWN &&
    forall j :: 0 <= j < k ==> names[j] != UNKNOWN
  }

  /** Only one pair is the first "Unknown" one. */
  lemma FirstUnknownUnique(names: seq<string>, bound: nat, i: int, j: int)
    requires IsFirstUnknown(names, bound, i) && IsFirstUnknown(names, bound, j)
    ensures i == j
  {
  }

  class FaceRecognitionApp<E> {
    const faceSystem: FaceSystem<E>
    var currentFaceEncodings: seq<E>
    var currentFaceNames: seq<string>

    /** The gallery part of `__init__`: load the gallery, no faces seen yet (lines 13, 47-48). */
    constructor (stored: LoadOutcome<E>)
      ensures fresh(faceSystem)
      ensures faceSystem.storageFile == DEFAULT_STORAGE_FILE
      ensures stored.FileMissing? || stored.ReadError? ==>
                faceSystem.knownFaceEncodings == [] && faceSystem.knownFaceNames == []
      ensures stored.ReadOk? ==> faceSystem.knownFaceEncodings == stored.data.encodings.GetOr([]) &&
                                 faceSystem.knownFaceNames == stored.data.names.GetOr([])
      ensures currentFaceEncodings == [] && currentFaceNames == []
    {
      faceSystem := new FaceSystem(DEFAULT_STORAGE_FILE, stored);
      currentFaceEncodings := [];
      currentFaceNames := [];
    }

    /** How many (encoding, label) pairs `zip` yields. */
    function PairCount(): (n: nat)
      reads this
      ensures n <= |currentFaceEncodings| && n <= |currentFaceNames|
      ensures n == |currentFaceEncodings| || n == |currentFaceNames|
    {
      Min(|currentFaceEncodings|, |currentFaceNames|)
    }

    /**
     * The scan of lines 64-71: the encoding of the first pair labelled
     * "Unknown", or `None` when no examined pair is.
     */
    method FindFirstUnknown() returns (target: Option<E>)
      ensures target.None? <==> forall k :: 0 <= k < PairCount() ==> currentFaceNames[k] != UNKNOWN
      ensures target.Some? ==> exists k :: IsFirstUnknown(currentFaceNames, PairCount(), k) &&
                                           target.value == currentFaceEncodings[k]
    {
      target := None;
      var n := PairCount();
      var i := 0;
      while i < n
        invariant 0 <= i <= n
        invariant forall j :: 0 <= j < i ==> currentFaceNames[j] != UNKNOWN
      {
        if currentFaceNames[i] == UNKNOWN {
          target := Some(currentFaceEncodings[i]);
          assert IsFirstUnknown(currentFaceNames, n, i);
          return;
        }
        i := i + 1;
      }
    }

    /**
     * `save_face`: reject a blank name; otherwise add the first "Unknown"
     * face under the stripped name, or change nothing when there is none.
     */
    method SaveFace(entryText: string) returns (outcome: SaveOutcome)
      modifies faceSystem
      ensures outcome == EmptyName <==> Strip(entryText) == []
      ensures outcome == NoUnknown <==>
                Strip(entryText) != [] && forall k :: 0 <= k < PairCount() ==> currentFaceNames[k] != UNKNOWN
      ensures outcome != Saved ==>
                faceSystem.knownFaceEncodings == old(faceSystem.knownFaceEncodings) &&
                faceSystem.knownFaceNames == old(faceSystem.knownFaceNames)
      ensures outcome == Saved ==>
                exists k :: IsFirstUnknown(currentFaceNames, PairCount(), k) &&
                            faceSystem.knownFaceEncodings == old(faceSystem.knownFaceEncodings) + [currentFaceEncodings[k]] &&
                            faceSystem.knownFaceNames == old(faceSystem.knownFaceNames) + [Strip(entryText)]
      ensures faceSystem.Aligned() <==> old(faceSystem.Aligned())
    {
      var name := Strip(entryText);
      if name == [] {
        return EmptyName;
      }
      var target := FindFirstUnknown();
      if target.Some? {
        var _ := faceSystem.AddNewFace(name, target.value);
        outcome := Saved;
      } else {
        outcome := NoUnknown;
      }
    }
  }
}
