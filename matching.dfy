/**
 * The matching rule of `FaceSystem.recognize_faces`: for one query encoding,
 * take the gallery entry at minimum distance (lowest index on ties) and
 * report its name if the library's match flag holds at that index, else the
 * sentinel "Unknown". The library's distance and match functions are
 * parameters: `faceDistance(known, query)` and
 * `compareFaces(known, query, tolerance)`.
 */
module Matching {

  /** The sentinel label for a face with no accepted match. */
  const UNKNOWN: string := "Unknown"

  /** `IndexError` raised by `known_face_names[best_match_index]` when the names list is too short. */
  datatype Error = IndexError(index: nat, length: nat)

  datatype Result<+T> = Ok(value: T) | Failure(error: Error)

  /** `i` is where `np.argmin(d)` lands: a minimum, and the first one. */
  predicate IsBestMatch(d: seq<real>, i: int) {
    0 <= i < |d| &&
    (forall j :: 0 <= j < |d| ==> d[i] <= d[j]) &&
    (forall j :: 0 <= j < i ==> d[i] < d[j])
  }

  /** `np.argmin` over a non-empty list of distances. */
  function ArgMin(d: seq<real>): (r: nat)
    requires |d| > 0
    ensures IsBestMatch(d, r)
  {
    if |d| == 1 then 0
    else
      var m := ArgMin(d[1..]) + 1;
      if d[0] <= d[m] then 0 else m
  }

  /** At most one index is the first minimum. */
  lemma BestMatchUnique(d: seq<real>, i: int, j: int)
    requires IsBestMatch(d, i) && IsBestMatch(d, j)
    ensures i == j
  {
    assert d[i] == d[j];
  }

  /** `IsBestMatch` picks out exactly `ArgMin`. */
  lemma ArgMinCharacterised(d: seq<real>, i: int)
    requires |d| > 0
    ensures IsBestMatch(d, i) <==> i == ArgMin(d)
  {
  }

  /** `face_recognition.face_distance(known, query)`: one distance per gallery entry, in order. */
  function Distances<E>(known: seq<E>, query: E, faceDistance: (E, E) -> real): (d: seq<real>) {
    seq(|known|, i requires 0 <= i < |known| => faceDistance(known[i], query))
  }

  /** `face_recognition.compare_faces(known, query, tolerance)`: one flag per gallery entry, in order. */
  function Matches<E>(known: seq<E>, query: E, tolerance: real, compareFaces: (E, E, real) -> bool): (m: seq<bool>) {
    seq(|known|, i requires 0 <= i < |known| => compareFaces(known[i], query, tolerance))
  }

  /** The name `recognize_faces` appends for one query encoding (lines 99-109), or the IndexError it raises. */
  function RecognizedName<E>(known: seq<E>, names: seq<string>, query: E, tolerance: real,
                             faceDistance: (E, E) -> real, compareFaces: (E, E, real) -> bool): (r: Result<string>)
    ensures r.Ok? ==> r.value == UNKNOWN || r.value in names
  {
    var matches := Matches(known, query, tolerance, compareFaces);
    var faceDistances := Distances(known, query, faceDistance);
    if |faceDistances| == 0 then Ok(UNKNOWN)
    else
      var best := ArgMin(faceDistances);
      if !matches[best] then Ok(UNKNOWN)
      else if best < |names| then Ok(names[best])
      else Failure(IndexError(best, |names|))
  }

  /** With an empty gallery every query is "Unknown", for every tolerance. */
  lemma EmptyGalleryUnknown<E>(names: seq<string>, query: E, tolerance: real,
                               faceDistance: (E, E) -> real, compareFaces: (E, E, real) -> bool)
    ensures RecognizedName([], names, query, tolerance, faceDistance, compareFaces) == Ok(UNKNOWN)
  {
  }

  /**
   * The label is decided by the first minimum-distance entry alone: its
   * name when its match flag holds, "Unknown" when it does not, and an
   * IndexError when it matches but has no name.
   */
  lemma DecidedByBestMatch<E>(known: seq<E>, names: seq<string>, query: E, tolerance: real,
                              faceDistance: (E, E) -> real, compareFaces: (E, E, real) -> bool, i: int)
    requires IsBestMatch(Distances(known, query, faceDistance), i)
    ensures RecognizedName(known, names, query, tolerance, faceDistance, compareFaces) ==
            if !compareFaces(known[i], query, tolerance) then Ok(UNKNOWN)
            else if i < |names| then Ok(names[i])
            else Failure(IndexError(i, |names|))
  {
  }

  /**
   * A result other than "Unknown" is the name at the first minimum-distance
   * index, and that index's match flag holds.
   */
  lemma KnownOnlyAtBestMatch<E>(known: seq<E>, names: seq<string>, query: E, tolerance: real,
                                faceDistance: (E, E) -> real, compareFaces: (E, E, real) -> bool)
    requires RecognizedName(known, names, query, tolerance, faceDistance, compareFaces).Ok?
    requires RecognizedName(known, names, query, tolerance, faceDistance, compareFaces).value != UNKNOWN
    ensures exists i :: IsBestMatch(Distances(known, query, faceDistance), i) &&
                        compareFaces(known[i], query, tolerance) && i < |names| &&
                        RecognizedName(known, names, query, tolerance, faceDistance, compareFaces).value == names[i]
  {
  }

  /** The lookup fails exactly when the accepted index lies past the end of the names list. */
  lemma FailsOnlyWhenNamesShort<E>(known: seq<E>, names: seq<string>, query: E, tolerance: real,
                                   faceDistance: (E, E) -> real, compareFaces: (E, E, real) -> bool)
    ensures RecognizedName(known, names, query, tolerance, faceDistance, compareFaces).Failure? <==>
            |known| > 0 &&
            var best := ArgMin(Distances(known, query, faceDistance));
            compareFaces(known[best], query, tolerance) && best >= |names|
    ensures |names| >= |known| ==> RecognizedName(known, names, query, tolerance, faceDistance, compareFaces).Ok?
  {
  }

  /**
   * A gallery with encodings but no names (what loading a dictionary without
   * a "names" key leaves) raises as soon as the closest entry matches.
   */
  lemma MissingNamesRaise<E>(known: seq<E>, query: E, tolerance: real,
                             faceDistance: (E, E) -> real, compareFaces: (E, E, real) -> bool)
    requires |known| > 0
    requires compareFaces(known[ArgMin(Distances(known, query, faceDistance))], query, tolerance)
    ensures RecognizedName(known, [], query, tolerance, faceDistance, compareFaces).Failure?
  {
  }

  /**
   * When distances are non-negative, the library accepts at distance
   * `<= tolerance`, and entry `i` is the first at distance 0, a query is
   * labelled with entry `i`'s name for every tolerance `>= 0`.
   */
  lemma ExactMatchRecognized<E>(known: seq<E>, names: seq<string>, query: E, tolerance: real,
                                faceDistance: (E, E) -> real, compareFaces: (E, E, real) -> bool, i: nat)
    requires |names| == |known| && i < |known| && tolerance >= 0.0
    requires forall e :: faceDistance(e, query) >= 0.0
    requires forall e :: compareFaces(e, query, tolerance) == (faceDistance(e, query) <= tolerance)
    requires faceDistance(known[i], query) == 0.0
    requires forall j :: 0 <= j < i ==> faceDistance(known[j], query) > 0.0
    ensures RecognizedName(known, names, query, tolerance, faceDistance, compareFaces) == Ok(names[i])
  {
    var d := Distances(known, query, faceDistance);
    assert IsBestMatch(d, i);
    DecidedByBestMatch(known, names, query, tolerance, faceDistance, compareFaces, i);
  }
}
