# Face gallery and recognition rule, modelled in Dafny

This project models the logic at the centre of a webcam face-recognition
desktop application. Detection, embedding and distance computation are done
by an external face library. The application itself adds four things:

- a gallery of known faces, held as two parallel lists (`FaceSystem` in
  `face_system.py`): encodings and names, where index *i* of one list belongs
  with index *i* of the other;
- the recognition rule (`recognize_faces`). For each query it takes the
  entry at minimum distance, with the lowest index winning ties. It gives
  that entry's name only if the library's match flag holds at that index;
  otherwise it gives the sentinel `"Unknown"`;
- the box rescaling inside `detect_faces`, which maps each coordinate to
  `int(c / scale_factor)`;
- the "save face" command of the GUI (`FaceRecognitionApp.save_face` in
  `main.py`). It rejects a blank name. Otherwise it adds the first face of
  the current frame that was labelled `"Unknown"` to the gallery, under the
  stripped name; if there is none, nothing changes.

Modules:

- `Common`: `Option`, `Min`.
- `PyText`: Python's `str.strip()`, using the exact whitespace set of
  `str.isspace()`.
- `Matching`: the per-query recognition rule (`RecognizedName`), `np.argmin`
  (`ArgMin`), and the lemmas about them.
- `Rescaling`: `Box`, Python's `int()` on a float (`Trunc`), and coordinate
  and box rescaling.
- `FaceStore`: the class `FaceSystem<E>` (its fields are the two lists), with
  `LoadData`, `SaveData`, `AddNewFace`, `DetectFaces` and `RecognizeFaces`.
- `App`: the class `FaceRecognitionApp<E>`, with `FindFirstUnknown` (the scan
  loop of `save_face`) and `SaveFace`.

How outside inputs are modelled:

- An encoding is an opaque type parameter `E`.
- The library's `face_distance` and `compare_faces` are per-entry function
  parameters: `faceDistance(known, query)` and
  `compareFaces(known, query, tolerance)`. The model builds the lists the
  library would return from them.
- `face_locations` and `face_encodings` are inputs to `DetectFaces`.
- Reading the storage file is a `LoadOutcome`: `FileMissing`, `ReadOk(data)`
  or `ReadError`. The dictionary read may lack either key, exactly as
  `dict.get` allows.
- Saving gives back the dictionary handed to `pickle.dump` (`StoredData`).
- The text of the name entry widget is a parameter of `SaveFace`.
- The current frame's encodings and labels are fields of the app object,
  written by the update loop.

Behaviour of the code the model keeps:

- The gallery is two parallel lists; names need not be unique.
- If the file is missing, `load_data` leaves the lists as they are. They are
  empty only because `__init__` has just set them so.
- If the file unpickles to a dictionary that lacks the `"names"` key, the
  names list becomes empty. Nothing checks that the two lists have equal
  lengths. A later `recognize_faces` can then raise `IndexError`, exactly
  when some query's closest entry matches and its index is at least the
  length of the names list (`FailsOnlyWhenNamesShort`); otherwise it returns
  labels. The model returns the raise as `Failure(IndexError(..))`
  (`MissingNamesRaise`).
- Saving overwrites the file in place.
- The label of an unrecognised face is the plain string `"Unknown"`. So a
  person saved under the name `"Unknown"` is treated as unknown when faces
  are saved.

## Model

| member | source | states |
|---|---|---|
| `PyText.Strip` | main.py:58 | `strip()` returns the slice of the input whose outside is all whitespace and whose first and last characters are not whitespace |
| `PyText.StripEmptyIffAllSpace` | main.py:58-59 | the stripped name is empty exactly when every character typed is whitespace, so `not name` rejects precisely blank input |
| `PyText.StripIdempotent` | main.py:58 | stripping a stripped name changes nothing, so the name saved is already in stripped form |
| `Matching.ArgMin` | face_system.py:105 | `np.argmin` returns an index holding a minimum distance, and no earlier index holds a distance that small |
| `Matching.BestMatchUnique` | face_system.py:105 | at most one index is the lowest minimum-distance index |
| `Matching.ArgMinCharacterised` | face_system.py:105 | an index is the lowest minimum-distance index if and only if it is the one `np.argmin` returns |
| `Matching.RecognizedName` | face_system.py:99-109 | the label appended for one query: every successful label is "Unknown" or one of the gallery's names; `DecidedByBestMatch` and `FailsOnlyWhenNamesShort` fix it completely |
| `Matching.EmptyGalleryUnknown` | face_system.py:100-104 | with an empty gallery the label is "Unknown", whatever the tolerance |
| `Matching.DecidedByBestMatch` | face_system.py:103-107 | the label depends only on the lowest minimum-distance entry: its name if its match flag holds, "Unknown" if not, IndexError if it matches but has no name |
| `Matching.KnownOnlyAtBestMatch` | face_system.py:103-107 | a label other than "Unknown" is the name at the lowest minimum-distance index, and the match flag at that index holds |
| `Matching.FailsOnlyWhenNamesShort` | face_system.py:104-107 | the lookup raises exactly when the closest entry matches and its index is past the end of the names list; with at least as many names as encodings it never raises |
| `Matching.MissingNamesRaise` | face_system.py:105-107 | a gallery with encodings but no names raises whenever the closest entry matches the query |
| `Matching.ExactMatchRecognized` | face_system.py:99-107 | with non-negative distances and the library's `distance <= tolerance` rule, a query at distance 0 from entry *i* (the first such entry) gets entry *i*'s name for every tolerance >= 0 |
| `Rescaling.Trunc` | face_system.py:78-81 | `int(x)` rounds toward zero: for x >= 0 the result r satisfies r <= x < r + 1, and for x < 0 it satisfies r - 1 < x <= r |
| `Rescaling.TruncMonotone` | face_system.py:78-81 | `int()` keeps the order of its arguments |
| `Rescaling.ScaleCoord` | face_system.py:78-81 | a coordinate maps to `int(c / scale_factor)`: for c >= 0 the result r satisfies r <= c / scale_factor < r + 1, and for c < 0 it satisfies r - 1 < c / scale_factor <= r |
| `Rescaling.ScaleCoordMonotone` | face_system.py:78-81 | rescaling keeps the order of coordinates |
| `Rescaling.ScaleBox` | face_system.py:77-82 | the box is rebuilt coordinate by coordinate, and a box with top <= bottom and left <= right keeps both after rescaling, for every positive factor |
| `Rescaling.ScaleCoordReciprocal` | face_system.py:78-81 | at scale factor 1/n every coordinate is multiplied by n exactly, in exact real division |
| `Rescaling.ScaleCoordDefault` | face_system.py:53-81 | at the default factor 0.25 every coordinate is multiplied by 4 |
| `Rescaling.ScaleBoxHalfExample` | face_system.py:76-82 | at factor 0.5 the box (10, 20, 30, 5) becomes (20, 40, 60, 10) |
| `FaceStore.FaceSystem.constructor` | face_system.py:8-18 | after construction both lists are empty if the file is missing or reading it raised; otherwise they equal the stored lists, with a missing key read as an empty list |
| `FaceStore.FaceSystem.LoadData` | face_system.py:20-36 | a missing file keeps both lists; a read dictionary replaces both lists, with a missing key giving an empty list; a read error empties both |
| `FaceStore.FaceSystem.SaveData` | face_system.py:38-48 | the dictionary handed to pickle holds both full current lists |
| `FaceStore.FaceSystem.AddNewFace` | face_system.py:112-122 | the name and the encoding go at the end of their lists, earlier entries are unchanged, index alignment holds afterwards exactly when it held before, and the full new lists are saved |
| `FaceStore.FaceSystem.DetectFaces` | face_system.py:53-84 | one rescaled box per detected box, in the same order, each coordinate mapped to `int(c / scale_factor)`; the encodings are passed through; the gallery is not modified |
| `FaceStore.FaceSystem.RecognizeFaces` | face_system.py:86-110 | one label per query, in query order, each the matching rule's label against the current gallery, or else the IndexError of the first query that raises; it never raises on an aligned gallery, every label is "Unknown" or a gallery name, an empty gallery gives all "Unknown", and the gallery is not modified |
| `FaceStore.SaveThenReload` | face_system.py:24-48 | loading the dictionary that saving produced gives back the same encodings and names in the same order |
| `App.FirstUnknownUnique` | main.py:67-71 | at most one pair is the first one labelled "Unknown" |
| `App.FaceRecognitionApp.PairCount` | main.py:67 | `zip` yields as many pairs as the shorter of the current encodings and labels |
| `App.FaceRecognitionApp.constructor` | main.py:13-48 | the app starts with a freshly loaded gallery at the default storage file and with no faces of a current frame |
| `App.FaceRecognitionApp.FindFirstUnknown` | main.py:64-71 | it returns the encoding of the first zipped pair labelled "Unknown", looking only at the first min(len(encodings), len(names)) pairs; it returns None exactly when none of those pairs is "Unknown" |
| `App.FaceRecognitionApp.SaveFace` | main.py:56-78 | a blank name gives EmptyName and changes nothing; otherwise, with no "Unknown" among the zipped pairs, it gives NoUnknown and changes nothing; otherwise it gives Saved and adds exactly one entry, the stripped name paired with the first "Unknown" face's encoding |

## Left out

- Tkinter widgets, message boxes, clearing the name entry, the `after`-timer
  update loop and canvas rendering (main.py:8-54, 80-119). These are UI and
  event plumbing. The update loop is the writer of `currentFaceEncodings`
  and `currentFaceNames`. `current_face_locations` and the camera fields
  are not modelled.
- OpenCV capture, `cv2.resize`, `cvtColor` and drawing. These are foreign
  image calls.
- The numerics of `face_recognition.face_locations`, `face_encodings`,
  `compare_faces` and `face_distance`. These are foreign library calls and
  appear as inputs or as uninterpreted function parameters.
- Floating point. Distances and the scale factor are `real`, so NaN
  distances (which change `np.argmin`) are not modelled. `c / scale_factor`
  is exact real division; for 0.25 and 0.5 it agrees with the float result.
- Rescaling.ScaleCoordReciprocal: holds for exact real division only. In
  IEEE doubles `1/n` is rounded, and for some n (75, say: `3 / (1/75)` is
  just below 225) `int()` then gives one less than `c * n`.
- Rescaling.ScaleCoord: requires a positive scale factor; `cv2.resize` raises
  earlier on a non-positive one, and that raise is library behaviour.
- Pickle serialisation and file I/O: `os.path.exists`, unpickling to
  something other than a dictionary (counted as `ReadError`), and write
  failures in `save_data`, which are only printed.
- Atomicity of the file write. The code makes no promise about it.
- `print` logging.
- The `target_encoding is not None` test (main.py:73). The library never
  yields `None` as an encoding, so the model folds this test into the
  `Option` that `FindFirstUnknown` returns.
