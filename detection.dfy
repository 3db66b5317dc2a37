/**
 * What both front ends make of one photograph before anything is saved. The
 * grid detector and the colour classifier are outside this model: their
 * results arrive as the number of squares found, the face string (empty when
 * classification failed) and the list of per-square colour codes.
 */
module Detection {
  import opened Cube

  /** `face_mapping.get(center_color, "Unknown")`, where the centre colour is
      `predictions[4]` when there are more than four predictions. */
  function DetectFace(predictions: seq<int>): (r: Option<Face>)
    ensures r.Some? <==> |predictions| > 4 && 0 <= predictions[4] < 6
    ensures r.Some? ==> r.value.Code() == predictions[4]
  {
    if |predictions| > 4 then FaceOfCode(predictions[4]) else None
  }

  /** The outcome of one photograph, rung by rung. */
  datatype Verdict =
    | NoGrid
    | ClassificationFailed
    | UnknownFace
    | AlreadyScanned(face: Face)
    | NewFace(face: Face)

  /** The decision ladder: nine squares, then a non-empty face string, then a
      known centre colour, then a face that is not yet among `scanned`. */
  function Classify(gridCount: nat, faceString: string, predictions: seq<int>,
                    scanned: set<string>): (v: Verdict)
    ensures v.NoGrid? <==> gridCount != 9
    ensures v.ClassificationFailed? <==> gridCount == 9 && faceString == []
    ensures v.UnknownFace? <==>
      gridCount == 9 && faceString != [] && !(|predictions| > 4 && 0 <= predictions[4] < 6)
    ensures (v.AlreadyScanned? || v.NewFace?) ==>
      && gridCount == 9 && faceString != []
      && |predictions| > 4 && v.face.Code() == predictions[4]
    ensures v.AlreadyScanned? ==> v.face.Name() in scanned
    ensures v.NewFace? ==> v.face.Name() !in scanned
  {
    if gridCount != 9 then NoGrid
    else if faceString == [] then ClassificationFailed
    else
      match DetectFace(predictions)
      case None => UnknownFace
      case Some(face) =>
        if face.Name() in scanned then AlreadyScanned(face) else NewFace(face)
  }

  /** Only a face that is not yet scanned gets through, and it always does:
      with nine squares, a face string and a centre code 0..5 naming a face
      outside `scanned`, the verdict is `NewFace` of exactly that face. */
  lemma NewFaceExactly(gridCount: nat, faceString: string, predictions: seq<int>,
                       scanned: set<string>, f: Face)
    ensures Classify(gridCount, faceString, predictions, scanned) == NewFace(f) <==>
      && gridCount == 9 && faceString != []
      && |predictions| > 4 && predictions[4] == f.Code()
      && f.Name() !in scanned
  {
    if gridCount == 9 && faceString != [] && |predictions| > 4 && predictions[4] == f.Code() {
      FaceVocabularies(f);
    }
  }

  /** A known face is never reported as new twice: once its name is among
      `scanned`, the same photograph is classified as already scanned. */
  lemma ScannedFaceNotNewAgain(gridCount: nat, faceString: string, predictions: seq<int>,
                               scanned: set<string>)
    requires Classify(gridCount, faceString, predictions, scanned).NewFace?
    ensures var f := Classify(gridCount, faceString, predictions, scanned).face;
      Classify(gridCount, faceString, predictions, scanned + {f.Name()}) == AlreadyScanned(f)
  {
  }
}
