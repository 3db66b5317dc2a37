/**
 * The Flask front end: five endpoints over one process-wide solver. The image
 * endpoint only reads the solver; saving a face and resetting change it; the
 * solution and status endpoints only read it. Each reply is the part of the
 * JSON body that depends on the solver and the detector results.
 */
module Api {
  import opened Text
  import opened Cube
  import opened Detection
  import opened Solver

  /** The body of a `process-image` reply, without the processed picture. */
  datatype ImageReply = ImageReply(
    gridDetected: bool,
    gridCount: nat,
    status: string,
    message: Option<string>,
    detectedFace: Option<string>,
    faceString: Option<string>,
    predictions: Option<seq<int>>)

  function GridMessage(gridCount: nat): (m: string) {
    "Grid not detected. Found " + NatToDecimal(gridCount) + " squares."
  }

  /** `process_image` after detection and classification: the status code of
      the ladder's rung, and for a new face the name, string and codes the
      client sends back to `save-face`. It reads only `scanned_faces`. */
  function ProcessImage(scanned: set<string>, gridCount: nat, faceString: string,
                        predictions: seq<int>): (r: ImageReply)
    ensures r.gridDetected <==> gridCount == 9
    ensures r.gridCount == gridCount
    ensures r.status == "no_grid" <==> gridCount != 9
    ensures r.status == "classification_failed" <==> gridCount == 9 && faceString == []
    ensures r.status == "unknown_face" <==>
      gridCount == 9 && faceString != [] && DetectFace(predictions).None?
    ensures r.status == "already_scanned" <==>
      && gridCount == 9 && faceString != [] && DetectFace(predictions).Some?
      && DetectFace(predictions).value.Name() in scanned
    ensures r.status == "new_face" <==>
      && gridCount == 9 && faceString != [] && DetectFace(predictions).Some?
      && DetectFace(predictions).value.Name() !in scanned
    ensures r.status == "new_face" ==>
      && r.message.None?
      && r.detectedFace == Some(DetectFace(predictions).value.Name())
      && r.detectedFace.value in FACE_NAMES && r.detectedFace.value !in scanned
      && r.faceString == Some(faceString) && r.predictions == Some(predictions)
    ensures r.status != "new_face" ==>
      r.message.Some? && r.detectedFace.None? && r.faceString.None? && r.predictions.None?
    ensures r.status == "no_grid" ==> r.message == Some(GridMessage(gridCount))
    ensures r.status == "classification_failed" ==> r.message == Some("Could not classify grid")
    ensures r.status == "unknown_face" ==> r.message == Some("Could not detect face type")
    ensures r.status == "already_scanned" ==>
      r.message == Some(DetectFace(predictions).value.Name() + " already scanned")
  {
    var reply := ImageReply(gridCount == 9, gridCount, "", None, None, None, None);
    match Classify(gridCount, faceString, predictions, scanned)
    case NoGrid =>
      reply.(status := "no_grid", message := Some(GridMessage(gridCount)))
    case ClassificationFailed =>
      reply.(status := "classification_failed", message := Some("Could not classify grid"))
    case UnknownFace =>
      reply.(status := "unknown_face", message := Some("Could not detect face type"))
    case AlreadyScanned(face) =>
      reply.(status := "already_scanned", message := Some(face.Name() + " already scanned"))
    case NewFace(face) =>
      FaceVocabularies(face);
      reply.(status := "new_face", detectedFace := Some(face.Name()),
             faceString := Some(faceString), predictions := Some(predictions))
  }

  /** The grid message carries the number of squares found, which reads back
      from its digits. */
  lemma GridMessageCount(gridCount: nat)
    ensures var m := GridMessage(gridCount);
      var digits := m[25 .. |m| - 9];
      && m[..25] == "Grid not detected. Found "
      && IsDigits(digits) && DecimalValue(digits) == gridCount
  {
    var m := GridMessage(gridCount);
    var digits := NatToDecimal(gridCount);
    assert m == "Grid not detected. Found " + digits + " squares.";
    assert m[25 .. |m| - 9] == digits;
    DecimalRoundTrip(gridCount);
  }

  /** The progress fields shared by the `save-face` and `status` replies. */
  datatype Report = Report(
    scannedFaces: set<string>,
    progress: real,
    allFacesScanned: bool,
    solutionReady: bool)

  function ReportOf(s: CubeState): (r: Report)
    ensures r.scannedFaces == s.scannedFaces && r.solutionReady == s.solveStatus
    ensures r.progress * 6.0 == |s.scannedFaces| as real
    ensures r.allFacesScanned <==> r.progress == 1.0
    ensures Valid(s) ==> (r.allFacesScanned <==> r.scannedFaces == FACE_NAMES)
    ensures Consistent(s) ==> (r.solutionReady ==> r.allFacesScanned && r.progress == 1.0)
  {
    ScannedBounds(s);
    Report(s.scannedFaces, Progress(s), AllScanned(s), s.solveStatus)
  }

  /** `save_face`: records the face under the name the client sends, with no
      duplicate check, and solves at once when that leaves all six recorded. */
  method SaveFace(solver: RubiksCubeSolver, faceName: string, faceString: string,
                  predictions: seq<int>, solve: string -> Option<string>)
    returns (r: Report)
    requires Consistent(solver.State())
    modifies solver
    ensures Consistent(solver.State())
    ensures solver.State() == AfterSave(old(solver.State()), faceName, faceString, predictions, solve)
    ensures r == ReportOf(solver.State())
  {
    ghost var before := solver.State();
    solver.ScanFace(faceName, faceString, predictions);
    if solver.AllFacesScanned() {
      var _ := solver.SolveCube(solve);
    }
    SaveKeepsConsistent(before, faceName, faceString, predictions, solve);
    r := Report(solver.scannedFaces, Progress(solver.State()), solver.AllFacesScanned(), solver.solveStatus);
  }

  /** A face the image endpoint reports as new, saved as reported, adds one
      to the count of scanned faces. */
  lemma NewFaceSaveAddsOne(s: CubeState, gridCount: nat, faceString: string,
                           predictions: seq<int>, solve: string -> Option<string>)
    requires Valid(s)
    requires ProcessImage(s.scannedFaces, gridCount, faceString, predictions).status == "new_face"
    ensures var r := ProcessImage(s.scannedFaces, gridCount, faceString, predictions);
      var t := AfterSave(s, r.detectedFace.value, r.faceString.value, r.predictions.value, solve);
      |t.scannedFaces| == |s.scannedFaces| + 1
  {
    var r := ProcessImage(s.scannedFaces, gridCount, faceString, predictions);
    var name := r.detectedFace.value;
    var scanned := AfterScan(s, name, faceString, predictions);
    assert scanned.scannedFaces == s.scannedFaces + {name};
    var t := AfterSave(s, name, faceString, predictions, solve);
    assert t.scannedFaces == scanned.scannedFaces;
  }

  /** Saving a face that is already scanned overwrites its string and codes
      and leaves the count of scanned faces as it was. */
  lemma ResaveOverwrites(s: CubeState, name: string, data: string, side: seq<int>,
                         solve: string -> Option<string>)
    requires Valid(s) && name in s.scannedFaces
    ensures var t := AfterSave(s, name, data, side, solve);
      && t.scannedFaces == s.scannedFaces
      && FaceStr(t, FaceNamed(name).value) == data
      && FaceSide(t, FaceNamed(name).value) == side
  {
    RescanKeepsCount(s, name, data, side);
  }

  /** The body of a `get-solution` reply. */
  datatype SolutionReply =
    | Solution(solution: string, moves: seq<string>, moveCount: nat)
    | NoSolution(message: string)

  /** `get_solution`: the numbered steps, the moves and their count when the
      last solve succeeded, the fixed message otherwise. */
  function GetSolution(s: CubeState): (r: SolutionReply)
    ensures r.Solution? <==> s.solveStatus
    ensures r.Solution? ==>
      && r.moves == s.solution && r.moveCount == |s.solution|
      && r.solution == StepsText(s.solution)
    ensures r.NoSolution? ==> r.message == NO_SOLUTION_TEXT
  {
    if s.solveStatus then
      Solution(StepsText(s.solution), s.solution, if s.solution != [] then |s.solution| else 0)
    else
      NoSolution(NO_SOLUTION_TEXT)
  }

  /** On a valid solver a solution reply has at least one move and, when no
      move holds a newline, one text line per move. */
  lemma SolutionLinesMatchMoveCount(s: CubeState)
    requires Valid(s) && s.solveStatus
    requires forall k :: 0 <= k < |s.solution| ==> '\n' !in s.solution[k]
    ensures var r := GetSolution(s);
      r.moveCount >= 1 && |Split(r.solution, '\n')| == r.moveCount
  {
    StepsTextLines(s.solution);
  }

  /** `reset_cube`: the solver goes back to its defaults. */
  method Reset(solver: RubiksCubeSolver) returns (message: string)
    modifies solver
    ensures solver.State() == Initial() && Consistent(solver.State())
    ensures message == "Cube state reset successfully"
  {
    solver.ResetCube();
    message := "Cube state reset successfully";
  }

  /** The six side arrays of a `status` reply. */
  datatype Sides = Sides(
    green: seq<int>, white: seq<int>, red: seq<int>,
    orange: seq<int>, blue: seq<int>, yellow: seq<int>)

  function SideOf(sides: Sides, f: Face): (side: seq<int>) {
    match f
    case Green => sides.green
    case White => sides.white
    case Red => sides.red
    case Orange => sides.orange
    case Blue => sides.blue
    case Yellow => sides.yellow
  }

  datatype Status = Status(report: Report, cubeState: Sides)

  /** `get_status`: the progress fields and every face's side array. */
  function GetStatus(s: CubeState): (r: Status)
    ensures r.report == ReportOf(s)
    ensures forall f: Face :: SideOf(r.cubeState, f) == FaceSide(s, f)
  {
    Status(ReportOf(s),
           Sides(s.greenSide, s.whiteSide, s.redSide, s.orangeSide, s.blueSide, s.yellowSide))
  }

  /** After a reset the status shows nothing scanned, no progress, no
      solution and every side at its default colour code. */
  lemma StatusAfterReset()
    ensures var r := GetStatus(Initial());
      && r.report.scannedFaces == {} && r.report.progress == 0.0
      && !r.report.allFacesScanned && !r.report.solutionReady
      && forall f: Face :: SideOf(r.cubeState, f) == Nine(f.Code())
  {
  }
}
