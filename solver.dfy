/**
 * The `RubiksCubeSolver` bookkeeping class that both front ends hold. Its
 * fields are updated in place; `State()` reads them back as a `CubeState`, and
 * every method's postcondition gives the new state as the matching function of
 * module Cube applied to the old one.
 *
 * The external solver is the parameter `solve`: `Some(reply)` is the move
 * string it returns, `None` an exception it raises.
 */
module Solver {
  import opened Text
  import opened Cube

  class RubiksCubeSolver {
    var greenStr: string
    var whiteStr: string
    var redStr: string
    var orangeStr: string
    var blueStr: string
    var yellowStr: string

    var greenSide: seq<int>
    var whiteSide: seq<int>
    var redSide: seq<int>
    var orangeSide: seq<int>
    var blueSide: seq<int>
    var yellowSide: seq<int>

    var solution: seq<string>
    var solveStatus: bool
    var scannedFaces: set<string>

    function State(): (s: CubeState)
      reads this
    {
      CubeState(greenStr, whiteStr, redStr, orangeStr, blueStr, yellowStr,
                greenSide, whiteSide, redSide, orangeSide, blueSide, yellowSide,
                solution, solveStatus, scannedFaces)
    }

    ghost predicate Valid()
      reads this
    {
      Cube.Valid(State())
    }

    constructor ()
      ensures State() == Initial() && Valid()
    {
      solution := [];
      greenStr := "FFFFFFFFF";
      whiteStr := "UUUUUUUUU";
      redStr := "RRRRRRRRR";
      orangeStr := "LLLLLLLLL";
      blueStr := "BBBBBBBBB";
      yellowStr := "DDDDDDDDD";
      greenSide := [0, 0, 0, 0, 0, 0, 0, 0, 0];
      yellowSide := [5, 5, 5, 5, 5, 5, 5, 5, 5];
      blueSide := [4, 4, 4, 4, 4, 4, 4, 4, 4];
      orangeSide := [3, 3, 3, 3, 3, 3, 3, 3, 3];
      whiteSide := [1, 1, 1, 1, 1, 1, 1, 1, 1];
      redSide := [2, 2, 2, 2, 2, 2, 2, 2, 2];
      solveStatus := false;
      scannedFaces := {};
    }

    /** Records a face under one of the six names, overwriting whatever that
        face held; it rejects nothing, and an unknown name is ignored. */
    method ScanFace(faceName: string, faceData: string, sideData: seq<int>)
      requires Valid()
      modifies this
      ensures Valid()
      ensures State() == AfterScan(old(State()), faceName, faceData, sideData)
    {
      if faceName == "Green" {
        RecordGreen(faceData, sideData);
      } else if faceName == "White" {
        RecordWhite(faceData, sideData);
      } else if faceName == "Red" {
        RecordRed(faceData, sideData);
      } else if faceName == "Orange" {
        RecordOrange(faceData, sideData);
      } else if faceName == "Blue" {
        RecordBlue(faceData, sideData);
      } else if faceName == "Yellow" {
        RecordYellow(faceData, sideData);
      }
    }

    // One branch of `scan_face` each: the face's string and centre-colour list
    // are replaced and its name joins `scanned_faces`.

    method RecordGreen(data: string, side: seq<int>)
      modifies this`greenStr, this`greenSide, this`scannedFaces
      ensures State() == old(State()).(greenStr := data, greenSide := side,
                                       scannedFaces := old(scannedFaces) + {"Green"})
    {
      greenStr, greenSide, scannedFaces := data, side, scannedFaces + {"Green"};
    }

    method RecordWhite(data: string, side: seq<int>)
      modifies this`whiteStr, this`whiteSide, this`scannedFaces
      ensures State() == old(State()).(whiteStr := data, whiteSide := side,
                                       scannedFaces := old(scannedFaces) + {"White"})
    {
      whiteStr, whiteSide, scannedFaces := data, side, scannedFaces + {"White"};
    }

    method RecordRed(data: string, side: seq<int>)
      modifies this`redStr, this`redSide, this`scannedFaces
      ensures State() == old(State()).(redStr := data, redSide := side,
                                       scannedFaces := old(scannedFaces) + {"Red"})
    {
      redStr, redSide, scannedFaces := data, side, scannedFaces + {"Red"};
    }

    method RecordOrange(data: string, side: seq<int>)
      modifies this`orangeStr, this`orangeSide, this`scannedFaces
      ensures State() == old(State()).(orangeStr := data, orangeSide := side,
                                       scannedFaces := old(scannedFaces) + {"Orange"})
    {
      orangeStr, orangeSide, scannedFaces := data, side, scannedFaces + {"Orange"};
    }

    method RecordBlue(data: string, side: seq<int>)
      modifies this`blueStr, this`blueSide, this`scannedFaces
      ensures State() == old(State()).(blueStr := data, blueSide := side,
                                       scannedFaces := old(scannedFaces) + {"Blue"})
    {
      blueStr, blueSide, scannedFaces := data, side, scannedFaces + {"Blue"};
    }

    method RecordYellow(data: string, side: seq<int>)
      modifies this`yellowStr, this`yellowSide, this`scannedFaces
      ensures State() == old(State()).(yellowStr := data, yellowSide := side,
                                       scannedFaces := old(scannedFaces) + {"Yellow"})
    {
      yellowStr, yellowSide, scannedFaces := data, side, scannedFaces + {"Yellow"};
    }

    /** Hands the six faces, in solver order, to `solve`; keeps the reply's
        moves on success and leaves the state alone on failure. */
    method SolveCube(solve: string -> Option<string>) returns (ok: bool)
      requires Valid()
      modifies this
      ensures Valid()
      ensures ok <==> solve(CubeString(old(State()))).Some?
      ensures State() == AfterSolve(old(State()), solve(CubeString(old(State()))))
    {
      var cubeString := CubeString(State());
      var reply := solve(cubeString);
      match reply {
        case None =>
          ok := false;
        case Some(moves) =>
          solution := Split(moves, ' ');
          solveStatus := true;
          ok := true;
      }
    }

    /** The solution as numbered lines, or the fixed placeholder when there is
        none. */
    method GetSolutionSteps() returns (text: string)
      ensures text == StepsText(solution)
    {
      if solution == [] {
        return NO_SOLUTION_TEXT;
      }
      var steps: seq<string> := [];
      var i := 0;
      while i < |solution|
        invariant 0 <= i <= |solution|
        invariant |steps| == i
        invariant forall k :: 0 <= k < i ==> steps[k] == StepLine(k + 1, solution[k])
      {
        steps := steps + [StepLine(i + 1, solution[i])];
        i := i + 1;
      }
      assert steps == NumberedLines(solution);
      text := Join(steps, '\n');
    }

    method ResetCube()
      modifies this
      ensures State() == Initial() && Valid()
    {
      solveStatus := false;
      solution := [];
      scannedFaces := {};
      ResetFaceStrings();
      ResetFaceSides();
    }

    // The two halves of `reset_cube`'s field-by-field restore.

    method ResetFaceStrings()
      modifies this`greenStr, this`whiteStr, this`redStr, this`orangeStr, this`blueStr, this`yellowStr
      ensures greenStr == "FFFFFFFFF" && whiteStr == "UUUUUUUUU" && redStr == "RRRRRRRRR"
      ensures orangeStr == "LLLLLLLLL" && blueStr == "BBBBBBBBB" && yellowStr == "DDDDDDDDD"
    {
      greenStr := "FFFFFFFFF";
      whiteStr := "UUUUUUUUU";
      redStr := "RRRRRRRRR";
      orangeStr := "LLLLLLLLL";
      blueStr := "BBBBBBBBB";
      yellowStr := "DDDDDDDDD";
    }

    method ResetFaceSides()
      modifies this`greenSide, this`whiteSide, this`redSide, this`orangeSide, this`blueSide, this`yellowSide
      ensures greenSide == [0, 0, 0, 0, 0, 0, 0, 0, 0] && whiteSide == [1, 1, 1, 1, 1, 1, 1, 1, 1]
      ensures redSide == [2, 2, 2, 2, 2, 2, 2, 2, 2] && orangeSide == [3, 3, 3, 3, 3, 3, 3, 3, 3]
      ensures blueSide == [4, 4, 4, 4, 4, 4, 4, 4, 4] && yellowSide == [5, 5, 5, 5, 5, 5, 5, 5, 5]
    {
      greenSide := [0, 0, 0, 0, 0, 0, 0, 0, 0];
      yellowSide := [5, 5, 5, 5, 5, 5, 5, 5, 5];
      blueSide := [4, 4, 4, 4, 4, 4, 4, 4, 4];
      orangeSide := [3, 3, 3, 3, 3, 3, 3, 3, 3];
      whiteSide := [1, 1, 1, 1, 1, 1, 1, 1, 1];
      redSide := [2, 2, 2, 2, 2, 2, 2, 2, 2];
    }

    /** The size test `len(scanned_faces) == 6`, which on a valid solver holds
        exactly when all six faces are recorded. */
    function AllFacesScanned(): (r: bool)
      reads this
      ensures r == AllScanned(State())
      ensures Cube.Valid(State()) ==> (r <==> scannedFaces == FACE_NAMES)
    {
      ScannedBounds(State());
      |scannedFaces| == 6
    }
  }
}
