/**
 * The camera page of the Streamlit front end. A session keeps one solver and
 * the `solution_ready` flag across page runs; each photograph goes through the
 * detection ladder, a new face is saved when its Save button is pressed, and
 * the sixth face starts the solver. The Solve button is enabled only when all
 * six faces are scanned, and the solution area is shown once a solve has
 * succeeded.
 */
module Camera {
  import opened Cube
  import opened Detection
  import opened Solver

  class CameraSession {
    const solver: RubiksCubeSolver
    var solutionReady: bool

    /** The solver's own invariant, the front end's promise that only a
        complete cube is solved, and a flag that mirrors `solve_status`. */
    ghost predicate Valid()
      reads this, solver
    {
      Consistent(solver.State()) && (solutionReady <==> solver.solveStatus)
    }

    constructor ()
      ensures Valid() && fresh(solver)
      ensures solver.State() == Initial() && !solutionReady
    {
      solver := new RubiksCubeSolver();
      solutionReady := false;
    }

    /** One photograph: nothing is saved unless it shows a face not yet
        scanned and its Save button is pressed; the save that completes the
        sixth face hands the cube to the solver. */
    method Capture(gridCount: nat, faceString: string, predictions: seq<int>,
                   savePressed: bool, solve: string -> Option<string>)
      returns (verdict: Verdict, saved: bool, solveAttempted: bool)
      requires Valid()
      modifies this, solver
      ensures Valid()
      ensures verdict == Classify(gridCount, faceString, predictions, old(solver.scannedFaces))
      ensures saved <==> verdict.NewFace? && savePressed
      ensures solveAttempted <==> saved && |old(solver.scannedFaces)| == 5
      ensures solveAttempted ==> solver.scannedFaces == FACE_NAMES
      ensures !saved ==> solver.State() == old(solver.State())
      ensures saved ==>
        solver.State() == AfterSave(old(solver.State()), verdict.face.Name(), faceString, predictions, solve)
    {
      verdict := Classify(gridCount, faceString, predictions, solver.scannedFaces);
      saved, solveAttempted := false, false;
      if verdict.NewFace? && savePressed {
        ghost var before := solver.State();
        var name := verdict.face.Name();
        FaceVocabularies(verdict.face);
        solver.ScanFace(name, faceString, predictions);
        saved := true;
        assert solver.scannedFaces == before.scannedFaces + {name};
        assert |solver.scannedFaces| == |before.scannedFaces| + 1;
        ScannedBounds(solver.State());
        if solver.AllFacesScanned() {
          solveAttempted := true;
          var ok := solver.SolveCube(solve);
          if ok {
            solutionReady := true;
          }
        }
        SaveKeepsConsistent(before, name, faceString, predictions, solve);
      }
    }

    /** The Solve button: enabled exactly when all six faces are scanned, and
        a press on it runs the solver. */
    method PressSolve(solve: string -> Option<string>) returns (enabled: bool, solved: bool)
      requires Valid()
      modifies this, solver
      ensures Valid()
      ensures enabled <==> old(solver.scannedFaces) == FACE_NAMES
      ensures solved <==> enabled && solve(CubeString(old(solver.State()))).Some?
      ensures !enabled ==> solver.State() == old(solver.State())
      ensures enabled ==> solver.State() == AfterSolve(old(solver.State()), solve(CubeString(old(solver.State()))))
    {
      enabled := solver.AllFacesScanned();
      solved := false;
      if enabled {
        solved := solver.SolveCube(solve);
        if solved {
          solutionReady := true;
        }
      }
    }

    /** The Reset button: the solver goes back to its defaults and the
        session forgets that a solution was ready. */
    method PressReset()
      modifies this, solver
      ensures Valid()
      ensures solver.State() == Initial() && !solutionReady
    {
      solver.ResetCube();
      solutionReady := false;
    }

    /** The solution area: present exactly when a solve has succeeded, and
        then the numbered steps, opening with the first move. */
    method SolutionSection() returns (shown: Option<string>)
      requires Valid()
      ensures shown.Some? <==> solver.solveStatus
      ensures shown.Some? ==> solver.solution != [] && shown.value == StepsText(solver.solution)
      ensures shown.Some? ==>
        var first := "1. " + solver.solution[0];
        |shown.value| >= |first| && shown.value[..|first|] == first
    {
      if solutionReady {
        var text := solver.GetSolutionSteps();
        StepsTextStartsWithFirstStep(solver.solution);
        shown := Some(text);
      } else {
        shown := None;
      }
    }
  }
}
