# Rubik's cube scanner and solver front ends, modelled in Dafny

The repository is a Rubik's cube solver with two front ends. One is a
Streamlit camera page (`streamlit_app.py`); the other is a Flask JSON API
(`app.py`). Both hold the same bookkeeping class, `RubiksCubeSolver`. It keeps:

- one 9-letter string and one 9-entry colour-code list per face;
- the set of face names scanned so far;
- the last solution, a list of moves;
- a `solve_status` flag.

Photographs go through a grid detector and a colour classifier, which are
outside this model. A face whose centre colour code names a face not yet
scanned may be saved. The save that completes the sixth face hands the six
faces, in the fixed Up, Right, Front, Down, Left, Back order, to the
external solver. Its reply, split on spaces, becomes the solution. The
solution is shown as numbered lines.

The project is organised as follows:

- `text.dfy` (module `Text`): Python's `str.split` and `str.join` for a
  one-character separator, and the decimal rendering of a step number.
  Each comes with its inverse and round trips.
- `cube.dfy` (module `Cube`):
  - the faces and their three vocabularies (name, colour code, solver
    letter);
  - the solver's state as a value, `CubeState`;
  - one function per operation that gives the state afterwards
    (`AfterScan`, `AfterSolve`, `AfterSave`);
  - the cube string, the step text, and the lemmas about them.
- `solver.dfy` (module `Solver`): the class `RubiksCubeSolver`. Its fields
  are updated in place, and every method is proved against the matching
  function of `Cube`. `get_solution_steps` keeps its loop, with invariants.
- `detection.dfy` (module `Detection`): the ladder both front ends use to
  decide what a photograph shows. The ladder is: nine squares, then a face
  string, then a known centre code, then a face not yet scanned.
- `camera.dfy` (module `Camera`): the Streamlit session, a class holding the
  solver and the `solution_ready` flag. It covers a photograph with its Save
  button, the Solve and Reset buttons, and the solution area.
- `api.dfy` (module `Api`): the Flask endpoints `process-image`,
  `save-face`, `get-solution`, `reset` and `status`, over the process-wide
  solver.

The external solver `kociemba.solve` is a parameter,
`solve: string -> Option<string>`. `Some(moves)` is its reply and `None` an
exception. Detector and classifier results are parameters too: the number of
squares found, the face string, and the per-square colour codes.

The model follows the code where the code and the documented intent differ:

- `scan_face` never rejects a duplicate. It overwrites the face and adds the
  name again. Only the camera page and `process-image` filter out faces
  already scanned; `save-face` does not.
- `solve_cube` checks neither completeness nor colour counts. Anything the
  external solver rejects arrives as `None`.
- When there is no solution, the steps text is a fixed sentence.

Two invariants hold throughout:

- `Cube.Valid`: only the six face names are ever recorded, and
  `solve_status` holds exactly when the solution list is non-empty. A split
  never yields an empty list.
- `Cube.Consistent`: because both front ends solve only a complete cube, a
  solution is on hand only while all six faces are scanned.

## Model

| member | source | states |
|---|---|---|
| Text.Split | streamlit_app.py:78 | `str.split(" ")` never yields an empty list, and no piece contains the separator |
| Text.JoinSplit | streamlit_app.py:78 | joining the pieces of a split with the separator gives back the split string, so the solution keeps the solver's reply exactly |
| Text.SplitJoin | streamlit_app.py:93 | `Join`, Python's `str.join`: splitting a join of separator-free pieces on the separator gives back the pieces |
| Text.NatToDecimal | streamlit_app.py:92 | a step number renders as one or more decimal digits without a leading zero |
| Text.DecimalRoundTrip | streamlit_app.py:92 | reading the rendered digits back gives the step number |
| Cube.FaceNamed | streamlit_app.py:46-71 | a name selects a face exactly when it is one of the six names `scan_face` tests, and the face is the one with that name |
| Cube.FaceOfCode | streamlit_app.py:335-345 | a centre code maps to a face exactly when it is 0..5, and to the face whose code it is (0 Green, 1 White, 2 Red, 3 Orange, 4 Blue, 5 Yellow) |
| Cube.FaceVocabularies | streamlit_app.py:28-41 | each face's name, colour code and solver letter identify it: name and code map back to the face, no two faces share a solver letter, and the face is in the solver order |
| Cube.Initial | streamlit_app.py:22-44 | the constructor state: every face string is nine copies of its solver letter, every side array nine copies of its code; nothing scanned, no solution, `solve_status` false; the invariant holds |
| Cube.InitialCentresIdentifyFaces | streamlit_app.py:36-41 | in the initial state the centre entry of each side array maps back to that face |
| Cube.AfterScan | streamlit_app.py:46-71 | one of the six names overwrites that face's string and side array and adds the name to `scanned_faces`; the other faces, the solution and `solve_status` are unchanged; any other name changes nothing; the invariant is kept |
| Cube.RescanKeepsCount | app.py:50-75 | scanning a face already scanned leaves `scanned_faces` as it was and overwrites the face string |
| Cube.FaceNameSetBounds | streamlit_app.py:115-117 | a set of face names has at most six members, and six exactly when it holds all six names |
| Cube.ScannedBounds | streamlit_app.py:115-117 | on a valid state at most six faces are recorded, and `len(scanned_faces) == 6` holds exactly when all six names are present |
| Cube.Progress | streamlit_app.py:224-226 | progress is the number of scanned faces over six, never more than 1, and equals 1 exactly when all faces are scanned |
| Cube.CubeStringLayout | streamlit_app.py:77 | `CubeString`, the solver's input: with six nine-letter faces it has 54 letters, and face k of the order white, red, green, yellow, orange, blue occupies positions 9k to 9k+9 |
| Cube.InitialCubeString | streamlit_app.py:28-33 | in the default or reset state the solver's input is `UUUUUUUUURRRRRRRRRFFFFFFFFFDDDDDDDDDLLLLLLLLLBBBBBBBBB` |
| Cube.AfterSolve | streamlit_app.py:73-83 | on a reply, the solution becomes its space-separated pieces, which join back to the reply, and `solve_status` is set; on failure nothing changes; the faces and scans never change; the invariant is kept |
| Cube.FailedSolveKeepsSolution | app.py:77-87 | a failed solve after a successful one keeps the earlier solution and `solve_status` |
| Cube.EmptyReplyIsOneEmptyMove | streamlit_app.py:78-93 | an empty reply becomes a one-move solution with an empty move, shown as the single line "1. " |
| Cube.StepsTextLines | streamlit_app.py:85-93 | `StepsText`, the solution's display: a non-empty solution is shown as one line per move, line k reading "k. move" with k counting from 1, joined by newlines and with no trailing newline |
| Cube.StepsTextStartsWithFirstStep | streamlit_app.py:85-93 | a non-empty solution's text opens with "1. " and the first move |
| Cube.AfterSave | app.py:208-212 | a save is the scan, followed by a solve only when the scan leaves all six faces recorded, and then the state is exactly `AfterSolve` of the solver's reply, so the solution is the reply split on single spaces; without a complete cube or when the solver fails, the state is the scan's alone; the invariant is kept |
| Cube.SaveKeepsConsistent | streamlit_app.py:354-366 | a save never leaves a solution on hand while a face is missing |
| Cube.CompleteCubeResolvedOnEverySave | app.py:204-212 | once all six faces are scanned, every further save goes to the solver again |
| Cube.AfterScansRecordsNames | streamlit_app.py:46-71 | a series of scans with face names records exactly the names passed |
| Cube.DistinctScanNamesCount | streamlit_app.py:46-71 | scans with pairwise distinct names record as many names as there are scans |
| Cube.CompleteExactlyAtSixth | streamlit_app.py:115-117 | scanning distinct faces from the reset state, the completion test fails after each of the first five and holds after the sixth |
| Solver.RubiksCubeSolver.constructor | streamlit_app.py:22-44 | the new solver's fields hold the initial state |
| Solver.RubiksCubeSolver.ScanFace | streamlit_app.py:46-71 | the new state is `AfterScan` of the old one, and the invariant is kept |
| Solver.RubiksCubeSolver.SolveCube | streamlit_app.py:73-83 | the solver receives the cube string of the old state; the result is true exactly when it replies; the new state is `AfterSolve` of that reply |
| Solver.RubiksCubeSolver.GetSolutionSteps | streamlit_app.py:85-93 | the loop's output is the numbered step text of the current solution, or the fixed message when it is empty |
| Solver.RubiksCubeSolver.ResetCube | streamlit_app.py:95-113 | the new state is the initial state whatever the old state was, so a second reset changes nothing |
| Solver.RubiksCubeSolver.AllFacesScanned | streamlit_app.py:115-117 | the size test, which on a valid solver holds exactly when all six face names are recorded |
| Detection.DetectFace | app.py:163-173 | a face is found exactly when there are more than four codes and the centre code is 0..5, and its code is the centre code |
| Detection.Classify | app.py:157-192 | the ladder: not nine squares, then an empty face string, then an unknown centre, then already scanned, then new; each verdict holds exactly under its rung's condition |
| Detection.NewFaceExactly | streamlit_app.py:325-353 | a photograph is a new face f exactly when it has nine squares, a face string, centre code f's code, and f is not yet scanned |
| Detection.ScannedFaceNotNewAgain | streamlit_app.py:348-351 | once a new face's name is scanned, the same photograph is reported as already scanned |
| Camera.CameraSession.constructor | streamlit_app.py:218-221 | a fresh session holds a solver in the initial state and no ready solution |
| Camera.CameraSession.Capture | streamlit_app.py:313-366 | the verdict is the ladder's; a face is saved exactly when it is new and Save is pressed; a solve is attempted exactly when that save raised the count from five to six, leaving all six names present; otherwise the solver is untouched |
| Camera.CameraSession.PressSolve | streamlit_app.py:279-284 | the button is enabled exactly when all six faces are scanned; a press solves, and `solution_ready` follows `solve_status` |
| Camera.CameraSession.PressReset | streamlit_app.py:287-292 | the solver is back in its initial state and no solution is ready |
| Camera.CameraSession.SolutionSection | streamlit_app.py:388-393 | the solution area is shown exactly when a solve has succeeded, with the numbered steps, which start with "1. " and the first move |
| Api.ProcessImage | app.py:150-192 | `grid_detected` holds exactly when there are nine squares; each status code holds exactly under its rung's condition; only `new_face` carries the name, string and codes, and its name is the face the centre code maps to, one of the six and not yet scanned; every other code carries its fixed message (the grid message with the square count, "Could not classify grid", "Could not detect face type", "<face> already scanned") |
| Api.GridMessageCount | app.py:191 | `GridMessage`: the "Grid not detected" message carries the number of squares found, readable back from its digits |
| Api.ReportOf | app.py:214-219 | progress is the scanned count over six, and `all_faces_scanned` holds exactly when progress is 1 and all six names are present; a ready solution implies both |
| Api.SaveFace | app.py:200-223 | the new state is `AfterSave` with the client's name, with no duplicate check; the reply reports the new state; the front ends' invariant is kept |
| Api.NewFaceSaveAddsOne | app.py:176-183 | saving a face that `process-image` reported as new, as reported, adds one to the scanned count |
| Api.ResaveOverwrites | app.py:204-208 | saving a face already scanned overwrites its string and codes and leaves `scanned_faces` as it was |
| Api.GetSolution | app.py:226-244 | a solution reply exactly when `solve_status` holds, with the numbered steps, the moves and a move count equal to the number of moves; otherwise the fixed message |
| Api.SolutionLinesMatchMoveCount | app.py:229-235 | on a valid solver a solution reply has at least one move, and, when no move holds a newline, one text line per move |
| Api.Reset | app.py:247-257 | the solver is back in its initial state and the reply is the fixed success message |
| Api.GetStatus | app.py:260-277 | the progress fields are those of `save-face`, and every face's side array is reported |
| Api.StatusAfterReset | app.py:260-277 | after a reset the status shows nothing scanned, progress 0, no completion, no solution and every side at its default code |

## Left out

- Page layout is not modelled: the HTML net and face-status bar, the
  markdown, the messages and balloons. They are presentation only.
- Camera and image handling is not modelled: PIL, OpenCV colour
  conversion, base64 and JPEG coding, and the processed picture in the
  `process-image` reply. This is input and output through foreign libraries.
- `detect_grid` and `classifiy_grid` are not part of this model. Their
  results enter as parameters: the square count, the face string and the
  colour codes.
- A face string that is `None` is modelled by the empty string, which is
  equally false in the test.
- Colour codes are modelled as integers, since the classifier's array holds
  integers.
- `kociemba.solve` is not modelled inside. It is a function parameter that
  replies or fails, and the `print`/`st.error` of its failure is left out.
- `load_model` and pickle loading are left out, as are the `model`, `grid`
  and `face` fields, which the modelled operations never read.
- Flask routing, JSON encoding, CORS, the `success` field, the HTTP 500
  paths and the `home` endpoint are left out.
- Concurrent requests on the process-wide solver are left out. Each endpoint
  runs as one step on it.
- Cube.Progress: an exact rational, not a Python float, so float rounding of
  the ratio is not modelled.
- Api.ReportOf: `scanned_faces` is reported as a set. The order in which
  `list(set)` happens to list the names is not modelled.
- Api.SaveFace: the face string and colour codes are typed as a string and
  a list of integers. A `save-face` request that omits them stores `None` in
  that face; every later solve then fails on the concatenation and the status
  reports a `None` side, until that face is saved again or the cube is reset.
  The model cannot express such a request.
- Api.SaveFace: requires the front ends' invariant `Consistent`. It holds
  for the solver built at start-up and is kept by every endpoint, so it
  asks nothing a caller of the real service can violate.
- Camera.CameraSession.Capture: one call covers a photograph together with
  whether its Save button is pressed. Streamlit's re-run of the whole page
  on each click is not modelled.
- Camera.CameraSession.SolutionSection: the download button, which offers
  the same text, is left out.
