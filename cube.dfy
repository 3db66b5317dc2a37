/**
 * The state a `RubiksCubeSolver` keeps, as a value, and the effect of each of
 * its operations on that value: record a face, hand the cube string to the
 * external solver, reset, test completion and format the solution.
 *
 * The six faces are the ones the front ends name by their centre colour. In the
 * solver's alphabet each face is a letter of the Up/Right/Front/Down/Left/Back
 * notation, and the classifier reports each colour as a small integer code.
 */
module Cube {
  import opened Text

  datatype Option<T> = None | Some(value: T)

  datatype Face = Green | White | Red | Orange | Blue | Yellow {
    /** The name the front ends pass to `scan_face` and keep in `scanned_faces`. */
    function Name(): (name: string) {
      match this
      case Green => "Green"
      case White => "White"
      case Red => "Red"
      case Orange => "Orange"
      case Blue => "Blue"
      case Yellow => "Yellow"
    }

    /** The classifier's code for this face's centre colour. */
    function Code(): (code: int) {
      match this
      case Green => 0
      case White => 1
      case Red => 2
      case Orange => 3
      case Blue => 4
      case Yellow => 5
    }

    /** The face's facelet letter in the solver's input alphabet. */
    function Letter(): (letter: char) {
      match this
      case Green => 'F'
      case White => 'U'
      case Red => 'R'
      case Orange => 'L'
      case Blue => 'B'
      case Yellow => 'D'
    }
  }

  const FACE_NAMES: set<string> := {"Green", "White", "Red", "Orange", "Blue", "Yellow"}

  /** The order in which the faces are concatenated for the solver: Up, Right,
      Front, Down, Left, Back. */
  const SOLVER_ORDER: seq<Face> := [White, Red, Green, Yellow, Orange, Blue]

  const NO_SOLUTION_TEXT: string := "No solution available. Please scan all faces first."

  /** The string dispatch of `scan_face`: which face, if any, a name selects. */
  function FaceNamed(name: string): (r: Option<Face>)
    ensures r.Some? <==> name in FACE_NAMES
    ensures r.Some? ==> r.value.Name() == name
  {
    if name == "Green" then Some(Green)
    else if name == "White" then Some(White)
    else if name == "Red" then Some(Red)
    else if name == "Orange" then Some(Orange)
    else if name == "Blue" then Some(Blue)
    else if name == "Yellow" then Some(Yellow)
    else None
  }

  /** The front ends' centre-code dictionary: codes 0..5, anything else unknown. */
  function FaceOfCode(code: int): (r: Option<Face>)
    ensures r.Some? <==> 0 <= code < 6
    ensures r.Some? ==> r.value.Code() == code
  {
    match code
    case 0 => Some(Green)
    case 1 => Some(White)
    case 2 => Some(Red)
    case 3 => Some(Orange)
    case 4 => Some(Blue)
    case 5 => Some(Yellow)
    case _ => None
  }

  /** Names, codes and letters each identify a face: the three vocabularies agree,
      and no two faces share a solver letter. */
  lemma FaceVocabularies(f: Face)
    ensures FaceNamed(f.Name()) == Some(f)
    ensures FaceOfCode(f.Code()) == Some(f)
    ensures f.Name() in FACE_NAMES
    ensures f in SOLVER_ORDER
    ensures forall g: Face :: g.Letter() == f.Letter() ==> g == f
  {
  }

  /** All the fields of a `RubiksCubeSolver` that its operations touch. */
  datatype CubeState = CubeState(
    greenStr: string, whiteStr: string, redStr: string,
    orangeStr: string, blueStr: string, yellowStr: string,
    greenSide: seq<int>, whiteSide: seq<int>, redSide: seq<int>,
    orangeSide: seq<int>, blueSide: seq<int>, yellowSide: seq<int>,
    solution: seq<string>,
    solveStatus: bool,
    scannedFaces: set<string>)

  function FaceStr(s: CubeState, f: Face): (str: string) {
    match f
    case Green => s.greenStr
    case White => s.whiteStr
    case Red => s.redStr
    case Orange => s.orangeStr
    case Blue => s.blueStr
    case Yellow => s.yellowStr
  }

  function FaceSide(s: CubeState, f: Face): (side: seq<int>) {
    match f
    case Green => s.greenSide
    case White => s.whiteSide
    case Red => s.redSide
    case Orange => s.orangeSide
    case Blue => s.blueSide
    case Yellow => s.yellowSide
  }

  function Nine<T>(x: T): (nine: seq<T>) {
    [x, x, x, x, x, x, x, x, x]
  }

  /** The class invariant: only the six face names are ever recorded, and a
      solution is on hand exactly when the last solve succeeded. */
  predicate Valid(s: CubeState) {
    && s.scannedFaces <= FACE_NAMES
    && (s.solveStatus <==> s.solution != [])
  }

  /** What the front ends add to the class invariant: they only ever solve a
      cube whose six faces are all recorded, so a solution implies that all six
      are still recorded. */
  predicate Consistent(s: CubeState) {
    Valid(s) && (s.solveStatus ==> AllScanned(s))
  }

  /** The state the constructor builds and `reset_cube` restores. */
  function Initial(): (s: CubeState)
    ensures forall f: Face :: FaceStr(s, f) == Nine(f.Letter()) && FaceSide(s, f) == Nine(f.Code())
    ensures s.scannedFaces == {} && s.solution == [] && !s.solveStatus
    ensures Valid(s)
  {
    CubeState(
      "FFFFFFFFF", "UUUUUUUUU", "RRRRRRRRR", "LLLLLLLLL", "BBBBBBBBB", "DDDDDDDDD",
      [0, 0, 0, 0, 0, 0, 0, 0, 0], [1, 1, 1, 1, 1, 1, 1, 1, 1], [2, 2, 2, 2, 2, 2, 2, 2, 2],
      [3, 3, 3, 3, 3, 3, 3, 3, 3], [4, 4, 4, 4, 4, 4, 4, 4, 4], [5, 5, 5, 5, 5, 5, 5, 5, 5],
      [], false, {})
  }

  /** In the initial state the centre of every face's side array names that face. */
  lemma InitialCentresIdentifyFaces(f: Face)
    ensures FaceOfCode(FaceSide(Initial(), f)[4]) == Some(f)
  {
    FaceVocabularies(f);
  }

  /** The effect of `scan_face(name, data, side)`: a known name overwrites that
      face alone and records the name, whether or not it was recorded before;
      any other name changes nothing. */
  function AfterScan(s: CubeState, name: string, data: string, side: seq<int>): (t: CubeState)
    ensures name !in FACE_NAMES ==> t == s
    ensures name in FACE_NAMES ==>
      var f := FaceNamed(name).value;
      && FaceStr(t, f) == data && FaceSide(t, f) == side
      && (forall g: Face :: g != f ==> FaceStr(t, g) == FaceStr(s, g) && FaceSide(t, g) == FaceSide(s, g))
      && t.scannedFaces == s.scannedFaces + {name}
      && t.solution == s.solution && t.solveStatus == s.solveStatus
    ensures Valid(s) ==> Valid(t)
  {
    if name == "Green" then s.(greenStr := data, greenSide := side, scannedFaces := s.scannedFaces + {"Green"})
    else if name == "White" then s.(whiteStr := data, whiteSide := side, scannedFaces := s.scannedFaces + {"White"})
    else if name == "Red" then s.(redStr := data, redSide := side, scannedFaces := s.scannedFaces + {"Red"})
    else if name == "Orange" then s.(orangeStr := data, orangeSide := side, scannedFaces := s.scannedFaces + {"Orange"})
    else if name == "Blue" then s.(blueStr := data, blueSide := side, scannedFaces := s.scannedFaces + {"Blue"})
    else if name == "Yellow" then s.(yellowStr := data, yellowSide := side, scannedFaces := s.scannedFaces + {"Yellow"})
    else s
  }

  /** Re-recording a face already recorded overwrites it and leaves the count of
      recorded faces as it was. */
  lemma RescanKeepsCount(s: CubeState, name: string, data: string, side: seq<int>)
    requires name in s.scannedFaces
    ensures AfterScan(s, name, data, side).scannedFaces == s.scannedFaces
    ensures Valid(s) ==> FaceStr(AfterScan(s, name, data, side), FaceNamed(name).value) == data
  {
  }

  /** `len(scanned_faces) == 6`. */
  function AllScanned(s: CubeState): (r: bool) {
    |s.scannedFaces| == 6
  }

  /** A set of face names has at most six members, and six exactly when it
      holds every face name. */
  lemma {:induction false} FaceNameSetBounds(names: set<string>)
    requires names <= FACE_NAMES
    ensures |names| <= 6
    ensures |names| == 6 <==> names == FACE_NAMES
  {
    var rest := FACE_NAMES - names;
    assert FACE_NAMES == names + rest;
    assert names * rest == {};
    assert |FACE_NAMES| == 6;
    if names != FACE_NAMES {
      var missing :| missing in rest;
      assert |rest| >= 1 by {
        assert {missing} <= rest;
      }
    }
  }

  /** At most six faces are ever recorded, and the size test of
      `all_faces_scanned` holds exactly when every one of the six names is. */
  lemma ScannedBounds(s: CubeState)
    ensures Valid(s) ==> |s.scannedFaces| <= 6
    ensures Valid(s) ==> (AllScanned(s) <==> s.scannedFaces == FACE_NAMES)
  {
    if Valid(s) {
      FaceNameSetBounds(s.scannedFaces);
    }
  }

  /** Progress as the front ends show it: the fraction of the six faces recorded. */
  function Progress(s: CubeState): (p: real)
    ensures 0.0 <= p && p * 6.0 == |s.scannedFaces| as real
    ensures p == 1.0 <==> AllScanned(s)
    ensures Valid(s) ==> p <= 1.0
  {
    ScannedBounds(s);
    |s.scannedFaces| as real / 6.0
  }

  /** The string `solve_cube` hands to the solver. */
  function CubeString(s: CubeState): (cs: string) {
    s.whiteStr + s.redStr + s.greenStr + s.yellowStr + s.orangeStr + s.blueStr
  }

  /** With six nine-letter faces the cube string has 54 letters and face k of the
      solver order occupies positions 9k up to 9k + 9. */
  lemma CubeStringLayout(s: CubeState)
    requires forall f: Face :: |FaceStr(s, f)| == 9
    ensures |CubeString(s)| == 54
    ensures forall k :: 0 <= k < 6 ==> CubeString(s)[9 * k .. 9 * k + 9] == FaceStr(s, SOLVER_ORDER[k])
  {
    var cs := CubeString(s);
    assert |s.whiteStr| == |s.redStr| == |s.greenStr| == 9 by {
      assert FaceStr(s, White) == s.whiteStr && FaceStr(s, Red) == s.redStr && FaceStr(s, Green) == s.greenStr;
    }
    assert |s.yellowStr| == |s.orangeStr| == |s.blueStr| == 9 by {
      assert FaceStr(s, Yellow) == s.yellowStr && FaceStr(s, Orange) == s.orangeStr && FaceStr(s, Blue) == s.blueStr;
    }
    assert cs[0..9] == s.whiteStr;
    assert cs[9..18] == s.redStr;
    assert cs[18..27] == s.greenStr;
    assert cs[27..36] == s.yellowStr;
    assert cs[36..45] == s.orangeStr;
    assert cs[45..54] == s.blueStr;
  }

  /** Before any face is recorded (or after a reset) the solver is handed the
      solved cube. */
  lemma InitialCubeString()
    ensures CubeString(Initial()) == "UUUUUUUUURRRRRRRRRFFFFFFFFFDDDDDDDDDLLLLLLLLLBBBBBBBBB"
  {
    var s := Initial();
    // Built up one face at a time, in the order the concatenation associates.
    assert s.whiteStr + s.redStr == "UUUUUUUUURRRRRRRRR";
    assert s.whiteStr + s.redStr + s.greenStr == "UUUUUUUUURRRRRRRRRFFFFFFFFF";
    assert s.whiteStr + s.redStr + s.greenStr + s.yellowStr == "UUUUUUUUURRRRRRRRRFFFFFFFFFDDDDDDDDD";
    assert s.whiteStr + s.redStr + s.greenStr + s.yellowStr + s.orangeStr == "UUUUUUUUURRRRRRRRRFFFFFFFFFDDDDDDDDDLLLLLLLLL";
  }

  /** The effect of `solve_cube` given the solver's reply: a reply is split on
      single spaces into the new solution and marks the cube solved; a failure
      (`None`) leaves everything as it was, including an earlier solution. */
  function AfterSolve(s: CubeState, reply: Option<string>): (t: CubeState)
    ensures reply.None? ==> t == s
    ensures reply.Some? ==>
      && t.solveStatus
      && t.solution != []
      && Join(t.solution, ' ') == reply.value
      && (forall k :: 0 <= k < |t.solution| ==> ' ' !in t.solution[k])
      && t.(solution := s.solution, solveStatus := s.solveStatus) == s
    ensures Valid(s) ==> Valid(t)
  {
    match reply
    case None => s
    case Some(moves) =>
      JoinSplit(moves, ' ');
      s.(solution := Split(moves, ' '), solveStatus := true)
  }

  /** A failed solve after a successful one keeps the earlier solution. */
  lemma FailedSolveKeepsSolution(s: CubeState, first: string)
    ensures var solved := AfterSolve(s, Some(first));
      AfterSolve(solved, None).solveStatus && AfterSolve(solved, None).solution == Split(first, ' ')
  {
  }

  /** An empty reply becomes a one-move solution whose move is empty. */
  lemma EmptyReplyIsOneEmptyMove(s: CubeState)
    ensures AfterSolve(s, Some("")).solution == [""]
    ensures StepsText(AfterSolve(s, Some("")).solution) == "1. "
  {
  }

  /** One line of `get_solution_steps`: `"{i}. {move}"`. */
  function StepLine(i: nat, move: string): (line: string) {
    NatToDecimal(i) + ". " + move
  }

  function NumberedLines(moves: seq<string>): (lines: seq<string>) {
    seq(|moves|, k requires 0 <= k < |moves| => StepLine(k + 1, moves[k]))
  }

  /** What `get_solution_steps` returns for a given solution. */
  function StepsText(moves: seq<string>): (text: string) {
    if moves == [] then NO_SOLUTION_TEXT
    else Join(NumberedLines(moves), '\n')
  }

  /** A solution's text has exactly one line per move, line k reading
      "k. move", and does not end with a newline. */
  lemma StepsTextLines(moves: seq<string>)
    requires moves != []
    requires forall k :: 0 <= k < |moves| ==> '\n' !in moves[k]
    ensures var lines := Split(StepsText(moves), '\n');
      && |lines| == |moves|
      && (forall k :: 0 <= k < |moves| ==> lines[k] == NatToDecimal(k + 1) + ". " + moves[k])
    ensures var text := StepsText(moves); text != [] && text[|text| - 1] != '\n'
  {
    var lines := NumberedLines(moves);
    forall k | 0 <= k < |lines|
      ensures '\n' !in lines[k]
    {
      assert lines[k] == NatToDecimal(k + 1) + ". " + moves[k];
    }
    SplitJoin(lines, '\n');
    JoinEndsWithLast(lines, '\n');
    var last := lines[|lines| - 1];
    assert last[|last| - 1] != '\n';
  }

  /** The text of a non-empty solution opens with its first step, "1. ". */
  lemma StepsTextStartsWithFirstStep(moves: seq<string>)
    requires moves != []
    ensures var text := StepsText(moves); |text| >= 3 + |moves[0]| && text[..3 + |moves[0]|] == "1. " + moves[0]
  {
    var lines := NumberedLines(moves);
    JoinStartsWithFirst(lines, '\n');
    assert lines[0] == "1. " + moves[0];
  }

  /** Saving a face as both front ends do after a `scan_face` call: when the
      call leaves all six faces recorded, the cube goes to the solver at once.
      Otherwise, or when the solver fails, the state is the scan's alone. */
  function AfterSave(s: CubeState, name: string, data: string, side: seq<int>,
                     solve: string -> Option<string>): (t: CubeState)
    ensures var scanned := AfterScan(s, name, data, side);
      && (!AllScanned(scanned) || solve(CubeString(scanned)).None? ==> t == scanned)
      && (AllScanned(scanned) && solve(CubeString(scanned)).Some? ==>
            && t.scannedFaces == scanned.scannedFaces
            && (forall f: Face :: FaceStr(t, f) == FaceStr(scanned, f) && FaceSide(t, f) == FaceSide(scanned, f))
            && t.solveStatus
            && Join(t.solution, ' ') == solve(CubeString(scanned)).value)
    ensures var scanned := AfterScan(s, name, data, side);
      AllScanned(scanned) ==> t == AfterSolve(scanned, solve(CubeString(scanned)))
    ensures Valid(s) ==> Valid(t)
  {
    var scanned := AfterScan(s, name, data, side);
    if AllScanned(scanned) then AfterSolve(scanned, solve(CubeString(scanned))) else scanned
  }

  /** Saving keeps the front ends' invariant: a solution is never on hand
      while a face is missing. */
  lemma SaveKeepsConsistent(s: CubeState, name: string, data: string, side: seq<int>,
                            solve: string -> Option<string>)
    requires Consistent(s)
    ensures Consistent(AfterSave(s, name, data, side, solve))
  {
    var scanned := AfterScan(s, name, data, side);
    if s.solveStatus {
      ScannedBounds(s);
      assert scanned.scannedFaces == FACE_NAMES;
      ScannedBounds(scanned);
    }
  }

  /** Once all six faces are recorded, every further save of a face name goes
      to the solver again, whether or not that face changed. */
  lemma CompleteCubeResolvedOnEverySave(s: CubeState, name: string, data: string, side: seq<int>,
                                        solve: string -> Option<string>)
    requires Valid(s) && AllScanned(s)
    ensures var scanned := AfterScan(s, name, data, side);
      AfterSave(s, name, data, side, solve) == AfterSolve(scanned, solve(CubeString(scanned)))
  {
    var scanned := AfterScan(s, name, data, side);
    ScannedBounds(s);
    assert scanned.scannedFaces == FACE_NAMES;
    ScannedBounds(scanned);
  }

  /** A record of one `scan_face` call. */
  datatype Scan = Scan(name: string, data: string, side: seq<int>)

  /** The state after a series of `scan_face` calls, in order. */
  function AfterScans(s: CubeState, scans: seq<Scan>): (t: CubeState)
    decreases |scans|
  {
    if scans == [] then s
    else
      var last := scans[|scans| - 1];
      AfterScan(AfterScans(s, scans[..|scans| - 1]), last.name, last.data, last.side)
  }

  /** The names a series of calls passes. */
  function ScanNames(scans: seq<Scan>): (names: set<string>)
    decreases |scans|
  {
    if scans == [] then {} else ScanNames(scans[..|scans| - 1]) + {scans[|scans| - 1].name}
  }

  predicate DistinctFaceNames(scans: seq<Scan>) {
    && (forall k :: 0 <= k < |scans| ==> scans[k].name in FACE_NAMES)
    && (forall i, j :: 0 <= i < j < |scans| ==> scans[i].name != scans[j].name)
  }

  /** A series of calls with face names records exactly the names it passes. */
  lemma {:induction false} AfterScansRecordsNames(s: CubeState, scans: seq<Scan>)
    requires forall k :: 0 <= k < |scans| ==> scans[k].name in FACE_NAMES
    ensures AfterScans(s, scans).scannedFaces == s.scannedFaces + ScanNames(scans)
    decreases |scans|
  {
    if scans != [] {
      var prefix := scans[..|scans| - 1];
      assert forall k :: 0 <= k < |prefix| ==> prefix[k] == scans[k];
      AfterScansRecordsNames(s, prefix);
    }
  }

  /** Every name in `ScanNames` was passed by one of the calls. */
  lemma {:induction false} ScanNamesFrom(scans: seq<Scan>, x: string)
    requires x in ScanNames(scans)
    ensures exists k :: 0 <= k < |scans| && scans[k].name == x
    decreases |scans|
  {
    var n := |scans| - 1;
    if x != scans[n].name {
      var prefix := scans[..n];
      ScanNamesFrom(prefix, x);
      var k :| 0 <= k < |prefix| && prefix[k].name == x;
      assert scans[k] == prefix[k];
    }
  }

  /** Calls with pairwise distinct names pass as many names as there are calls. */
  lemma {:induction false} DistinctScanNamesCount(scans: seq<Scan>)
    requires DistinctFaceNames(scans)
    ensures |ScanNames(scans)| == |scans|
    decreases |scans|
  {
    if scans != [] {
      var n := |scans| - 1;
      var prefix := scans[..n];
      assert DistinctFaceNames(prefix) by {
        assert forall k :: 0 <= k < n ==> prefix[k] == scans[k];
      }
      DistinctScanNamesCount(prefix);
      if scans[n].name in ScanNames(prefix) {
        ScanNamesFrom(prefix, scans[n].name);
        assert false;
      }
    }
  }

  /** Recording distinct faces one after another from the reset state: the
      completion test holds after the sixth and before it never. */
  lemma CompleteExactlyAtSixth(scans: seq<Scan>)
    requires DistinctFaceNames(scans)
    ensures |scans| <= 6
    ensures forall k :: 0 <= k <= |scans| ==> (AllScanned(AfterScans(Initial(), scans[..k])) <==> k == 6)
  {
    AfterScansRecordsNames(Initial(), scans);
    DistinctScanNamesCount(scans);
    forall x | x in ScanNames(scans) ensures x in FACE_NAMES {
      ScanNamesFrom(scans, x);
    }
    FaceNameSetBounds(AfterScans(Initial(), scans).scannedFaces);
    forall k | 0 <= k <= |scans|
      ensures AllScanned(AfterScans(Initial(), scans[..k])) <==> k == 6
    {
      var prefix := scans[..k];
      assert DistinctFaceNames(prefix) by {
        assert forall i :: 0 <= i < k ==> prefix[i] == scans[i];
      }
      AfterScansRecordsNames(Initial(), prefix);
      DistinctScanNamesCount(prefix);
    }
  }
}
