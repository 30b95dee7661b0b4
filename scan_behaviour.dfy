/** ScanBehaviour: the Scan state of the drone's mode state machine. On entry
    the drone stops and starts a scan; once the scan has finished, on a
    frame that is a multiple of 20, it records a direction to every target
    the player can reach, and then does nothing more until it is left. */
module Scanning {
  import opened DroneTypes
  import opened Collaborators

  /** Update processes only frames whose number is a multiple of this. */
  const ScanFrameStride: nat := 20

  /** Whether NavMesh finds a path from the player to the target. */
  predicate PathValid(t: ScannerTarget, player: Point, calculatePath: (Point, Point) -> NavMeshPath)
  {
    calculatePath(player, t.position).status != PathInvalid
  }

  /** The directions one processing pass adds, target by target. */
  function DirectionsFor(targets: seq<ScannerTarget>, player: Point,
                         calculatePath: (Point, Point) -> NavMeshPath): (ds: seq<Direction>)
    ensures |ds| <= |targets|
    decreases |targets|
  {
    if targets == [] then []
    else
      var n := |targets| - 1;
      var path := calculatePath(player, targets[n].position);
      DirectionsFor(targets[..n], player, calculatePath)
        + (if path.status != PathInvalid then [Direction(targets[n], path.corners)] else [])
  }

  /** A single target contributes its path exactly when the path is valid. */
  lemma DirectionsForSingle(t: ScannerTarget, player: Point, calculatePath: (Point, Point) -> NavMeshPath)
    ensures DirectionsFor([t], player, calculatePath)
            == if PathValid(t, player, calculatePath) then [Direction(t, calculatePath(player, t.position).corners)] else []
  {
  }

  /** The pass works target by target in index order: the directions for a
      list are those for its first part followed by those for the rest. */
  lemma {:induction false} DirectionsForConcat(a: seq<ScannerTarget>, b: seq<ScannerTarget>, player: Point,
                                               calculatePath: (Point, Point) -> NavMeshPath)
    ensures DirectionsFor(a + b, player, calculatePath)
            == DirectionsFor(a, player, calculatePath) + DirectionsFor(b, player, calculatePath)
    decreases |b|
  {
    if b == [] {
      assert a + b == a;
    } else {
      var n := |b| - 1;
      assert (a + b)[..|a + b| - 1] == a + b[..n];
      assert (a + b)[|a + b| - 1] == b[n];
      DirectionsForConcat(a, b[..n], player, calculatePath);
    }
  }

  /** The directions added are exactly those to the targets with a valid
      path, each with that path's corners. */
  lemma {:induction false} DirectionsForMembers(targets: seq<ScannerTarget>, player: Point,
                                                calculatePath: (Point, Point) -> NavMeshPath)
    ensures forall d :: d in DirectionsFor(targets, player, calculatePath) ==>
      d.target in targets && PathValid(d.target, player, calculatePath)
      && d.corners == calculatePath(player, d.target.position).corners
    ensures forall t :: t in targets && PathValid(t, player, calculatePath) ==>
      Direction(t, calculatePath(player, t.position).corners) in DirectionsFor(targets, player, calculatePath)
    decreases |targets|
  {
    if targets != [] {
      var n := |targets| - 1;
      DirectionsForMembers(targets[..n], player, calculatePath);
      assert targets == targets[..n] + [targets[n]];
      forall t | t in targets ensures t in targets[..n] || t == targets[n] {
      }
    }
  }

  /** What the hook reads of the world on one frame. */
  datatype ScanFrame = ScanFrame(frameCount: nat, scanFinished: bool, targets: seq<ScannerTarget>, player: Point)

  /** Whether an update on this frame runs a processing pass (if lines are not yet drawn). */
  predicate Processes(f: ScanFrame)
  {
    f.frameCount % ScanFrameStride == 0 && f.scanFinished
  }

  /** The behaviour's flag and the scanner's recorded directions. */
  datatype ScanState = ScanState(linesDrawn: bool, directions: seq<Direction>)

  /** OnStateUpdate on one frame. */
  function ScanUpdate(s: ScanState, f: ScanFrame, calculatePath: (Point, Point) -> NavMeshPath): (r: ScanState)
    ensures s.linesDrawn ==> r == s
    ensures !Processes(f) ==> r == s
    ensures !s.linesDrawn && Processes(f) ==>
      r == ScanState(true, s.directions + DirectionsFor(f.targets, f.player, calculatePath))
  {
    if s.linesDrawn then s
    else if Processes(f) then ScanState(true, s.directions + DirectionsFor(f.targets, f.player, calculatePath))
    else s
  }

  /** OnStateUpdate on consecutive frames. */
  function RunScan(s: ScanState, frames: seq<ScanFrame>, calculatePath: (Point, Point) -> NavMeshPath): (r: ScanState)
    decreases |frames|
  {
    if frames == [] then s else RunScan(ScanUpdate(s, frames[0], calculatePath), frames[1..], calculatePath)
  }

  /** Directions are added at most once per activation: starting with the
      flag clear, a run of updates draws lines exactly when some frame
      processes, and then adds the directions of the first such frame only.
      Once the flag is set, updates change nothing. */
  lemma {:induction false} ScanDrawsAtMostOnce(s: ScanState, frames: seq<ScanFrame>,
                                               calculatePath: (Point, Point) -> NavMeshPath)
    ensures s.linesDrawn ==> RunScan(s, frames, calculatePath) == s
    ensures !s.linesDrawn ==>
      (RunScan(s, frames, calculatePath).linesDrawn <==> exists i :: 0 <= i < |frames| && Processes(frames[i]))
    ensures !s.linesDrawn && !RunScan(s, frames, calculatePath).linesDrawn ==>
      RunScan(s, frames, calculatePath).directions == s.directions
    ensures !s.linesDrawn ==> forall i :: 0 <= i < |frames| && Processes(frames[i]) ==>
      ((forall j :: 0 <= j < i ==> !Processes(frames[j])) ==>
        RunScan(s, frames, calculatePath).directions
          == s.directions + DirectionsFor(frames[i].targets, frames[i].player, calculatePath))
    decreases |frames|
  {
    if frames != [] {
      var s1 := ScanUpdate(s, frames[0], calculatePath);
      ScanDrawsAtMostOnce(s1, frames[1..], calculatePath);
      if !s.linesDrawn {
        if !Processes(frames[0]) {
          assert s1 == s;
          forall i | 0 < i < |frames| ensures frames[i] == frames[1..][i - 1] {
          }
          assert (exists i :: 0 <= i < |frames| && Processes(frames[i]))
             <==> (exists i :: 0 <= i < |frames[1..]| && Processes(frames[1..][i])) by {
            if exists i :: 0 <= i < |frames| && Processes(frames[i]) {
              var i :| 0 <= i < |frames| && Processes(frames[i]);
              assert Processes(frames[1..][i - 1]);
            }
          }
          forall i | 0 <= i < |frames| && Processes(frames[i]) && (forall j :: 0 <= j < i ==> !Processes(frames[j]))
            ensures RunScan(s, frames, calculatePath).directions
              == s.directions + DirectionsFor(frames[i].targets, frames[i].player, calculatePath)
          {
            assert i > 0;
            assert Processes(frames[1..][i - 1]);
            forall j | 0 <= j < i - 1 ensures !Processes(frames[1..][j]) {
              assert frames[1..][j] == frames[j + 1];
            }
          }
        }
      }
    }
  }

  class ScanBehaviour {
    var linesDrawn: bool
    const agent: NavAgent
    const logic: DroneLogic

    constructor (agent: NavAgent, logic: DroneLogic)
      ensures !linesDrawn && this.agent == agent && this.logic == logic
    {
      linesDrawn := false;
      this.agent, this.logic := agent, logic;
    }

    function State(): ScanState
      reads this, logic, logic.scanner
    {
      ScanState(linesDrawn, logic.scanner.directions)
    }

    /** OnStateEnter. The shield has run Start by the time a mode is entered. */
    method OnStateEnter()
      requires logic.shield.shieldMaterial.Some?
      modifies agent`isStopped, logic`signalLightMode, logic.shield`droneMode, logic.shield`shieldMaterial,
               logic.scanner`scansInitiated
      ensures agent.isStopped
      ensures logic.signalLightMode == Scan
      ensures logic.shield.DronMode() == Scan && logic.shield.ShowsMode()
      ensures logic.scanner.scansInitiated == old(logic.scanner.scansInitiated) + 1
    {
      logic.signalLightMode := Scan;
      var outcome := logic.shield.SetDronMode(Scan);
      agent.isStopped := true;
      logic.scanner.InitiateScan();
    }

    /** OnStateUpdate on the frame numbered frameCount, with the player at
        `player` and NavMesh.CalculatePath as calculatePath. */
    method OnStateUpdate(frameCount: nat, player: Point, calculatePath: (Point, Point) -> NavMeshPath)
      modifies this`linesDrawn, logic.scanner`directions
      ensures State() == ScanUpdate(old(State()),
        ScanFrame(frameCount, logic.scanner.scanFinished, logic.scanner.targets, player), calculatePath)
    {
      if linesDrawn {
        return;
      }
      if frameCount % ScanFrameStride == 0 {
        if logic.scanner.scanFinished {
          var targets := logic.scanner.targets;
          var i := 0;
          while i < |targets|
            invariant 0 <= i <= |targets|
            invariant logic.scanner.directions
              == old(logic.scanner.directions) + DirectionsFor(targets[..i], player, calculatePath)
          {
            var target := targets[i];
            var path := calculatePath(player, target.position);
            if path.status != PathInvalid {
              logic.scanner.AddDirections(target, path.corners);
            }
            assert targets[..i + 1][..i] == targets[..i];
            i := i + 1;
          }
          assert targets[..i] == targets;
          linesDrawn := true;
        }
      }
    }

    /** OnStateExit: navigation resumes, the directions go and the next
        activation draws them afresh. */
    method OnStateExit()
      modifies agent`isStopped, logic.scanner`directions, this`linesDrawn
      ensures !agent.isStopped && logic.scanner.directions == [] && !linesDrawn
      ensures State() == ScanState(false, [])
    {
      agent.isStopped := false;
      logic.scanner.RemoveDirections();
      linesDrawn := false;
    }
  }
}
