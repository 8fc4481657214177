# Proofs about the Doosan ROS 2 packages

The files here model the parts of the repository that hold real state, interleaving or data
transformation, apart from ROS, and prove properties of them for every input, run or schedule.
`dafny verify dfyconfig.toml` checks the project.

| file | models |
|---|---|
| `Bits.dfy`, `RobotSync.dfy`, `SyncMask32.dfy` | the multi-robot rendezvous `CRobotSync`: the Python locks, flags and mask as atomic steps of any number of threads, and the 32-bit mask of the C++ version |
| `DefaultMotion.dfy` | the keyboard thread and the cycle threads of the default motion node |
| `MotionWorld.dfy`, `ArcMotion.dfy`, `SplineMotion.dfy`, `SineWave.dfy` | the motion thread of the other three nodes; all that other threads and services do is an arbitrary function of time |
| `SpawnRace.dfy` | how the arc, sine and spline nodes start their motion threads |
| `ArcGeometry.dfy` | the waypoint generators |
| `CallService.dfy` | overlapping service calls with their events, holders and callbacks |
| `JointNames.dfy`, `JointSort.dfy`, `Bridges.dfy` | the Gazebo and MuJoCo joint-state bridges |
| `PyValues.dfy`, `CommandLayer.dfy`, `Blending.dfy`, `AnalogOutputs.dfy` | the Python command layer: defaults and their setters, the checks of a joint move, blended segments, analog outputs |
| `TcpServer.dfy`, `TcpServerThreads.dfy`, `TcpRead.dfy` | the socket registries of the server, called one after the other and from several threads at once, and the timed read and flush of one connection |

Conventions. Floats are reals without NaN; sine and cosine are any two functions with the usual
identities. A Python value is a `Py`, and an exception is a `Raise` result. Where many threads share
an object, the object is a class whose step method is proved equal to a step function, and the
theorems quantify over every list of steps. Where one thread runs a loop, the loop is a method and
`World.Tick` marks every point at which
other threads may run. `World.trace` holds the requests issued, and every motion method says what it
appended to it.

## What the code does not do

Some properties one would expect are false. Each has a lemma or method that shows it fail, and, where
there is one, the exact condition under which it holds.

- A sweep of `WakeUpAll` can raise, for any positive number of robots, because the locks start free and a robot
  raises its flag before it acquires: `RobotSync.FirstSweepCanRaise`. A release raises exactly when all
  acquisitions of that robot have been released: `RobotSync.ReleaseRaisesExactlyWhen`; with one sweeper,
  exactly when the robot has not passed `Wait` since the last sweep: `RobotSync.SweepRaisesExactlyWhen`.
- With two concurrent sweepers the mask no longer means "seen since this call began", for any number of
  robots and any two threads: `RobotSync.TwoSweepersAreFooled`. It does in every run in which scans do
  not overlap (`RobotSync.MaskRefinesSeen`), so a set of sweepers is safe if and only if it has at most
  one member: `RobotSync.MaskIsSafeExactlyWhenOneSweeps`.
- A stop requested between the start of an arc run and the run's own reset of `should_stop` is lost: the
  whole approach follows if and only if HOME succeeds and no later stop comes before the line to the arc,
  whatever came before the reset: `ArcMotion.EarlyStopIsLost`, `ArcMotion.ArcMotionNode.ExecuteArc`.
- The sine node does not look at `should_stop` before its first sweep. More than two motions start after a
  stop if and only if the stop is up when HOME is issued and HOME succeeds, or is up when PRE-START is
  issued and both HOME and the line to the start succeed: `SineWave.SineWaveNode.ExecuteMotion`. Four do
  in `SineWave.FourLateMotions`.
- In the default motion node a request that throws ends the cycle thread with `running` up, and no key
  starts a cycle any more: `DefaultMotion.CrashBlocksTheNode`.
- Two space keys in quick succession start two motion threads in the arc, sine and spline nodes:
  `SpawnRace.TwoKeysMakeTwo`. A run is safe from this if and only if every key waits for the flag write of
  the thread before it: `SpawnRace.KeysWaitExactlyWhenSafe`.
- `is_number` returns in its first iteration. It accepts exactly what has a number or an empty list at the
  head (`PyValues.IsNumberAcceptsExactly`), and misses its purpose exactly when such a value has something
  else than a number behind the head, and for the empty string: `PyValues.IsNumberErrsExactlyWhen`.
- A move whose speed is a list that starts with zero passes the checks and is sent with speed zero:
  `CommandLayer.ListSpeedCanBeSentAsZero`; exactly then: `CommandLayer.SentSpeedIsPositiveExactlyWhen`.
- The Gazebo bridge tests its cache with `== []`. With empty commands in the stream it therefore
  departs from plain deduplication, in one of two ways that depend on whether the message buffer
  compares like a list: `Bridges.GazeboDeduplicatesExactlyWhen`.
- The two extractors of joint numbers can differ: `JointNames.PrefixWithNumberParts`. They agree on a name
  if and only if neither finds a number, or the first digits and those behind the first `joint_` have the
  same value: `JointNames.ExtractorsAgreeExactlyWhen`.
- A read of length zero is taken for a disconnect: `TcpRead.ZeroLengthRead`; on a connection without
  faults exactly such a read is: `TcpRead.FalseDisconnectExactlyWhen`.
- A flush need not end. Without failures it ends if and only if some round finds nothing pending before the
  peer has closed, on a writable socket: `TcpRead.FlushEndsExactlyWhen`. For a caller: when nothing
  arrives and the peer closes at round c, counted from 0, if and only if at most (c - 1) full buffers are
  pending:
  `TcpRead.FlushBeatsCloseExactlyWhen`. After the peer has closed it never ends:
  `TcpRead.FlushAfterCloseNeverEnds`.
- `server_socket_open` raises for a port above 65535 only at bind and leaves its listener open, to be
  closed by nobody but the garbage collector: exactly for those ports, once a socket was created and its
  option set: `TcpServer.ServerModule.Open`.
- Two threads that close the same socket can raise: `TcpServerThreads.SecondCloseRaises`; for a socket
  that was never marked disconnected after its state was deleted, exactly when the connection is gone or
  another thread is between its two writes or deletions: `TcpServerThreads.DeletionRaisesExactlyWhen`.
  After such a late mark also the deletion of the connection can raise:
  `TcpServerThreads.LateMarkMakesDeletionRaise`. A disconnect that is recorded after its socket was closed
  leaves a state without a connection: `TcpServer.ServerModule.MarkDisconnected`.
- `set_velj` raises the type error for a scalar that is not positive where `set_accj` raises the value
  error. The model follows the code.

## Model

| member | source | states |
|---|---|---|
| RobotSync.CRobotSync.constructor | src/doosan-robot2/dsr_common2/imp/DSR_util2.py:24-39 | all locks free, no flag up, no token acquired, and the wait mask is 2^n - 1, built bit by bit |
| RobotSync.CRobotSync.CleanUp | src/doosan-robot2/dsr_common2/imp/DSR_util2.py:41-44 | clears the run flag and nothing else |
| RobotSync.CRobotSync.ReleaseLock | src/doosan-robot2/dsr_common2/imp/DSR_util2.py:56-56 | releases a held lock; a free or missing lock raises and changes nothing |
| RobotSync.CRobotSync.Execute | src/doosan-robot2/dsr_common2/imp/DSR_util2.py:46-71 | one statement of `Wait`, `WakeUp` or `WakeUpAll` on the object refines the step function over which the theorems range |
| RobotSync.CRobotSync.Step | src/doosan-robot2/dsr_common2/imp/DSR_util2.py:46-71 | the object itself keeps the masks within 2^n - 1 and the tokens of every robot conserved at every statement of any thread |
| RobotSync.TokenConservation | src/doosan-robot2/dsr_common2/imp/DSR_util2.py:46-71 | in every interleaving of any calls, completed acquisitions exceed releases by one while the robot's lock is held and equal them otherwise |
| RobotSync.MaskAlwaysInRange | src/doosan-robot2/dsr_common2/imp/DSR_util2.py:61-68 | the current mask never exceeds 2^n - 1, however many sweepers race on it |
| RobotSync.MaskRefinesSeen | src/doosan-robot2/dsr_common2/imp/DSR_util2.py:61-68 | in every interleaving in which scans do not overlap, the mask of a scanning thread has exactly the bits of the robots it saw since its call began, equals the wait mask exactly when all were seen, and the scan ends only then |
| RobotSync.FullExactlyWhenAllSeen | src/doosan-robot2/dsr_common2/imp/DSR_util2.py:67-67 | a mask that represents a set of robots is 2^n - 1 exactly when the set is everyone |
| RobotSync.NoBitIsLost | src/doosan-robot2/dsr_common2/imp/DSR_util2.py:61-66 | while scans do not overlap, no step of any thread but a reset clears a bit |
| RobotSync.SoleSweeperNeverOverlaps | src/doosan-robot2/dsr_common2/imp/DSR_util2.py:61-71 | if one thread does all the sweeping, scans never overlap |
| RobotSync.TwoSweepersAreFooled | src/doosan-robot2/dsr_common2/imp/DSR_util2.py:61-68 | for any positive number of robots and any two threads, a run in which one sweeper stops scanning without having seen any robot |
| RobotSync.MaskIsSafeExactlyWhenOneSweeps | src/doosan-robot2/dsr_common2/imp/DSR_util2.py:61-71 | the mask means what it should in all runs whose sweepers are in a given set, for each of them, if and only if the set has at most one member |
| RobotSync.ReleaseRaisesExactlyWhen | src/doosan-robot2/dsr_common2/imp/DSR_util2.py:52-71 | in every interleaving of any calls, releasing robot i raises if and only if its releases equal its acquisitions |
| RobotSync.RobotsStayInStep | src/doosan-robot2/dsr_common2/imp/DSR_util2.py:46-71 | if one `WakeUpAll` caller does all the waking, each robot has passed `Wait` as often as there were sweeps or once more, so between sweeps any two differ by at most one |
| RobotSync.SweepRaisesExactlyWhen | src/doosan-robot2/dsr_common2/imp/DSR_util2.py:69-70 | if one `WakeUpAll` caller does all the waking, its release of robot i raises if and only if that robot has not passed `Wait` since the last sweep |
| RobotSync.FirstSweepCanRaise | src/doosan-robot2/dsr_common2/imp/DSR_util2.py:46-71 | for any positive number of robots and any two threads, a run in which the sweeper saw every robot waiting and still raises |
| RobotSync.WakeUpSawWaiting | src/doosan-robot2/dsr_common2/imp/DSR_util2.py:52-59 | in every interleaving of any calls, a `WakeUp` about to release a robot has found its flag up at a named earlier step of the same call |
| RobotSync.WakeUpReleases | src/doosan-robot2/dsr_common2/imp/DSR_util2.py:52-59 | while the run flag is up, `WakeUp` of a waiting robot whose lock is held, run alone, frees that lock, counts one release and returns, and changes nothing else |
| RobotSync.WakeUpWaitsForFlag | src/doosan-robot2/dsr_common2/imp/DSR_util2.py:54-55 | if the robot does not wait it keeps looking and changes nothing, after any number of steps |
| RobotSync.WakeUpGivesUp | src/doosan-robot2/dsr_common2/imp/DSR_util2.py:54-54 | after `CleanUp` it returns at once without a release |
| RobotSync.WaitPasses | src/doosan-robot2/dsr_common2/imp/DSR_util2.py:46-50 | `Wait` on a free lock returns holding it, with the flag down and one acquisition more |
| RobotSync.WaitBlocks | src/doosan-robot2/dsr_common2/imp/DSR_util2.py:46-50 | `Wait` on a held lock stays there with its flag up and changes nothing else, after any number of steps |
| RobotSync.SweepReleasesAll | src/doosan-robot2/dsr_common2/imp/DSR_util2.py:61-71 | `WakeUpAll`, when every robot waits or after `CleanUp`, and all locks are held, returns and has released every robot once |
| RobotSync.SweepWaitsForAll | src/doosan-robot2/dsr_common2/imp/DSR_util2.py:63-68 | if some robot does not wait, the scan goes on and releases nothing, after any number of steps |
| RobotSync.BadRobotRaises | src/doosan-robot2/dsr_common2/imp/DSR_util2.py:46-55 | for a robot that does not exist `Wait` and, while running, `WakeUp` raise and change nothing |
| RobotSync.CleanUpIsFinal | src/doosan-robot2/dsr_common2/imp/DSR_util2.py:41-44 | no run after `CleanUp` has the run flag up again |
| Bits.GrowMask | src/doosan-robot2/dsr_common2/imp/DSR_util2.py:39-39 | or-ing bit n into 2^n - 1 gives 2^(n+1) - 1 |
| Bits.OrIsUnion | src/doosan-robot2/dsr_common2/imp/DSR_util2.py:66-66 | a bit of an or is a bit of one of its operands |
| SyncMask32.NoTruncation | src/doosan-robot2/dsr_common2/include/dsr_util.h:111-117 | with at most 8 robots the 32-bit shift and or lose nothing and add exactly one bit |
| SyncMask32.CRobotSync.constructor | src/doosan-robot2/dsr_common2/include/dsr_util.h:62-70 | the wait mask is 2^n - 1 in 32 bits |
| SyncMask32.CRobotSync.Scan | src/doosan-robot2/dsr_common2/include/dsr_util.h:114-117 | a pass adds exactly the bits of the robots it reads as waiting |
| SyncMask32.CRobotSync.WakeUpAll | src/doosan-robot2/dsr_common2/include/dsr_util.h:111-121 | the loop ends with the first pass after which every robot has been seen, or before the first pass that finds `m_nIsRun` false, and not otherwise |
| SyncMask32.FullMeansAllSeen | src/doosan-robot2/dsr_common2/include/dsr_util.h:118-118 | the masks are equal exactly when every robot was read as waiting in some pass |
| DefaultMotion.DefaultMotionNode.PressKey | src/doosan-robot2/doosan_motion_loop/doosan_motion_loop/default_motion.py:62-82 | the key branch refines the step function |
| DefaultMotion.DefaultMotionNode.KeyboardMonitor | src/doosan-robot2/doosan_motion_loop/doosan_motion_loop/default_motion.py:62-83 | each further statement of the keyboard thread refines the step function |
| DefaultMotion.DefaultMotionNode.Send | src/doosan-robot2/doosan_motion_loop/doosan_motion_loop/default_motion.py:99-110 | a request is appended to the thread's log and to the node's trace, unless issuing it throws |
| DefaultMotion.DefaultMotionNode.Wait | src/doosan-robot2/doosan_motion_loop/doosan_motion_loop/default_motion.py:99-117 | the answer, or its absence, is appended to both |
| DefaultMotion.DefaultMotionNode.RunOneCycle | src/doosan-robot2/doosan_motion_loop/doosan_motion_loop/default_motion.py:178-212 | each statement of a cycle thread refines the step function, and the node keeps at most one active cycle and a serial trace |
| DefaultMotion.DefaultMotionNode.Finish | src/doosan-robot2/doosan_motion_loop/doosan_motion_loop/default_motion.py:209-210 | the two flag writes at the end of a cycle, in order |
| DefaultMotion.AtMostOneCycle | src/doosan-robot2/doosan_motion_loop/doosan_motion_loop/default_motion.py:62-83 | in every interleaving at most one cycle thread lies between its spawn and clearing `running`, and then `running` is up |
| DefaultMotion.TraceIsSerial | src/doosan-robot2/doosan_motion_loop/doosan_motion_loop/default_motion.py:178-212 | the trace is the concatenation of the threads' logs, each HOME, PRE-START, a non-empty run of waypoints of which only the last can have failed, STOP; only the final one can be unfinished |
| DefaultMotion.BeginsACycle | src/doosan-robot2/doosan_motion_loop/doosan_motion_loop/default_motion.py:178-212 | whatever a cycle thread has logged so far is the beginning of some whole cycle, and all of one when it is over |
| DefaultMotion.SpaceStartsCycle | src/doosan-robot2/doosan_motion_loop/doosan_motion_loop/default_motion.py:66-74 | from any idle node at its key read, a space and the next three keyboard steps add exactly one thread, with empty log, `running` up and `cycle_done` down |
| DefaultMotion.SpaceIsIgnored | src/doosan-robot2/doosan_motion_loop/doosan_motion_loop/default_motion.py:66-76 | while `running` is up a space does nothing |
| DefaultMotion.QuitShutsDown | src/doosan-robot2/doosan_motion_loop/doosan_motion_loop/default_motion.py:79-83 | the quit key shuts rclpy down and ends the keyboard thread, and no key or step does anything after it |
| DefaultMotion.KeysThatMatter | src/doosan-robot2/doosan_motion_loop/doosan_motion_loop/default_motion.py:62-83 | a key changes the node if and only if it is read while rclpy is up and is the quit key, or a space while `running` is down; a shutdown ends the keyboard thread at its next look |
| DefaultMotion.CycleGoesWell | src/doosan-robot2/doosan_motion_loop/doosan_motion_loop/default_motion.py:178-212 | a new cycle thread that runs alone with good answers sends the whole cycle of five waypoints, ends with `running` down and `cycle_done` up |
| DefaultMotion.CycleBreaksOff | src/doosan-robot2/doosan_motion_loop/doosan_motion_loop/default_motion.py:198-210 | a bad or missing answer to any waypoint ends the waypoints there; the stop and both flag writes follow all the same |
| DefaultMotion.CrashBlocksTheNode | src/doosan-robot2/doosan_motion_loop/doosan_motion_loop/default_motion.py:178-210 | once a request has thrown, `running` stays up and no thread and no request is added, however the run goes on |
| MotionWorld.World.Tick | src/doosan-robot2/doosan_motion_loop/doosan_motion_loop/arc_motion.py:464-503 | between two steps another thread may raise `should_stop`; the flag says whether one did since the last reset |
| MotionWorld.World.Send | src/doosan-robot2/doosan_motion_loop/doosan_motion_loop/arc_motion.py:151-172 | a call is appended to the trace of requests, late when a stop was up as it was issued; the stop may also come while it is served |
| MotionWorld.LateConcat | src/doosan-robot2/doosan_motion_loop/doosan_motion_loop/arc_motion.py:295-395 | motions started after a stop add up over the parts of a run |
| MotionWorld.NewCallsAreFaithful | src/doosan-robot2/doosan_motion_loop/doosan_motion_loop/arc_motion.py:151-172 | a call is good exactly as its answer was: all are if every answer is a success, none if none is |
| MotionWorld.PathsJoin | src/doosan-robot2/doosan_motion_loop/doosan_motion_loop/arc_motion.py:340-386 | every path of the out-and-back sequence starts at the end of the one before |
| ArcMotion.ArcMotionNode.Approach | src/doosan-robot2/doosan_motion_loop/doosan_motion_loop/arc_motion.py:295-338 | HOME, PRE-START, line to the first waypoint, all three if and only if HOME succeeds and no stop comes in time; at most one motion after a stop |
| ArcMotion.ArcMotionNode.Sweep | src/doosan-robot2/doosan_motion_loop/doosan_motion_loop/arc_motion.py:344-386 | a spline through the path, and only if it fails the blended lines, radius 0 for the last; falls short of the end only by a failed line or a stop |
| ArcMotion.ArcMotionNode.SweepLoop | src/doosan-robot2/doosan_motion_loop/doosan_motion_loop/arc_motion.py:340-386 | sweeps alternate between the list and its reverse, each but the last completed; the loop ends only by a failed line, a stop or a shutdown |
| ArcMotion.ArcMotionNode.ExecuteArc | src/doosan-robot2/doosan_motion_loop/doosan_motion_loop/arc_motion.py:295-395 | for every schedule and service outcome, of the requests issued at most two are motions started after a stop raised since the run's reset, one of them only the final HOME; more than two motions are issued at all if and only if HOME succeeds and no stop comes between the reset and the line to the arc; the requests have the form of an arc run |
| ArcMotion.SweepsAreContinuous | src/doosan-robot2/doosan_motion_loop/doosan_motion_loop/arc_motion.py:340-386 | each sweep starts at the target of the last command before it, which succeeded; odd-numbered sweeps run forward |
| ArcMotion.MotionsOfRun | src/doosan-robot2/doosan_motion_loop/doosan_motion_loop/arc_motion.py:305-392 | a run issues more than two motions if and only if it completes the approach |
| ArcMotion.EarlyStopIsLost | src/doosan-robot2/doosan_motion_loop/doosan_motion_loop/arc_motion.py:295-334 | after a stop raised before the reset the run issues more than two motions if and only if HOME succeeds and no later stop comes in time; with no later stop the sweeping ends only by a failed line or a shutdown |
| ArcMotion.GoodRun | src/doosan-robot2/doosan_motion_loop/doosan_motion_loop/arc_motion.py:295-395 | with good answers and no stop the commands of a run are exactly HOME, PRE-START, the line, one spline after another out and back until rclpy is shut down, the slow HOME and the stop |
| ArcMotion.BadRun | src/doosan-robot2/doosan_motion_loop/doosan_motion_loop/arc_motion.py:305-312 | with bad answers only a run is the one request to go HOME |
| ArcMotion.FallbackRadii | src/doosan-robot2/doosan_motion_loop/doosan_motion_loop/arc_motion.py:363-370 | in a fallback every line blends with radius 50 but the one to the end of the path, which has 0 |
| SplineMotion.SplineMotionNode.Advance | src/doosan-robot2/doosan_motion_loop/doosan_motion_loop/spline_motion.py:394-440 | after a command the cycle goes on exactly when it succeeded and no stop is up |
| SplineMotion.SplineMotionNode.Cycle | src/doosan-robot2/doosan_motion_loop/doosan_motion_loop/spline_motion.py:390-457 | the requests follow HOME, PRE-START, forward, reverse, HOME and fall short only by a failure or a stop |
| SplineMotion.SplineMotionNode.ExecuteCycle | src/doosan-robot2/doosan_motion_loop/doosan_motion_loop/spline_motion.py:378-457 | of the requests issued at most one is a motion started after a stop raised since the cycle's reset; a second call while one runs issues nothing |
| SplineMotion.CycleIsClosed | src/doosan-robot2/doosan_motion_loop/doosan_motion_loop/spline_motion.py:378-457 | the reverse spline starts where the forward one ended and ends where it started |
| SplineMotion.CycleEndsAtHome | src/doosan-robot2/doosan_motion_loop/doosan_motion_loop/spline_motion.py:390-457 | HOME first, PRE-START second, the spline third; a whole cycle ends with the command it began with, and a shorter one with a failure or a stop |
| SplineMotion.GoodCycle | src/doosan-robot2/doosan_motion_loop/doosan_motion_loop/spline_motion.py:378-457 | with good answers and no stop all five commands are issued |
| SineWave.SineWaveNode.ReverseWaypoints | src/doosan-robot2/doosan_motion_loop/doosan_motion_loop/sine_wave.py:469-470 | the list stays the original or its reverse by the parity of the reversals |
| SineWave.SineWaveNode.Approach | src/doosan-robot2/doosan_motion_loop/doosan_motion_loop/sine_wave.py:394-433 | HOME, then PRE-START and the first line, with no look at the stop flag; when each is late |
| SineWave.SineWaveNode.Sweep | src/doosan-robot2/doosan_motion_loop/doosan_motion_loop/sine_wave.py:442-467 | lines along the list of which only the last can have failed; at most one after a stop |
| SineWave.SineWaveNode.SweepLoop | src/doosan-robot2/doosan_motion_loop/doosan_motion_loop/sine_wave.py:440-470 | the list is reversed after every sweep but a failed one, also after a sweep cut short by a stop |
| SineWave.SineWaveNode.Return | src/doosan-robot2/doosan_motion_loop/doosan_motion_loop/sine_wave.py:463-480 | the stop, and HOME unless a line failed |
| SineWave.SineWaveNode.ExecuteMotion | src/doosan-robot2/doosan_motion_loop/doosan_motion_loop/sine_wave.py:386-480 | how a run can end and how often it reverses the list; of the requests issued more than two are motions started after a stop if and only if the stop comes before HOME or before PRE-START and the approach goes on, and four if and only if it comes before HOME and the approach succeeds |
| SineWave.LateCounts | src/doosan-robot2/doosan_motion_loop/doosan_motion_loop/sine_wave.py:394-440 | the number of late motions of a run is told by its approach alone |
| SineWave.FourLateMotions | src/doosan-robot2/doosan_motion_loop/doosan_motion_loop/sine_wave.py:386-480 | a run, with rclpy up and one stop request, that starts four motions after the stop |
| SineWave.GoodRun | src/doosan-robot2/doosan_motion_loop/doosan_motion_loop/sine_wave.py:386-480 | with good answers and no stop a run is the approach and whole sweeps, out and back, until rclpy is shut down, then the stop and HOME |
| SineWave.SweepsAreContinuous | src/doosan-robot2/doosan_motion_loop/doosan_motion_loop/sine_wave.py:435-470 | every sweep that sends anything first repeats the last line before it, which succeeded |
| SineWave.RunManyTimes | src/doosan-robot2/doosan_motion_loop/doosan_motion_loop/sine_wave.py:386-480 | over any number of runs with stops and restarts, the requests issued are those of the runs in turn, and the list and the start of each run follow the parity of all reversals |
| SpawnRace.OneThreadIfKeysWait | src/doosan-robot2/doosan_motion_loop/doosan_motion_loop/arc_motion.py:475-480 | at most one motion thread is under way if every space key waits for the flag write of the thread before it |
| SpawnRace.EarlyKeyMakesTwo | src/doosan-robot2/doosan_motion_loop/doosan_motion_loop/spline_motion.py:380-383 | from any state with a thread that has not raised the flag yet, a space key can lead to two active threads, also past the spline node's own test |
| SpawnRace.TwoKeysMakeTwo | src/doosan-robot2/doosan_motion_loop/doosan_motion_loop/sine_wave.py:623-630 | two space keys can make two active threads |
| SpawnRace.SecondTestStopsLatecomer | src/doosan-robot2/doosan_motion_loop/doosan_motion_loop/spline_motion.py:380-383 | the second test ends a thread that comes to it after the flag was raised, which becomes active without the test |
| SpawnRace.KeysWaitExactlyWhenSafe | src/doosan-robot2/doosan_motion_loop/doosan_motion_loop/spline_motion.py:380-498 | in a run the keys wait if and only if from no point of it two threads can become active without a further key, with or without the second test |
| ArcGeometry.GenerateWaypoints | src/doosan-robot2/doosan_motion_loop/doosan_motion_loop/arc_motion.py:276-290 | every waypoint lies on the circle, at its angle, and the ends are the start and end angles |
| ArcGeometry.EquallySpaced | src/doosan-robot2/doosan_motion_loop/doosan_motion_loop/arc_motion.py:279-283 | the angles run from start to end in equal steps, strictly upwards if the end is above the start |
| ArcGeometry.EqualChords | src/doosan-robot2/doosan_motion_loop/doosan_motion_loop/arc_motion.py:279-288 | neighbouring waypoints all have the same squared distance 2 r^2 (1 - cos step) |
| ArcGeometry.ReversedIsMirrored | src/doosan-robot2/doosan_motion_loop/doosan_motion_loop/arc_motion.py:123-124 | if start is minus end, the reversed list is the waypoint-by-waypoint mirror image in x about the centre |
| ArcGeometry.NodePaths | src/doosan-robot2/doosan_motion_loop/doosan_motion_loop/arc_motion.py:33-124 | the node's own two lists are mirror images of each other |
| ArcGeometry.ArcRunsLeftToRight | src/doosan-robot2/doosan_motion_loop/doosan_motion_loop/arc_motion.py:282-288 | negative angles lie left of the centre, positive ones right, and angle 0 straight above it |
| ArcGeometry.WaypointsRunLeftToRight | src/doosan-robot2/doosan_motion_loop/doosan_motion_loop/arc_motion.py:33-290 | the first half of the node's waypoints lies left of the centre and the second half right of it |
| ArcGeometry.GenerateSineWave | src/doosan-robot2/doosan_motion_loop/doosan_motion_loop/sine_wave.py:344-380 | evenly spaced in x from start to end, within the amplitude, and the reversed list is the half-turn of the list |
| ArcGeometry.HalfTurn | src/doosan-robot2/doosan_motion_loop/doosan_motion_loop/sine_wave.py:354-364 | the points at mirrored indices are half-turn images of each other about the middle of the wave |
| ArcGeometry.WaveGoesUpFirst | src/doosan-robot2/doosan_motion_loop/doosan_motion_loop/sine_wave.py:354-364 | the wave is above its base line in the first half and below it in the second |
| CallService.ServiceNode.CallerStep | src/doosan-robot2/doosan_motion_loop/doosan_motion_loop/spline_motion.py:172-190 | each statement up to the wait refines the step function |
| CallService.ServiceNode.CallbackStep | src/doosan-robot2/doosan_motion_loop/doosan_motion_loop/spline_motion.py:177-187 | an answer and each statement of the callback refine the step function; an exception leaves the holder empty but sets the event |
| CallService.ServiceNode.ReturnStep | src/doosan-robot2/doosan_motion_loop/doosan_motion_loop/spline_motion.py:192-202 | waking, timing out and returning refine the step function about which the next rows speak |
| CallService.ReturnsAnswerExactlyWhen | src/doosan-robot2/doosan_motion_loop/doosan_motion_loop/spline_motion.py:172-202 | in every overlap of calls and order of answers, failures and timeouts, a returned call gave the answer to its own request if and only if it was answered and the call had not expired, and None if and only if the request failed or the call expired |
| CallService.NoMixUp | src/doosan-robot2/doosan_motion_loop/doosan_motion_loop/spline_motion.py:172-202 | for any overlap of calls and order of answers, failures and timeouts, a call returns None or the answer to its own request, and no two calls return the same answer |
| CallService.LateAnswersAreDropped | src/doosan-robot2/doosan_motion_loop/doosan_motion_loop/spline_motion.py:192-202 | the answer to a call that timed out is never returned by any call, however the run goes on |
| CallService.AnsweredNeverExpires | src/doosan-robot2/doosan_motion_loop/doosan_motion_loop/spline_motion.py:192-194 | once its event is up a call that has not expired never does |
| CallService.AnswerArrives | src/doosan-robot2/doosan_motion_loop/doosan_motion_loop/spline_motion.py:172-202 | from any reachable state, a run in which a new call returns the answer given to it, or None for a failed one |
| CallService.SilenceExpires | src/doosan-robot2/doosan_motion_loop/doosan_motion_loop/spline_motion.py:192-200 | and one in which a call that gets no answer returns None |
| JointNames.ReadsBack | src/doosan-robot2/dsr_bringup2/dsr_bringup2/gazebo_connection.py:46-46 | parsing the decimal form of n gives n |
| JointNames.AnyNumberIsLeftmost | src/doosan-robot2/dsr_bringup2/dsr_bringup2/gazebo_connection.py:44-46 | the search finds the leftmost maximal run of digits, and infinity only if there is no digit |
| JointNames.JointNumberIsLeftmost | src/doosan-robot2/dsr_bringup2/dsr_bringup2/dsr_mujoco_bridge.py:50-52 | the search finds the leftmost `joint_` with digits, and infinity only if there is none |
| JointNames.ExtractorsReadBack | src/doosan-robot2/dsr_bringup2/dsr_bringup2/gazebo_connection.py:44-46 | both extractors read n back from joint_n, also behind a prefix without digits |
| JointNames.ExtractorsAgreeExactlyWhen | src/doosan-robot2/dsr_bringup2/dsr_bringup2/dsr_mujoco_bridge.py:50-52 | on every name, the two extractors agree if and only if neither finds a number or the first digits and those behind the first `joint_` with digits have the same value |
| JointNames.FirstDigit | src/doosan-robot2/dsr_bringup2/dsr_bringup2/gazebo_connection.py:45-45 | the position of the first digit |
| JointNames.FirstJoint | src/doosan-robot2/dsr_bringup2/dsr_bringup2/dsr_mujoco_bridge.py:51-51 | the position of the first `joint_` with digits |
| JointNames.PrefixWithNumberParts | src/doosan-robot2/dsr_bringup2/dsr_bringup2/dsr_mujoco_bridge.py:50-52 | behind a prefix numbered m one extractor reads m and the other the joint's n, so they agree if and only if m = n |
| JointSort.SortsStably | src/doosan-robot2/dsr_bringup2/dsr_bringup2/gazebo_connection.py:48-48 | the index list is a permutation of all positions and sorts the keys stably |
| JointSort.NumbersAscend | src/doosan-robot2/dsr_bringup2/dsr_bringup2/gazebo_connection.py:48-48 | of two joints with a number the smaller comes first, and of equal ones the one that came first in the message; no order predicate of the model is used |
| JointSort.OrderOfArrangement | src/doosan-robot2/dsr_bringup2/dsr_bringup2/dsr_mujoco_bridge.py:54-54 | if the numbers are 1 to n in any arrangement, place k of the order holds the position of k + 1 |
| JointSort.StableOrderIsUnique | src/doosan-robot2/dsr_bringup2/dsr_bringup2/gazebo_connection.py:48-48 | there is no other stable sorting permutation |
| JointSort.UnnumberedComeLast | src/doosan-robot2/dsr_bringup2/dsr_bringup2/gazebo_connection.py:46-48 | joints without a number come last, in input order |
| Bridges.OneStablePermutation | src/doosan-robot2/dsr_bringup2/dsr_bringup2/gazebo_connection.py:48-55 | one stable permutation moves names, positions, velocities and efforts alike, and NaN efforts become 0 |
| Bridges.JointsComeInOrder | src/doosan-robot2/dsr_bringup2/dsr_bringup2/dsr_mujoco_bridge.py:48-60 | for joint_1 to joint_n in any arrangement, the sorted message of either bridge has joint_k in place k - 1 with its own position, velocity and cleaned effort |
| Bridges.BridgesReadTheirNumber | src/doosan-robot2/dsr_bringup2/dsr_bringup2/gazebo_connection.py:44-46 | in m_joint_n the Gazebo bridge sorts by m and the MuJoCo bridge by n |
| Bridges.ContainsExactlyWhen | src/doosan-robot2/dsr_bringup2/dsr_bringup2/gazebo_connection.py:59-59 | the substring test holds if and only if some part of the name is joint_4 |
| Bridges.DropsJointFour | src/doosan-robot2/dsr_bringup2/dsr_bringup2/gazebo_connection.py:57-61 | the filter removes exactly the first sorted index whose name contains joint_4 and keeps the order |
| Bridges.CommandForModel | src/doosan-robot2/dsr_bringup2/dsr_bringup2/gazebo_connection.py:57-64 | for p3020 the command is the sorted positions without that one entry; for any other model all sorted positions |
| Bridges.GazeboConnection.SortJointStates | src/doosan-robot2/dsr_bringup2/dsr_bringup2/gazebo_connection.py:42-66 | stores the command and returns the sorted message; an incomplete message raises and changes nothing |
| Bridges.GazeboConnection.ListenerCallback | src/doosan-robot2/dsr_bringup2/dsr_bringup2/gazebo_connection.py:35-40 | after every callback the cache is the latest command and the published commands are those of the specification |
| Bridges.MuJoCoBridge.ListenerCallback | src/doosan-robot2/dsr_bringup2/dsr_bringup2/dsr_mujoco_bridge.py:35-46 | after every callback the published commands are the command stream without consecutive repetitions |
| Bridges.GazeboDeduplicatesExactlyWhen | src/doosan-robot2/dsr_bringup2/dsr_bringup2/gazebo_connection.py:38-40 | the Gazebo bridge publishes the deduplicated stream if and only if no empty command repeats (list buffer) or leads the stream (array buffer) |
| Bridges.DedupKeepsCurrent | src/doosan-robot2/dsr_bringup2/dsr_bringup2/dsr_mujoco_bridge.py:40-45 | the last published command is always the current one, and none is published twice in a row |
| Bridges.DedupKeepsEveryChange | src/doosan-robot2/dsr_bringup2/dsr_bringup2/dsr_mujoco_bridge.py:40-45 | the stream without repetitions has one entry for every change, in order |
| Bridges.PlainJointsAgree | src/doosan-robot2/dsr_bringup2/dsr_bringup2/gazebo_connection.py:44-46 | the extractors agree on joint_n behind any prefix without digits |
| Bridges.BridgesAgree | src/doosan-robot2/dsr_bringup2/dsr_bringup2/dsr_mujoco_bridge.py:35-72 | fed the same messages with names on which the extractors agree, both bridges publish the same commands, up to the empty-command cases |
| PyValues.IsNumberSeesOnlyTheHead | src/doosan-robot2/dsr_common2/imp/DR_common2.py:363-380 | the items behind the first one do not matter |
| PyValues.IsNumberAcceptsExactly | src/doosan-robot2/dsr_common2/imp/DR_common2.py:363-380 | it accepts exactly the values whose head is a number or an empty list, and the empty string; it raises exactly if the head is None |
| PyValues.HeadAndRest | src/doosan-robot2/dsr_common2/imp/DR_common2.py:363-380 | every leaf is a number if and only if the head passes and everything behind it is a number |
| PyValues.IsNumberErrsExactlyWhen | src/doosan-robot2/dsr_common2/imp/DR_common2.py:363-380 | it differs from "every leaf is a number" if and only if the head passes and something behind it is no number, or the value is the empty string |
| PyValues.FlatListErrsExactlyWhen | src/doosan-robot2/dsr_common2/imp/DR_common2.py:363-380 | for a list without inner lists: if and only if the first item is a number and a later one is not |
| CommandLayer.CheckPositive | src/doosan-robot2/dsr_common2/imp/DSR_ROBOT2.py:484-486 | the first item that is not a positive number decides which exception is raised |
| CommandLayer.JointList | src/doosan-robot2/dsr_common2/imp/DSR_ROBOT2.py:470-524 | accepts exactly a positive scalar or six positive numbers, and which exception everything else raises |
| CommandLayer.TaskPair | src/doosan-robot2/dsr_common2/imp/DSR_ROBOT2.py:526-574 | accepts exactly a positive first and a positive or absent second number |
| CommandLayer.DsrRobot.constructor | src/doosan-robot2/dsr_common2/imp/DSR_ROBOT2.py:394-408 | the initial defaults are in range |
| CommandLayer.DsrRobot.SetVelj | src/doosan-robot2/dsr_common2/imp/DSR_ROBOT2.py:470-496 | the default changes exactly when the argument is accepted, and stays six zeros or six positives |
| CommandLayer.DsrRobot.SetAccj | src/doosan-robot2/dsr_common2/imp/DSR_ROBOT2.py:498-524 | the same for accelerations |
| CommandLayer.DsrRobot.SetVelx | src/doosan-robot2/dsr_common2/imp/DSR_ROBOT2.py:526-549 | the pair changes exactly when both numbers are accepted, and stays in range |
| CommandLayer.DsrRobot.SetAccx | src/doosan-robot2/dsr_common2/imp/DSR_ROBOT2.py:551-574 | the same for accelerations |
| CommandLayer.DsrRobot.SetRefCoord | src/doosan-robot2/dsr_common2/imp/DSR_ROBOT2.py:1429-1461 | the coordinate changes exactly for 0, 1, 2 and 101..200, also when the service call fails and the command raises |
| CommandLayer.MoveSpeeds | src/doosan-robot2/dsr_common2/imp/DSR_ROBOT2.py:2490-2508 | which speeds pass: the chosen list has the right shape and no negative entry |
| CommandLayer.CheckValidVelAccJoint | src/doosan-robot2/dsr_common2/imp/DSR_ROBOT2.py:436-450 | without a duration both lists need a non-zero entry |
| CommandLayer.MoveMotion | src/doosan-robot2/dsr_common2/imp/DSR_ROBOT2.py:2490-2541 | when the speeds and the time of a move pass, and what is sent of them |
| CommandLayer.DsrRobot.MoveRadius | src/doosan-robot2/dsr_common2/imp/DSR_ROBOT2.py:2543-2575 | the radius sent: 0 for asynchronous moves, else the argument or the blending default |
| CommandLayer.GetPosj | src/doosan-robot2/dsr_common2/imp/DR_common2.py:216-226 | which targets are taken: a posj, or a list of six, whose head is a number |
| CommandLayer.Floats | src/doosan-robot2/dsr_common2/imp/DSR_ROBOT2.py:2583-2583 | the target is sent as the floats of its items, and raises if one has none |
| CommandLayer.DsrRobot.MoveJ | src/doosan-robot2/dsr_common2/imp/DSR_ROBOT2.py:2486-2614 | issues exactly one request if the checks pass and otherwise raises and issues none, and returns by the answer of the service |
| CommandLayer.MoveJPlainly | src/doosan-robot2/dsr_common2/imp/DSR_ROBOT2.py:2486-2614 | the same in the arguments themselves: a request is issued if and only if target, speeds, time, radius and flags are as required, and it holds the value given under the long name, else under the short name, else the default (the stored speeds, time 0, the blending radius); the result is 0 for success, -1 for a failure or no response, and an error if the call threw |
| CommandLayer.SpeedsPlainly | src/doosan-robot2/dsr_common2/imp/DR_common2.py:335-335 | which speeds are accepted and which number is sent, by long name, short name and default, without the parameter lookup |
| CommandLayer.TimesPlainly | src/doosan-robot2/dsr_common2/imp/DSR_ROBOT2.py:2526-2541 | the same for the time |
| CommandLayer.IssuesPlainly | src/doosan-robot2/dsr_common2/imp/DSR_ROBOT2.py:2486-2575 | the checks of a move pass if and only if the arguments are as described |
| CommandLayer.DefaultsReachTheRobot | src/doosan-robot2/dsr_common2/imp/DSR_ROBOT2.py:470-524 | after the two setters with positive scalars, a move that names no speeds is issued if and only if its other arguments pass, with those scalars as its speed and acceleration |
| CommandLayer.SentSpeedIsPositiveExactlyWhen | src/doosan-robot2/dsr_common2/imp/DSR_ROBOT2.py:2580-2587 | for a move without duration that passed the checks, the speed sent is positive if and only if it is not from a list that starts with zero |
| CommandLayer.ListSpeedCanBeSentAsZero | src/doosan-robot2/dsr_common2/imp/DSR_ROBOT2.py:436-450 | [0, 5, 0, 0, 0, 0] passes the checks and is sent as 0 |
| CommandLayer.SafeMoveJ | src/doosan-robot2/dsr_common2/imp/DSR_ROBOT2.py:2486-2590 | a move issues nothing or one safe request |
| CommandLayer.RunCalls | src/doosan-robot2/dsr_common2/imp/DSR_ROBOT2.py:436-2590 | in any run of setters and moves, accepted or raising, the defaults stay in range, and each request comes from a move of its own and is safe: positive speeds from scalars and defaults without duration, radius 0 when asynchronous |
| Blending.Posb.Create | src/doosan-robot2/dsr_common2/imp/DR_common2.py:140-171 | accepts exactly valid arguments and makes a valid segment with them |
| Blending.GetPosx | src/doosan-robot2/dsr_common2/imp/DR_common2.py:239-249 | which poses are taken: a list of six whose head is a number |
| Blending.Posb.ToList | src/doosan-robot2/dsr_common2/imp/DR_common2.py:195-203 | a new list of the four parts |
| Blending.SegLists | src/doosan-robot2/dsr_common2/imp/DSR_ROBOT2.py:3400-3409 | one new list per segment, no two shared |
| Blending.FillMissing | src/doosan-robot2/dsr_common2/imp/DSR_ROBOT2.py:3418-3420 | missing entries, and no others, become six zeros in place |
| Blending.MovebRows | src/doosan-robot2/dsr_common2/imp/DSR_ROBOT2.py:3397-3424 | one row per segment; the segments are not modified although the lists are; an empty list raises |
| Blending.RowDecodes | src/doosan-robot2/dsr_common2/imp/DSR_ROBOT2.py:3422-3424 | a row has 14 entries and decodes to its segment; a line's second pose is six zeros |
| Blending.RowsDetermineSegments | src/doosan-robot2/dsr_common2/imp/DSR_ROBOT2.py:3400-3424 | two lists of valid segments with the same rows are the same list |
| Blending.CppMovebRows | src/doosan-robot2/dsr_common2/src/dsr_robot.cpp:547-561 | the pushing loops build pose, pose, type, radius for each target |
| Blending.ClientsAgree | src/doosan-robot2/dsr_common2/src/dsr_robot.cpp:547-561 | the Python and the C++ client send the same numbers for the same numeric segments |
| AnalogOutputs.AnalogOutput.SetModeAnalogOutput | src/doosan-robot2/dsr_common2/imp/DSR_ROBOT2.py:5954-5993 | issues a mode request exactly for a known channel and mode and remembers it, also when the service call fails and the command raises |
| AnalogOutputs.AnalogOutput.SetAnalogOutput | src/doosan-robot2/dsr_common2/imp/DSR_ROBOT2.py:5900-5952 | issues an output request exactly when the value is in the range of the latest mode requested on the channel |
| AnalogOutputs.LatestModeIsLast | src/doosan-robot2/dsr_common2/imp/DSR_ROBOT2.py:5970-5973 | the remembered mode is that of the last mode request on the channel |
| AnalogOutputs.ModeThenOutput | src/doosan-robot2/dsr_common2/imp/DSR_ROBOT2.py:5900-5993 | a mode that is set lets exactly the values of its range through on its channel, whatever was requested before, and leaves the other channel alone |
| AnalogOutputs.RunCalls | src/doosan-robot2/dsr_common2/imp/DSR_ROBOT2.py:5900-5993 | in every run each output request follows a mode request on its channel and lies in the range of the last one |
| TcpServer.ServerModule.Create | src/doosan-robot2/dsr_common2/imp/DR_tcp_server2.py:67-84 | a new socket belongs to the call that opens it |
| TcpServer.ServerModule.Abandon | src/doosan-robot2/dsr_common2/imp/DR_tcp_server2.py:96-106 | the except branch closes the listener |
| TcpServer.ServerModule.Register | src/doosan-robot2/dsr_common2/imp/DR_tcp_server2.py:87-89 | a pair of new sockets enters both registries, state 1 |
| TcpServer.ServerModule.Round | src/doosan-robot2/dsr_common2/imp/DR_tcp_server2.py:66-106 | how one round of the loop ends: a registered pair, a closed listener, or a listener left behind |
| TcpServer.ServerModule.Open | src/doosan-robot2/dsr_common2/imp/DR_tcp_server2.py:57-106 | returns a new pair exactly for a valid port when some attempt connects; a listener is left behind exactly for a port above 65535 that gets to bind; otherwise retries leak no socket |
| TcpServer.ServerModule.Shut | src/doosan-robot2/dsr_common2/imp/DR_tcp_server2.py:134-137 | a socket whose close raises is closed all the same |
| TcpServer.ServerModule.Unregister | src/doosan-robot2/dsr_common2/imp/DR_tcp_server2.py:138-139 | both entries of a closed pair are deleted |
| TcpServer.ServerModule.Close | src/doosan-robot2/dsr_common2/imp/DR_tcp_server2.py:118-145 | removes and closes exactly the pair of the socket; -1 if it is not registered, an error if the argument is no socket; if a close raises, the pair stays registered and exactly what was closed before is dead |
| TcpServer.ServerModule.Clean | src/doosan-robot2/dsr_common2/imp/DR_tcp_server2.py:151-173 | nothing stays registered, and only sockets of calls still opening or left behind stay open, unless a close raises, which it tells exactly |
| TcpServer.ServerModule.State | src/doosan-robot2/dsr_common2/imp/DR_tcp_server2.py:182-193 | 1 exactly for a registered socket that was not seen to disconnect, else 0 |
| TcpServer.ServerModule.MarkDisconnected | src/doosan-robot2/dsr_common2/imp/DR_tcp_server2.py:333-336 | the registries stay in step if and only if the socket is still registered at the write |
| TcpServer.OpenMarkClose | src/doosan-robot2/dsr_common2/imp/DR_tcp_server2.py:57-193 | a connection opened on a free port is new and connected, shows a disconnect in its state, and its close restores the registries and open sockets there were before; a second close returns -1 |
| TcpServer.CloseAgainAfterFailure | src/doosan-robot2/dsr_common2/imp/DR_tcp_server2.py:118-145 | a close that raised can be repeated and then removes the pair |
| TcpServer.PairAdded | src/doosan-robot2/dsr_common2/imp/DR_tcp_server2.py:87-89 | a pair of new sockets keeps the pairs apart and adds exactly its two sockets |
| TcpServer.PairRemoved | src/doosan-robot2/dsr_common2/imp/DR_tcp_server2.py:128-139 | removing a pair removes exactly its two sockets from those registered |
| TcpServer.RunCalls | src/doosan-robot2/dsr_common2/imp/DR_tcp_server2.py:57-171 | after any sequence of calls, one at a time, both registries have the same keys, states are 0 or 1, and the open sockets are the registered pairs and those left behind for ports above 65535, less what a close that raised has closed |
| TcpServerThreads.KeysDifferOnlyUnderWork | src/doosan-robot2/dsr_common2/imp/DR_tcp_server2.py:57-171 | in every interleaving of threads, statement by statement, states are 0 or 1; a connection without a state is between the two writes or the two deletions of some thread, and a state without a connection was marked after its deletion |
| TcpServerThreads.NoSocketIsLost | src/doosan-robot2/dsr_common2/imp/DR_tcp_server2.py:57-171 | in every interleaving an open socket is registered, held by an opening thread, or left behind by a raising open; a registered pair is open unless its removal began |
| TcpServerThreads.StateIsMissingExactlyWhen | src/doosan-robot2/dsr_common2/imp/DR_tcp_server2.py:88-139 | without a late mark, a state is missing if and only if its connection is gone or some thread is between its two writes or deletions |
| TcpServerThreads.DeletionRaisesExactlyWhen | src/doosan-robot2/dsr_common2/imp/DR_tcp_server2.py:138-139 | without a late mark, deleting a state raises if and only if the connection is gone or another thread is between its two writes or deletions; deleting a connection never raises |
| TcpServerThreads.RegistriesAgreeAtRest | src/doosan-robot2/dsr_common2/imp/DR_tcp_server2.py:57-171 | once all calls returned without a late mark or a raising open, the keys are the same and the open sockets are exactly the registered pairs |
| TcpServerThreads.SecondCloseRaises | src/doosan-robot2/dsr_common2/imp/DR_tcp_server2.py:125-139 | two threads that close the same socket can make the second one raise |
| TcpServerThreads.LateMarkMakesDeletionRaise | src/doosan-robot2/dsr_common2/imp/DR_tcp_server2.py:138-139 | after a disconnect recorded between the two deletions of one thread, the deletion of the connection by another raises |
| TcpServerThreads.CloseAlone | src/doosan-robot2/dsr_common2/imp/DR_tcp_server2.py:118-145 | the steps of a close that no other thread interrupts do what the sequential close promises |
| TcpServerThreads.CloseUnknownAlone | src/doosan-robot2/dsr_common2/imp/DR_tcp_server2.py:130-132 | closing a socket that is not registered changes nothing |
| TcpServerThreads.OpenAlone | src/doosan-robot2/dsr_common2/imp/DR_tcp_server2.py:57-109 | an open that no other thread interrupts and that connects registers a new pair with state 1 |
| TcpServerThreads.FailedRoundAlone | src/doosan-robot2/dsr_common2/imp/DR_tcp_server2.py:66-106 | a failing option, bind or accept closes the listener, leaves the registries alone and tries again; a port above 65535 raises at bind and leaves the listener open |
| TcpServerThreads.NoSocketAlone | src/doosan-robot2/dsr_common2/imp/DR_tcp_server2.py:66-106 | if no socket can be created the first round raises and every later one is repeated |
| TcpServerThreads.EndOfStreamAlone | src/doosan-robot2/dsr_common2/imp/DR_tcp_server2.py:330-336 | a read that meets the end of the stream sets exactly the state of its socket to 0, and of an unregistered one does nothing |
| TcpServerThreads.DataAlone | src/doosan-robot2/dsr_common2/imp/DR_tcp_server2.py:337-343 | a read that meets data changes nothing |
| TcpServerThreads.CleanAlone | src/doosan-robot2/dsr_common2/imp/DR_tcp_server2.py:151-173 | a clean that no other thread interrupts empties both registries and closes exactly the registered sockets |
| TcpRead.LimitIsExact | src/doosan-robot2/dsr_common2/imp/DR_tcp_client2.py:293-297 | the elapsed time first reaches the timeout T at receive max(1, ceil(100 T)) |
| TcpRead.Connection.Recv | src/doosan-robot2/dsr_common2/imp/DR_tcp_client2.py:282-282 | a receive takes a non-empty front part of the pending bytes, times out, fails or reports the end; no byte is lost |
| TcpRead.Connection.Read | src/doosan-robot2/dsr_common2/imp/DR_tcp_client2.py:245-319 | reports the first outcome that is no timeout, or -3 after exactly the limit; never -3 for timeout -1; state 0 exactly after an end of stream; size limits |
| TcpRead.ReadIsDetermined | src/doosan-robot2/dsr_common2/imp/DR_tcp_server2.py:304-343 | these clauses leave one result for every list of outcomes |
| TcpRead.OutcomesFollowArrivals | src/doosan-robot2/dsr_common2/imp/DR_tcp_client2.py:281-311 | without faults a receive times out exactly while nothing has arrived, and otherwise takes a front part of what has |
| TcpRead.ReadGetsDataExactlyWhen | src/doosan-robot2/dsr_common2/imp/DR_tcp_client2.py:245-319 | without faults a read returns data if and only if something arrives within its limit, at the first receive by which it has, as a front part of it; otherwise it times out after exactly the limit or still waits |
| TcpRead.Connection.FlushRound | src/doosan-robot2/dsr_common2/imp/DR_tcp_client2.py:344-359 | what one round makes of the bytes pending when it looks, and what it leaves |
| TcpRead.Connection.Flush | src/doosan-robot2/dsr_common2/imp/DR_tcp_client2.py:332-367 | drops pending bytes in order; its result is the verdict of the first round that decides |
| TcpRead.FlushEndsExactlyWhen | src/doosan-robot2/dsr_common2/imp/DR_tcp_client2.py:343-359 | without failures a flush ends if and only if some round finds nothing pending before the peer has closed, on a writable socket |
| TcpRead.DrainsByBuffers | src/doosan-robot2/dsr_common2/imp/DR_tcp_client2.py:353-355 | with nothing arriving, each round of full receives takes one buffer of pending bytes |
| TcpRead.FlushBeatsCloseExactlyWhen | src/doosan-robot2/dsr_common2/imp/DR_tcp_client2.py:343-359 | with nothing arriving and the peer closing at round c, counted from 0, a flush ends if and only if at most (c - 1) buffers are pending |
| TcpRead.FlushAfterCloseNeverEnds | src/doosan-robot2/dsr_common2/imp/DR_tcp_client2.py:343-359 | after the peer closed, a flush is still running after any number of rounds |
| TcpRead.NoFalseEnd | src/doosan-robot2/dsr_common2/imp/DR_tcp_client2.py:304-311 | without faults a receive of at least one byte never looks like an end of stream or an error |
| TcpRead.RunOps | src/doosan-robot2/dsr_common2/imp/DR_tcp_client2.py:245-359 | over any run of reads and flushes the peer's stream is the bytes returned or flushed, in order, then the pending ones; each read returns data within its limit, times out or waits |
| TcpRead.ZeroLengthRead | src/doosan-robot2/dsr_common2/imp/DR_tcp_client2.py:304-308 | a read of length 0 on a live connection reports a disconnect and marks it |
| TcpRead.FalseDisconnectExactlyWhen | src/doosan-robot2/dsr_common2/imp/DR_tcp_client2.py:274-308 | on a connection without faults a read reports a disconnect if and only if its length is 0 |

## Left out

- ROS publishers, executors, parameters, markers, terminal settings and sleeps; only command traces and service outcomes remain.
- `line_motion.py` and `test.py`: near copies of the arc and spline nodes.
- The module functions repeated in the `CDsrRobot` class of `DSR_ROBOT2.py`, and the thin service wrappers.
- The rest of `dsr_robot.cpp`, `dsr_serial.cpp`, launch files, kinematics, force control and robot dynamics.
- Floating-point rounding, NaN positions, the 32-bit floats of the C++ client, Unicode digits in joint names.
- The condition variables of `dsr_util.h`, whose `Wait` and `WakeUp` are not modelled; only its masks and scan are.
- RobotSync.CRobotSync.Step: robot indices are natural numbers; Python's negative indices, which address robots from the end, are not modelled.
- MotionWorld.World.Send: the trace is that of one motion thread; what two of them (see `SpawnRace`) do to the robot together is not modelled, nor is the stop request that the keyboard thread itself sends. An exception while a request is issued is not an outcome here (it is in `DefaultMotion`): in the arc and sine nodes it would end the thread with the moving flag up, in the spline node with the flag down.
- DefaultMotion.DefaultMotionNode.Send: the poses and speeds of the five lines and the two joint moves are not modelled, only their order. The stop request of the quit key is not in the cycle trace.
- ArcMotion.ArcMotionNode.Sweep: the speed preset chosen by the keyboard is not part of a command.
- CommandLayer.DsrRobot.SetVelj: the stored list is the caller's own list object; a caller that changes it later changes the default, which values do not capture. `DR_Error` also shuts down rclpy in some cases.
- Blending.MovebRows: the speed, reference and time checks of `_moveb` are not modelled; they repeat those of the other moves.
- Blending.ClientsAgree: segments whose poses hold items behind the first one that are no numbers pass `is_number`; the two clients are compared on numeric segments only.
- TcpServer.ServerModule.Open: sockets are numbers that are never reused, while Python may reuse the `id` of a freed socket; closing a listener in the except branch never raises.
- TcpServerThreads.NoSocketIsLost: closes do not raise here.
- CommandLayer.DsrRobot.MoveJ: the wait for the service, which may never end, is not modelled.
- The registries of the TCP client, which repeat those of the server with single sockets, and the writes with their end data.
