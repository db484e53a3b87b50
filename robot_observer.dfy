/** The receiving side of the robot observer: a window that registers itself with a
    robot and, when that robot reports a move, re-reads the robot's state into its
    text area. */
module RobotObserver {
  import opened Persistence

  /** Title of the robot state window. */
  const CoordinatsTitle := "Окно состояния робота"

  /** The one notification tag the window reacts to. */
  const RobotMoved := "robot moved"

  /** The argument of a notification: null, a string, or some other object. */
  datatype Arg = Null | Text(s: string) | OtherObject

  /** The observed robot, reduced to what the window uses: its observer set and the
      text its getInfo reports for its current state. */
  class Robot {
    var info: string
    var observers: set<object>

    /** A robot starts with no observers. */
    constructor (info: string)
      ensures this.info == info && observers == {}
    {
      this.info := info;
      observers := {};
    }

    /** addObserver: registering is idempotent, so the observers form a set. */
    method AddObserver(o: object)
      modifies this`observers
      ensures observers == old(observers) + {o}
    {
      observers := observers + {o};
    }
  }

  /** The robot state window (CoordinatsWindow). */
  class CoordinatsWindow {
    /** The robot it watches, fixed at construction. */
    const robot: Robot
    /** Title and geometry of the window itself. */
    const frame: Window
    /** The contents of the text area. */
    var text: string

    /** Construction stores the robot and registers the window with it; the text
        area starts empty. */
    constructor (robot: Robot)
      modifies robot
      ensures this.robot == robot && fresh(frame) && frame.title == CoordinatsTitle
      ensures text == ""
      ensures robot.observers == old(robot.observers) + {this}
      ensures robot.info == old(robot.info)
    {
      this.robot := robot;
      frame := new Window(CoordinatsTitle);
      text := "";
      new;
      robot.AddObserver(this);
    }

    /** update: only a "robot moved" notification from its own robot changes the
        text, and then to the robot's current report, never to the argument. The
        sender is compared with equals, taken here as object identity. A
        notification from its robot with a null argument fails in the source (the
        argument's equals is called), so callers must not send one. */
    method Update(o: object, arg: Arg)
      requires o == robot ==> arg != Null
      modifies this`text
      ensures o != robot ==> text == old(text)
      ensures o == robot && arg != Text(RobotMoved) ==> text == old(text)
      ensures o == robot && arg == Text(RobotMoved) ==> text == robot.info
    {
      if o == robot {
        if arg == Text(RobotMoved) {
          OnRobotMoved();
        }
      }
    }

    /** onRobotMoved: pull the text from the robot's current state. */
    method OnRobotMoved()
      modifies this`text
      ensures text == robot.info
    {
      text := robot.info;
    }
  }

  /** A repeated "robot moved" with the robot's state unchanged leaves the text as
      the first one set it. */
  method RepeatedMove(w: CoordinatsWindow) returns (first: string, second: string)
    modifies w
    ensures first == second == w.robot.info == w.text
  {
    w.Update(w.robot, Text(RobotMoved));
    first := w.text;
    w.Update(w.robot, Text(RobotMoved));
    second := w.text;
  }
}
