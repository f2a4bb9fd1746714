/**
 * Command pattern demo: the keys w, a, s and d move a logo around a window.
 *
 * The receiver is a `Logo` holding two Java `int` coordinates; each of the
 * four move commands changes one coordinate by `STEP` in place; the client
 * binds characters to commands in a map; the invoker runs the bound command,
 * or shows a help dialog when the key has no binding.
 */
module Command {
  import opened Wrappers
  import opened JavaInt

  /** The distance every move command travels. */
  const STEP: int := 10

  /** The text of the help dialog shown for an unbound key. */
  const HELP_MESSAGE: string := "Up: w\nDown: s\nLeft: a\nRight: d\n"

  /** The receiver's coordinates, as a value. */
  datatype Point = Point(x: Int32, y: Int32)

  /** The four concrete commands. */
  datatype MoveCommand = MoveUp | MoveDown | MoveLeft | MoveRight

  /** The command that undoes the effect of `cmd`. */
  function Opposite(cmd: MoveCommand): MoveCommand
  {
    match cmd
    case MoveUp => MoveDown
    case MoveDown => MoveUp
    case MoveLeft => MoveRight
    case MoveRight => MoveLeft
  }

  /** Where `cmd` takes a logo standing at `p`; Java's `+=`/`-=` on `int` wraps. */
  function Moved(cmd: MoveCommand, p: Point): Point
  {
    match cmd
    case MoveUp => Point(p.x, Wrap(p.y - STEP))
    case MoveDown => Point(p.x, Wrap(p.y + STEP))
    case MoveLeft => Point(Wrap(p.x - STEP), p.y)
    case MoveRight => Point(Wrap(p.x + STEP), p.y)
  }

  /** The receiver. */
  class Logo {
    var x: Int32
    var y: Int32

    /** Java's int fields start at 0; loading the image is not part of this model. */
    constructor ()
      ensures x == 0 && y == 0
    {
      x, y := 0, 0;
    }

    function Position(): Point
      reads this
    {
      Point(x, y)
    }
  }

  /** `ActionCommand.execute` of each concrete command: changes one coordinate of `logo` in place. */
  method ExecuteCommand(cmd: MoveCommand, logo: Logo)
    modifies logo
    ensures logo.Position() == Moved(cmd, old(logo.Position()))
  {
    match cmd
    case MoveUp => logo.y := Wrap(logo.y - STEP);
    case MoveDown => logo.y := Wrap(logo.y + STEP);
    case MoveLeft => logo.x := Wrap(logo.x - STEP);
    case MoveRight => logo.x := Wrap(logo.x + STEP);
  }

  /** `Map.get` on the key map: the bound command, or `None` (Java's null) for an unbound key. */
  function Lookup(commands: map<char, MoveCommand>, key: char): (r: Option<MoveCommand>)
    ensures r == None <==> key !in commands
    ensures r.Some? ==> r.value == commands[key]
  {
    if key in commands then Some(commands[key]) else None
  }

  /** The invoker. */
  class MovementInvoker {

    constructor ()
    {
    }

    /**
     * Runs `command` once on `logo`; a missing command moves nothing and
     * yields the help dialog's text instead.
     */
    method Execute(command: Option<MoveCommand>, logo: Logo) returns (dialog: Option<string>)
      modifies logo
      ensures command == None ==> dialog == Some(HELP_MESSAGE) && logo.Position() == old(logo.Position())
      ensures command.Some? ==> dialog == None && logo.Position() == Moved(command.value, old(logo.Position()))
    {
      if command == None {
        dialog := Some(HELP_MESSAGE);
      } else {
        ExecuteCommand(command.value, logo);
        dialog := None;
      }
    }
  }

  /** The client: owns the logo, the key map and the invoker. */
  class MovementWindow {
    const logo: Logo
    const commands: map<char, MoveCommand>
    const invoker: MovementInvoker

    /** Window construction followed by `build()`: a fresh logo at the origin and the four bindings. */
    constructor ()
      ensures fresh(logo) && logo.Position() == Point(0, 0)
      ensures commands.Keys == {'a', 'd', 'w', 's'}
      ensures commands['a'] == MoveLeft && commands['d'] == MoveRight
      ensures commands['w'] == MoveUp && commands['s'] == MoveDown
    {
      logo := new Logo();
      invoker := new MovementInvoker();
      var m: map<char, MoveCommand> := map[];
      m := m['a' := MoveLeft];
      m := m['d' := MoveRight];
      m := m['w' := MoveUp];
      m := m['s' := MoveDown];
      commands := m;
    }

    /** The key listener: looks the typed character up and hands the result to the invoker. */
    method KeyTyped(key: char) returns (dialog: Option<string>)
      modifies logo
      ensures key !in commands ==> dialog == Some(HELP_MESSAGE) && logo.Position() == old(logo.Position())
      ensures key in commands ==> dialog == None && logo.Position() == Moved(commands[key], old(logo.Position()))
    {
      var command := Lookup(commands, key);
      dialog := invoker.Execute(command, logo);
    }
  }

  /**
   * Each command moves exactly one coordinate by exactly `STEP` when the new
   * value fits in an `int`, and leaves the other coordinate alone.
   */
  lemma MoveBySteps(p: Point)
    ensures Moved(MoveUp, p).x == p.x && (InRange(p.y - STEP) ==> Moved(MoveUp, p).y == p.y - STEP)
    ensures Moved(MoveDown, p).x == p.x && (InRange(p.y + STEP) ==> Moved(MoveDown, p).y == p.y + STEP)
    ensures Moved(MoveLeft, p).y == p.y && (InRange(p.x - STEP) ==> Moved(MoveLeft, p).x == p.x - STEP)
    ensures Moved(MoveRight, p).y == p.y && (InRange(p.x + STEP) ==> Moved(MoveRight, p).x == p.x + STEP)
  {
  }

  /** Opposite moves cancel, also across an `int` overflow: Left then Right, Up then Down, and back. */
  lemma OppositeMovesCancel(cmd: MoveCommand, p: Point)
    ensures Moved(Opposite(cmd), Moved(cmd, p)) == p
  {
    match cmd
    case MoveUp => WrapAddSub(p.y, -STEP);
    case MoveDown => WrapAddSub(p.y, STEP);
    case MoveLeft => WrapAddSub(p.x, -STEP);
    case MoveRight => WrapAddSub(p.x, STEP);
  }

  /** Of all characters, exactly a, d, w and s are bound, to Left, Right, Up and Down. */
  lemma KeyBindings(commands: map<char, MoveCommand>, key: char)
    requires commands.Keys == {'a', 'd', 'w', 's'}
    requires commands['a'] == MoveLeft && commands['d'] == MoveRight
    requires commands['w'] == MoveUp && commands['s'] == MoveDown
    ensures Lookup(commands, key) == Some(MoveLeft) <==> key == 'a'
    ensures Lookup(commands, key) == Some(MoveRight) <==> key == 'd'
    ensures Lookup(commands, key) == Some(MoveUp) <==> key == 'w'
    ensures Lookup(commands, key) == Some(MoveDown) <==> key == 's'
    ensures Lookup(commands, key) == None <==> key !in {'a', 'd', 'w', 's'}
  {
  }
}
