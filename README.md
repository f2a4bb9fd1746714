# Design-pattern demos, modelled in Dafny

This project models the five pattern demos of the repository that hold
behaviour worth stating. Each demo is one module.

- **Command** (`command.dfy`). A `Logo` receiver holds two Java `int`
  coordinates. Four move commands shift one coordinate by `STEP` = 10, in
  place. The window binds the keys `a`, `d`, `w` and `s` to Left, Right, Up
  and Down in a map. The invoker runs a bound command once. For an unbound
  key (a null command) it moves nothing and shows the help dialog.
- **Memento** (`memento.dfy`). The originator (the text area) saves its text
  into a fresh memento and restores a memento's text. The caretaker pushes a
  memento on every typed key. Undo pops the newest memento and restores it,
  and does nothing when the stack is empty. The caretaker's state is also
  given as a value, `Editor(text, history)`. The class methods are proved
  against value-level functions, and the LIFO lemmas are proved about those
  functions.
- **Builder** (`builder.dfy`). A `Weather` record starts at 72 degrees with
  an unknown type. The builder's fluent `Add*` setters change one field and
  return the builder itself. The XML builder renders the record as four
  lines. The last line is `<Weather>`, without a slash, exactly as the code
  writes it. The weather station always renders 85 degrees and SUNNY.
- **Template method** (`template_method.dfy`). A letter is header, content
  and footer. The fancy header and footer are both `*~*` written ten times,
  30 characters.
- **Visitor** (`visitor.dfy`). `House.accept` hands every room to the visitor
  in collection order, then the house. The leave-for-work visitor switches
  each room's light off and then locks the doors.

Two shared modules support them. `JavaInt` gives Java's 32-bit `int`: the
wrap-around of `+=` and `-=`, and the decimal text of an `int` in string
concatenation. `Wrappers` gives `Option`, which stands for a reference that
may be null.

The Command and Memento demos are separate programs. The move commands take
no snapshots, and nothing combines dispatching a command with undo. The model
follows the code here and has no such combined controller.

## Model

| member | source | states |
|---|---|---|
| JavaInt.Wrap | src/main/java/patterns/command/Command.java:125 | the result is an `int` congruent to the exact result modulo 2^32, and equal to it when it fits |
| JavaInt.WrapAddSub | src/main/java/patterns/command/Command.java:124-159 | adding a delta with wrap-around and subtracting it again gives back the original `int`, overflow or not |
| JavaInt.IntToDecimal | src/main/java/patterns/builder/Builder.java:113 | the text of an `int` is non-empty and starts with `-` exactly when the value is negative |
| JavaInt.IntDecimalRoundTrip | src/main/java/patterns/builder/Builder.java:113 | the decimal text of any `int` parses back to that `int` |
| Command.Logo.constructor | src/main/java/patterns/command/Command.java:92-100 | a new logo stands at (0, 0), Java's default for its `int` fields |
| Command.ExecuteCommand | src/main/java/patterns/command/Command.java:124-159 | each command changes the logo in place to the position `Moved` gives for the old position |
| Command.MoveBySteps | src/main/java/patterns/command/Command.java:110-159 | Up and Down keep x and change y by exactly -10 and +10; Left and Right keep y and change x by exactly -10 and +10 (when no overflow occurs) |
| Command.OppositeMovesCancel | src/main/java/patterns/command/Command.java:124-159 | Left then Right, Right then Left, Up then Down and Down then Up each return the logo to where it was |
| Command.Lookup | src/main/java/patterns/command/Command.java:64 | a key looks up to nothing exactly when it is unbound, and otherwise to its bound command |
| Command.MovementInvoker.Execute | src/main/java/patterns/command/Command.java:29-34 | a missing command leaves the logo where it was and yields the help text; a present command is applied exactly once and shows nothing |
| Command.MovementWindow.constructor | src/main/java/patterns/command/Command.java:47-59 | a fresh logo at the origin, and a key map with exactly the keys a, d, w, s bound to Left, Right, Up, Down |
| Command.MovementWindow.KeyTyped | src/main/java/patterns/command/Command.java:63-67 | a typed key moves the logo by its bound command, or leaves it alone and yields the help text when unbound |
| Command.KeyBindings | src/main/java/patterns/command/Command.java:56-59 | with the built map, a key looks up to Left, Right, Up, Down exactly when it is a, d, w, s, and every other character looks up to nothing |
| Memento.EditorMomento.constructor | src/main/java/patterns/momento/Memento.java:46-48 | the memento holds the given state |
| Memento.EditorMomento.SetState | src/main/java/patterns/momento/Memento.java:50-56 | after `setState(s)`, `getState()` returns `s` |
| Memento.EditorOriginator.constructor | src/main/java/patterns/momento/Memento.java:26-28 | a new text area holds the empty text |
| Memento.EditorOriginator.Save | src/main/java/patterns/momento/Memento.java:30-32 | returns a new memento whose state is the current text |
| Memento.EditorOriginator.Restore | src/main/java/patterns/momento/Memento.java:34-36 | the text becomes exactly the memento's state, so restoring a just-saved memento leaves the text as it was |
| Memento.AfterKeyTyped | src/main/java/patterns/momento/Memento.java:74-76 | one snapshot, equal to the current text, goes on top; the earlier entries and the text are unchanged |
| Memento.AfterUndo | src/main/java/patterns/momento/Memento.java:99-103 | with an empty history nothing changes; otherwise the newest snapshot becomes the text and the history shrinks by exactly that entry |
| Memento.UndoAfterKeyTyped | src/main/java/patterns/momento/Memento.java:74-102 | an Undo right after a typed key restores the text and history from before the key |
| Memento.UndoAllAfterTyping | src/main/java/patterns/momento/Memento.java:74-102 | after k typed keys, with any edits in between, k Undos give back the text and history from before the first key |
| Memento.UndoBeyondHistory | src/main/java/patterns/momento/Memento.java:99-102 | starting from an empty history, one more Undo after those k Undos changes nothing |
| Memento.EditorCaretaker.constructor | src/main/java/patterns/momento/Memento.java:63-70 | the caretaker starts with an empty stack and an empty text area |
| Memento.EditorCaretaker.KeyTyped | src/main/java/patterns/momento/Memento.java:74-76 | the caretaker's editor state becomes `AfterKeyTyped` of the old one; the old stack objects stay in place under exactly one new memento |
| Memento.EditorCaretaker.Undo | src/main/java/patterns/momento/Memento.java:99-103 | the caretaker's editor state becomes `AfterUndo` of the old one |
| Builder.NameInjective | src/main/java/patterns/builder/Builder.java:44 | different weather types print as different names |
| Builder.WeatherXmlLayout | src/main/java/patterns/builder/Builder.java:110-118 | the output begins with the date line, the temperature's digits after `<temp>` read back as the temperature, the type's name follows `<current>` (so with `NameInjective` the output determines the type), and the text ends with the unslashed `<Weather>` line |
| Builder.TempReadBack | src/main/java/patterns/builder/Builder.java:113 | the digits right after `<temp>` on the second line parse back as the record's temperature |
| Builder.TypeNameAt | src/main/java/patterns/builder/Builder.java:114 | the weather type's name stands right after `<current>` on the third line |
| Builder.Weather.constructor | src/main/java/patterns/builder/Builder.java:46-48 | a new record carries the current date, temperature 72 and type UNKNOWN |
| Builder.Weather.SetDate | src/main/java/patterns/builder/Builder.java:54-56 | sets the date and keeps temperature and type |
| Builder.Weather.SetTemp | src/main/java/patterns/builder/Builder.java:62-64 | sets the temperature and keeps date and type |
| Builder.Weather.SetWeatherType | src/main/java/patterns/builder/Builder.java:70-72 | sets the type and keeps date and temperature |
| Builder.XmlWeatherDataBuilder.constructor | src/main/java/patterns/builder/Builder.java:80 | the builder starts with a fresh default record |
| Builder.XmlWeatherDataBuilder.AddTemp | src/main/java/patterns/builder/Builder.java:82-85 | sets the temperature whatever it was (the last write wins), keeps the rest, and returns the same builder |
| Builder.XmlWeatherDataBuilder.AddDate | src/main/java/patterns/builder/Builder.java:87-90 | sets the date, keeps the rest, and returns the same builder |
| Builder.XmlWeatherDataBuilder.AddWeatherType | src/main/java/patterns/builder/Builder.java:92-95 | sets the type, keeps the rest, and returns the same builder |
| Builder.XmlWeatherDataBuilder.Build | src/main/java/patterns/builder/Builder.java:110-118 | the output is the four-line text `WeatherXml` for the record's current date, temperature and type |
| Builder.WeatherStation.constructor | src/main/java/patterns/builder/Builder.java:24-27 | the station keeps the given builder |
| Builder.WeatherStation.GetData | src/main/java/patterns/builder/Builder.java:29-35 | the output carries the given date, 85 and SUNNY, whatever the builder held before |
| TemplateMethod.RepeatLength | src/main/java/patterns/templatemethod/TemplateMethod.java:56-58 | n copies of s have n times the length of s |
| TemplateMethod.RepeatAt | src/main/java/patterns/templatemethod/TemplateMethod.java:56-58 | copy k of a repetition holds exactly the characters of s |
| TemplateMethod.DecorationShape | src/main/java/patterns/templatemethod/TemplateMethod.java:54-60 | the decoration is 30 characters long and repeats `*~*` throughout |
| TemplateMethod.DoCreateDecoration | src/main/java/patterns/templatemethod/TemplateMethod.java:54-61 | the loop's output is `*~*` ten times, 30 characters |
| TemplateMethod.AddHeader | src/main/java/patterns/templatemethod/TemplateMethod.java:45-47 | the header is the decoration |
| TemplateMethod.AddFooter | src/main/java/patterns/templatemethod/TemplateMethod.java:50-52 | the footer is the decoration, so header and footer are equal |
| TemplateMethod.FancyLetter | src/main/java/patterns/templatemethod/TemplateMethod.java:28-35 | the letter is 60 characters longer than the content; the decoration fills its first and last 30, and the content starts at index 30 |
| TemplateMethod.CreateLetter | src/main/java/patterns/templatemethod/TemplateMethod.java:28-35 | `deliver` is called exactly once, with header ++ content ++ footer |
| Visitor.RoomAccept | src/main/java/patterns/visitor/Visitor.java:83-85 | a room produces exactly one visit, of itself |
| Visitor.HouseAccept | src/main/java/patterns/visitor/Visitor.java:61-66 | the visits are the rooms in collection order, followed by the house; there are rooms + 1 of them |
| Visitor.VisitedExactlyOnce | src/main/java/patterns/visitor/Visitor.java:61-66 | each room is visited at its own position and the house exactly once, after all rooms |
| Visitor.LeaveForWork | src/main/java/patterns/visitor/Visitor.java:42-49 | a room visit switches that room's light off; a house visit locks that house's doors |
| Visitor.Message | src/main/java/patterns/visitor/Visitor.java:68-70 | `lockDoors` prints its fixed line, which never starts like a light line; a `setLight` line names the room and ends in " light on." exactly when the flag is true |
| Visitor.Reactions | src/main/java/patterns/visitor/Visitor.java:42-49 | the visitor reacts once per visit, in the same order: a room's light goes off, the house's doors are locked |
| Visitor.LeaveForWorkOutcome | src/main/java/patterns/visitor/Visitor.java:42-65 | through `House.accept`, every room gets `setLight(false)` in order, and `lockDoors` happens once, last |
| Visitor.SetLightMessage | src/main/java/patterns/visitor/Visitor.java:87-89 | the printed line names the room and says "on" for true and "off" for false |

## Left out

- The Swing user interface is not modelled: frames, panels, painting, layout, listener wiring and the help dialog. The dialog is only the help text returned by the invoker, with no state change.
- Loading the logo image from a URL is not modelled; it is I/O.
- Command objects: in the code each one holds a reference to the logo. In the model a command is a value and the logo is passed in. All four commands of the window share one logo, so the behaviour is the same.
- Memento: whether Swing inserts the typed character before or after `keyTyped` runs is not modelled. The push snapshots the text as it is when the listener runs. The text area's own editing is the `Edited` step between key strokes, with any text.
- Stacked mementos: nothing in the code calls `setState` on them. The caretaker's `KeyTyped` and `Undo` change only the caretaker and the text area, so the stacked states never change.
- Builder: reading the clock (`new Date()`) and the `yyyy-MM-dd'T'HH:mm:ss` formatting are not modelled. A date enters as the string the formatter would produce.
- Builder: the abstract builder class is folded into the XML builder, its only subclass. The same is done for the abstract letter class and the fancy letter.
- Visitor: the visitor interface has one implementation. `House.accept` is modelled as the visitor-independent trace of `visit` calls, and only the leave-for-work visitor's reactions are modelled.
- Console printing in `deliver`, `lockDoors` and `setLight` is modelled as returned values: the delivered letters and the message lines. Nothing is printed.
- Null arguments are not modelled. The model's types exclude null everywhere except the key map's lookup. In the code, a null date or weather type makes `build` throw, a null letter content is written as `null`, a room named null prints `null`, and a null builder or room collection throws when used. No demo driver passes null.
- The `main` drivers of each demo are not modelled. Neither are the MVC, MVP, State and double-dispatch demos: their logic is GUI notification, timer threads or runtime reflection.
