/** The recorded input events (src/Core/Models/InputEvent.cs): immutable
    mouse and keyboard records, their enums, the [Flags] modifier set and the
    `ToString` texts. */
module InputEvents {
  import opened Wrappers
  import opened Text
  import ScreenshotTypes

  /** The range of C#'s `int`. */
  type Int32 = x: int | -0x8000_0000 <= x < 0x8000_0000

  /** An event identifier (System.Guid). Fresh identifiers come from
      Guid.NewGuid(), which is random; the model takes them as inputs. */
  type Guid = nat

  datatype InputEventType = Mouse | Keyboard

  /** Mouse buttons. The source's member `None` is called NoButton here, so
      that it cannot be confused with an absent optional value; it still
      renders as "None". */
  datatype MouseButton = NoButton | Left | Right | Middle | X1 | X2

  datatype MouseAction = Down | Up | Click | Move

  datatype KeyboardAction = Down | Up | Press

  /** One flag of the [Flags] enum KeyModifiers. */
  datatype KeyModifier = Ctrl | Alt | Shift | Win

  /** A KeyModifiers value: the set of flags it has; `KeyModifiers.None` is {}. */
  type KeyModifiers = set<KeyModifier>

  /** The flags in declaration order, which is also ascending value order. */
  const AllFlags: seq<KeyModifier> := [Ctrl, Alt, Shift, Win]

  function FlagValue(f: KeyModifier): nat {
    match f
    case Ctrl => 1
    case Alt => 2
    case Shift => 4
    case Win => 8
  }

  /** The integer a KeyModifiers value holds: the bitwise OR of its flags. */
  function ModifiersValue(m: KeyModifiers): nat {
    (if Ctrl in m then 1 else 0) + (if Alt in m then 2 else 0)
    + (if Shift in m then 4 else 0) + (if Win in m then 8 else 0)
  }

  /** The flags set in an integer below 16. */
  function ModifiersOfValue(v: nat): KeyModifiers
    requires v < 16
  {
    (if v % 2 == 1 then {Ctrl} else {}) + (if v / 2 % 2 == 1 then {Alt} else {})
    + (if v / 4 % 2 == 1 then {Shift} else {}) + (if v / 8 % 2 == 1 then {Win} else {})
  }

  /** Each flag is a single bit and no two flags share one. */
  lemma FlagsAreDistinctBits(f: KeyModifier, g: KeyModifier)
    ensures FlagValue(f) in {1, 2, 4, 8}
    ensures f != g ==> (FlagValue(f) as bv4) & (FlagValue(g) as bv4) == 0
  {
  }

  /** Because the flags are distinct bits, a modifier set and its integer
      value determine each other. */
  lemma ModifiersValueRoundTrip(m: KeyModifiers, v: nat)
    requires v < 16
    ensures ModifiersValue(m) < 16
    ensures ModifiersOfValue(ModifiersValue(m)) == m
    ensures ModifiersValue(ModifiersOfValue(v)) == v
  {
    ValueOfModifiersOfValue(v);
    var w := ModifiersValue(m);
    assert Ctrl in m <==> w % 2 == 1;
    assert Alt in m <==> w / 2 % 2 == 1;
    assert Shift in m <==> w / 4 % 2 == 1;
    assert Win in m <==> w / 8 % 2 == 1;
    var r := ModifiersOfValue(w);
    forall f
      ensures f in r <==> f in m
    {
      match f
      case Ctrl =>
      case Alt =>
      case Shift =>
      case Win =>
    }
  }

  /** Every integer below 16 is the value of the flags its bits name. */
  lemma ValueOfModifiersOfValue(v: nat)
    requires v < 16
    ensures ModifiersValue(ModifiersOfValue(v)) == v
  {
    if v < 8 {
      if v < 4 {
        if v < 2 { if v == 0 {} else {} } else { if v == 2 {} else {} }
      } else {
        if v < 6 { if v == 4 {} else {} } else { if v == 6 {} else {} }
      }
    } else {
      if v < 12 {
        if v < 10 { if v == 8 {} else {} } else { if v == 10 {} else {} }
      } else {
        if v < 14 { if v == 12 {} else {} } else { if v == 14 {} else {} }
      }
    }
  }

  function ButtonName(b: MouseButton): (w: string)
    ensures 0 < |w| && AllNameChars(w)
  {
    match b
    case NoButton => "None"
    case Left => "Left"
    case Right => "Right"
    case Middle => "Middle"
    case X1 => "X1"
    case X2 => "X2"
  }

  function ButtonOfName(w: string): Option<MouseButton> {
    if w == "None" then Some(NoButton)
    else if w == "Left" then Some(Left)
    else if w == "Right" then Some(Right)
    else if w == "Middle" then Some(Middle)
    else if w == "X1" then Some(X1)
    else if w == "X2" then Some(X2)
    else None
  }

  function MouseActionName(a: MouseAction): (w: string)
    ensures 0 < |w| && AllNameChars(w)
  {
    match a
    case Down => "Down"
    case Up => "Up"
    case Click => "Click"
    case Move => "Move"
  }

  function MouseActionOfName(w: string): Option<MouseAction> {
    if w == "Down" then Some(MouseAction.Down)
    else if w == "Up" then Some(MouseAction.Up)
    else if w == "Click" then Some(Click)
    else if w == "Move" then Some(Move)
    else None
  }

  function KeyboardActionName(a: KeyboardAction): (w: string)
    ensures 0 < |w| && AllNameChars(w)
  {
    match a
    case Down => "Down"
    case Up => "Up"
    case Press => "Press"
  }

  function KeyboardActionOfName(w: string): Option<KeyboardAction> {
    if w == "Down" then Some(KeyboardAction.Down)
    else if w == "Up" then Some(KeyboardAction.Up)
    else if w == "Press" then Some(Press)
    else None
  }

  function FlagName(f: KeyModifier): (w: string)
    ensures 0 < |w| && AllNameChars(w)
  {
    match f
    case Ctrl => "Ctrl"
    case Alt => "Alt"
    case Shift => "Shift"
    case Win => "Win"
  }

  function FlagOfName(w: string): (r: Option<KeyModifier>)
    ensures r.Some? ==> FlagName(r.value) == w
  {
    if w == "Ctrl" then Some(Ctrl)
    else if w == "Alt" then Some(Alt)
    else if w == "Shift" then Some(Shift)
    else if w == "Win" then Some(Win)
    else None
  }

  /** Every enum name is read back as the member it names. */
  lemma NamesRoundTrip(b: MouseButton, ma: MouseAction, ka: KeyboardAction, f: KeyModifier)
    ensures ButtonOfName(ButtonName(b)) == Some(b)
    ensures MouseActionOfName(MouseActionName(ma)) == Some(ma)
    ensures KeyboardActionOfName(KeyboardActionName(ka)) == Some(ka)
    ensures FlagOfName(FlagName(f)) == Some(f)
  {
  }

  /** The events. Init-only C# records become datatype values; the optional
      members default as in the source: Modifiers to None, PressDurationMs to
      absent. */
  datatype InputEvent =
    | MouseInputEvent(id: Guid, timestampMs: Int32, x: Int32, y: Int32,
                      button: MouseButton, mouseAction: MouseAction,
                      pressDurationMs: Option<Int32> := None)
    | KeyboardInputEvent(id: Guid, timestampMs: Int32, virtualKeyCode: Int32,
                         keyAction: KeyboardAction, modifiers: KeyModifiers := {},
                         pressDurationMs: Option<Int32> := None)
  {
    function Type(): InputEventType {
      if MouseInputEvent? then Mouse else Keyboard
    }

    function ToString(): string {
      match this
      case MouseInputEvent(_, ts, x, y, b, a, d) => MouseText(ts, b, a, x, y, d)
      case KeyboardInputEvent(_, ts, vk, a, m, d) => KeyboardText(ts, m, vk, a, d)
    }
  }

  /** What InputCaptured subscribers receive: the event and the screenshot
      taken with it, if any. */
  datatype InputEventArgs = InputEventArgs(inputEvent: InputEvent, screenshot: Option<seq<ScreenshotTypes.byte>>)

  /** `, Duration={d}ms` when a press duration is present, else nothing. */
  function DurationText(d: Option<int>): string {
    match d
    case Some(v) => ", Duration=" + (IntToString(v) + "ms")
    case None => ""
  }

  /** `Mouse[{ts}ms] {Button} {Action} at ({X},{Y})` and the duration suffix.
      The pieces are joined from the right; the text is the same either way. */
  function MouseText(ts: int, b: MouseButton, a: MouseAction, x: int, y: int, d: Option<int>): string {
    "Mouse[" + (IntToString(ts) + ("ms] " + (ButtonName(b) + (" " + (MouseActionName(a)
      + (" at (" + (IntToString(x) + ("," + (IntToString(y) + (")" + DurationText(d)))))))))))
  }

  /** The set flags in ascending value order. */
  function FlagsInOrder(m: KeyModifiers): (fs: seq<KeyModifier>)
    ensures forall f :: f in fs <==> f in m
    ensures m != {} ==> 0 < |fs|
  {
    var fs := (if Ctrl in m then [Ctrl] else []) + (if Alt in m then [Alt] else [])
      + (if Shift in m then [Shift] else []) + (if Win in m then [Win] else []);
    assert forall f :: f in fs <==> f in m by {
      forall f
        ensures f in fs <==> f in m
      {
        assert f == Ctrl || f == Alt || f == Shift || f == Win;
      }
    }
    if m != {} then
      var f :| f in m;
      assert f in fs;
      fs
    else fs
  }

  /** Flag names joined by ", ", the way .NET prints a combination of flags. */
  function JoinFlagNames(fs: seq<KeyModifier>): string
    requires 0 < |fs|
  {
    if |fs| == 1 then FlagName(fs[0]) else FlagName(fs[0]) + (", " + JoinFlagNames(fs[1..]))
  }

  /** `{Modifiers}+` when some modifier is set, else nothing. */
  function ModifiersText(m: KeyModifiers): string {
    if m == {} then "" else JoinFlagNames(FlagsInOrder(m)) + "+"
  }

  /** `Keyboard[{ts}ms] `, the modifier prefix, `VK{code} {Action}` and the duration suffix. */
  function KeyboardText(ts: int, m: KeyModifiers, vk: int, a: KeyboardAction, d: Option<int>): string {
    "Keyboard[" + (IntToString(ts) + ("ms] " + (ModifiersText(m) + ("VK" + (IntToString(vk)
      + (" " + (KeyboardActionName(a) + DurationText(d))))))))
  }

  /** What an event's text can carry: everything but the identifier. */
  datatype EventView =
    | MouseView(timestampMs: int, x: int, y: int, button: MouseButton,
                mouseAction: MouseAction, pressDurationMs: Option<int>)
    | KeyboardView(timestampMs: int, virtualKeyCode: int, keyAction: KeyboardAction,
                   modifiers: KeyModifiers, pressDurationMs: Option<int>)

  function View(e: InputEvent): EventView {
    match e
    case MouseInputEvent(_, ts, x, y, b, a, d) => MouseView(ts, x, y, b, a, d)
    case KeyboardInputEvent(_, ts, vk, a, m, d) => KeyboardView(ts, vk, a, m, d)
  }

  function ParseDurationText(s: string): Option<Option<int>> {
    if s == [] then Some(None)
    else
      var r0 :- StripPrefix(", Duration=", s);
      var v :- ReadIntThen(r0, "ms");
      if v.1 == [] then Some(Some(v.0)) else None
  }

  function ParseMouseText(s: string): Option<EventView> {
    var r0 :- StripPrefix("Mouse[", s);
    var ts :- ReadIntThen(r0, "ms] ");
    var bw :- ReadNameThen(ts.1, " ");
    var b :- ButtonOfName(bw.0);
    var aw :- ReadNameThen(bw.1, " at (");
    var a :- MouseActionOfName(aw.0);
    var x :- ReadIntThen(aw.1, ",");
    var y :- ReadIntThen(x.1, ")");
    var d :- ParseDurationText(y.1);
    Some(MouseView(ts.0, x.0, y.0, b, a, d))
  }

  /** Reads one flag name and returns the flag and the text after it. */
  function ReadFlag(s: string): Option<(KeyModifier, string)> {
    var w := NameRun(s);
    var f :- FlagOfName(w);
    Some((f, s[|w|..]))
  }

  /** Reads `Name(, Name)*` and returns the flags and the text after them. */
  function ParseFlagList(s: string): Option<(seq<KeyModifier>, string)>
    decreases |s|
  {
    var r :- ReadFlag(s);
    if |r.1| < |s| && ", " <= r.1 then
      var more :- ParseFlagList(r.1[2..]);
      Some(([r.0] + more.0, more.1))
    else
      Some(([r.0], r.1))
  }

  function ParseModifiersText(s: string): Option<(KeyModifiers, string)> {
    if "VK" <= s then Some(({}, s))
    else
      var fs :- ParseFlagList(s);
      var rest :- StripPrefix("+", fs.1);
      var flags := set f | f in fs.0;
      Some((flags, rest))
  }

  function ParseKeyboardText(s: string): Option<EventView> {
    var r0 :- StripPrefix("Keyboard[", s);
    var ts :- ReadIntThen(r0, "ms] ");
    var m :- ParseModifiersText(ts.1);
    var r2 :- StripPrefix("VK", m.1);
    var vk :- ReadIntThen(r2, " ");
    var aw := NameRun(vk.1);
    var a :- KeyboardActionOfName(aw);
    var d :- ParseDurationText(vk.1[|aw|..]);
    Some(KeyboardView(ts.0, vk.0, a, m.0, d))
  }

  /** Reads back what ToString rendered. */
  function ParseEventText(s: string): Option<EventView> {
    if "Mouse[" <= s then ParseMouseText(s) else ParseKeyboardText(s)
  }

  lemma ParseDurationTextOf(d: Option<int>)
    ensures ParseDurationText(DurationText(d)) == Some(d)
  {
    if d.Some? {
      var tail := IntToString(d.value) + ("ms" + []);
      assert DurationText(d) == ", Duration=" + tail;
      StripPrefixOf(", Duration=", tail);
      ReadIntThenOf(d.value, "ms", []);
    }
  }

  lemma MouseTextRoundTrip(ts: int, b: MouseButton, a: MouseAction, x: int, y: int, d: Option<int>)
    ensures ParseMouseText(MouseText(ts, b, a, x, y, d)) == Some(MouseView(ts, x, y, b, a, d))
  {
    var t3 := IntToString(y) + (")" + DurationText(d));
    var t1 := IntToString(x) + ("," + t3);
    var u1 := MouseActionName(a) + (" at (" + t1);
    var v1 := ButtonName(b) + (" " + u1);
    var w := IntToString(ts) + ("ms] " + v1);
    StripPrefixOf("Mouse[", w);
    ReadIntThenOf(ts, "ms] ", v1);
    ReadNameThenOf(ButtonName(b), " ", u1);
    ReadNameThenOf(MouseActionName(a), " at (", t1);
    NamesRoundTrip(b, a, KeyboardAction.Down, Ctrl);
    ReadIntThenOf(x, ",", t3);
    ReadIntThenOf(y, ")", DurationText(d));
    ParseDurationTextOf(d);
  }

  /** ReadFlag reads back a flag name that is not followed by a name character. */
  lemma ReadFlagOf(f: KeyModifier, s: string)
    requires s == [] || !IsNameChar(s[0])
    ensures ReadFlag(FlagName(f) + s) == Some((f, s))
  {
    var name := FlagName(f);
    NamesRoundTrip(NoButton, Click, Press, f);
    NameRunOf(name, s);
    assert (name + s)[|name|..] == s;
  }

  /** A flag name, ", " and more flags read as that flag and the rest. */
  lemma ParseFlagListCons(f: KeyModifier, tail: string)
    ensures ParseFlagList(FlagName(f) + (", " + tail)) ==
            (match ParseFlagList(tail)
             case Some(more) => Some(([f] + more.0, more.1))
             case None => None)
  {
    ReadFlagOf(f, ", " + tail);
    assert (", " + tail)[2..] == tail;
  }

  lemma JoinFlagNamesCons(fs: seq<KeyModifier>, rest: string)
    requires 1 < |fs|
    ensures JoinFlagNames(fs) + rest == FlagName(fs[0]) + (", " + (JoinFlagNames(fs[1..]) + rest))
  {
    ConcatAssoc(FlagName(fs[0]), ", ", JoinFlagNames(fs[1..]), rest);
  }

  /** Regrouping of string concatenation used to split a joined flag list. */
  lemma ConcatAssoc(a: string, b: string, c: string, d: string)
    ensures (a + (b + c)) + d == a + (b + (c + d))
  {
  }

  lemma {:induction false} ParseFlagListOfJoin(fs: seq<KeyModifier>, rest: string)
    requires 0 < |fs|
    requires rest == [] || !IsNameChar(rest[0])
    requires !(", " <= rest)
    ensures ParseFlagList(JoinFlagNames(fs) + rest) == Some((fs, rest))
    decreases |fs|
  {
    if |fs| == 1 {
      ReadFlagOf(fs[0], rest);
      assert fs == [fs[0]];
    } else {
      JoinFlagNamesCons(fs, rest);
      ParseFlagListCons(fs[0], JoinFlagNames(fs[1..]) + rest);
      ParseFlagListOfJoin(fs[1..], rest);
      assert [fs[0]] + fs[1..] == fs;
    }
  }

  lemma ParseModifiersTextOf(m: KeyModifiers, rest: string)
    requires "VK" <= rest
    ensures ParseModifiersText(ModifiersText(m) + rest) == Some((m, rest))
  {
    if m != {} {
      var fs := FlagsInOrder(m);
      var tail := "+" + rest;
      assert ModifiersText(m) + rest == JoinFlagNames(fs) + tail;
      ParseFlagListOfJoin(fs, tail);
      StripPrefixOf("+", rest);
      var w := FlagName(fs[0]);
      assert |fs| == 1 || JoinFlagNames(fs) == w + (", " + JoinFlagNames(fs[1..]));
      assert (JoinFlagNames(fs) + tail)[0] == w[0];
      assert !("VK" <= JoinFlagNames(fs) + tail);
      assert (set f | f in fs) == m;
    } else {
      assert ModifiersText(m) + rest == rest;
    }
  }

  lemma KeyboardTextRoundTrip(ts: int, m: KeyModifiers, vk: int, a: KeyboardAction, d: Option<int>)
    ensures ParseKeyboardText(KeyboardText(ts, m, vk, a, d)) == Some(KeyboardView(ts, vk, a, m, d))
  {
    var dt := DurationText(d);
    var t1 := KeyboardActionName(a) + dt;
    var u1 := IntToString(vk) + (" " + t1);
    var u0 := "VK" + u1;
    var v := ModifiersText(m) + u0;
    var w := IntToString(ts) + ("ms] " + v);
    StripPrefixOf("Keyboard[", w);
    ReadIntThenOf(ts, "ms] ", v);
    ParseModifiersTextOf(m, u0);
    StripPrefixOf("VK", u1);
    ReadIntThenOf(vk, " ", t1);
    assert dt == [] || dt[0] == ',';
    NameRunOf(KeyboardActionName(a), dt);
    NamesRoundTrip(NoButton, Click, a, Ctrl);
    assert t1[|KeyboardActionName(a)|..] == dt;
    ParseDurationTextOf(d);
  }

  /** ToString loses nothing but the identifier: its text reads back as the
      event's type, timestamp, coordinates or key code, button, action,
      modifiers and press duration. */
  lemma ToStringRoundTrip(e: InputEvent)
    ensures ParseEventText(e.ToString()) == Some(View(e))
  {
    match e
    case MouseInputEvent(_, ts, x, y, b, a, d) =>
      MouseTextRoundTrip(ts, b, a, x, y, d);
    case KeyboardInputEvent(_, ts, vk, a, m, d) =>
      KeyboardTextRoundTrip(ts, m, vk, a, d);
      assert e.ToString()[..6] == "Keyboa";
  }

  /** Two events with the same text agree on everything except their
      identifiers; in particular the type is told by the text. */
  lemma ToStringDeterminesEvent(e1: InputEvent, e2: InputEvent)
    requires e1.ToString() == e2.ToString()
    ensures View(e1) == View(e2)
    ensures e1.Type() == e2.Type()
  {
    ToStringRoundTrip(e1);
    ToStringRoundTrip(e2);
  }

  /** The type follows the record kind, and the optional members default to
      no modifiers and no press duration. */
  lemma EventKindsAndDefaults(id: Guid, ts: Int32, x: Int32, y: Int32, b: MouseButton,
                              ma: MouseAction, vk: Int32, ka: KeyboardAction)
    ensures MouseInputEvent(id, ts, x, y, b, ma).Type() == Mouse
    ensures MouseInputEvent(id, ts, x, y, b, ma).pressDurationMs == None
    ensures KeyboardInputEvent(id, ts, vk, ka).Type() == Keyboard
    ensures KeyboardInputEvent(id, ts, vk, ka).modifiers == {}
    ensures ModifiersValue(KeyboardInputEvent(id, ts, vk, ka).modifiers) == 0
    ensures KeyboardInputEvent(id, ts, vk, ka).pressDurationMs == None
  {
  }
}
